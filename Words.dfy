/** The word-list parser of the drill form: the raw text is split at every
    line feed, each line is trimmed, and the lines left empty are dropped
    (src/App.jsx, handleStart). Strings are sequences of Unicode scalar
    values; every character JavaScript's `trim` removes lies in the Basic
    Multilingual Plane, so code units and scalar values agree here. */
module Words {

  /** The characters `String.prototype.trim` removes: the ECMAScript
      WhiteSpace and LineTerminator code points. */
  predicate IsSpace(c: char) {
    || c == '\t' || c == '\n' || c == '\U{000B}' || c == '\U{000C}' || c == '\r'
    || c == ' ' || c == '\U{00A0}' || c == '\U{1680}'
    || ('\U{2000}' <= c <= '\U{200A}')
    || c == '\U{2028}' || c == '\U{2029}' || c == '\U{202F}' || c == '\U{205F}'
    || c == '\U{3000}' || c == '\U{FEFF}'
  }

  /** A text made of white space only (the empty text included). */
  predicate IsBlank(s: string) {
    forall i :: 0 <= i < |s| ==> IsSpace(s[i])
  }

  /** Neither starts nor ends with white space. */
  predicate IsTrimmed(s: string) {
    s == [] || (!IsSpace(s[0]) && !IsSpace(s[|s| - 1]))
  }

  // ---------------------------------------------------------------------
  // split('\n')

  /** `text.split('\n')`: the pieces between line feeds, in order. There is
      always at least one piece; the empty text gives one empty piece. */
  function SplitLines(text: string): (lines: seq<string>)
    ensures |lines| >= 1
    ensures forall i :: 0 <= i < |lines| ==> '\n' !in lines[i]
  {
    if text == [] then [[]]
    else
      var rest := SplitLines(text[1..]);
      if text[0] == '\n' then [[]] + rest
      else [[text[0]] + rest[0]] + rest[1..]
  }

  /** `lines.join('\n')`, the inverse of SplitLines. */
  function JoinLines(lines: seq<string>): string
    requires |lines| >= 1
  {
    if |lines| == 1 then lines[0] else lines[0] + "\n" + JoinLines(lines[1..])
  }

  /** Splitting loses nothing: joining the pieces gives the text back. */
  lemma {:induction false} SplitThenJoin(text: string)
    ensures JoinLines(SplitLines(text)) == text
  {
    if text != [] {
      var rest := SplitLines(text[1..]);
      SplitThenJoin(text[1..]);
      var lines := SplitLines(text);
      if text[0] == '\n' {
        assert lines[1..] == rest;
        assert JoinLines(lines) == "\n" + JoinLines(rest);
      } else if |rest| == 1 {
        assert JoinLines(lines) == [text[0]] + rest[0];
      } else {
        assert lines[1..] == rest[1..];
        calc {
          JoinLines(lines);
          ([text[0]] + rest[0]) + "\n" + JoinLines(rest[1..]);
          [text[0]] + (rest[0] + "\n" + JoinLines(rest[1..]));
          [text[0]] + JoinLines(rest);
        }
      }
      assert text == [text[0]] + text[1..];
    }
  }

  /** A text without line feeds is a single piece. */
  lemma {:induction false} SplitSingle(a: string)
    requires '\n' !in a
    ensures SplitLines(a) == [a]
  {
    if a != [] {
      SplitSingle(a[1..]);
      assert [a[0]] + a[1..] == a;
    }
  }

  /** A piece without line feeds followed by a line feed splits off first. */
  lemma {:induction false} SplitAfter(a: string, rest: string)
    requires '\n' !in a
    ensures SplitLines(a + "\n" + rest) == [a] + SplitLines(rest)
  {
    var text := a + "\n" + rest;
    if a == [] {
      assert text[1..] == rest;
    } else {
      assert text[1..] == a[1..] + "\n" + rest;
      SplitAfter(a[1..], rest);
      assert [a[0]] + a[1..] == a;
    }
  }

  /** Joining pieces that hold no line feed and splitting again gives the
      same pieces: SplitLines and JoinLines are mutually inverse. */
  lemma {:induction false} JoinThenSplit(lines: seq<string>)
    requires |lines| >= 1
    requires forall i :: 0 <= i < |lines| ==> '\n' !in lines[i]
    ensures SplitLines(JoinLines(lines)) == lines
  {
    if |lines| == 1 {
      SplitSingle(lines[0]);
    } else {
      JoinThenSplit(lines[1..]);
      SplitAfter(lines[0], JoinLines(lines[1..]));
      assert [lines[0]] + lines[1..] == lines;
    }
  }

  // ---------------------------------------------------------------------
  // trim()

  /** Drops the leading white space. */
  function TrimStart(s: string): (r: string)
    ensures |r| <= |s|
    ensures r == [] || !IsSpace(r[0])
  {
    if s != [] && IsSpace(s[0]) then TrimStart(s[1..]) else s
  }

  /** TrimStart keeps a suffix and cuts only white space before it. */
  lemma {:induction false} TrimStartCuts(s: string)
    ensures var r := TrimStart(s); r == s[|s| - |r|..] && IsBlank(s[..|s| - |r|])
  {
    if s != [] && IsSpace(s[0]) {
      TrimStartCuts(s[1..]);
      var r := TrimStart(s);
      assert s[1..][|s| - 1 - |r|..] == s[|s| - |r|..];
      forall i | 0 <= i < |s| - |r| ensures IsSpace(s[i]) {
        if i > 0 {
          assert s[i] == s[1..][..|s| - 1 - |r|][i - 1];
        }
      }
    }
  }

  /** Drops the trailing white space. */
  function TrimEnd(s: string): (r: string)
    ensures |r| <= |s|
    ensures r == [] || !IsSpace(r[|r| - 1])
  {
    if s != [] && IsSpace(s[|s| - 1]) then TrimEnd(s[..|s| - 1]) else s
  }

  /** TrimEnd keeps a prefix and cuts only white space after it. */
  lemma {:induction false} TrimEndCuts(s: string)
    ensures var r := TrimEnd(s); r == s[..|r|] && IsBlank(s[|r|..])
  {
    if s != [] && IsSpace(s[|s| - 1]) {
      var n := |s| - 1;
      TrimEndCuts(s[..n]);
      var r := TrimEnd(s);
      assert s[..n][..|r|] == s[..|r|];
      forall i | |r| <= i < |s| ensures IsSpace(s[i]) {
        if i < n {
          assert s[i] == s[..n][|r|..][i - |r|];
        }
      }
    }
  }

  /** `s.trim()`: cuts the white space at both ends. The result neither
      starts nor ends with white space, and is empty exactly when `s` is
      blank; TrimSlice says what was cut. */
  function Trim(s: string): (r: string)
    ensures IsTrimmed(r)
    ensures r == [] <==> IsBlank(s)
  {
    TrimSlice(s);
    TrimEnd(TrimStart(s))
  }

  /** Trim keeps one slice of `s` and cuts only white space around it. */
  lemma TrimSlice(s: string)
    ensures var t := TrimStart(s); var r := TrimEnd(t); var k := |s| - |t|;
      k + |r| <= |s| && r == s[k..k + |r|] && IsBlank(s[..k]) && IsBlank(s[k + |r|..])
      && IsTrimmed(r) && (r == [] <==> IsBlank(s))
  {
    var t := TrimStart(s);
    var r := TrimEnd(t);
    var k := |s| - |t|;
    TrimStartCuts(s);
    TrimEndCuts(t);
    assert s[k..k + |r|] == r;
    assert s[k + |r|..] == t[|r|..];
    if r == [] {
      assert t == [] by {
        assert IsBlank(t[|r|..]);
      }
      forall i | 0 <= i < |s| ensures IsSpace(s[i]) {
        assert s[i] == s[..k][i];
      }
    }
    if r != [] {
      assert r[0] == t[0];
    }
  }

  /** Trimming a trimmed text changes nothing; in particular Trim is
      idempotent. */
  lemma TrimOfTrimmed(s: string)
    requires IsTrimmed(s)
    ensures Trim(s) == s
  {
  }

  // ---------------------------------------------------------------------
  // map(trim).filter(w => w.length > 0)

  /** Trims every line and keeps the non-empty results, in order. */
  function ParseLines(lines: seq<string>): (words: seq<string>)
    ensures |words| <= |lines|
    ensures forall i :: 0 <= i < |words| ==> words[i] != [] && IsTrimmed(words[i])
  {
    if lines == [] then []
    else
      var w := Trim(lines[0]);
      (if |w| > 0 then [w] else []) + ParseLines(lines[1..])
  }

  /** The word list of the form's text (src/App.jsx:77). */
  function ParseWords(text: string): (words: seq<string>)
    ensures forall i :: 0 <= i < |words| ==> words[i] != [] && IsTrimmed(words[i])
  {
    ParseLines(SplitLines(text))
  }

  /** Parsing is compositional over line lists. */
  lemma {:induction false} ParseLinesAppend(a: seq<string>, b: seq<string>)
    ensures ParseLines(a + b) == ParseLines(a) + ParseLines(b)
  {
    if a != [] {
      var w := Trim(a[0]);
      var head := if |w| > 0 then [w] else [];
      assert (a + b)[0] == a[0];
      assert (a + b)[1..] == a[1..] + b;
      assert ParseLines(a + b) == head + ParseLines(a[1..] + b);
      ParseLinesAppend(a[1..], b);
      assert ParseLines(a) == head + ParseLines(a[1..]);
    } else {
      assert a + b == b;
    }
  }

  /** The positions of the non-blank lines, in increasing order. */
  function NonBlankIndices(lines: seq<string>): (idx: seq<nat>)
    ensures forall k :: 0 <= k < |idx| ==> idx[k] < |lines|
    ensures forall k, l :: 0 <= k < l < |idx| ==> idx[k] < idx[l]
    ensures forall i :: 0 <= i < |lines| ==> (i in idx <==> !IsBlank(lines[i]))
  {
    if lines == [] then []
    else
      var n := |lines| - 1;
      NonBlankIndices(lines[..n]) + (if IsBlank(lines[n]) then [] else [n])
  }

  /** A single line gives its trimmed self, or nothing when it is blank. */
  lemma ParseLine(line: string)
    ensures ParseLines([line]) == if IsBlank(line) then [] else [Trim(line)]
  {
    assert [line][1..] == [];
  }

  /** Parsing the lines before the last one and then the last one. */
  lemma ParseLinesSnoc(lines: seq<string>)
    requires lines != []
    ensures var n := |lines| - 1;
      ParseLines(lines) == ParseLines(lines[..n]) + (if IsBlank(lines[n]) then [] else [Trim(lines[n])])
  {
    var n := |lines| - 1;
    assert lines == lines[..n] + [lines[n]];
    ParseLinesAppend(lines[..n], [lines[n]]);
    ParseLine(lines[n]);
  }

  /** The parsed words are exactly the trimmed non-blank lines, one word per
      non-blank line, in line order. */
  lemma {:induction false} ParseLinesAt(lines: seq<string>)
    ensures |ParseLines(lines)| == |NonBlankIndices(lines)|
    ensures forall k :: 0 <= k < |ParseLines(lines)| ==>
      ParseLines(lines)[k] == Trim(lines[NonBlankIndices(lines)[k]])
  {
    if lines != [] {
      var n := |lines| - 1;
      var init := lines[..n];
      ParseLinesAt(init);
      ParseLinesSnoc(lines);
      var words, before := ParseLines(lines), ParseLines(init);
      var idx, idxBefore := NonBlankIndices(lines), NonBlankIndices(init);
      forall k | 0 <= k < |before| ensures words[k] == Trim(lines[idx[k]]) {
        assert words[k] == before[k] && idx[k] == idxBefore[k];
        assert lines[idx[k]] == init[idxBefore[k]];
      }
    }
  }

  /** No word at all exactly when every line is blank. */
  lemma ParseLinesEmpty(lines: seq<string>)
    ensures ParseLines(lines) == [] <==> AllBlank(lines)
  {
    ParseLinesAt(lines);
    var idx := NonBlankIndices(lines);
    if idx != [] {
      assert idx[0] in idx;
    }
  }

  /** Every line of `lines` is blank. */
  predicate AllBlank(lines: seq<string>) {
    forall i :: 0 <= i < |lines| ==> IsBlank(lines[i])
  }

  lemma AllBlankCons(line: string, lines: seq<string>)
    ensures AllBlank([line] + lines) <==> IsBlank(line) && AllBlank(lines)
  {
    var all := [line] + lines;
    assert all[0] == line;
    assert forall i :: 0 <= i < |lines| ==> lines[i] == all[i + 1];
    if IsBlank(line) && AllBlank(lines) {
      forall i | 0 <= i < |all| ensures IsBlank(all[i]) {
        if i > 0 {
          assert all[i] == lines[i - 1];
        }
      }
    }
  }

  /** A text is blank exactly when its first character is white space and
      the rest is blank. */
  lemma BlankCons(c: char, s: string)
    ensures IsBlank([c] + s) <==> IsSpace(c) && IsBlank(s)
  {
    var t := [c] + s;
    assert t[0] == c;
    assert forall i :: 0 <= i < |s| ==> s[i] == t[i + 1];
    if IsSpace(c) && IsBlank(s) {
      forall i | 0 <= i < |t| ensures IsSpace(t[i]) {
        if i > 0 {
          assert t[i] == s[i - 1];
        }
      }
    }
  }

  /** The lines of a text are all blank exactly when the text is. */
  lemma {:induction false} SplitLinesBlank(text: string)
    ensures IsBlank(text) <==> AllBlank(SplitLines(text))
  {
    if text != [] {
      var c := text[0];
      SplitLinesBlank(text[1..]);
      var rest := SplitLines(text[1..]);
      var lines := SplitLines(text);
      assert text == [c] + text[1..];
      BlankCons(c, text[1..]);
      assert IsBlank(text) <==> IsSpace(c) && AllBlank(rest);
      if c == '\n' {
        assert lines == [[]] + rest;
        AllBlankCons([], rest);
      } else {
        var first := [c] + rest[0];
        assert lines == [first] + rest[1..];
        assert rest == [rest[0]] + rest[1..];
        BlankCons(c, rest[0]);
        AllBlankCons(first, rest[1..]);
        AllBlankCons(rest[0], rest[1..]);
      }
    }
  }

  /** The form is rejected for an empty word list exactly when the whole
      text is white space (line feeds included), e.g. "" or "  \n  ". */
  lemma ParseWordsEmpty(text: string)
    ensures ParseWords(text) == [] <==> IsBlank(text)
  {
    ParseLinesEmpty(SplitLines(text));
    SplitLinesBlank(text);
  }
}
