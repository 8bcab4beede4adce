/** The drill left to run on its own after a valid start (src/App.jsx:
    108-164): the countdown timeout fires once a second, then the interval
    fires once a second, and the reaction to time running out runs right
    after the firing that brought the time to zero, before the next one. */
module Autoplay {
  import opened Words
  import opened Session

  /** What happens next when nobody presses a button: the countdown while
      starting, the time-out reaction as soon as no time is left, and
      otherwise the next interval firing (nothing, if there is no
      interval). */
  function Next(s: State): (r: Step)
    requires Inv(s)
    ensures Inv(r.next)
  {
    if s.isStarting then Countdown(s)
    else if s.isPlaying && s.timeLeft == 0 then AdvanceOrFinish(s)
    else IntervalTick(s)
  }

  /** `n` unattended steps, with all their effects in order. */
  function Drive(s: State, n: nat): (r: Step)
    requires Inv(s)
    ensures Inv(r.next)
    decreases n
  {
    if n == 0 then Step(s, [])
    else
      var first := Next(s);
      var rest := Drive(first.next, n - 1);
      Step(rest.next, first.effects + rest.effects)
  }

  function Repeat(e: Effect, n: nat): (r: seq<Effect>)
    ensures |r| == n && forall i :: 0 <= i < n ==> r[i] == e
  {
    if n == 0 then [] else [e] + Repeat(e, n - 1)
  }

  /** The effects expected while `words` are shown one after another, each
      for a duration that yields `warnings` warnings: the change cue, the
      word spoken, then the warnings. */
  function WordBlocks(words: seq<string>, warnings: nat): seq<Effect> {
    if words == [] then []
    else [Play(Change), Speak(words[0])] + Repeat(Play(Warning), warnings) + WordBlocks(words[1..], warnings)
  }

  /** Running `m` steps and then `n` more is running `m + n` steps. */
  lemma {:induction false} DriveAdd(s: State, m: nat, n: nat)
    requires Inv(s)
    ensures var a := Drive(s, m); var b := Drive(a.next, n);
      Drive(s, m + n) == Step(b.next, a.effects + b.effects)
    decreases m
  {
    if m > 0 {
      var first := Next(s);
      DriveAdd(first.next, m - 1, n);
      var a' := Drive(first.next, m - 1);
      var b := Drive(a'.next, n);
      calc {
        Drive(s, m + n).effects;
        first.effects + Drive(first.next, m - 1 + n).effects;
        first.effects + (a'.effects + b.effects);
        (first.effects + a'.effects) + b.effects;
      }
    }
  }

  /** A word shown with `t` seconds left runs down to zero in `t` interval
      firings, warning on each of the last three seconds before zero (on
      fewer if it had fewer), and nothing else changes. */
  lemma {:induction false} RunDown(s: State)
    requires Inv(s) && s.isPlaying && s.timeLeft >= 1
    ensures Drive(s, s.timeLeft)
      == Step(s.(timeLeft := 0), Repeat(Play(Warning), Min(3, s.timeLeft - 1)))
    decreases s.timeLeft
  {
    var t := s.timeLeft;
    var first := IntervalTick(s);
    assert Next(s) == first;
    var s1 := s.(timeLeft := t - 1);
    assert first.next == s1;
    if t > 1 {
      RunDown(s1);
      assert s1.(timeLeft := 0) == s.(timeLeft := 0);
      if t - 1 <= 3 {
        assert Min(3, t - 1) == Min(3, t - 2) + 1;
      }
    }
  }

  /** The last word done: the finished screen, without interval. */
  function Completed(s: State): State {
    s.(currentIndex := |s.words| - 1, timeLeft := 0, isPlaying := false, isFinished := true,
       intervalLive := false)
  }

  /** Time up: the reaction to zero time left takes exactly one step. */
  lemma TimeUp(z: State)
    requires Inv(z) && z.isPlaying && z.timeLeft == 0
    ensures Drive(z, 1) == AdvanceOrFinish(z)
  {
    var last := AdvanceOrFinish(z);
    assert Next(z) == last;
    assert Drive(last.next, 0) == Step(last.next, []);
  }

  /** A word that is not the last one, from its start with the full
      duration left: it runs down, then the next word follows with the
      change cue and its speech. */
  lemma NextWord(s: State)
    requires Inv(s) && s.isPlaying && s.timeLeft == s.secondsPerWord
    requires s.currentIndex + 1 < |s.words|
    ensures Drive(s, s.secondsPerWord + 1) == Step(
      s.(currentIndex := s.currentIndex + 1),
      Repeat(Play(Warning), Min(3, s.secondsPerWord - 1))
        + [Play(Change), Speak(s.words[s.currentIndex + 1])])
  {
    RunDown(s);
    TimeUp(s.(timeLeft := 0));
    DriveAdd(s, s.secondsPerWord, 1);
  }

  /** The last word, from its start with the full duration left: it runs
      down, then the session finishes with the finish cue. */
  lemma LastWord(s: State)
    requires Inv(s) && s.isPlaying && s.timeLeft == s.secondsPerWord
    requires s.currentIndex + 1 == |s.words|
    ensures Drive(s, s.secondsPerWord + 1) == Step(
      Completed(s), Repeat(Play(Warning), Min(3, s.secondsPerWord - 1)) + [Play(Finish)])
  {
    RunDown(s);
    TimeUp(s.(timeLeft := 0));
    DriveAdd(s, s.secondsPerWord, 1);
  }

  /** The number of steps `k` words of `d` seconds take: `d` interval
      firings and one advance-or-finish reaction each. */
  function WordSteps(k: nat, d: nat): (n: nat)
    ensures n == k * (d + 1)
  {
    if k == 0 then 0 else d + 1 + WordSteps(k - 1, d)
  }

  /** From the start of word `i`, with the full duration left, the rest of
      the session takes `WordSteps(|words| - i, secondsPerWord)` steps and
      ends Completed, having requested the warnings of word `i`, then for
      each later word the change cue, its speech and its warnings, and
      finally the finish cue. */
  predicate RunsToEnd(s: State)
    requires Inv(s) && s.isPlaying
  {
    var m := Min(3, s.secondsPerWord - 1);
    Drive(s, WordSteps(|s.words| - s.currentIndex, s.secondsPerWord)) == Step(
      Completed(s),
      Repeat(Play(Warning), m) + WordBlocks(s.words[s.currentIndex + 1..], m) + [Play(Finish)])
  }

  /** The last word: it runs down and the session finishes. */
  lemma LastWordRuns(s: State)
    requires Inv(s) && s.isPlaying && s.timeLeft == s.secondsPerWord
    requires s.currentIndex + 1 == |s.words|
    ensures RunsToEnd(s)
  {
    LastWord(s);
    assert WordSteps(1, s.secondsPerWord) == s.secondsPerWord + 1;
    assert s.words[s.currentIndex + 1..] == [];
  }

  /** The expected effects of a non-empty word list start with its first
      word. */
  lemma WordBlocksCons(words: seq<string>, m: nat)
    requires words != []
    ensures WordBlocks(words, m)
      == [Play(Change), Speak(words[0])] + Repeat(Play(Warning), m) + WordBlocks(words[1..], m)
  {
  }

  /** Two runs one after the other make one run. */
  lemma Chain(s: State, k1: nat, k2: nat, k: nat, mid: State, fin: State,
              e1: seq<Effect>, e2: seq<Effect>, e: seq<Effect>)
    requires Inv(s) && Drive(s, k1) == Step(mid, e1) && Drive(mid, k2) == Step(fin, e2)
    requires k == k1 + k2 && e == e1 + e2
    ensures Drive(s, k) == Step(fin, e)
  {
    DriveAdd(s, k1, k2);
  }

  /** The warnings of one word and the announcement of the next, followed
      by the effects from that next word on, are the effects from the first
      word on. */
  lemma Regroup(tail: seq<string>, m: nat)
    requires tail != []
    ensures (Repeat(Play(Warning), m) + [Play(Change), Speak(tail[0])])
        + (Repeat(Play(Warning), m) + WordBlocks(tail[1..], m) + [Play(Finish)])
      == Repeat(Play(Warning), m) + WordBlocks(tail, m) + [Play(Finish)]
  {
    WordBlocksCons(tail, m);
  }

  /** Two runs one after the other end where the second one ends. */
  lemma Then(s: State, k1: nat, k2: nat, mid: State, fin: State)
    requires Inv(s) && Drive(s, k1).next == mid && Drive(mid, k2).next == fin
    ensures Drive(s, k1 + k2).next == fin
  {
    DriveAdd(s, k1, k2);
  }

  /** A word that is not the last one: it runs down, the next word is
      announced, and the rest of the session is that of the next word. */
  lemma EarlierWordRuns(s: State)
    requires Inv(s) && s.isPlaying && s.timeLeft == s.secondsPerWord
    requires s.currentIndex + 1 < |s.words|
    requires RunsToEnd(s.(currentIndex := s.currentIndex + 1))
    ensures RunsToEnd(s)
  {
    var i, n, d := s.currentIndex, |s.words|, s.secondsPerWord;
    var m := Min(3, d - 1);
    var s2 := s.(currentIndex := i + 1);
    var tail := s.words[i + 1..];
    assert s2.words[s2.currentIndex + 1..] == tail[1..];
    assert Completed(s2) == Completed(s);
    NextWord(s);
    Regroup(tail, m);
    Chain(s, d + 1, WordSteps(n - i - 1, d), WordSteps(n - i, d), s2, Completed(s),
      Repeat(Play(Warning), m) + [Play(Change), Speak(tail[0])],
      Repeat(Play(Warning), m) + WordBlocks(tail[1..], m) + [Play(Finish)],
      Repeat(Play(Warning), m) + WordBlocks(tail, m) + [Play(Finish)]);
  }

  /** Every word, from its start with the full duration left, runs the
      session to its end (RunsToEnd). */
  lemma {:induction false} RunFrom(s: State)
    requires Inv(s) && s.isPlaying && s.timeLeft == s.secondsPerWord
    ensures RunsToEnd(s)
    decreases |s.words| - s.currentIndex
  {
    if s.currentIndex + 1 < |s.words| {
      RunFrom(s.(currentIndex := s.currentIndex + 1));
      EarlierWordRuns(s);
    } else {
      LastWordRuns(s);
    }
  }

  /** The first word on screen after the countdown. */
  function Launched(s: State): State {
    s.(startCount := 0, isStarting := false, isPlaying := true, intervalLive := true)
  }

  /** From the start of word `i`, `k` more words later (still within the
      list) the drill is at the start of word `i + k`, with the full
      duration left. */
  lemma {:induction false} ReachWord(s: State, k: nat)
    requires Inv(s) && s.isPlaying && s.timeLeft == s.secondsPerWord
    requires s.currentIndex + k < |s.words|
    ensures Drive(s, WordSteps(k, s.secondsPerWord)).next == s.(currentIndex := s.currentIndex + k)
    decreases k
  {
    if k > 0 {
      var d := s.secondsPerWord;
      var s2 := s.(currentIndex := s.currentIndex + 1);
      NextWord(s);
      ReachWord(s2, k - 1);
      Then(s, d + 1, WordSteps(k - 1, d), s2, s.(currentIndex := s.currentIndex + k));
      assert s2.(currentIndex := s2.currentIndex + (k - 1)) == s.(currentIndex := s.currentIndex + k);
      assert WordSteps(k, d) == d + 1 + WordSteps(k - 1, d);
    }
  }

  /** The countdown of a fresh start: two more ticks (the start itself sounded
      the first), a silent step to zero, then the first word with the change
      cue and its speech. */
  lemma CountdownRun(s: State)
    requires Inv(s) && s.isStarting && s.startCount == 3
    ensures Drive(s, 4) == Step(Launched(s), [Play(Tick), Play(Tick), Play(Change), Speak(s.words[0])])
  {
    var s1 := s.(startCount := 2);
    var s2 := s.(startCount := 1);
    var s3 := s.(startCount := 0);
    var s4 := s3.(isStarting := false, isPlaying := true, intervalLive := true);
    assert Next(s) == Step(s1, [Play(Tick)]);
    assert Next(s1) == Step(s2, [Play(Tick)]);
    assert Next(s2) == Step(s3, []);
    assert Next(s3) == Step(s4, [Play(Change), Speak(s.words[0])]);
    assert Drive(s4, 0) == Step(s4, []);
    assert Drive(s3, 1) == Step(s4, [Play(Change), Speak(s.words[0])]);
    assert Drive(s2, 2) == Step(s4, [Play(Change), Speak(s.words[0])]);
    assert Drive(s1, 3) == Step(s4, [Play(Tick), Play(Change), Speak(s.words[0])]);
  }

  /** The countdown's effects followed by those of every word from the
      first on. */
  lemma RegroupStart(words: seq<string>, m: nat)
    requires words != []
    ensures [Play(Tick), Play(Tick), Play(Change), Speak(words[0])]
        + (Repeat(Play(Warning), m) + WordBlocks(words[1..], m) + [Play(Finish)])
      == [Play(Tick), Play(Tick)] + WordBlocks(words, m) + [Play(Finish)]
  {
    WordBlocksCons(words, m);
  }

  /** From a fresh countdown to the end of the session. */
  lemma SessionFrom(s: State)
    requires Inv(s) && s.isStarting && s.startCount == 3
    ensures Drive(s, 4 + WordSteps(|s.words|, s.secondsPerWord)) == Step(
      Completed(Launched(s)),
      [Play(Tick), Play(Tick)] + WordBlocks(s.words, Min(3, s.secondsPerWord - 1)) + [Play(Finish)])
  {
    var m := Min(3, s.secondsPerWord - 1);
    var p := Launched(s);
    CountdownRun(s);
    RunFrom(p);
    assert p.words[p.currentIndex + 1..] == s.words[1..];
    RegroupStart(s.words, m);
    Chain(s, 4, WordSteps(|s.words|, s.secondsPerWord), 4 + WordSteps(|s.words|, s.secondsPerWord),
      p, Completed(p),
      [Play(Tick), Play(Tick), Play(Change), Speak(s.words[0])],
      Repeat(Play(Warning), m) + WordBlocks(s.words[1..], m) + [Play(Finish)],
      [Play(Tick), Play(Tick)] + WordBlocks(s.words, m) + [Play(Finish)]);
  }

  /** After the countdown and all words but the last, the last word is on
      screen with the full duration left. */
  lemma ReachLastWord(s: State)
    requires Inv(s) && s.isStarting && s.startCount == 3
    ensures Drive(s, 4 + WordSteps(|s.words| - 1, s.secondsPerWord)).next
      == Launched(s).(currentIndex := |s.words| - 1)
  {
    var p := Launched(s);
    CountdownRun(s);
    ReachWord(p, |s.words| - 1);
    Then(s, 4, WordSteps(|s.words| - 1, s.secondsPerWord), p, p.(currentIndex := |s.words| - 1));
  }

  /** One step before the end of a session from a fresh countdown, the
      last word is still on screen with no time left: the session is not
      finished any earlier than `SessionFrom` says. */
  lemma LastStepActive(s: State)
    requires Inv(s) && s.isStarting && s.startCount == 3
    ensures var before := Drive(s, 4 + WordSteps(|s.words|, s.secondsPerWord) - 1).next;
      && PhaseOf(before) == Active
      && before.currentIndex == |s.words| - 1 && before.timeLeft == 0
  {
    LastRunDown(s);
    LastWordSteps(|s.words|, s.secondsPerWord);
  }

  /** The last word runs down right after all the others. */
  lemma LastRunDown(s: State)
    requires Inv(s) && s.isStarting && s.startCount == 3
    ensures Drive(s, 4 + WordSteps(|s.words| - 1, s.secondsPerWord) + s.secondsPerWord).next
      == Launched(s).(currentIndex := |s.words| - 1, timeLeft := 0)
  {
    var n, d := |s.words|, s.secondsPerWord;
    var last := Launched(s).(currentIndex := n - 1);
    ReachLastWord(s);
    RunDown(last);
    Then(s, 4 + WordSteps(n - 1, d), d, last, last.(timeLeft := 0));
  }

  /** The steps of `n` words are those of all but the last, then the last
      word's `d` firings and its reaction. */
  lemma LastWordSteps(n: nat, d: nat)
    requires n >= 1
    ensures 4 + WordSteps(n, d) - 1 == 4 + WordSteps(n - 1, d) + d
  {
  }

  /** Once finished, nothing happens any more. */
  lemma FinishedStays(s: State)
    requires Inv(s) && s.isFinished
    ensures Next(s) == Step(s, [])
  {
  }

  /** The tick of the start itself comes before the countdown's two. */
  lemma FirstTick(blocks: seq<Effect>)
    ensures [Play(Tick)] + ([Play(Tick), Play(Tick)] + blocks + [Play(Finish)])
      == [Play(Tick), Play(Tick), Play(Tick)] + blocks + [Play(Finish)]
  {
  }

  /** Where a session ends that the form started from `s` with `words` and
      `timeInput` seconds per word, and what it requested along the way,
      the start's own tick included. */
  lemma StartedSession(s: State, words: seq<string>, timeInput: int)
    requires Inv(s) && PhaseOf(s) == Idle
    requires words != [] && timeInput >= 1 && forall i :: 0 <= i < |words| ==> words[i] != []
    ensures var t := s.(words := words, currentIndex := 0, isFinished := false,
                        timeLeft := timeInput, secondsPerWord := timeInput,
                        isStarting := true, startCount := 3);
      && Inv(t)
      && PhaseOf(Drive(t, 4 + WordSteps(|words|, timeInput) - 1).next) == Active
      && var run := Drive(t, 4 + WordSteps(|words|, timeInput));
      && PhaseOf(run.next) == Finished && !run.next.intervalLive
      && run.next.words == words && run.next.currentIndex == |words| - 1
      && [Play(Tick)] + run.effects
         == [Play(Tick), Play(Tick), Play(Tick)]
            + WordBlocks(words, Min(3, timeInput - 1)) + [Play(Finish)]
      && Next(run.next) == Step(run.next, [])
  {
    var t := s.(words := words, currentIndex := 0, isFinished := false,
                timeLeft := timeInput, secondsPerWord := timeInput,
                isStarting := true, startCount := 3);
    SessionFrom(t);
    LastStepActive(t);
    FinishedStays(Completed(Launched(t)));
    FirstTick(WordBlocks(words, Min(3, timeInput - 1)));
  }

  /** A whole unattended session. After a valid start from the form, the
      session is still on its last word one step before
      `4 + |words| * (secondsPerWord + 1)` steps and Finished after them,
      having requested three ticks, then for every word in order the change
      cue, the word spoken and `min(3, secondsPerWord - 1)` warnings, and
      finally the finish cue. After that no timer is left: nothing further
      happens. */
  lemma FullSession(s: State, inputText: string, timeInput: int)
    requires Inv(s) && PhaseOf(s) == Idle
    requires ParseWords(inputText) != [] && timeInput >= 1
    ensures var start := Start(s, inputText, timeInput);
      var words := ParseWords(inputText);
      && start.Started?
      && PhaseOf(Drive(start.step.next, 4 + WordSteps(|words|, timeInput) - 1).next) == Active
      && var run := Drive(start.step.next, 4 + WordSteps(|words|, timeInput));
      && PhaseOf(run.next) == Finished && !run.next.intervalLive
      && run.next.words == words && run.next.currentIndex == |words| - 1
      && start.step.effects + run.effects
         == [Play(Tick), Play(Tick), Play(Tick)]
            + WordBlocks(words, Min(3, timeInput - 1)) + [Play(Finish)]
      && Next(run.next) == Step(run.next, [])
  {
    StartedSession(s, ParseWords(inputText), timeInput);
  }
}
