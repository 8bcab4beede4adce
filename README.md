# Word trainer: a verified model of the drill session

Word Trainer TTS is a single React component (`App` in `src/App.jsx`). The
user types a list of words, one per line, and a number of seconds per word.
The component then runs a drill on its own:

1. a 3-2-1 countdown with tick sounds;
2. each word in turn is shown and spoken, with a change cue;
3. the seconds count down, with a warning sound on each of the last ones;
4. the next word follows automatically, until a finish arpeggio.

While a word is shown, a cancel button returns to the form, and the finished
screen has a button back to the form; both call `handleRestart`.

This project models the component's session logic in Dafny, in four modules:

- `Words` (`Words.dfy`): the word-list parser of `handleStart`. It models
  `split('\n')`, then JavaScript `trim`, then dropping empty lines, as pure
  functions. Lemmas relate them to independent characterisations: split and
  join are inverses, trim cuts exactly a blank prefix and a blank suffix, and
  the words are exactly the trimmed non-blank lines in order.
- `Session` (`Session.dfy`): the component's state hooks as one `State`
  value, and one transition function per event. The events are the start
  button, the restart button, a countdown run, an interval firing, and the
  reaction to a change of the time left. Each transition returns the new
  state and the effects it requests, in order. `Inv` is the reachable-state
  invariant every transition preserves. Lemmas about it state the phase
  machine, how the current index and time left may move, and that restart
  quiesces the component.
- `Autoplay` (`Autoplay.dfy`): the unattended drill. `Next` is what happens
  each second when nobody presses a button, and `Drive` runs `n` such steps.
  `FullSession` proves where a valid start ends and what it requests. One
  step before `4 + |words| * (secondsPerWord + 1)` steps the last word is
  still on screen, and after them the drill is Finished on the last word.
  It requests three ticks, then for each word in order the change cue, the
  word spoken and `min(3, secondsPerWord - 1)` warnings, then the finish
  cue. After that, nothing further happens.
- `TrainerApp` (`TrainerApp.dfy`): the component as an object. Its fields
  are the state hooks plus whether the interval exists, and an effect log.
  There is one method per handler or effect callback. Each method updates
  the fields one setter at a time, as the component does. Each is proved to
  produce exactly the state and the appended effects of the matching
  `Session` transition, and to keep `Valid()`.

Sound and speech are effects in a log:

- `Play(Tick | Change | Warning | Finish)` is a request to `playSound`.
- `Speak(w)` is the `speak` helper, which cancels any utterance and says `w`.
- `CancelSpeech` is `speechSynthesis.cancel()`.

The duration the running session uses is kept in `secondsPerWord`. The
component reads its `timeInput` hook for this at line 155. The duration
field is only rendered while idle (line 177), so it cannot change during a
session, and `secondsPerWord` is the value the session started with.

Some observations that follow from the code as written:

- A word of `d` seconds gets `min(3, d - 1)` warnings, not three. The
  warning is decided on the value after the decrement (lines 134-135), so
  with 3-second words the warnings sound at 2 and 1 left. When the time
  reaches 0, the change or finish cue sounds instead.
- The countdown requests three ticks in all. One comes from the start itself
  (line 95) and one from each of the timeouts that bring the count to 2 and
  to 1. The timeout that reaches 0 is silent (line 115). The count of 0
  makes the countdown effect run again, and that run starts the game
  (lines 120-125).
- The unattended drill takes `4 + |words| * (secondsPerWord + 1)` steps:
  - three countdown timeouts and the effect run that starts the game;
  - then, per word, `secondsPerWord` interval firings and one advance or
    finish reaction.

## Model

| member | source | states |
|---|---|---|
| Words.SplitLines | src/App.jsx:77 | `split('\n')` yields at least one piece and no piece contains a line feed |
| Words.SplitThenJoin | src/App.jsx:77 | joining the pieces with line feeds gives back the text: splitting loses nothing |
| Words.JoinThenSplit | src/App.jsx:77 | splitting the join of line-feed-free lines gives back those lines: split is the inverse of join |
| Words.TrimStartCuts | src/App.jsx:77 | the left trim is a suffix of the text and what it cuts is all white space; the result does not start with white space |
| Words.TrimEndCuts | src/App.jsx:77 | the right trim is a prefix and what it cuts is all white space; the result does not end with white space |
| Words.Trim | src/App.jsx:77 | the trimmed line neither starts nor ends with white space, and it is empty exactly when the line is blank |
| Words.TrimSlice | src/App.jsx:77 | the trimmed line is the slice of the line left after removing a blank prefix and a blank suffix; nothing else is removed |
| Words.TrimOfTrimmed | src/App.jsx:77 | trimming a trimmed line changes nothing |
| Words.ParseLines | src/App.jsx:77 | at most one word per line; every word is non-empty and trimmed |
| Words.ParseWords | src/App.jsx:77 | every parsed word is non-empty and trimmed |
| Words.ParseLinesAppend | src/App.jsx:77 | the map and filter distribute over concatenation of the lines |
| Words.NonBlankIndices | src/App.jsx:77 | the increasing positions of exactly the non-blank lines |
| Words.ParseLinesAt | src/App.jsx:77 | one word per non-blank line, and word `k` is the trimmed `k`-th non-blank line, so line order is kept |
| Words.ParseLinesEmpty | src/App.jsx:77-78 | no word exactly when every line is blank |
| Words.SplitLinesBlank | src/App.jsx:77 | the text is blank exactly when every piece of its split is blank |
| Words.ParseWordsEmpty | src/App.jsx:77-81 | the word list is empty, and the start refused, exactly when the whole text is white space (e.g. `""`, `"  \n  "`) |
| Session.Initial | src/App.jsx:58-66 | the hooks' initial values are on the form (Idle), with no interval, and satisfy the invariant |
| Session.Start | src/App.jsx:76-96 | an empty word list is refused first, then a duration <= 0. The start succeeds exactly when neither holds. On success it sets the parsed words, index 0, time left = duration, count 3, Starting without interval, and requests exactly one tick and no speech |
| Session.Restart | src/App.jsx:98-105 | back to Idle with index 0 and no interval, speech cancelled; words, time left and count untouched; the invariant is kept |
| Session.Countdown | src/App.jsx:108-127 | outside Starting nothing happens. With a positive count it drops by exactly one and nothing else changes, with a tick exactly when the new count is positive. At zero, Active with the interval, index 0, full time, nothing else changed, and the effects change cue then `words[0]` spoken |
| Session.IntervalTick | src/App.jsx:132-143 | without interval nothing happens. Otherwise time left becomes `max(timeLeft - 1, 0)` and nothing else changes, with a warning exactly when the new value is in (0,3], on every such second |
| Session.AdvanceOrFinish | src/App.jsx:150-164 | only when playing with no time left. With a further word, the index goes up by exactly one and the time is reset, with the change cue then that word spoken. Otherwise Finished, without interval, on the last word, nothing else changed, with the finish cue |
| Session.Apply | src/App.jsx:76-164 | every event keeps the invariant; a start outside the form and a refused start change nothing, and an accepted start is `Session.Start`'s step |
| Session.Run | src/App.jsx:57-164 | any sequence of events keeps the invariant |
| Session.PhaseMoves | src/App.jsx:76-164 | the phases move only Idle to Starting on a start, Starting to Active at count zero, Active to Finished after the last word, and anything to Idle on restart |
| Session.Reachable | src/App.jsx:57-164 | from mount, after any events, at most one of starting/playing/finished holds, the interval is live exactly while playing, time left is in [0, duration], and during a session the current word exists |
| Session.IndexMoves | src/App.jsx:150-157 | the current index changes only by one on the time-out reaction with a further word, or to 0 on start or restart |
| Session.TimeLeftMoves | src/App.jsx:132-143 | time left changes only down by one on an interval firing while playing, or to the full duration on a start or a new word |
| Session.RestartQuiesces | src/App.jsx:98-105 | restart is idempotent, and after it no countdown, interval firing or time-out reaction changes anything |
| Session.RestartThenStart | src/App.jsx:93-94 | `handleRestart` then `handleStart`, run one after the other on a state in the countdown, give a fresh countdown from three |
| Autoplay.Next | src/App.jsx:108-164 | an unattended step keeps the invariant |
| Autoplay.Drive | src/App.jsx:108-164 | any number of unattended steps keeps the invariant |
| Autoplay.DriveAdd | src/App.jsx:108-164 | running `m` steps then `n` is running `m + n` steps, with the effects concatenated |
| Autoplay.RunDown | src/App.jsx:132-143 | a word with `t` seconds left runs down to 0 in `t` firings with `min(3, t - 1)` warnings, and nothing else changes |
| Autoplay.TimeUp | src/App.jsx:150-164 | with no time left the next step is the advance-or-finish reaction |
| Autoplay.NextWord | src/App.jsx:150-157 | a word that is not the last is followed, after `d + 1` steps, by the next one with its change cue and speech |
| Autoplay.LastWord | src/App.jsx:158-162 | the last word ends, after `d + 1` steps, in the finished state with the finish cue |
| Autoplay.LastWordRuns | src/App.jsx:150-164 | from the start of the last word, the rest of the session runs to the end |
| Autoplay.EarlierWordRuns | src/App.jsx:150-164 | if the session runs to its end from word `i + 1`, it does from word `i` |
| Autoplay.RunFrom | src/App.jsx:129-164 | from the start of any word the session runs to its end, with every later word announced in order |
| Autoplay.CountdownRun | src/App.jsx:108-127 | a fresh countdown takes 4 steps, with two more ticks, then the change cue and the first word spoken |
| Autoplay.SessionFrom | src/App.jsx:108-164 | from a fresh countdown, the whole session's steps, final state and effects |
| Autoplay.FinishedStays | src/App.jsx:145-147 | once finished, no unattended step changes anything |
| Autoplay.ReachWord | src/App.jsx:150-157 | from the start of word `i`, `k` words later the drill is at the start of word `i + k` with the full duration |
| Autoplay.ReachLastWord | src/App.jsx:108-157 | after the countdown and all words but the last, the last word is on screen with the full duration |
| Autoplay.LastRunDown | src/App.jsx:132-143 | after the countdown, all words but the last and the last word's firings, the last word is on screen with no time left |
| Autoplay.LastStepActive | src/App.jsx:132-164 | one step before the end of the session the last word is still on screen with no time left, so it does not finish earlier |
| Autoplay.StartedSession | src/App.jsx:87-164 | the session the form starts with given words and duration is on its last word one step before its end and ends Finished on the last word, without a timer, with exactly the expected effects |
| Autoplay.FullSession | src/App.jsx:76-164 | a valid start is on its last word, not finished, after `4 + n(d + 1) - 1` steps, and Finished on the last word after `4 + n(d + 1)`. It requests three ticks, per word in order the change cue, its speech and `min(3, d - 1)` warnings, then the finish cue, and then nothing more |
| TrainerApp.App.constructor | src/App.jsx:58-66 | the mounted component is in the initial state with an empty log |
| TrainerApp.App.HandleStart | src/App.jsx:76-96 | a refused start returns the first error and changes no field and no log; an accepted one sets the state of `Session.Start` and appends its tick |
| TrainerApp.App.HandleRestart | src/App.jsx:98-105 | the fields become those of `Session.Restart`, with speech cancellation logged, and the component is on the form without an interval |
| TrainerApp.App.CountdownStep | src/App.jsx:108-127 | the fields and the appended effects are those of `Session.Countdown` |
| TrainerApp.App.IntervalFired | src/App.jsx:132-143 | the fields and the appended effects are those of `Session.IntervalTick` |
| TrainerApp.App.TimeLeftChanged | src/App.jsx:150-164 | the fields and the appended effects are those of `Session.AdvanceOrFinish` |

## Left out

- `playSound` (src/App.jsx:3-55) is Web Audio plumbing with floating-point frequencies and envelopes. Each cue is only a `Play` effect in the log.
- `speak` and `window.speechSynthesis` are a browser API. They are the `Speak(w)` and `CancelSpeech` effects, and the cancel-and-replace inside `speak` is one `Speak` effect.
- Real time and React scheduling are not modelled:
  - `setTimeout` and `setInterval`, effect ordering and batching are left out;
  - each timer firing or effect run is an explicit event or method call;
  - the interval is the boolean `intervalLive`;
  - the pending countdown timeout exists exactly while `isStarting`, and its clearing on restart is the countdown doing nothing outside Starting.
- Autoplay.Next assumes the order in which the time-out reaction (lines 150-164) runs: right after the interval firing that set the time left to 0, before the next firing. This is the order React's effect scheduling gives with one-second timers, but wall-clock time is not modelled.
- The unmount cleanup (src/App.jsx:166-171) is left out. It is the same teardown as restart, for a component that no longer exists.
- The `alert` texts (src/App.jsx:79, 83) are only the `StartError` values.
- The JSX rendering and the input fields (src/App.jsx:173-254) are left out. The text and the duration are parameters of the start.
- Durations are integers. `Number(e.target.value)` can also give fractions, NaN, Infinity (e.g. `1e400`) or values above 2^53, and the model does not cover that. With Infinity the start is accepted (line 82) and `prev - 1` (line 134) never reaches 0, so that word never ends; the model's integer time always counts down.
- TrainerApp.App.HandleStart and Session.Start require the form phase (Idle). The start button is rendered only then (src/App.jsx:177, 200-205). `Session.Apply` treats a start in any other phase as doing nothing.
- Session.Apply accepts a restart in every phase. The component offers it only while a word is shown or on the finished screen (src/App.jsx:232-237, 245-250), not on the form or during the countdown. A restart in those phases keeps the invariant, so the invariant lemmas are unaffected, but `Session.Run` admits event sequences the screen cannot produce.
- Session.Countdown, Session.IntervalTick, Session.AdvanceOrFinish and the methods built on them require the reachable-state invariant `Inv`. `Session.Reachable` shows that it holds from mount on.
- Strings are sequences of Unicode scalar values, not UTF-16 code units. Every character `trim` removes lies in the Basic Multilingual Plane, and a line feed is one unit, so split and trim agree on both.
