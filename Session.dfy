/** The session state machine of the drill (src/App.jsx, App): the React
    state of the component as one value, and one transition function per
    event. Each transition returns the new state together with the effects
    it requests, in the order the component requests them: sound cues and
    speech. */
module Session {
  import opened Words

  /** The four sounds of `playSound`. */
  datatype Cue = Tick | Change | Warning | Finish

  /** A request to the outside world. `Speak(w)` cancels any utterance in
      flight and starts saying `w` (the `speak` helper); `CancelSpeech` only
      cancels. */
  datatype Effect = Play(cue: Cue) | Speak(word: string) | CancelSpeech

  /** The component's state hooks, plus whether the per-second interval
      exists. `secondsPerWord` is the duration the running session was
      started with. */
  datatype State = State(
    words: seq<string>,
    currentIndex: int,
    timeLeft: int,
    startCount: int,
    secondsPerWord: int,
    isStarting: bool,
    isPlaying: bool,
    isFinished: bool,
    intervalLive: bool)

  /** The outcome of one event: the new state and the requested effects. */
  datatype Step = Step(next: State, effects: seq<Effect>)

  /** Why the form is refused (the two alerts of handleStart). */
  datatype StartError = EmptyWordList | NonPositiveDuration

  datatype StartResult = Started(step: Step) | Rejected(error: StartError)

  /** The coarse mode the screen shows. */
  datatype Phase = Idle | Starting | Active | Finished

  /** The state on mount: no words, a three-second default duration. */
  function Initial(): (s: State)
    ensures Inv(s) && PhaseOf(s) == Idle
  {
    State(words := [], currentIndex := 0, timeLeft := 0, startCount := 3, secondsPerWord := 3,
          isStarting := false, isPlaying := false, isFinished := false, intervalLive := false)
  }

  function PhaseOf(s: State): Phase {
    if s.isStarting then Starting
    else if s.isPlaying then Active
    else if s.isFinished then Finished
    else Idle
  }

  /** What holds of every state the component can reach. */
  predicate Inv(s: State) {
    // at most one of the three flags is set
    && (s.isStarting ==> !s.isPlaying && !s.isFinished)
    && (s.isPlaying ==> !s.isFinished)
    // the interval exists exactly while a word is on screen
    && s.intervalLive == s.isPlaying
    && s.secondsPerWord >= 1
    && 0 <= s.timeLeft <= s.secondsPerWord
    && 0 <= s.startCount <= 3
    && 0 <= s.currentIndex
    && (forall i :: 0 <= i < |s.words| ==> s.words[i] != [])
    && (PhaseOf(s) != Idle ==> s.currentIndex < |s.words|)
    && (s.isStarting ==> s.currentIndex == 0 && s.timeLeft == s.secondsPerWord)
    && (s.isFinished ==> s.currentIndex == |s.words| - 1 && s.timeLeft == 0)
  }

  /** handleStart (src/App.jsx:76-96), pressed on the form, which is only
      shown when idle. The word list is checked first, then the duration; a
      refused start changes nothing. */
  function Start(s: State, inputText: string, timeInput: int): (r: StartResult)
    requires Inv(s) && PhaseOf(s) == Idle
    ensures ParseWords(inputText) == [] ==> r == Rejected(EmptyWordList)
    ensures ParseWords(inputText) != [] && timeInput <= 0 ==> r == Rejected(NonPositiveDuration)
    ensures r.Started? <==> ParseWords(inputText) != [] && timeInput > 0
    ensures r.Started? ==>
      var t := r.step.next;
      && Inv(t) && PhaseOf(t) == Starting && !t.intervalLive
      && t.words == ParseWords(inputText) && t.currentIndex == 0
      && t.timeLeft == timeInput == t.secondsPerWord && t.startCount == 3
      && r.step.effects == [Play(Tick)]
  {
    var wordList := ParseWords(inputText);
    if |wordList| == 0 then Rejected(EmptyWordList)
    else if timeInput <= 0 then Rejected(NonPositiveDuration)
    else
      Started(Step(s.(words := wordList, currentIndex := 0, isFinished := false,
                      timeLeft := timeInput, secondsPerWord := timeInput,
                      isStarting := true, startCount := 3),
                   [Play(Tick)]))
  }

  /** handleRestart (src/App.jsx:98-105): back to the form from any phase,
      cancelling speech and the interval; the countdown timeout goes with
      `isStarting`. Words, time left and countdown value are left as they
      were. */
  function Restart(s: State): (r: Step)
    ensures PhaseOf(r.next) == Idle && !r.next.intervalLive && r.next.currentIndex == 0
    ensures r.next.words == s.words && r.next.timeLeft == s.timeLeft
    ensures r.next.startCount == s.startCount && r.next.secondsPerWord == s.secondsPerWord
    ensures r.effects == [CancelSpeech]
    ensures Inv(s) ==> Inv(r.next)
  {
    Step(s.(isPlaying := false, isFinished := false, isStarting := false, currentIndex := 0,
            intervalLive := false),
         [CancelSpeech])
  }

  /** One run of the countdown effect (src/App.jsx:108-127). While the
      count is positive this is its one-second timeout firing: the count
      drops by one and a tick sounds unless it reached zero. At zero the
      effect starts the game at once: the first word is shown, the change
      cue sounds, the word is spoken, and the interval is created (the
      effect at lines 129-148 reacting to `isPlaying`). Outside the
      starting phase nothing happens. */
  function Countdown(s: State): (r: Step)
    requires Inv(s)
    ensures Inv(r.next)
    ensures !s.isStarting ==> r == Step(s, [])
    ensures s.isStarting && s.startCount > 0 ==>
      && PhaseOf(r.next) == Starting
      && r.next.startCount == s.startCount - 1
      && r.next.(startCount := s.startCount) == s
      && (r.effects == [Play(Tick)] <==> r.next.startCount > 0)
      && (r.effects == [] <==> r.next.startCount == 0)
    ensures s.isStarting && s.startCount == 0 ==>
      && PhaseOf(r.next) == Active && r.next.intervalLive
      && r.next.currentIndex == 0 && r.next.timeLeft == s.secondsPerWord
      && r.next.words == s.words
      && r.next == s.(isStarting := false, isPlaying := true, intervalLive := true)
      && r.effects == [Play(Change), Speak(s.words[0])]
  {
    if !s.isStarting then Step(s, [])
    else if s.startCount > 0 then
      var next := s.startCount - 1;
      Step(s.(startCount := next), if next > 0 then [Play(Tick)] else [])
    else
      Step(s.(isStarting := false, isPlaying := true, intervalLive := true),
           [Play(Change), Speak(s.words[0])])
  }

  function Max(a: int, b: int): int { if a < b then b else a }

  function Min(a: int, b: int): int { if a < b then a else b }

  /** One firing of the per-second interval (src/App.jsx:132-143): one
      second less, never below zero, and a warning on every second that
      leaves between one and three seconds. Without an interval nothing
      happens. */
  function IntervalTick(s: State): (r: Step)
    requires Inv(s)
    ensures Inv(r.next)
    ensures !s.intervalLive ==> r == Step(s, [])
    ensures s.intervalLive ==>
      && PhaseOf(r.next) == Active
      && r.next.timeLeft == Max(s.timeLeft - 1, 0)
      && r.next.(timeLeft := s.timeLeft) == s
      && (r.effects == [Play(Warning)] <==> 0 < r.next.timeLeft <= 3)
      && (r.effects == [] <==> !(0 < r.next.timeLeft <= 3))
  {
    if !s.intervalLive then Step(s, [])
    else
      var newValue := s.timeLeft - 1;
      Step(s.(timeLeft := if newValue <= 0 then 0 else newValue),
           if newValue > 0 && newValue <= 3 then [Play(Warning)] else [])
  }

  /** The reaction to time running out (src/App.jsx:150-164): the next word
      if there is one, with the full time, the change cue and the word
      spoken; otherwise the session is finished, the interval goes (the
      cleanup at lines 145-147) and the finish cue sounds. */
  function AdvanceOrFinish(s: State): (r: Step)
    requires Inv(s)
    ensures Inv(r.next)
    ensures !(s.isPlaying && s.timeLeft == 0) ==> r == Step(s, [])
    ensures s.isPlaying && s.timeLeft == 0 && s.currentIndex + 1 < |s.words| ==>
      && PhaseOf(r.next) == Active
      && r.next.currentIndex == s.currentIndex + 1
      && r.next.timeLeft == s.secondsPerWord
      && r.next.(currentIndex := s.currentIndex, timeLeft := s.timeLeft) == s
      && r.effects == [Play(Change), Speak(s.words[r.next.currentIndex])]
    ensures s.isPlaying && s.timeLeft == 0 && s.currentIndex + 1 >= |s.words| ==>
      && PhaseOf(r.next) == Finished && !r.next.intervalLive
      && r.next.currentIndex == s.currentIndex == |s.words| - 1
      && r.next == s.(isPlaying := false, isFinished := true, intervalLive := false)
      && r.effects == [Play(Finish)]
  {
    if s.isPlaying && s.timeLeft == 0 then
      var nextIndex := s.currentIndex + 1;
      if nextIndex < |s.words| then
        Step(s.(currentIndex := nextIndex, timeLeft := s.secondsPerWord),
             [Play(Change), Speak(s.words[nextIndex])])
      else
        Step(s.(isPlaying := false, isFinished := true, intervalLive := false), [Play(Finish)])
    else Step(s, [])
  }

  // -----------------------------------------------------------------------
  // Events and the phase machine

  /** Everything that can happen to the component: the two buttons and the
      three timer-driven reactions. */
  datatype Event =
    | StartPressed(inputText: string, timeInput: int)
    | CountdownFired
    | IntervalFired
    | TimeLeftChanged
    | RestartPressed

  /** The effect of an event. The start button exists only on the form, so
      pressing it in another phase is not possible and changes nothing. */
  function Apply(s: State, e: Event): (r: Step)
    requires Inv(s)
    ensures Inv(r.next)
    ensures e.StartPressed? && PhaseOf(s) != Idle ==> r == Step(s, [])
    ensures e.StartPressed? && PhaseOf(s) == Idle && Start(s, e.inputText, e.timeInput).Rejected?
      ==> r == Step(s, [])
    ensures e.StartPressed? && PhaseOf(s) == Idle && Start(s, e.inputText, e.timeInput).Started?
      ==> r == Start(s, e.inputText, e.timeInput).step
  {
    match e
    case StartPressed(text, secs) =>
      if PhaseOf(s) != Idle then Step(s, [])
      else
        (match Start(s, text, secs)
         case Started(step) => step
         case Rejected(_) => Step(s, []))
    case CountdownFired => Countdown(s)
    case IntervalFired => IntervalTick(s)
    case TimeLeftChanged => AdvanceOrFinish(s)
    case RestartPressed => Restart(s)
  }

  /** The state after a sequence of events, and all effects requested. */
  function Run(s: State, events: seq<Event>): (r: Step)
    requires Inv(s)
    ensures Inv(r.next)
    decreases |events|
  {
    if events == [] then Step(s, [])
    else
      var first := Apply(s, events[0]);
      var rest := Run(first.next, events[1..]);
      Step(rest.next, first.effects + rest.effects)
  }

  /** The moves of the phase machine: Idle to Starting on a valid start,
      Starting to Active when the countdown ends, Active to Finished after
      the last word, and any phase back to Idle on restart. */
  predicate Allowed(from: Phase, e: Event, to: Phase) {
    || from == to
    || (from == Idle && e.StartPressed? && to == Starting)
    || (from == Starting && e == CountdownFired && to == Active)
    || (from == Active && e == TimeLeftChanged && to == Finished)
    || (e == RestartPressed && to == Idle)
  }

  /** No event makes a move outside the phase machine. */
  lemma PhaseMoves(s: State, e: Event)
    requires Inv(s)
    ensures Allowed(PhaseOf(s), e, PhaseOf(Apply(s, e).next))
  {
  }

  /** Every state reached from the mounted component satisfies Inv: the
      three phases never overlap, the interval lives exactly while playing,
      time left stays within the session's duration, and the current word
      always exists during a session. */
  lemma Reachable(events: seq<Event>)
    ensures var t := Run(Initial(), events).next;
      && Inv(t)
      && (t.isStarting ==> !t.isPlaying && !t.isFinished)
      && (t.isPlaying ==> !t.isFinished)
      && t.intervalLive == t.isPlaying
      && 0 <= t.timeLeft <= t.secondsPerWord
      && (PhaseOf(t) != Idle ==> 0 <= t.currentIndex < |t.words|)
  {
  }

  /** The current word moves only forward, by exactly one, and only when the
      time of the previous one ran out; the session restarts it at zero. */
  lemma IndexMoves(s: State, e: Event)
    requires Inv(s)
    ensures var t := Apply(s, e).next;
      || t.currentIndex == s.currentIndex
      || (t.currentIndex == s.currentIndex + 1 && e == TimeLeftChanged
          && s.isPlaying && s.timeLeft == 0 && t.currentIndex < |t.words|)
      || (t.currentIndex == 0 && (e.StartPressed? || e == RestartPressed))
  {
  }

  /** Time left only falls, one second per interval firing, and is only
      raised back to the full duration by a new start or a new word. */
  lemma TimeLeftMoves(s: State, e: Event)
    requires Inv(s)
    ensures var t := Apply(s, e).next;
      || t.timeLeft == s.timeLeft
      || (t.timeLeft == s.timeLeft - 1 && e == IntervalFired && s.isPlaying)
      || (t.timeLeft == t.secondsPerWord && (e.StartPressed? || e == TimeLeftChanged))
  {
  }

  /** Restart is idempotent, and once it has run no timer is left: no
      countdown, interval or time-out reaction changes anything until the
      next start. */
  lemma RestartQuiesces(s: State)
    requires Inv(s)
    ensures var q := Restart(s).next;
      && Restart(q).next == q
      && Countdown(q) == Step(q, [])
      && IntervalTick(q) == Step(q, [])
      && AdvanceOrFinish(q) == Step(q, [])
  {
  }

  /** A start after a restart in the middle of the countdown begins a fresh
      countdown from three. */
  lemma RestartThenStart(s: State, inputText: string, timeInput: int)
    requires Inv(s) && s.isStarting
    requires ParseWords(inputText) != [] && timeInput > 0
    ensures var r := Start(Restart(s).next, inputText, timeInput);
      r.Started? && r.step.next.startCount == 3 && PhaseOf(r.step.next) == Starting
  {
  }
}
