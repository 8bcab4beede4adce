/** The App component (src/App.jsx:57-171) as an object: its state hooks
    are fields that the handlers and the effect callbacks update one setter
    at a time, and `log` collects, in order, the sounds and speech the
    component has requested so far. Every handler is proved to do what the
    matching transition of the Session module says, so the properties
    proved there hold of the object. */
module TrainerApp {
  import opened Words
  import opened Session

  /** What the start button reports: success, or the alert it shows. */
  datatype Outcome = Success | Failure(error: StartError)

  class App {
    var words: seq<string>
    var currentIndex: int
    var timeLeft: int
    var startCount: int
    var secondsPerWord: int
    var isStarting: bool
    var isPlaying: bool
    var isFinished: bool
    var intervalLive: bool
    var log: seq<Effect>

    /** The component's state as a value. */
    function Snapshot(): State
      reads this
    {
      State(words, currentIndex, timeLeft, startCount, secondsPerWord,
            isStarting, isPlaying, isFinished, intervalLive)
    }

    ghost predicate Valid()
      reads this
    {
      Inv(Snapshot())
    }

    /** Mounting: the initial values of the hooks, nothing requested yet. */
    constructor ()
      ensures Valid() && Snapshot() == Initial() && log == []
    {
      words := [];
      currentIndex := 0;
      timeLeft := 0;
      startCount := 3;
      secondsPerWord := 3;
      isStarting := false;
      isPlaying := false;
      isFinished := false;
      intervalLive := false;
      log := [];
    }

    /** handleStart (src/App.jsx:76-96), with the text area's contents and
        the duration field's value. A refused start reports the first
        problem found and changes nothing; an accepted one begins the
        countdown with a tick. */
    method HandleStart(inputText: string, timeInput: int) returns (r: Outcome)
      requires Valid() && PhaseOf(Snapshot()) == Idle
      modifies this
      ensures Valid()
      ensures var res := Start(old(Snapshot()), inputText, timeInput);
        && (res.Rejected? ==> r == Failure(res.error) && unchanged(this))
        && (res.Started? ==> r == Success && Snapshot() == res.step.next
                             && log == old(log) + res.step.effects)
    {
      var wordList := ParseWords(inputText);
      if |wordList| == 0 {
        return Failure(EmptyWordList);
      }
      if timeInput <= 0 {
        return Failure(NonPositiveDuration);
      }
      words := wordList;
      currentIndex := 0;
      isFinished := false;
      timeLeft := timeInput;
      secondsPerWord := timeInput;
      isStarting := true;
      startCount := 3;
      log := log + [Play(Tick)];
      r := Success;
    }

    /** handleRestart (src/App.jsx:98-105): back to the form, speech
        cancelled, the interval cleared. */
    method HandleRestart()
      requires Valid()
      modifies this
      ensures Valid()
      ensures Snapshot() == Restart(old(Snapshot())).next
      ensures log == old(log) + Restart(old(Snapshot())).effects
      ensures PhaseOf(Snapshot()) == Idle && !intervalLive
    {
      isPlaying := false;
      isFinished := false;
      isStarting := false;
      currentIndex := 0;
      log := log + [CancelSpeech];
      intervalLive := false;
    }

    /** One run of the countdown effect (src/App.jsx:108-127): the timeout
        firing while the count is positive, the start of the game at zero. */
    method CountdownStep()
      requires Valid()
      modifies this
      ensures Valid()
      ensures Snapshot() == Countdown(old(Snapshot())).next
      ensures log == old(log) + Countdown(old(Snapshot())).effects
    {
      if !isStarting {
        return;
      }
      if startCount > 0 {
        var next := startCount - 1;
        if next > 0 {
          log := log + [Play(Tick)];
        }
        startCount := next;
      } else {
        isStarting := false;
        isPlaying := true;
        log := log + [Play(Change), Speak(words[0])];
        // the interval effect reacts to `isPlaying`
        intervalLive := true;
      }
    }

    /** One firing of the interval (src/App.jsx:132-143). */
    method IntervalFired()
      requires Valid()
      modifies this
      ensures Valid()
      ensures Snapshot() == IntervalTick(old(Snapshot())).next
      ensures log == old(log) + IntervalTick(old(Snapshot())).effects
    {
      if !intervalLive {
        return;
      }
      var newValue := timeLeft - 1;
      if newValue > 0 && newValue <= 3 {
        log := log + [Play(Warning)];
      }
      if newValue <= 0 {
        timeLeft := 0;
      } else {
        timeLeft := newValue;
      }
    }

    /** The reaction to a change of the time left (src/App.jsx:150-164). */
    method TimeLeftChanged()
      requires Valid()
      modifies this
      ensures Valid()
      ensures Snapshot() == AdvanceOrFinish(old(Snapshot())).next
      ensures log == old(log) + AdvanceOrFinish(old(Snapshot())).effects
    {
      if isPlaying && timeLeft == 0 {
        var nextIndex := currentIndex + 1;
        if nextIndex < |words| {
          currentIndex := nextIndex;
          timeLeft := secondsPerWord;
          log := log + [Play(Change), Speak(words[nextIndex])];
        } else {
          isPlaying := false;
          isFinished := true;
          log := log + [Play(Finish)];
          // the cleanup of the interval effect
          intervalLive := false;
        }
      }
    }
  }
}
