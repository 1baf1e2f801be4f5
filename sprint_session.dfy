/**
 * `SprintSession`: a small session state machine. Its `mutating` methods
 * update the fields in place; `SprintState` is the value of those fields, and
 * each method is specified by the function that maps the old value to the
 * new one. `now` stands for `Date()` in whole seconds.
 */
module Sprint {
  import opened Wrappers
  import opened Numbers

  /** The fields of a `SprintSession`. */
  datatype SprintState = SprintState(
    id: nat,
    title: string,
    plannedDurationSeconds: int,
    startTime: Option<int>,
    endTime: Option<int>,
    isRunning: bool,
    remainingSeconds: int)
  {
    /** After `start()`: running from `now`, without a guard against running already. */
    function Started(now: int): SprintState {
      this.(isRunning := true, startTime := Some(now))
    }

    /** After `stop()`: stopped at `now`. */
    function Stopped(now: int): SprintState {
      this.(isRunning := false, endTime := Some(now))
    }

    /** After `reset()`: stopped, no times, the full planned duration remaining. */
    function Cleared(): SprintState {
      this.(isRunning := false, startTime := None, endTime := None,
            remainingSeconds := plannedDurationSeconds)
    }

    /** `actualDurationSeconds`: end − start when both are known. */
    function ActualDurationSeconds(): Option<int> {
      if startTime.Some? && endTime.Some? then Some(endTime.value - startTime.value) else None
    }

    predicate IsCompleted() {
      endTime.Some? && remainingSeconds == 0
    }

    /** `progressPercentage`: the elapsed share of the plan; a zero plan would divide by zero. */
    function ProgressPercentage(): real
      requires plannedDurationSeconds != 0
    {
      ((plannedDurationSeconds - remainingSeconds) as real) / (plannedDurationSeconds as real)
    }
  }

  /** The fields right after `init(title:durationSeconds:)`; `id` stands for the fresh UUID. */
  function Initial(id: nat, title: string, durationSeconds: int): SprintState {
    SprintState(id, title, durationSeconds, None, None, false, durationSeconds)
  }

  // ---------------------------------------------------------------------------
  // Properties

  /** A new session is exactly a reset one: nothing started, nothing ended, the full plan remaining. */
  lemma InitialIsCleared(id: nat, title: string, durationSeconds: int)
    ensures var s := Initial(id, title, durationSeconds);
      s.Cleared() == s && s.remainingSeconds == s.plannedDurationSeconds == durationSeconds
      && !s.isRunning && s.ActualDurationSeconds().None? && !s.IsCompleted()
  {
  }

  /** Start changes only the running flag and start time; stop only the running flag and end time. */
  lemma StartStopTouchOnly(s: SprintState, now: int)
    ensures s.Started(now).(isRunning := s.isRunning, startTime := s.startTime) == s
    ensures s.Started(now).isRunning && s.Started(now).startTime == Some(now)
    ensures s.Stopped(now).(isRunning := s.isRunning, endTime := s.endTime) == s
    ensures !s.Stopped(now).isRunning && s.Stopped(now).endTime == Some(now)
  {
  }

  /** Reset forgets any run: whatever happened since, resetting gives the same state, which is not completed. */
  lemma ResetForgetsRun(s: SprintState, t1: int, t2: int)
    ensures s.Started(t1).Stopped(t2).Cleared() == s.Cleared()
    ensures s.Cleared().Cleared() == s.Cleared()
    ensures !s.Cleared().IsCompleted() && s.Cleared().ActualDurationSeconds().None?
    ensures s.Cleared().title == s.title && s.Cleared().plannedDurationSeconds == s.plannedDurationSeconds
  {
  }

  /** A started-then-stopped session lasted end − start; the duration is known exactly when both times are. */
  lemma ActualDurationSpec(s: SprintState, t1: int, t2: int)
    ensures s.Started(t1).Stopped(t2).ActualDurationSeconds() == Some(t2 - t1)
    ensures s.ActualDurationSeconds().Some? <==> s.startTime.Some? && s.endTime.Some?
  {
  }

  /** Progress is 0 with the full plan remaining and 1 exactly when nothing remains. */
  lemma ProgressSpec(s: SprintState)
    requires s.plannedDurationSeconds != 0
    ensures s.Cleared().ProgressPercentage() == 0.0
    ensures s.ProgressPercentage() == 1.0 <==> s.remainingSeconds == 0
  {
    var p, r := s.plannedDurationSeconds as real, s.remainingSeconds as real;
    RatioIsOne(p - r, p);
  }

  // ---------------------------------------------------------------------------
  // The session object

  class SprintSession {
    const id: nat
    var title: string
    var plannedDurationSeconds: int
    var startTime: Option<int>
    var endTime: Option<int>
    var isRunning: bool
    var remainingSeconds: int

    function State(): SprintState
      reads this
    {
      SprintState(id, title, plannedDurationSeconds, startTime, endTime, isRunning, remainingSeconds)
    }

    /** `init(title:durationSeconds:)`. */
    constructor (id: nat, title: string, durationSeconds: int)
      ensures State() == Initial(id, title, durationSeconds)
    {
      this.id := id;
      this.title := title;
      plannedDurationSeconds := durationSeconds;
      startTime := None;
      endTime := None;
      isRunning := false;
      remainingSeconds := durationSeconds;
    }

    /** `start()`. */
    method Start(now: int)
      modifies this
      ensures State() == old(State()).Started(now)
    {
      isRunning := true;
      startTime := Some(now);
    }

    /** `stop()`. */
    method Stop(now: int)
      modifies this
      ensures State() == old(State()).Stopped(now)
    {
      isRunning := false;
      endTime := Some(now);
    }

    /** `reset()`. */
    method Reset()
      modifies this
      ensures State() == old(State()).Cleared()
    {
      isRunning := false;
      startTime := None;
      endTime := None;
      remainingSeconds := plannedDurationSeconds;
    }
  }
}
