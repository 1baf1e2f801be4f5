/**
 * One finished (or abandoned) focus session as it is logged. The derived
 * fields are computed once from the arguments; the ratios are exact reals.
 */
module Session {
  import opened Wrappers
  import opened Numbers
  import opened Formatting
  import opened SubGoals

  const Platform: string := "macOS"

  datatype SessionData = SessionData(
    sessionId: nat,
    title: string,
    plannedDurationSeconds: int,
    actualDurationSeconds: Option<int>,
    startTime: int,
    endTime: Option<int>,
    loggedAt: int,
    wasCompleted: bool,
    wasInterrupted: bool,
    completionPercentage: real,
    totalSubGoals: int,
    completedSubGoals: int,
    subGoalCompletionRate: real,
    completedSubGoalTexts: seq<string>,
    pendingSubGoalTexts: seq<string>,
    appVersion: Option<string>,
    platform: string)

  /**
   * Time completion: actual / planned capped at 1 when the actual duration
   * is known, else all or nothing by the completed flag. A known duration
   * over a zero plan is a division by zero and is excluded.
   */
  function CompletionPercentage(planned: int, actual: Option<int>, wasCompleted: bool): real
    requires actual.Some? ==> planned != 0
  {
    match actual
    case Some(a) =>
      var ratio := (a as real) / (planned as real);
      if 1.0 <= ratio then 1.0 else ratio
    case None => if wasCompleted then 1.0 else 0.0
  }

  /** Sub-goal completion: completed / total, or 1 when there are no sub-goals. */
  function SubGoalCompletionRate(completed: nat, total: nat): real
    requires completed <= total
  {
    if total > 0 then (completed as real) / (total as real) else 1.0
  }

  /**
   * `SessionData.init`. `sessionId` stands for the fresh UUID and `now` for
   * the logging time.
   */
  function NewSessionData(sessionId: nat, title: string, planned: int, actual: Option<int>,
                          startTime: int, endTime: Option<int>, wasCompleted: bool,
                          wasInterrupted: bool, summary: GoalsSummary,
                          appVersion: Option<string>, now: int): SessionData
    requires actual.Some? ==> planned != 0
  {
    var total := |summary.completed| + |summary.pending|;
    SessionData(sessionId, title, planned, actual, startTime, endTime, now,
                wasCompleted, wasInterrupted,
                CompletionPercentage(planned, actual, wasCompleted),
                total, |summary.completed|,
                SubGoalCompletionRate(|summary.completed|, total),
                summary.completed, summary.pending, appVersion, Platform)
  }

  function Outcome(d: SessionData): string {
    if d.wasCompleted then "completed"
    else if d.wasInterrupted then "interrupted"
    else "incomplete"
  }

  /** The mean of time completion and sub-goal completion. */
  function EffectivenessScore(d: SessionData): real {
    (d.completionPercentage + d.subGoalCompletionRate) / 2.0
  }

  /** "m:ss" of the actual duration, 0 when it is unknown. */
  function FormattedDuration(d: SessionData): string {
    MinutesClockText(d.actualDurationSeconds.GetOr(0))
  }

  // ---------------------------------------------------------------------------
  // Properties

  /** The arguments are stored unchanged, and the sub-goal counts come from the two lists. */
  lemma NewSessionDataStores(sessionId: nat, title: string, planned: int, actual: Option<int>,
                             startTime: int, endTime: Option<int>, wasCompleted: bool,
                             wasInterrupted: bool, summary: GoalsSummary,
                             appVersion: Option<string>, now: int)
    requires actual.Some? ==> planned != 0
    ensures var d := NewSessionData(sessionId, title, planned, actual, startTime, endTime,
                                    wasCompleted, wasInterrupted, summary, appVersion, now);
      d.sessionId == sessionId && d.title == title && d.plannedDurationSeconds == planned
      && d.actualDurationSeconds == actual && d.startTime == startTime && d.endTime == endTime
      && d.loggedAt == now && d.wasCompleted == wasCompleted && d.wasInterrupted == wasInterrupted
      && d.appVersion == appVersion && d.platform == "macOS"
      && d.completedSubGoalTexts == summary.completed && d.pendingSubGoalTexts == summary.pending
      && d.totalSubGoals == |summary.completed| + |summary.pending|
      && d.completedSubGoals == |summary.completed|
      && 0 <= d.completedSubGoals <= d.totalSubGoals
  {
  }

  /** The sub-goal completion rate lies in [0, 1] and is 1 exactly when every sub-goal is completed (or there are none). */
  lemma SubGoalCompletionRateBounds(completed: nat, total: nat)
    requires completed <= total
    ensures 0.0 <= SubGoalCompletionRate(completed, total) <= 1.0
    ensures SubGoalCompletionRate(completed, total) == 1.0 <==> completed == total
  {
    if total > 0 {
      RatioBounds(completed as real, total as real);
      RatioIsOne(completed as real, total as real);
    }
  }

  /**
   * Time completion never exceeds 1; with a known non-negative duration and a
   * positive plan it is min(1, actual / planned), and without a duration it
   * is 1 or 0 by the completed flag.
   */
  lemma CompletionPercentageBounds(planned: int, actual: Option<int>, wasCompleted: bool)
    requires actual.Some? ==> planned != 0
    ensures CompletionPercentage(planned, actual, wasCompleted) <= 1.0
    ensures actual.Some? && planned > 0 && actual.value >= 0 ==>
      0.0 <= CompletionPercentage(planned, actual, wasCompleted)
      && (CompletionPercentage(planned, actual, wasCompleted) == 1.0 <==> actual.value >= planned)
    ensures actual.None? ==>
      CompletionPercentage(planned, actual, wasCompleted) == (if wasCompleted then 1.0 else 0.0)
  {
    if actual.Some? && planned > 0 && actual.value >= 0 {
      var p, a := planned as real, actual.value as real;
      if a >= p {
        RatioAtLeastOne(a, p);
      } else {
        RatioBounds(a, p);
        RatioIsOne(a, p);
      }
    }
  }

  /**
   * With a non-negative duration and a positive plan (or no duration), the
   * effectiveness score lies in [0, 1] and reaches 1 exactly when both the
   * time and the sub-goals are complete.
   */
  lemma EffectivenessBounds(sessionId: nat, title: string, planned: int, actual: Option<int>,
                            startTime: int, endTime: Option<int>, wasCompleted: bool,
                            wasInterrupted: bool, summary: GoalsSummary,
                            appVersion: Option<string>, now: int)
    requires actual.Some? ==> planned > 0 && actual.value >= 0
    ensures var d := NewSessionData(sessionId, title, planned, actual, startTime, endTime,
                                    wasCompleted, wasInterrupted, summary, appVersion, now);
      0.0 <= EffectivenessScore(d) <= 1.0
      && (EffectivenessScore(d) == 1.0 <==>
            d.completionPercentage == 1.0 && d.completedSubGoals == d.totalSubGoals)
  {
    var total := |summary.completed| + |summary.pending|;
    CompletionPercentageBounds(planned, actual, wasCompleted);
    SubGoalCompletionRateBounds(|summary.completed|, total);
  }

  /** The outcome is "completed" whenever the session completed, even if also interrupted. */
  lemma OutcomeCases(d: SessionData)
    ensures Outcome(d) == "completed" <==> d.wasCompleted
    ensures Outcome(d) == "interrupted" <==> !d.wasCompleted && d.wasInterrupted
    ensures Outcome(d) == "incomplete" <==> !d.wasCompleted && !d.wasInterrupted
  {
  }

  /** The formatted duration reads back as the actual duration (0 when unknown), for non-negative durations. */
  lemma FormattedDurationRoundTrip(d: SessionData)
    requires d.actualDurationSeconds.GetOr(0) >= 0
    ensures ParseClock(FormattedDuration(d)) == Some(d.actualDurationSeconds.GetOr(0))
  {
    MinutesClockTextRoundTrip(d.actualDurationSeconds.GetOr(0));
  }
}
