/**
 * The ordered sub-goal checklist. Mutations change the list in place and
 * then write the whole list back through `TimerDefaults`; counts, progress
 * and the session summary are functions of the list.
 */
module SubGoals {
  import opened Wrappers
  import opened Numbers
  import opened Store
  import opened SubGoalModel
  import opened Strings
  import opened Defaults

  // ---------------------------------------------------------------------------
  // Views of the list

  /** The items satisfying `keep`, in list order (Swift's `filter`). */
  function Filter(gs: seq<SubGoal>, keep: SubGoal -> bool): (r: seq<SubGoal>)
    ensures |r| <= |gs|
  {
    if gs == [] then []
    else if keep(gs[0]) then [gs[0]] + Filter(gs[1..], keep)
    else Filter(gs[1..], keep)
  }

  predicate IsCompleted(g: SubGoal) {
    g.isCompleted
  }

  predicate IsPending(g: SubGoal) {
    !g.isCompleted
  }

  function Completed(gs: seq<SubGoal>): seq<SubGoal> {
    Filter(gs, IsCompleted)
  }

  function Pending(gs: seq<SubGoal>): seq<SubGoal> {
    Filter(gs, IsPending)
  }

  /** The goals whose id differs from `id` (what `removeAll { $0.id == id }` keeps). */
  function WithoutId(gs: seq<SubGoal>, id: Id): seq<SubGoal> {
    Filter(gs, OtherId(id))
  }

  /** The test "has an id other than `id`". */
  function OtherId(id: Id): SubGoal -> bool {
    (g: SubGoal) => g.id != id
  }

  function Texts(gs: seq<SubGoal>): (r: seq<string>)
    ensures |r| == |gs|
  {
    seq(|gs|, i requires 0 <= i < |gs| => gs[i].text)
  }

  /** `completedGoalsCount`. */
  function CompletedCount(gs: seq<SubGoal>): nat {
    |Completed(gs)|
  }

  /** `progressPercentage`: 0 for an empty list, else completed / total. */
  function ProgressPercentage(gs: seq<SubGoal>): real {
    if |gs| == 0 then 0.0 else (CompletedCount(gs) as real) / (|gs| as real)
  }

  /** `allGoalsCompleted`. */
  predicate AllGoalsCompleted(gs: seq<SubGoal>) {
    |gs| > 0 && CompletedCount(gs) == |gs|
  }

  /** The two lists of `getSessionSummary()`. */
  datatype GoalsSummary = GoalsSummary(completed: seq<string>, pending: seq<string>)

  function SessionSummary(gs: seq<SubGoal>): GoalsSummary {
    GoalsSummary(Texts(Completed(gs)), Texts(Pending(gs)))
  }

  /** The index of the first goal with the given id (Swift's `firstIndex(where:)`). */
  function FirstIndexOf(gs: seq<SubGoal>, id: Id): Option<nat>
    decreases |gs|
  {
    if gs == [] then None
    else if gs[0].id == id then Some(0)
    else match FirstIndexOf(gs[1..], id)
      case None => None
      case Some(i) => Some(i + 1)
  }

  /** The list with goal `i`'s completion flipped. */
  function Toggled(gs: seq<SubGoal>, i: nat): seq<SubGoal>
    requires i < |gs|
  {
    gs[i := gs[i].(isCompleted := !gs[i].isCompleted)]
  }

  /** Every goal marked completed, nothing else changed. */
  function AllMarkedCompleted(gs: seq<SubGoal>): seq<SubGoal> {
    seq(|gs|, i requires 0 <= i < |gs| => gs[i].(isCompleted := true))
  }

  /** No two goals share an id. */
  predicate UniqueIds(gs: seq<SubGoal>) {
    forall i, j :: 0 <= i < j < |gs| ==> gs[i].id != gs[j].id
  }

  // ---------------------------------------------------------------------------
  // Properties

  /** Filtering keeps exactly the items that satisfy the test. */
  lemma {:induction false} FilterMembers(gs: seq<SubGoal>, keep: SubGoal -> bool)
    ensures forall g :: g in Filter(gs, keep) <==> g in gs && keep(g)
    decreases |gs|
  {
    if gs != [] {
      FilterMembers(gs[1..], keep);
      assert forall g :: g in gs <==> g == gs[0] || g in gs[1..];
    }
  }

  /** Filtering a concatenation filters each part: the relative order of the kept items is preserved. */
  lemma {:induction false} FilterConcat(a: seq<SubGoal>, b: seq<SubGoal>, keep: SubGoal -> bool)
    ensures Filter(a + b, keep) == Filter(a, keep) + Filter(b, keep)
    decreases |a|
  {
    if a == [] {
      assert a + b == b;
    } else {
      assert (a + b)[1..] == a[1..] + b;
      FilterConcat(a[1..], b, keep);
    }
  }

  /** Every goal is either completed or pending, so the two counts add up to the total. */
  lemma {:induction false} CompletedPendingPartition(gs: seq<SubGoal>)
    ensures |Completed(gs)| + |Pending(gs)| == |gs|
    decreases |gs|
  {
    if gs != [] {
      CompletedPendingPartition(gs[1..]);
    }
  }

  /** The completed count reaches the total exactly when every goal is completed. */
  lemma {:induction false} CompletedCountFull(gs: seq<SubGoal>)
    ensures CompletedCount(gs) <= |gs|
    ensures CompletedCount(gs) == |gs| <==> forall i :: 0 <= i < |gs| ==> gs[i].isCompleted
    decreases |gs|
  {
    if gs != [] {
      CompletedCountFull(gs[1..]);
      assert forall i :: 1 <= i < |gs| ==> gs[i] == gs[1..][i - 1];
    }
  }

  /** `allGoalsCompleted` holds exactly for a non-empty list with every goal completed. */
  lemma AllGoalsCompletedIff(gs: seq<SubGoal>)
    ensures AllGoalsCompleted(gs) <==> |gs| > 0 && forall i :: 0 <= i < |gs| ==> gs[i].isCompleted
  {
    CompletedCountFull(gs);
  }

  /** Progress lies in [0, 1] and is 1 exactly when all goals are completed. */
  lemma ProgressBounds(gs: seq<SubGoal>)
    ensures |gs| == 0 ==> ProgressPercentage(gs) == 0.0
    ensures 0.0 <= ProgressPercentage(gs) <= 1.0
    ensures ProgressPercentage(gs) == 1.0 <==> AllGoalsCompleted(gs)
  {
    CompletedCountFull(gs);
    if |gs| > 0 {
      var c, n := CompletedCount(gs) as real, |gs| as real;
      RatioBounds(c, n);
      RatioIsOne(c, n);
    }
  }

  /** The summary lists the completed and the pending texts; their sizes match the counts. */
  lemma SummaryCounts(gs: seq<SubGoal>)
    ensures |SessionSummary(gs).completed| == CompletedCount(gs)
    ensures |SessionSummary(gs).completed| + |SessionSummary(gs).pending| == |gs|
  {
    CompletedPendingPartition(gs);
  }

  /** `FirstIndexOf` finds the first goal with the id, or reports that there is none. */
  lemma {:induction false} FirstIndexOfSpec(gs: seq<SubGoal>, id: Id)
    ensures FirstIndexOf(gs, id).None? <==> forall k :: 0 <= k < |gs| ==> gs[k].id != id
    ensures FirstIndexOf(gs, id).Some? ==>
      var i := FirstIndexOf(gs, id).value;
      i < |gs| && gs[i].id == id && forall k :: 0 <= k < i ==> gs[k].id != id
    decreases |gs|
  {
    if gs != [] && gs[0].id != id {
      FirstIndexOfSpec(gs[1..], id);
      assert forall k :: 1 <= k < |gs| ==> gs[k] == gs[1..][k - 1];
    }
  }

  /** Marking all completed keeps length, ids and texts, and then all goals are completed iff there is one. */
  lemma MarkAllCompletedSpec(gs: seq<SubGoal>)
    ensures |AllMarkedCompleted(gs)| == |gs|
    ensures forall i :: 0 <= i < |gs| ==>
      AllMarkedCompleted(gs)[i].id == gs[i].id && AllMarkedCompleted(gs)[i].text == gs[i].text
    ensures AllGoalsCompleted(AllMarkedCompleted(gs)) <==> |gs| > 0
  {
    AllGoalsCompletedIff(AllMarkedCompleted(gs));
  }

  /** Filtering keeps ids distinct. */
  lemma {:induction false} FilterKeepsUniqueIds(gs: seq<SubGoal>, keep: SubGoal -> bool)
    requires UniqueIds(gs)
    ensures UniqueIds(Filter(gs, keep))
    decreases |gs|
  {
    if gs != [] {
      FilterKeepsUniqueIds(gs[1..], keep);
      FilterMembers(gs[1..], keep);
      var r := Filter(gs, keep);
      if keep(gs[0]) {
        forall j | 1 <= j < |r|
          ensures r[0].id != r[j].id
        {
          assert r[j] in Filter(gs[1..], keep);
          var k :| 0 <= k < |gs[1..]| && gs[1..][k] == r[j];
          assert gs[k + 1] == r[j];
        }
        assert forall i, j :: 1 <= i < j < |r| ==> r[i] == Filter(gs[1..], keep)[i - 1] && r[j] == Filter(gs[1..], keep)[j - 1];
      }
    }
  }

  /** Filtering keeps every id below a bound that all ids were below. */
  lemma FilterKeepsIdsBelow(gs: seq<SubGoal>, keep: SubGoal -> bool, bound: Id)
    requires forall i :: 0 <= i < |gs| ==> gs[i].id < bound
    ensures forall i :: 0 <= i < |Filter(gs, keep)| ==> Filter(gs, keep)[i].id < bound
  {
    FilterMembers(gs, keep);
    var r := Filter(gs, keep);
    forall i | 0 <= i < |r|
      ensures r[i].id < bound
    {
      assert r[i] in gs;
    }
  }

  // ---------------------------------------------------------------------------
  // The manager

  class SubGoalsManager {
    var subGoals: seq<SubGoal>
    /** The next fresh id; stands for `UUID()`. */
    var nextId: Id
    const persistence: TimerDefaults

    /** Ids are distinct and all below the next fresh one. */
    ghost predicate Valid()
      reads this
    {
      UniqueIds(subGoals) && forall i :: 0 <= i < |subGoals| ==> subGoals[i].id < nextId
    }

    /** `init`: loads the stored list, giving its items fresh ids from `firstId`. */
    constructor (persistence: TimerDefaults, firstId: Id)
      ensures Valid() && this.persistence == persistence
      ensures subGoals == LoadSubGoals(persistence.defaults.entries, firstId)
    {
      this.persistence := persistence;
      var loaded := LoadSubGoals(persistence.defaults.entries, firstId);
      var doc := DataFor(persistence.defaults.entries, SubGoalsKey);
      if doc.Some? && DecodeList(doc.value, firstId).Some? {
        DecodeItemsAllOrNothing(doc.value.items, firstId);
        assert forall i :: 0 <= i < |loaded| ==> loaded[i].id == firstId + i;
      }
      subGoals := loaded;
      nextId := firstId + |loaded|;
    }

    /** `addGoal`: appends one pending goal with the trimmed text (empty text included) and saves. */
    method AddGoal(text: string, now: int)
      requires Valid()
      modifies this, persistence.defaults
      ensures Valid()
      ensures persistence.defaults.entries == old(persistence.defaults.entries)[SubGoalsKey := DataValue(EncodeList(subGoals))]
      ensures subGoals == old(subGoals) + [NewSubGoal(old(nextId), Trim(text, WhitespacesAndNewlines), now)]
    {
      var goal := NewSubGoal(nextId, Trim(text, WhitespacesAndNewlines), now);
      subGoals := subGoals + [goal];
      nextId := nextId + 1;
      persistence.SaveSubGoals(subGoals);
    }

    /** `toggleGoal`: flips the first goal with the id and saves; an unknown id changes and saves nothing. */
    method ToggleGoal(id: Id)
      requires Valid()
      modifies this, persistence.defaults
      ensures Valid() && nextId == old(nextId)
      ensures FirstIndexOf(old(subGoals), id).None? ==>
        subGoals == old(subGoals) && unchanged(persistence.defaults)
      ensures FirstIndexOf(old(subGoals), id).Some? ==>
        FirstIndexOf(old(subGoals), id).value < |old(subGoals)|
        && subGoals == Toggled(old(subGoals), FirstIndexOf(old(subGoals), id).value)
        && persistence.defaults.entries == old(persistence.defaults.entries)[SubGoalsKey := DataValue(EncodeList(subGoals))]
    {
      FirstIndexOfSpec(subGoals, id);
      match FirstIndexOf(subGoals, id)
      case None =>
      case Some(i) =>
        subGoals := Toggled(subGoals, i);
        persistence.SaveSubGoals(subGoals);
    }

    /** `deleteGoal`: removes every goal with the id, keeping the order of the rest, and saves. */
    method DeleteGoal(id: Id)
      requires Valid()
      modifies this, persistence.defaults
      ensures Valid() && nextId == old(nextId)
      ensures persistence.defaults.entries == old(persistence.defaults.entries)[SubGoalsKey := DataValue(EncodeList(subGoals))]
      ensures subGoals == WithoutId(old(subGoals), id)
    {
      FilterKeepsUniqueIds(subGoals, OtherId(id));
      FilterKeepsIdsBelow(subGoals, OtherId(id), nextId);
      subGoals := WithoutId(subGoals, id);
      persistence.SaveSubGoals(subGoals);
    }

    /** `forceSave`: writes the list back unchanged. */
    method ForceSave()
      modifies persistence.defaults
      ensures persistence.defaults.entries == old(persistence.defaults.entries)[SubGoalsKey := DataValue(EncodeList(subGoals))]
    {
      persistence.SaveSubGoals(subGoals);
    }

    /** `clearAllGoals`. */
    method ClearAllGoals()
      requires Valid()
      modifies this, persistence.defaults
      ensures Valid() && nextId == old(nextId)
      ensures persistence.defaults.entries == old(persistence.defaults.entries)[SubGoalsKey := DataValue(EncodeList(subGoals))]
      ensures subGoals == []
    {
      subGoals := [];
      persistence.SaveSubGoals(subGoals);
    }

    /** `resetForNewSession`: keep only the completed goals, in order, or none; then save. */
    method ResetForNewSession(keepCompleted: bool)
      requires Valid()
      modifies this, persistence.defaults
      ensures Valid() && nextId == old(nextId)
      ensures persistence.defaults.entries == old(persistence.defaults.entries)[SubGoalsKey := DataValue(EncodeList(subGoals))]
      ensures subGoals == if keepCompleted then Completed(old(subGoals)) else []
    {
      if keepCompleted {
        FilterKeepsUniqueIds(subGoals, IsCompleted);
        FilterKeepsIdsBelow(subGoals, IsCompleted, nextId);
        subGoals := Completed(subGoals);
      } else {
        subGoals := [];
      }
      persistence.SaveSubGoals(subGoals);
    }

    /** `markAllCompleted`: sets each goal completed by index, then saves. */
    method MarkAllCompleted()
      requires Valid()
      modifies this, persistence.defaults
      ensures Valid() && nextId == old(nextId)
      ensures persistence.defaults.entries == old(persistence.defaults.entries)[SubGoalsKey := DataValue(EncodeList(subGoals))]
      ensures subGoals == AllMarkedCompleted(old(subGoals))
    {
      var i := 0;
      while i < |subGoals|
        invariant 0 <= i <= |subGoals| == |old(subGoals)|
        invariant nextId == old(nextId)
        invariant unchanged(persistence.defaults)
        invariant forall k :: 0 <= k < i ==> subGoals[k] == old(subGoals)[k].(isCompleted := true)
        invariant forall k :: i <= k < |subGoals| ==> subGoals[k] == old(subGoals)[k]
      {
        subGoals := subGoals[i := subGoals[i].(isCompleted := true)];
        i := i + 1;
      }
      persistence.SaveSubGoals(subGoals);
    }
  }
}
