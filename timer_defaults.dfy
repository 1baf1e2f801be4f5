/**
 * The typed persistence layer over the key-value store: the five timer
 * snapshot keys, the sub-goal blob, preferences with defaults, the
 * first-launch flag, and the maintenance operations. Reads are functions of
 * the store's entries; writes are methods of `TimerDefaults`.
 */
module Defaults {
  import opened Wrappers
  import opened Numbers
  import opened Store
  import opened SubGoalModel

  // The `Keys` enumeration, in declaration order.
  const RemainingSecondsKey: string := "SprintBell.timer.remainingSeconds"
  const IsRunningKey: string := "SprintBell.timer.isRunning"
  const MainTitleKey: string := "SprintBell.timer.mainTitle"
  const TotalDurationKey: string := "SprintBell.timer.totalDuration"
  const LastSavedKey: string := "SprintBell.timer.lastSaved"
  const SubGoalsKey: string := "SprintBell.subGoals"
  const DefaultDurationKey: string := "SprintBell.preferences.defaultDuration"
  const SoundEnabledKey: string := "SprintBell.preferences.soundEnabled"
  const LastUsedTitleKey: string := "SprintBell.preferences.lastUsedTitle"
  const FirstLaunchKey: string := "SprintBell.app.firstLaunch"
  const AppVersionKey: string := "SprintBell.app.version"
  const NotificationsEnabledKey: string := "SprintBell.preferences.notificationsEnabled"
  const ShowNotificationActionsKey: string := "SprintBell.preferences.showNotificationActions"

  /** `Keys.allCases`. */
  const AllKeys: seq<string> := [
    RemainingSecondsKey, IsRunningKey, MainTitleKey, TotalDurationKey, LastSavedKey,
    SubGoalsKey, DefaultDurationKey, SoundEnabledKey, LastUsedTitleKey,
    FirstLaunchKey, AppVersionKey, NotificationsEnabledKey, ShowNotificationActionsKey]

  /** The five keys of a timer snapshot. */
  const TimerKeys: set<string> := {RemainingSecondsKey, IsRunningKey, MainTitleKey, TotalDurationKey, LastSavedKey}

  const DefaultTitle: string := "Focus Session"
  const DefaultDurationSeconds: int := 1500
  const DefaultAppVersion: string := "1.0.0"
  /** A running snapshot older than this many seconds has its remaining time reduced on load. */
  const StaleAfterSeconds: int := 60

  function KeySet(keys: seq<string>): set<string> {
    set k | k in keys
  }

  // ---------------------------------------------------------------------------
  // Timer snapshot

  /** What `loadTimerState` returns. */
  datatype TimerSnapshot = TimerSnapshot(remainingSeconds: int, isRunning: bool, mainTitle: string, totalDuration: int)

  /** The entries after `saveTimerState`, written at time `now`. */
  function WithTimerState(m: Entries, remainingSeconds: int, isRunning: bool, mainTitle: string,
                          totalDuration: int, now: int): Entries
  {
    m[RemainingSecondsKey := IntValue(remainingSeconds)]
     [IsRunningKey := BoolValue(isRunning)]
     [MainTitleKey := StringValue(mainTitle)]
     [TotalDurationKey := IntValue(totalDuration)]
     [LastSavedKey := DateValue(now)]
  }

  /**
   * `loadTimerState()` at time `now`: nothing without the remaining-seconds
   * key; otherwise never running, and a snapshot saved while running more
   * than 60 s ago loses the elapsed time (never below 0).
   */
  function LoadTimerState(m: Entries, now: int): Option<TimerSnapshot> {
    if !Has(m, RemainingSecondsKey) then None
    else
      var remaining := IntegerFor(m, RemainingSecondsKey);
      var running := BoolFor(m, IsRunningKey);
      var title := StringFor(m, MainTitleKey).GetOr(DefaultTitle);
      var total := IntegerFor(m, TotalDurationKey);
      match DateFor(m, LastSavedKey)
      case Some(saved) =>
        if running && now - saved > StaleAfterSeconds
        then Some(TimerSnapshot(Max(0, remaining - (now - saved)), false, title, total))
        else Some(TimerSnapshot(remaining, false, title, total))
      case None => Some(TimerSnapshot(remaining, false, title, total))
  }

  /**
   * What a load reports, whatever the store holds: nothing exactly when the
   * remaining-seconds key is absent; otherwise never running, the stored
   * title or "Focus Session", the stored total or 0, and the stored remaining
   * time, less the elapsed time (never below 0) exactly when the snapshot was
   * running and is stale.
   */
  lemma LoadTimerStateSpec(m: Entries, now: int)
    ensures LoadTimerState(m, now).None? <==> RemainingSecondsKey !in m
    ensures LoadTimerState(m, now).Some? ==>
      var r := LoadTimerState(m, now).value;
      && !r.isRunning
      && r.mainTitle == StringFor(m, MainTitleKey).GetOr(DefaultTitle)
      && (MainTitleKey !in m ==> r.mainTitle == DefaultTitle)
      && r.totalDuration == IntegerFor(m, TotalDurationKey)
      && (TotalDurationKey !in m ==> r.totalDuration == 0)
      && var stale := BoolFor(m, IsRunningKey) && DateFor(m, LastSavedKey).Some?
                      && now - DateFor(m, LastSavedKey).value > StaleAfterSeconds;
         && (stale ==> r.remainingSeconds
                       == Max(0, IntegerFor(m, RemainingSecondsKey) - (now - DateFor(m, LastSavedKey).value)))
         && (!stale ==> r.remainingSeconds == IntegerFor(m, RemainingSecondsKey))
  {
  }

  /** Save then load with no stale running gap gives back what was saved, stopped. */
  lemma SaveThenLoad(m: Entries, remaining: int, running: bool, title: string, total: int, savedAt: int, now: int)
    requires !running || now - savedAt <= StaleAfterSeconds
    ensures LoadTimerState(WithTimerState(m, remaining, running, title, total, savedAt), now)
            == Some(TimerSnapshot(remaining, false, title, total))
  {
    var m' := WithTimerState(m, remaining, running, title, total, savedAt);
    assert IntegerFor(m', RemainingSecondsKey) == remaining;
    assert BoolFor(m', IsRunningKey) == running;
    assert StringFor(m', MainTitleKey) == Some(title);
    assert IntegerFor(m', TotalDurationKey) == total;
    assert DateFor(m', LastSavedKey) == Some(savedAt);
  }

  /** A running snapshot loaded more than 60 s later has lost the elapsed time, floored at 0. */
  lemma SaveThenLoadStale(m: Entries, remaining: int, title: string, total: int, savedAt: int, now: int)
    requires now - savedAt > StaleAfterSeconds
    ensures LoadTimerState(WithTimerState(m, remaining, true, title, total, savedAt), now)
            == Some(TimerSnapshot(Max(0, remaining - (now - savedAt)), false, title, total))
  {
    var m' := WithTimerState(m, remaining, true, title, total, savedAt);
    assert IntegerFor(m', RemainingSecondsKey) == remaining;
    assert BoolFor(m', IsRunningKey);
    assert StringFor(m', MainTitleKey) == Some(title);
    assert IntegerFor(m', TotalDurationKey) == total;
    assert DateFor(m', LastSavedKey) == Some(savedAt);
  }

  /** Saving a snapshot touches only the five timer keys. */
  lemma SaveTouchesOnlyTimerKeys(m: Entries, remaining: int, running: bool, title: string, total: int, now: int, k: string)
    requires k !in TimerKeys
    ensures var m' := WithTimerState(m, remaining, running, title, total, now);
      (k in m' <==> k in m) && (k in m ==> m'[k] == m[k])
  {
  }

  /** After the timer keys are removed there is nothing to load, and every other key is as it was. */
  lemma ClearThenLoad(m: Entries, now: int)
    ensures LoadTimerState(m - TimerKeys, now) == None
    ensures forall k :: k !in TimerKeys ==> ((k in m - TimerKeys) <==> (k in m))
  {
  }

  /** The two keys `validateData` compares are either both present or both absent. */
  predicate TimerKeysConsistent(m: Entries) {
    Has(m, RemainingSecondsKey) == Has(m, MainTitleKey)
  }

  // ---------------------------------------------------------------------------
  // Sub-goals

  /** `loadSubGoals()`: the stored list with fresh ids from `firstId`; [] when absent or undecodable. */
  function LoadSubGoals(m: Entries, firstId: Id): seq<SubGoal> {
    match DataFor(m, SubGoalsKey)
    case None => []
    case Some(doc) => DecodeList(doc, firstId).GetOr([])
  }

  /** Loading after `saveSubGoals(gs)` restores every item's content in order, with fresh ids. */
  lemma LoadSubGoalsAfterSave(m: Entries, gs: seq<SubGoal>, firstId: Id)
    ensures LoadSubGoals(m[SubGoalsKey := DataValue(EncodeList(gs))], firstId) == Renumbered(gs, firstId)
  {
    DecodeListEncodeList(gs, firstId);
  }

  /** A missing key, a value that is not data, or a document that does not decode all load as []. */
  lemma LoadSubGoalsFallback(m: Entries, firstId: Id)
    requires SubGoalsKey !in m || !m[SubGoalsKey].DataValue? || DecodeList(m[SubGoalsKey].doc, firstId).None?
    ensures LoadSubGoals(m, firstId) == []
  {
  }

  // ---------------------------------------------------------------------------
  // Preferences and app state

  /** The stored default duration when it is positive, else 25 minutes. */
  function DefaultDuration(m: Entries): int {
    var d := IntegerFor(m, DefaultDurationKey);
    if d > 0 then d else DefaultDurationSeconds
  }

  /** A flag that reads as true until something is stored under its key. */
  function FlagDefaultingToTrue(m: Entries, key: string): bool {
    if !Has(m, key) then true else BoolFor(m, key)
  }

  function SoundEnabled(m: Entries): bool {
    FlagDefaultingToTrue(m, SoundEnabledKey)
  }

  function NotificationsEnabled(m: Entries): bool {
    FlagDefaultingToTrue(m, NotificationsEnabledKey)
  }

  function ShowNotificationActions(m: Entries): bool {
    FlagDefaultingToTrue(m, ShowNotificationActionsKey)
  }

  function LastUsedTitle(m: Entries): string {
    StringFor(m, LastUsedTitleKey).GetOr(DefaultTitle)
  }

  function AppVersion(m: Entries): string {
    StringFor(m, AppVersionKey).GetOr(DefaultAppVersion)
  }

  /** True until something is stored under the first-launch key. */
  predicate IsFirstLaunch(m: Entries) {
    !Has(m, FirstLaunchKey)
  }

  /** The entries after `isFirstLaunch = value`: only `false` is ever written. */
  function WithFirstLaunch(m: Entries, value: bool): Entries {
    if !value then m[FirstLaunchKey := BoolValue(false)] else m
  }

  /** On an empty store every preference reads as its default. */
  lemma PreferenceDefaults()
    ensures DefaultDuration(map[]) == 1500
    ensures SoundEnabled(map[]) && NotificationsEnabled(map[]) && ShowNotificationActions(map[])
    ensures LastUsedTitle(map[]) == "Focus Session" && AppVersion(map[]) == "1.0.0"
    ensures IsFirstLaunch(map[])
  {
  }

  /** Each preference reads back what its setter stored; a non-positive duration reads as 1500. */
  lemma PreferencesReadBack(m: Entries, d: int, b: bool, s: string)
    ensures DefaultDuration(m[DefaultDurationKey := IntValue(d)]) == if d > 0 then d else 1500
    ensures DefaultDuration(m) > 0
    ensures SoundEnabled(m[SoundEnabledKey := BoolValue(b)]) == b
    ensures NotificationsEnabled(m[NotificationsEnabledKey := BoolValue(b)]) == b
    ensures ShowNotificationActions(m[ShowNotificationActionsKey := BoolValue(b)]) == b
    ensures LastUsedTitle(m[LastUsedTitleKey := StringValue(s)]) == s
    ensures AppVersion(m[AppVersionKey := StringValue(s)]) == s
  {
  }

  /**
   * The first-launch flag can only be switched off: after an assignment it
   * is true exactly when it was true before and true was assigned.
   */
  lemma FirstLaunchOneWay(m: Entries, value: bool)
    ensures IsFirstLaunch(WithFirstLaunch(m, value)) <==> IsFirstLaunch(m) && value
  {
  }

  // ---------------------------------------------------------------------------
  // The writer

  class TimerDefaults {
    const defaults: UserDefaults

    constructor (defaults: UserDefaults)
      ensures this.defaults == defaults
    {
      this.defaults := defaults;
    }

    /** `saveTimerState`, stamped with the current time `now`. */
    method SaveTimerState(remainingSeconds: int, isRunning: bool, mainTitle: string, totalDuration: int, now: int)
      modifies defaults
      ensures defaults.entries == WithTimerState(old(defaults.entries), remainingSeconds, isRunning, mainTitle, totalDuration, now)
    {
      defaults.Set(RemainingSecondsKey, IntValue(remainingSeconds));
      defaults.Set(IsRunningKey, BoolValue(isRunning));
      defaults.Set(MainTitleKey, StringValue(mainTitle));
      defaults.Set(TotalDurationKey, IntValue(totalDuration));
      defaults.Set(LastSavedKey, DateValue(now));
    }

    /** `clearTimerState`: removes the five timer keys and nothing else. */
    method ClearTimerState()
      modifies defaults
      ensures defaults.entries == old(defaults.entries) - TimerKeys
    {
      defaults.RemoveObject(RemainingSecondsKey);
      defaults.RemoveObject(IsRunningKey);
      defaults.RemoveObject(MainTitleKey);
      defaults.RemoveObject(TotalDurationKey);
      defaults.RemoveObject(LastSavedKey);
    }

    /** `saveSubGoals`: the whole list as one document under one key. */
    method SaveSubGoals(subGoals: seq<SubGoal>)
      modifies defaults
      ensures defaults.entries == old(defaults.entries)[SubGoalsKey := DataValue(EncodeList(subGoals))]
    {
      defaults.Set(SubGoalsKey, DataValue(EncodeList(subGoals)));
    }

    method SetDefaultDuration(value: int)
      modifies defaults
      ensures defaults.entries == old(defaults.entries)[DefaultDurationKey := IntValue(value)]
    {
      defaults.Set(DefaultDurationKey, IntValue(value));
    }

    method SetSoundEnabled(value: bool)
      modifies defaults
      ensures defaults.entries == old(defaults.entries)[SoundEnabledKey := BoolValue(value)]
    {
      defaults.Set(SoundEnabledKey, BoolValue(value));
    }

    method SetLastUsedTitle(value: string)
      modifies defaults
      ensures defaults.entries == old(defaults.entries)[LastUsedTitleKey := StringValue(value)]
    {
      defaults.Set(LastUsedTitleKey, StringValue(value));
    }

    /** The `isFirstLaunch` setter: assigning true does nothing. */
    method SetIsFirstLaunch(value: bool)
      modifies defaults
      ensures defaults.entries == WithFirstLaunch(old(defaults.entries), value)
    {
      if !value {
        defaults.Set(FirstLaunchKey, BoolValue(false));
      }
    }

    method SetAppVersion(value: string)
      modifies defaults
      ensures defaults.entries == old(defaults.entries)[AppVersionKey := StringValue(value)]
    {
      defaults.Set(AppVersionKey, StringValue(value));
    }

    method SetNotificationsEnabled(value: bool)
      modifies defaults
      ensures defaults.entries == old(defaults.entries)[NotificationsEnabledKey := BoolValue(value)]
    {
      defaults.Set(NotificationsEnabledKey, BoolValue(value));
    }

    method SetShowNotificationActions(value: bool)
      modifies defaults
      ensures defaults.entries == old(defaults.entries)[ShowNotificationActionsKey := BoolValue(value)]
    {
      defaults.Set(ShowNotificationActionsKey, BoolValue(value));
    }

    /** `resetAllData`: removes every key of `Keys`, one at a time, and nothing else. */
    method ResetAllData()
      modifies defaults
      ensures defaults.entries == old(defaults.entries) - KeySet(AllKeys)
    {
      for i := 0 to |AllKeys|
        invariant defaults.entries == old(defaults.entries) - KeySet(AllKeys[..i])
      {
        assert KeySet(AllKeys[..i + 1]) == KeySet(AllKeys[..i]) + {AllKeys[i]};
        defaults.RemoveObject(AllKeys[i]);
      }
      assert AllKeys[..|AllKeys|] == AllKeys;
    }

    /**
     * `validateData`: when exactly one of the remaining-seconds and title
     * keys is present the snapshot is discarded and the answer is false;
     * otherwise the store is left alone and the answer is true. Either way
     * the two keys are consistent afterwards.
     */
    method ValidateData() returns (valid: bool)
      modifies defaults
      ensures valid <==> TimerKeysConsistent(old(defaults.entries))
      ensures valid ==> defaults.entries == old(defaults.entries)
      ensures !valid ==> defaults.entries == old(defaults.entries) - TimerKeys
      ensures TimerKeysConsistent(defaults.entries)
    {
      // Decoding the sub-goals here only exercises the fallback path; it changes nothing.
      valid := Has(defaults.entries, RemainingSecondsKey) == Has(defaults.entries, MainTitleKey);
      if !valid {
        ClearTimerState();
      }
    }
  }
}
