/**
 * The completion message. `NotificationManager` builds a notification
 * content from a `SessionSummary`; `LegacyNotificationManager` builds the
 * same title and body for its fallback channels. Delivery is not modelled:
 * the functions compute what would be delivered.
 */
module Notifications {
  import opened Wrappers
  import opened Numbers
  import opened Strings
  import opened Formatting
  import opened Store
  import Defaults

  const CompletionTitle: string := "\U{1F3AF} Focus Session Complete!"
  const CompletionCategory: string := "TIMER_COMPLETION"
  const Separator: string := " \U{2022} "
  const NoGoalsText: string := "Session completed"

  /** "c/t goals completed" when there are goals, else "Session completed". */
  function ProgressText(completedGoals: int, totalGoals: int): string {
    if totalGoals > 0 then IntText(completedGoals) + "/" + IntText(totalGoals) + " goals completed"
    else NoGoalsText
  }

  /** "title • MM:SS • progress", shared by both managers. */
  function CompletionBody(sessionTitle: string, actualDuration: int, completedGoals: int, totalGoals: int): string {
    sessionTitle + Separator + ClockText(actualDuration) + Separator + ProgressText(completedGoals, totalGoals)
  }

  datatype SessionSummary = SessionSummary(
    title: string,
    actualDuration: int,
    plannedDuration: int,
    completedGoals: int,
    totalGoals: int,
    completionRate: real)

  /** The summary `sendCompletionNotification` builds: the actual duration stands in for the planned one. */
  function MakeSummary(sessionTitle: string, actualDuration: int, completedGoals: int, totalGoals: int): SessionSummary {
    SessionSummary(sessionTitle, actualDuration, actualDuration, completedGoals, totalGoals,
                   if totalGoals > 0 then (completedGoals as real) / (totalGoals as real) else 0.0)
  }

  datatype UserInfoValue = InfoString(s: string) | InfoInt(i: int)

  datatype NotificationContent = NotificationContent(
    title: string,
    body: string,
    categoryIdentifier: string,
    playsSound: bool,
    badge: int,
    userInfo: map<string, UserInfoValue>)

  /** `createNotificationContent`, with the sound preference read from the store. */
  function CreateNotificationContent(summary: SessionSummary, prefs: Entries): NotificationContent {
    NotificationContent(
      CompletionTitle,
      CompletionBody(summary.title, summary.actualDuration, summary.completedGoals, summary.totalGoals),
      CompletionCategory,
      Defaults.SoundEnabled(prefs),
      1,
      map["sessionTitle" := InfoString(summary.title),
          "actualDuration" := InfoInt(summary.actualDuration),
          "completedGoals" := InfoInt(summary.completedGoals),
          "totalGoals" := InfoInt(summary.totalGoals)])
  }

  /** What `sendCompletionNotification` would hand to the notification centre: nothing without permission. */
  function CompletionNotification(hasPermission: bool, sessionTitle: string, actualDuration: int,
                                  completedGoals: int, totalGoals: int, prefs: Entries): Option<NotificationContent>
  {
    if !hasPermission then None
    else Some(CreateNotificationContent(MakeSummary(sessionTitle, actualDuration, completedGoals, totalGoals), prefs))
  }

  /** The title and body `LegacyNotificationManager.sendCompletionNotification` shows on every channel. */
  datatype LegacyMessage = LegacyMessage(title: string, body: string)

  function LegacyCompletionMessage(sessionTitle: string, actualDuration: int,
                                   completedGoals: int, totalGoals: int): LegacyMessage
  {
    LegacyMessage(CompletionTitle, CompletionBody(sessionTitle, actualDuration, completedGoals, totalGoals))
  }

  /** The legacy `requestPermissions`. */
  function LegacyRequestPermissions(): bool {
    true
  }

  /** The legacy `areNotificationsEnabled`. */
  function LegacyAreNotificationsEnabled(): bool {
    true
  }

  // ---------------------------------------------------------------------------
  // Properties

  /** A clock text is made of digits, minus signs and one colon, and so holds no bullet. */
  lemma ClockTextHasNoBullet(seconds: int)
    ensures '\U{2022}' !in ClockText(seconds)
  {
    IntTextChars(Quot(seconds, 60));
    IntTextChars(Rem(seconds, 60));
    var a, b := Padded2(Quot(seconds, 60)), Padded2(Rem(seconds, 60));
    assert ClockText(seconds) == a + ":" + b;
    assert '\U{2022}' !in a && '\U{2022}' !in b;
  }

  /** A progress text holds no bullet. */
  lemma ProgressTextHasNoBullet(completedGoals: int, totalGoals: int)
    ensures '\U{2022}' !in ProgressText(completedGoals, totalGoals)
  {
    IntTextChars(completedGoals);
    IntTextChars(totalGoals);
  }

  /** Splitting three separator-free pieces joined by the separator. */
  lemma SplitThree(a: string, b: string, c: string, sep: char)
    requires sep !in a && sep !in b && sep !in c
    ensures Split(a + [sep] + b + [sep] + c, sep) == [a, b, c]
  {
    assert a + [sep] + b + [sep] + c == a + [sep] + (b + [sep] + c);
    SplitConcat(a, b + [sep] + c, sep);
    SplitConcat(b, c, sep);
    SplitWithoutSeparator(a, sep);
    SplitWithoutSeparator(b, sep);
    SplitWithoutSeparator(c, sep);
  }

  /**
   * For a title without a bullet, the body splits at its two bullets into the
   * title, the duration and the progress text, and the duration reads back
   * as the actual seconds when they are not negative.
   */
  lemma BodySplitsIntoParts(sessionTitle: string, actualDuration: int, completedGoals: int, totalGoals: int)
    requires '\U{2022}' !in sessionTitle
    ensures var clock := ClockText(actualDuration);
      Split(CompletionBody(sessionTitle, actualDuration, completedGoals, totalGoals), '\U{2022}')
        == [sessionTitle + " ", " " + clock + " ", " " + ProgressText(completedGoals, totalGoals)]
    ensures actualDuration >= 0 ==>
      var middle := Split(CompletionBody(sessionTitle, actualDuration, completedGoals, totalGoals), '\U{2022}')[1];
      ParseClock(middle[1..|middle| - 1]) == Some(actualDuration)
  {
    var bullet := '\U{2022}';
    var clock := ClockText(actualDuration);
    var progress := ProgressText(completedGoals, totalGoals);
    ClockTextHasNoBullet(actualDuration);
    ProgressTextHasNoBullet(completedGoals, totalGoals);
    BulletedParts(sessionTitle, clock, progress);
    if actualDuration >= 0 {
      ClockTextRoundTrip(actualDuration);
    }
  }

  /** Three bullet-free texts joined by the separator split back into the padded texts. */
  lemma BulletedParts(x: string, y: string, z: string)
    requires '\U{2022}' !in x && '\U{2022}' !in y && '\U{2022}' !in z
    ensures var b := " " + y + " ";
      Split(x + Separator + y + Separator + z, '\U{2022}') == [x + " ", b, " " + z]
      && b[1..|b| - 1] == y
  {
    var bullet := '\U{2022}';
    var a, b, c := x + " ", " " + y + " ", " " + z;
    assert x + Separator + y + Separator + z == a + [bullet] + b + [bullet] + c;
    SplitThree(a, b, c, bullet);
  }

  /** Splitting two separator-free pieces joined by the separator. */
  lemma SplitTwo(a: string, b: string, sep: char)
    requires sep !in a && sep !in b
    ensures Split(a + [sep] + b, sep) == [a, b]
  {
    SplitConcat(a, b, sep);
    SplitWithoutSeparator(a, sep);
    SplitWithoutSeparator(b, sep);
  }

  /** The count texts of a progress line, recovered by splitting at the slash. */
  lemma ProgressTextParts(c: int, t: int)
    requires t > 0
    ensures Split(ProgressText(c, t), '/') == [IntText(c), IntText(t) + " goals completed"]
    ensures ProgressText(c, t)[0] == IntText(c)[0]
  {
    IntTextValue(c);
    IntTextValue(t);
    assert ProgressText(c, t) == IntText(c) + ['/'] + (IntText(t) + " goals completed");
    SplitTwo(IntText(c), IntText(t) + " goals completed", '/');
  }

  /** With goals, the progress text determines both counts; it never reads "Session completed". */
  lemma ProgressTextInjective(c1: int, t1: int, c2: int, t2: int)
    requires t1 > 0 && t2 > 0
    ensures ProgressText(c1, t1) == ProgressText(c2, t2) <==> c1 == c2 && t1 == t2
    ensures ProgressText(c1, t1) != NoGoalsText
  {
    ProgressTextParts(c1, t1);
    IntTextChars(c1);
    assert ProgressText(c1, t1)[0] != 'S';
    if ProgressText(c1, t1) == ProgressText(c2, t2) {
      ProgressTextParts(c2, t2);
      var suffix := " goals completed";
      var q1, q2 := IntText(t1) + suffix, IntText(t2) + suffix;
      assert IntText(c1) == IntText(c2) && q1 == q2;
      assert IntText(t1) == q1[..|q1| - |suffix|];
      assert IntText(t2) == q2[..|q2| - |suffix|];
      IntTextInjective(c1, c2);
      IntTextInjective(t1, t2);
    }
  }

  /** The summary repeats the actual duration as the planned one, and its rate is in [0, 1] for counts 0 <= c <= t, with 0 (not 1) when there are no goals. */
  lemma SummarySpec(sessionTitle: string, actualDuration: int, completedGoals: int, totalGoals: int)
    ensures var s := MakeSummary(sessionTitle, actualDuration, completedGoals, totalGoals);
      s.plannedDuration == s.actualDuration == actualDuration
      && (totalGoals <= 0 ==> s.completionRate == 0.0)
      && (0 <= completedGoals <= totalGoals ==> 0.0 <= s.completionRate <= 1.0)
      && (0 < totalGoals ==> (s.completionRate == 1.0 <==> completedGoals == totalGoals))
  {
    if totalGoals > 0 {
      RatioIsOne(completedGoals as real, totalGoals as real);
      if 0 <= completedGoals <= totalGoals {
        RatioBounds(completedGoals as real, totalGoals as real);
      }
    }
  }

  /**
   * The content carries the fixed title, category and badge, plays a sound
   * exactly when the sound preference is on, and its user info holds exactly
   * the four inputs.
   */
  lemma ContentSpec(sessionTitle: string, actualDuration: int, completedGoals: int, totalGoals: int, prefs: Entries)
    ensures var n := CreateNotificationContent(MakeSummary(sessionTitle, actualDuration, completedGoals, totalGoals), prefs);
      n.title == "\U{1F3AF} Focus Session Complete!" && n.categoryIdentifier == "TIMER_COMPLETION" && n.badge == 1
      && (n.playsSound <==> Defaults.SoundEnabled(prefs))
      && n.userInfo.Keys == {"sessionTitle", "actualDuration", "completedGoals", "totalGoals"}
      && n.userInfo["sessionTitle"] == InfoString(sessionTitle)
      && n.userInfo["actualDuration"] == InfoInt(actualDuration)
      && n.userInfo["completedGoals"] == InfoInt(completedGoals)
      && n.userInfo["totalGoals"] == InfoInt(totalGoals)
  {
  }

  /** A sound plays unless the preference was explicitly turned off. */
  lemma SoundFollowsPreference(summary: SessionSummary, prefs: Entries)
    ensures !Has(prefs, Defaults.SoundEnabledKey) ==> CreateNotificationContent(summary, prefs).playsSound
    ensures CreateNotificationContent(summary, prefs[Defaults.SoundEnabledKey := BoolValue(false)]).playsSound == false
  {
  }

  /** Nothing is sent without permission; with it, the content is built from the inputs. */
  lemma PermissionGate(hasPermission: bool, sessionTitle: string, actualDuration: int,
                       completedGoals: int, totalGoals: int, prefs: Entries)
    ensures CompletionNotification(hasPermission, sessionTitle, actualDuration, completedGoals, totalGoals, prefs).None?
      <==> !hasPermission
  {
  }

  /** Both managers show the same title and body for the same session. */
  lemma ManagersAgree(sessionTitle: string, actualDuration: int, completedGoals: int, totalGoals: int, prefs: Entries)
    ensures var n := CreateNotificationContent(MakeSummary(sessionTitle, actualDuration, completedGoals, totalGoals), prefs);
      var m := LegacyCompletionMessage(sessionTitle, actualDuration, completedGoals, totalGoals);
      n.title == m.title && n.body == m.body
    ensures LegacyRequestPermissions() && LegacyAreNotificationsEnabled()
  {
  }
}
