/**
 * The `sprintbell://` command dispatcher. URLs arrive already split into
 * scheme, host and query items; percent decoding is a parameter of the
 * handler. Commands drive the `TimerManager` model.
 */
module UrlScheme {
  import opened Wrappers
  import opened Numbers
  import opened Strings
  import opened Timer

  datatype QueryItem = QueryItem(name: string, value: Option<string>)

  /** A URL as `URLComponents` sees it; an absent query is an empty item list. */
  datatype Url = Url(scheme: Option<string>, host: Option<string>, queryItems: seq<QueryItem>)

  /** What a URL asks for. */
  datatype Command =
    | StartCommand(minutes: int, title: string, goals: seq<string>)
    | PauseCommand
    | StopCommand(result: string)
    | NoteCommand(text: string)
    | Ignored

  const Scheme: string := "sprintbell"
  const DefaultMinutes: int := 25
  const StoppedTitle: string := "SprintBell"

  /** `first(where: { $0.name == name })`. */
  function FirstNamed(items: seq<QueryItem>, name: string): Option<QueryItem>
    decreases |items|
  {
    if items == [] then None
    else if items[0].name == name then Some(items[0])
    else FirstNamed(items[1..], name)
  }

  /** The decoded value of the first item with the name, or `fallback` when it, its value or its decoding is missing. */
  function DecodedValue(items: seq<QueryItem>, name: string, decode: string -> Option<string>,
                        fallback: string): string
  {
    match FirstNamed(items, name)
    case Some(QueryItem(_, Some(v))) => decode(v).GetOr(fallback)
    case _ => fallback
  }

  /** The first "mins" item read as an integer, 25 when absent or unreadable. */
  function Minutes(items: seq<QueryItem>): int {
    match FirstNamed(items, "mins")
    case Some(QueryItem(_, Some(v))) => ParseInt(v).GetOr(DefaultMinutes)
    case _ => DefaultMinutes
  }

  /** Comma-separated goals, each trimmed of spaces and tabs; the empty string has none. */
  function ParseGoals(goals: string): seq<string> {
    if goals == [] then []
    else
      var pieces := Split(goals, ',');
      seq(|pieces|, i requires 0 <= i < |pieces| => Trim(pieces[i], Whitespaces))
  }

  /** The command `handleURL` dispatches to, with its parameters read from the query. */
  function ParseCommand(url: Url, decode: string -> Option<string>): Command {
    if url.scheme != Some(Scheme) || url.host.None? then Ignored
    else
      var items := url.queryItems;
      match url.host.value
      case "start" =>
        StartCommand(Minutes(items), DecodedValue(items, "title", decode, DefaultTitle),
                     ParseGoals(DecodedValue(items, "goals", decode, "")))
      case "pause" => PauseCommand
      case "stop" => StopCommand(DecodedValue(items, "result", decode, "Stopped"))
      case "note" => NoteCommand(DecodedValue(items, "text", decode, ""))
      case _ => Ignored
  }

  /** The observable timer state a command acts on. */
  datatype TimerView = TimerView(remaining: int, running: bool, title: string, total: int)

  function ViewOf(tm: TimerManager): TimerView
    reads tm
  {
    TimerView(tm.remainingSeconds, tm.isRunning, tm.mainTitle, tm.totalDuration)
  }

  /**
   * The timer state after a command: start resets to the minutes and runs,
   * pause flips running, stop resets to nothing under "SprintBell", and the
   * note and ignored URLs leave the timer alone.
   */
  function Effect(cmd: Command, v: TimerView): TimerView {
    match cmd
    case StartCommand(minutes, title, _) => TimerView(minutes * 60, true, title, minutes * 60)
    case PauseCommand => v.(running := !v.running)
    case StopCommand(_) => TimerView(0, false, StoppedTitle, 0)
    case NoteCommand(_) => v
    case Ignored => v
  }

  // ---------------------------------------------------------------------------
  // Properties

  /** A foreign scheme, a missing host or an unknown host is ignored, and ignoring changes nothing. */
  lemma RejectedUrls(url: Url, decode: string -> Option<string>, v: TimerView)
    ensures url.scheme != Some(Scheme) || url.host.None?
      || url.host.value !in {"start", "pause", "stop", "note"}
      <==> ParseCommand(url, decode) == Ignored
    ensures ParseCommand(url, decode).Ignored? ==> Effect(ParseCommand(url, decode), v) == v
  {
  }

  /** `start` with no "mins", a "mins" without a value or an unreadable one runs 25 minutes, and with no title runs under "Focus Session". */
  lemma StartDefaults(items: seq<QueryItem>, decode: string -> Option<string>)
    ensures FirstNamed(items, "mins").None? ==> Minutes(items) == 25
    ensures FirstNamed(items, "mins").Some? && FirstNamed(items, "mins").value.value.None? ==> Minutes(items) == 25
    ensures (FirstNamed(items, "mins").Some? && FirstNamed(items, "mins").value.value.Some?
             && ParseInt(FirstNamed(items, "mins").value.value.value).None?) ==> Minutes(items) == 25
    ensures FirstNamed(items, "title").None? ==>
      DecodedValue(items, "title", decode, DefaultTitle) == "Focus Session"
  {
  }

  /** The first item with the name wins. */
  lemma {:induction false} FirstNamedSpec(items: seq<QueryItem>, name: string)
    ensures FirstNamed(items, name).None? <==> forall k :: 0 <= k < |items| ==> items[k].name != name
    ensures FirstNamed(items, name).Some? ==>
      exists i :: 0 <= i < |items| && items[i] == FirstNamed(items, name).value
        && items[i].name == name && forall k :: 0 <= k < i ==> items[k].name != name
    decreases |items|
  {
    if items != [] && items[0].name != name {
      FirstNamedSpec(items[1..], name);
      assert forall k :: 1 <= k < |items| ==> items[k] == items[1..][k - 1];
      if FirstNamed(items, name).Some? {
        var i :| 0 <= i < |items[1..]| && items[1..][i] == FirstNamed(items, name).value
          && items[1..][i].name == name && forall k :: 0 <= k < i ==> items[1..][k].name != name;
        assert items[i + 1] == FirstNamed(items, name).value;
      }
    } else if items != [] {
      assert items[0] == FirstNamed(items, name).value;
    }
  }

  /** Each goal is trimmed and comma-free, one per comma-separated piece. */
  lemma ParseGoalsPieces(goals: string)
    ensures goals == [] ==> ParseGoals(goals) == []
    ensures goals != [] ==> |ParseGoals(goals)| == |Split(goals, ',')|
    ensures forall i :: 0 <= i < |ParseGoals(goals)| ==>
      Trim(ParseGoals(goals)[i], Whitespaces) == ParseGoals(goals)[i] && ',' !in ParseGoals(goals)[i]
  {
    if goals != [] {
      var pieces := Split(goals, ',');
      SplitPiecesFree(goals, ',');
      forall i | 0 <= i < |pieces|
        ensures Trim(ParseGoals(goals)[i], Whitespaces) == ParseGoals(goals)[i]
        ensures ',' !in ParseGoals(goals)[i]
      {
        TrimIdempotent(pieces[i], Whitespaces);
        var a, b := TrimSpec(pieces[i], Whitespaces);
        assert ParseGoals(goals)[i] == pieces[i][a..b];
      }
    }
  }

  /** Joining trimmed, comma-free goals with commas and parsing gives them back. */
  lemma ParseGoalsJoin(goals: seq<string>)
    requires |goals| >= 1 && Join(goals, ',') != []
    requires forall i :: 0 <= i < |goals| ==> ',' !in goals[i] && Trim(goals[i], Whitespaces) == goals[i]
    ensures ParseGoals(Join(goals, ',')) == goals
  {
    SplitJoin(goals, ',');
  }

  /** Goals never affect the timer. */
  lemma StartIgnoresGoals(minutes: int, title: string, g1: seq<string>, g2: seq<string>, v: TimerView)
    ensures Effect(StartCommand(minutes, title, g1), v) == Effect(StartCommand(minutes, title, g2), v)
  {
  }

  /** Two pauses cancel out; a pause keeps the remaining time, title and total. */
  lemma PauseTwiceRestores(v: TimerView)
    ensures Effect(PauseCommand, Effect(PauseCommand, v)) == v
    ensures Effect(PauseCommand, v).(running := v.running) == v
  {
  }

  /** After stop, whatever its result and the prior state, the timer is stopped at 0 under "SprintBell". */
  lemma StopForgetsState(r1: string, r2: string, v1: TimerView, v2: TimerView)
    ensures Effect(StopCommand(r1), v1) == Effect(StopCommand(r2), v2)
    ensures !Effect(StopCommand(r1), v1).running && Effect(StopCommand(r1), v1).remaining == 0
  {
  }

  // ---------------------------------------------------------------------------
  // The handler

  class UrlSchemeHandler {
    /** The weak timer reference: `null` once the timer is gone. */
    var timerManager: TimerManager?
    /** `removingPercentEncoding`. */
    const decode: string -> Option<string>

    constructor (timerManager: TimerManager, decode: string -> Option<string>)
      ensures this.timerManager == timerManager && this.decode == decode
    {
      this.timerManager := timerManager;
      this.decode := decode;
    }

    /** `handleURL`: applies the command's effect to the timer, if there still is one. */
    method HandleUrl(url: Url)
      requires timerManager != null ==> timerManager.Valid()
      modifies timerManager
      ensures timerManager == old(timerManager)
      ensures timerManager != null ==>
        timerManager.Valid() && ViewOf(timerManager) == Effect(ParseCommand(url, decode), old(ViewOf(timerManager)))
    {
      var cmd := ParseCommand(url, decode);
      var tm := timerManager;
      if tm == null {
        return;
      }
      match cmd
      case StartCommand(minutes, title, _) =>
        tm.ResetTimer(minutes * 60, title);
        tm.StartTimer();
      case PauseCommand =>
        if tm.isRunning {
          tm.StopTimer();
        } else {
          tm.StartTimer();
        }
      case StopCommand(_) =>
        tm.StopTimer();
        tm.ResetTimer(0, StoppedTitle);
      case NoteCommand(_) =>
      case Ignored =>
    }
  }
}
