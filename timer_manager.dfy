/**
 * The menu-bar countdown. `TimerManager` keeps the remaining seconds, the
 * running flag, the title, the total duration and the status-bar text, and
 * every operation ends by recomputing that text. The one-second Foundation
 * timer is represented by the `timerScheduled` flag; a firing of it is a
 * direct call of `Tick`.
 */
module Timer {
  import opened Wrappers
  import opened Numbers
  import opened Formatting

  const DefaultTitle: string := "Focus Session"
  /** The separator between time and title. */
  const Bullet: string := " \U{2022} "
  const DoneMark: string := " \U{2705}"
  const PausedMark: string := " \U{23F8}"

  /**
   * The status-bar text: the finished form when nothing remains and the
   * timer is stopped, the bare form while running, the paused form otherwise.
   * The finished form prints a literal "00:00", which is what the clock
   * text of 0 seconds is.
   */
  function StatusText(remaining: int, running: bool, title: string): string {
    if remaining == 0 && !running then "00:00" + Bullet + title + DoneMark
    else if running then ClockText(remaining) + Bullet + title
    else ClockText(remaining) + Bullet + title + PausedMark
  }

  /** The part of the state that the one-second tick drives. */
  datatype Countdown = Countdown(remaining: int, running: bool)

  /**
   * One firing of the timer: nothing when stopped, one second less while
   * time remains, and a stop (completion) once nothing remains.
   */
  function TickStep(c: Countdown): Countdown {
    if !c.running then c
    else if c.remaining > 0 then Countdown(c.remaining - 1, true)
    else Countdown(c.remaining, false)
  }

  /** `n` consecutive firings. */
  function Ticks(c: Countdown, n: nat): Countdown
    decreases n
  {
    if n == 0 then c else Ticks(TickStep(c), n - 1)
  }

  // ---------------------------------------------------------------------------
  // Properties of the countdown and the status text

  /**
   * Started at `d` seconds, the countdown runs down one per tick and stops on
   * the tick after it reaches 0; a negative start stops on the first tick.
   */
  lemma {:induction false} TicksFromRunning(d: int, k: nat)
    ensures Ticks(Countdown(d, true), k) ==
      if k <= Max(d, 0) then Countdown(d - k, true) else Countdown(Min(d, 0), false)
    decreases k
  {
    if k > 0 {
      if d > 0 {
        TicksFromRunning(d - 1, k - 1);
      } else {
        StoppedStaysPut(d, k - 1);
      }
    }
  }

  /** A stopped countdown is left alone by any number of ticks. */
  lemma {:induction false} StoppedStaysPut(r: int, k: nat)
    ensures Ticks(Countdown(r, false), k) == Countdown(r, false)
    decreases k
  {
    if k > 0 {
      StoppedStaysPut(r, k - 1);
    }
  }

  /** Reset to `d` and started, the timer is at 0 and still running after `d` ticks, and stopped at 0 after `d + 1`. */
  lemma ResetStartCompletes(d: nat)
    ensures Ticks(Countdown(d, true), d) == Countdown(0, true)
    ensures Ticks(Countdown(d, true), d + 1) == Countdown(0, false)
  {
    TicksFromRunning(d, d);
    TicksFromRunning(d, d + 1);
  }

  /**
   * The status text begins with the clock text of the remaining seconds,
   * then the separator and the title; for a non-negative count the clock
   * part reads back as that count.
   */
  lemma StatusTextShowsTime(remaining: int, running: bool, title: string)
    ensures var clock := ClockText(remaining);
      var text := StatusText(remaining, running, title);
      |clock| <= |text| && text[..|clock|] == clock
      && text[|clock|..|clock| + |Bullet| + |title|] == Bullet + title
    ensures remaining >= 0 ==>
      ParseClock(StatusText(remaining, running, title)[..|ClockText(remaining)|]) == Some(remaining)
  {
    var clock := ClockText(remaining);
    var text := StatusText(remaining, running, title);
    if remaining == 0 {
      assert clock == "00:00";
    }
    var mark := if remaining == 0 && !running then DoneMark else if running then "" else PausedMark;
    assert text == clock + (Bullet + title) + mark;
    if remaining >= 0 {
      ClockTextRoundTrip(remaining);
    }
  }

  /** Stopped, the text ends in the finished mark exactly when nothing remains and in the paused mark otherwise; running, it carries no mark. */
  lemma StatusTextMarks(remaining: int, running: bool, title: string)
    ensures |StatusText(remaining, running, title)| >= 2
    ensures !running ==> var text := StatusText(remaining, running, title);
      (text[|text| - 2..] == DoneMark <==> remaining == 0)
      && (text[|text| - 2..] == PausedMark <==> remaining != 0)
    ensures running ==> StatusText(remaining, running, title) == ClockText(remaining) + Bullet + title
  {
    var text := StatusText(remaining, running, title);
    if !running {
      if remaining == 0 {
        assert text[|text| - 2..] == DoneMark;
      } else {
        assert text[|text| - 2..] == PausedMark;
      }
    }
  }

  // ---------------------------------------------------------------------------
  // The manager

  class TimerManager {
    var remainingSeconds: int
    var isRunning: bool
    var mainTitle: string
    var displayText: string
    var totalDuration: int
    /** Whether the repeating one-second timer is scheduled. */
    var timerScheduled: bool

    /** The status text is current and a timer is scheduled exactly while running. */
    ghost predicate Valid()
      reads this
    {
      displayText == StatusText(remainingSeconds, isRunning, mainTitle)
      && timerScheduled == isRunning
    }

    function State(): Countdown
      reads this
    {
      Countdown(remainingSeconds, isRunning)
    }

    /** `init`: zero seconds, stopped, the default title, and the display already computed. */
    constructor ()
      ensures Valid()
      ensures remainingSeconds == 0 && !isRunning && mainTitle == DefaultTitle && totalDuration == 0
      ensures displayText == "00:00 \U{2022} Focus Session \U{2705}"
    {
      remainingSeconds := 0;
      isRunning := false;
      mainTitle := DefaultTitle;
      displayText := "SprintBell";
      totalDuration := 0;
      timerScheduled := false;
      new;
      UpdateDisplay();
    }

    /** `startTimer`: nothing when already running; otherwise runs, schedules the timer, and keeps time and title. */
    method StartTimer()
      requires Valid()
      modifies this
      ensures Valid()
      ensures old(isRunning) ==> unchanged(this)
      ensures isRunning && timerScheduled
      ensures remainingSeconds == old(remainingSeconds) && mainTitle == old(mainTitle)
      ensures totalDuration == old(totalDuration)
    {
      if isRunning {
        return;
      }
      isRunning := true;
      timerScheduled := true;
      UpdateDisplay();
    }

    /** `stopTimer`: always ends stopped with no timer scheduled, keeping time and title. */
    method StopTimer()
      modifies this
      ensures Valid()
      ensures !isRunning && !timerScheduled
      ensures remainingSeconds == old(remainingSeconds) && mainTitle == old(mainTitle)
      ensures totalDuration == old(totalDuration)
    {
      isRunning := false;
      timerScheduled := false;
      UpdateDisplay();
    }

    /** `resetTimer(duration:title:)`: stopped, with `duration` remaining out of `duration`, under the new title. */
    method ResetTimer(duration: int, title: string)
      modifies this
      ensures Valid()
      ensures !isRunning && !timerScheduled
      ensures remainingSeconds == duration && totalDuration == duration && mainTitle == title
    {
      StopTimer();
      remainingSeconds := duration;
      totalDuration := duration;
      mainTitle := title;
      UpdateDisplay();
    }

    /** `tick`: one firing of the timer, as `TickStep` describes; title and total are kept. */
    method Tick()
      requires Valid()
      modifies this
      ensures Valid()
      ensures State() == TickStep(old(State()))
      ensures mainTitle == old(mainTitle) && totalDuration == old(totalDuration)
    {
      if !isRunning {
        return;
      }
      if remainingSeconds > 0 {
        remainingSeconds := remainingSeconds - 1;
      } else {
        TimerCompleted();
      }
      UpdateDisplay();
    }

    /** `timerCompleted`: only stops the timer. */
    method TimerCompleted()
      modifies this
      ensures Valid()
      ensures !isRunning && !timerScheduled
      ensures remainingSeconds == old(remainingSeconds) && mainTitle == old(mainTitle)
      ensures totalDuration == old(totalDuration)
    {
      StopTimer();
    }

    /** `updateDisplay`: recomputes the status text and changes nothing else. */
    method UpdateDisplay()
      modifies this
      ensures displayText == StatusText(remainingSeconds, isRunning, mainTitle)
      ensures remainingSeconds == old(remainingSeconds) && isRunning == old(isRunning)
      ensures mainTitle == old(mainTitle) && totalDuration == old(totalDuration)
      ensures timerScheduled == old(timerScheduled)
    {
      var timeString := ClockText(remainingSeconds);
      if remainingSeconds == 0 && !isRunning {
        displayText := "00:00" + Bullet + mainTitle + DoneMark;
      } else if isRunning {
        displayText := timeString + Bullet + mainTitle;
      } else {
        displayText := timeString + Bullet + mainTitle + PausedMark;
      }
    }
  }
}
