/** The Pomodoro timer page: a 25-minute focus period and a 5-minute break, a countdown
    that ticks once a second while running, and the switch to the other period when the
    countdown reaches zero. */
module TimerPage {
  import opened Wrappers
  import Text

  const FocusTime: int := 25 * 60
  const BreakTime: int := 5 * 60

  datatype Mode = Focus | Break

  /** The full length of a period, in seconds. */
  function FullDuration(m: Mode): (d: int)
    ensures d > 0
  {
    if m == Focus then FocusTime else BreakTime
  }

  function Other(m: Mode): Mode {
    if m == Focus then Break else Focus
  }

  /** The timer's state: seconds left, whether it runs, and the current period. */
  datatype Clock = Clock(timeLeft: int, isRunning: bool, mode: Mode)

  /** The countdown never leaves the range of its period. */
  predicate Valid(c: Clock) {
    0 <= c.timeLeft <= FullDuration(c.mode)
  }

  /** The interval's tick: a running period with time left loses one second. */
  function Tick(c: Clock): Clock {
    if c.isRunning && c.timeLeft > 0 then c.(timeLeft := c.timeLeft - 1) else c
  }

  /** The timer effect, which takes no time: at zero the other period starts in full and
      stopped; otherwise nothing changes. */
  function Settle(c: Clock): Clock {
    if c.timeLeft == 0 then Clock(FullDuration(Other(c.mode)), false, Other(c.mode)) else c
  }

  /** One second of the timer: the tick, then the effect run its change triggers, so the
      tick that reaches zero also switches the period. */
  function Advance(c: Clock): (r: Clock)
    ensures r.mode != c.mode ==> r == Clock(FullDuration(Other(c.mode)), false, Other(c.mode))
    ensures r.mode == c.mode ==>
              r.isRunning == c.isRunning && (r.timeLeft == c.timeLeft || (c.isRunning && r.timeLeft == c.timeLeft - 1))
  {
    Settle(Tick(c))
  }

  /** `n` seconds of the timer. */
  function AdvanceBy(c: Clock, n: nat): Clock {
    if n == 0 then c else Advance(AdvanceBy(c, n - 1))
  }

  lemma AdvanceKeepsValid(c: Clock)
    requires Valid(c)
    ensures Valid(Advance(c))
  {
  }

  /** A paused timer with time left stays as it is. */
  lemma PausedTimerHolds(c: Clock, n: nat)
    requires !c.isRunning && c.timeLeft > 0
    ensures AdvanceBy(c, n) == c
  {
  }

  /** A running timer loses exactly one second per second while time is left. */
  lemma {:induction false} RunsDown(c: Clock, n: nat)
    requires c.isRunning && n < c.timeLeft
    ensures AdvanceBy(c, n) == c.(timeLeft := c.timeLeft - n)
  {
    if n > 0 {
      RunsDown(c, n - 1);
    }
  }

  /** A running period hands over to the other period, in full and stopped, on the very
      second its time runs out: a focus period turns into a 5-minute break and a break into
      a 25-minute focus period. */
  lemma RunsIntoOtherPeriod(c: Clock)
    requires c.isRunning && c.timeLeft > 0
    ensures AdvanceBy(c, c.timeLeft - 1).mode == c.mode
    ensures AdvanceBy(c, c.timeLeft) == Clock(FullDuration(Other(c.mode)), false, Other(c.mode))
  {
    RunsDown(c, c.timeLeft - 1);
  }

  /** The share of the period already elapsed, in percent. */
  function Progress(c: Clock): (p: real)
    ensures Valid(c) ==> 0.0 <= p <= 100.0
    ensures p == 0.0 <==> c.timeLeft == FullDuration(c.mode)
    ensures p == 100.0 <==> c.timeLeft == 0
  {
    var full := FullDuration(c.mode) as real;
    (full - c.timeLeft as real) / full * 100.0
  }

  /** Every running second moves the progress on by the same step, except the last one,
      which starts the other period afresh. */
  lemma ProgressPerSecond(c: Clock)
    requires c.isRunning && c.timeLeft > 0
    ensures c.timeLeft > 1 ==> Progress(Advance(c)) == Progress(c) + 100.0 / (FullDuration(c.mode) as real)
    ensures c.timeLeft == 1 ==> Progress(Advance(c)) == 0.0 && Advance(c).mode == Other(c.mode)
  {
  }

  /** `formatTime`: whole minutes and the remaining seconds, each padded to two digits. */
  function FormatTime(seconds: nat): (s: string)
    ensures |s| >= 5 && s[|s| - 3] == ':'
    ensures Text.AllDigits(s[..|s| - 3]) && Text.AllDigits(s[|s| - 2..])
  {
    Face(seconds / 60, seconds % 60)
  }

  /** Minutes and seconds, each padded to two digits, with a colon between. */
  function Face(mins: nat, secs: nat): (s: string)
    requires secs < 60
    ensures |s| >= 5 && s[|s| - 3] == ':'
    ensures Text.AllDigits(s[..|s| - 3]) && Text.AllDigits(s[|s| - 2..])
  {
    NatToStringWidth(secs);
    PaddedReadsBack(mins);
    PaddedReadsBack(secs);
    var m, r := Text.PadStart(Text.NatToString(mins), 2, '0'), Text.PadStart(Text.NatToString(secs), 2, '0');
    assert (m + ":" + r)[..|m + ":" + r| - 3] == m;
    assert (m + ":" + r)[|m + ":" + r| - 2..] == r;
    m + ":" + r
  }

  /** Reads `MM:SS` (two or more minute digits, two second digits under 60) back into seconds. */
  function ParseTime(s: string): Option<nat> {
    if |s| < 5 || s[|s| - 3] != ':' then None
    else ParseParts(s[..|s| - 3], s[|s| - 2..])
  }

  function ParseParts(mins: string, secs: string): Option<nat> {
    if Text.AllDigits(mins) && Text.AllDigits(secs) && Text.ParseNat(secs) < 60 then
      Some(Text.ParseNat(mins) * 60 + Text.ParseNat(secs))
    else None
  }

  /** A number padded with zeros to two digits reads back as the same number. */
  lemma {:induction false} PaddedReadsBack(n: nat)
    ensures Text.AllDigits(Text.PadStart(Text.NatToString(n), 2, '0'))
    ensures Text.ParseNat(Text.PadStart(Text.NatToString(n), 2, '0')) == n
  {
    var digits := Text.NatToString(n);
    Text.ParseNatToString(n);
    if |digits| < 2 {
      assert Text.PadStart(digits, 2, '0') == "0" + digits;
      Text.ParseNatLeadingZero(digits);
    } else {
      assert Text.PadStart(digits, 2, '0') == digits;
    }
  }

  /** A string of at least five characters with a colon third from the end splits there
      into its minutes and its seconds. */
  lemma SplitAtColon(mins: string, secs: string)
    requires |mins| >= 2 && |secs| == 2
    ensures ParseTime(mins + ":" + secs) == ParseParts(mins, secs)
  {
    var s := mins + ":" + secs;
    assert s[|s| - 3] == ':';
    assert s[..|s| - 3] == mins && s[|s| - 2..] == secs;
  }

  /** Minute digits and two second digits under 60 stand for that many seconds. */
  lemma PartsValue(mins: string, secs: string, m: nat, r: nat)
    requires Text.AllDigits(mins) && Text.ParseNat(mins) == m
    requires Text.AllDigits(secs) && Text.ParseNat(secs) == r && r < 60
    ensures ParseParts(mins, secs) == Some(m * 60 + r)
  {
  }

  /** A face reads back as the seconds it stands for. */
  lemma {:induction false} FaceReadsBack(mins: nat, secs: nat)
    requires secs < 60
    ensures ParseTime(Face(mins, secs)) == Some(mins * 60 + secs)
  {
    PaddedReadsBack(mins);
    PaddedReadsBack(secs);
    NatToStringWidth(secs);
    var m := Text.PadStart(Text.NatToString(mins), 2, '0');
    var s := Text.PadStart(Text.NatToString(secs), 2, '0');
    SplitAtColon(m, s);
    PartsValue(m, s, mins, secs);
  }

  /** The clock face loses nothing: reading it back gives the seconds it shows. */
  lemma {:induction false} FormatTimeRoundTrip(seconds: nat)
    ensures ParseTime(FormatTime(seconds)) == Some(seconds)
  {
    var m, r := seconds / 60, seconds % 60;
    assert FormatTime(seconds) == Face(m, r);
    FaceReadsBack(m, r);
    assert m * 60 + r == seconds;
  }

  /** A number below 100 has at most two digits. */
  lemma {:induction false} NatToStringWidth(n: nat)
    requires n < 100
    ensures |Text.NatToString(n)| <= 2
  {
  }

  /** The timer page. */
  class Timer {
    var timeLeft: int
    var isRunning: bool
    var mode: Mode

    function Snap(): Clock
      reads this
    {
      Clock(timeLeft, isRunning, mode)
    }

    /** The page opens on a stopped 25-minute focus period. */
    constructor ()
      ensures Snap() == Clock(FocusTime, false, Focus) && Valid(Snap())
    {
      timeLeft, isRunning, mode := FocusTime, false, Focus;
    }

    /** One second of the timer: the interval's tick, then the effect it triggers. */
    method Step()
      requires Valid(Snap())
      modifies this
      ensures Snap() == Advance(old(Snap())) && Valid(Snap())
    {
      if isRunning && timeLeft > 0 {
        timeLeft := timeLeft - 1;
      }
      if timeLeft == 0 {
        if mode == Focus {
          mode := Break;
          timeLeft := BreakTime;
        } else {
          mode := Focus;
          timeLeft := FocusTime;
        }
        isRunning := false;
      }
    }

    /** The play/pause button. */
    method Toggle()
      requires Valid(Snap())
      modifies this`isRunning
      ensures Snap() == old(Snap()).(isRunning := !old(isRunning)) && Valid(Snap())
    {
      isRunning := !isRunning;
    }

    /** The reset button: stopped, with the current period's full time. */
    method Reset()
      modifies this`isRunning, this`timeLeft
      ensures Snap() == Clock(FullDuration(old(mode)), false, old(mode)) && Valid(Snap())
    {
      isRunning := false;
      timeLeft := if mode == Focus then FocusTime else BreakTime;
    }

    /** The "Focus Mode" and "Break Time" buttons: that period, in full and stopped,
        whatever the timer was doing. */
    method SelectMode(m: Mode)
      modifies this
      ensures Snap() == Clock(FullDuration(m), false, m) && Valid(Snap())
    {
      mode := m;
      timeLeft := FullDuration(m);
      isRunning := false;
    }
  }
}
