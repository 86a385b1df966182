/** The countdown shown above a puzzle (the Timer component).
 *
 *  It is a tick counter: while it is running, an interval fires once per
 *  second and decrements `timeLeft`; the tick that finds one second or less
 *  left sets it to 0, stops the interval and calls `onTimeUp`.  Seconds are
 *  rendered as `m:ss`.
 *
 *  The one-second interval itself is scheduling: here a tick is an explicit
 *  call, and `armed` says whether an interval is live.
 */
module Countdown {
  import opened ChessRules

  /** The component's state: the budget it was mounted with, the seconds
   *  left, and whether its interval is live. */
  datatype Clock = Clock(initialTime: nat, timeLeft: int, armed: bool)

  /** What the component keeps true: the seconds left stay between 0 and the
   *  budget. */
  predicate ClockValid(c: Clock)
  {
    0 <= c.timeLeft <= c.initialTime
  }

  /** Mounting: the seconds left start at the budget; the effect arms the
   *  interval only when the timer is running. */
  function Mounted(initialTime: nat, isRunning: bool): (c: Clock)
    ensures ClockValid(c) && c.timeLeft == initialTime && c.armed == isRunning
  {
    Clock(initialTime, initialTime, isRunning)
  }

  /** The effect re-run: its cleanup clears the old interval and it arms a new
   *  one exactly when `isRunning`; the seconds left are kept. */
  function Resynced(c: Clock, isRunning: bool): (r: Clock)
    ensures r.timeLeft == c.timeLeft && r.initialTime == c.initialTime
    ensures r.armed == isRunning
  {
    c.(armed := isRunning)
  }

  /** One interval firing, and whether it called `onTimeUp`. */
  function Ticked(c: Clock): (r: (Clock, bool))
    ensures !c.armed ==> r == (c, false)
    ensures r.0.initialTime == c.initialTime
    ensures c.armed ==> r.0.timeLeft >= 0
    ensures c.armed && c.timeLeft >= 0 ==> r.0.timeLeft <= c.timeLeft
    ensures c.armed && c.timeLeft > 1 ==> r.0.timeLeft == c.timeLeft - 1 && r.0.armed
    ensures r.1 <==> c.armed && c.timeLeft <= 1
    ensures r.1 ==> r.0.timeLeft == 0 && !r.0.armed
    ensures ClockValid(c) ==> ClockValid(r.0)
  {
    if !c.armed then (c, false)
    else if c.timeLeft <= 1 then (c.(timeLeft := 0, armed := false), true)
    else (c.(timeLeft := c.timeLeft - 1), false)
  }

  /** `k` interval firings in a row: the final state and how many times
   *  `onTimeUp` was called. */
  function Run(c: Clock, k: nat): (Clock, nat)
    decreases k
  {
    if k == 0 then (c, 0)
    else
      var (c1, fired) := Ticked(c);
      var (c2, n) := Run(c1, k - 1);
      (c2, n + if fired then 1 else 0)
  }

  /** The firing on which an armed clock calls `onTimeUp`. */
  function Due(c: Clock): nat
  {
    if c.timeLeft <= 1 then 1 else c.timeLeft
  }

  /** A stopped clock stays as it is. */
  lemma {:induction false} RunStopped(c: Clock, k: nat)
    requires !c.armed
    ensures Run(c, k) == (c, 0)
    decreases k
  {
    if k > 0 {
      RunStopped(c, k - 1);
    }
  }

  /** Once armed, the clock counts down one second per firing, reaches 0 on
   *  firing `Due(c)`, calls `onTimeUp` exactly once there, and is stopped
   *  from then on. */
  lemma {:induction false} RunFiresOnce(c: Clock, k: nat)
    requires c.armed
    ensures Run(c, k).1 == (if k >= Due(c) then 1 else 0)
    ensures Run(c, k).0.timeLeft == (if k >= Due(c) then 0 else c.timeLeft - k)
    ensures Run(c, k).0.armed == (k < Due(c))
    decreases k
  {
    if k > 0 {
      var c1 := Ticked(c).0;
      if c.timeLeft <= 1 {
        RunStopped(c1, k - 1);
      } else {
        assert Due(c1) == Due(c) - 1;
        RunFiresOnce(c1, k - 1);
      }
    }
  }

  /** A full budget of 120 seconds runs out on the 120th firing, not before. */
  lemma PuzzleBudgetRunsOut()
    ensures Run(Mounted(120, true), 119).1 == 0 && Run(Mounted(120, true), 119).0.timeLeft == 1
    ensures Run(Mounted(120, true), 120).1 == 1 && Run(Mounted(120, true), 120).0.timeLeft == 0
  {
    RunFiresOnce(Mounted(120, true), 119);
    RunFiresOnce(Mounted(120, true), 120);
  }

  // ---------------------------------------------------------------------------
  // Rendering m:ss

  function DigitChar(d: nat): (c: char)
    requires d < 10
    ensures '0' <= c <= '9' && c as int - '0' as int == d
  {
    ('0' as int + d) as char
  }

  predicate AllDigits(s: string)
  {
    forall i :: 0 <= i < |s| ==> '0' <= s[i] <= '9'
  }

  /** The number a string of decimal digits denotes. */
  function ValueOf(s: string): nat
    requires AllDigits(s)
    decreases |s|
  {
    if s == [] then 0 else ValueOf(s[..|s| - 1]) * 10 + (s[|s| - 1] as int - '0' as int)
  }

  /** `${n}` for a non-negative integer: its decimal digits, no leading zero. */
  function Decimal(n: nat): (s: string)
    ensures 1 <= |s| && AllDigits(s)
    ensures ValueOf(s) == n
    ensures n < 10 <==> |s| == 1
    ensures 10 <= n < 100 ==> |s| == 2
    // the only string starting with a zero is "0" itself
    ensures s[0] == '0' <==> n == 0
    ensures |s| > 1 ==> s[0] != '0'
    decreases n
  {
    if n < 10 then [DigitChar(n)]
    else
      var s := Decimal(n / 10) + [DigitChar(n % 10)];
      assert s[..|s| - 1] == Decimal(n / 10);
      s
  }

  /** Reads `m:ss` back: digits, a colon, then exactly two digits below 60. */
  function ParseClock(s: string): Option<nat>
  {
    if |s| >= 4 && s[|s| - 3] == ':' && AllDigits(s[..|s| - 3]) && AllDigits(s[|s| - 2..])
       && ValueOf(s[|s| - 2..]) < 60
    then Some(ValueOf(s[..|s| - 3]) * 60 + ValueOf(s[|s| - 2..]))
    else None
  }

  /** The seconds within the minute, zero-padded to two digits. */
  function SecondsField(secs: nat): (f: string)
    requires secs < 60
    ensures |f| == 2 && AllDigits(f) && ValueOf(f) == secs
  {
    if secs < 10 then
      var f := "0" + Decimal(secs);
      assert f[..1] == "0";
      f
    else Decimal(secs)
  }

  /** `formatTime`: whole minutes, unpadded, a colon, and the seconds within
   *  the minute padded to two digits. */
  function FormatTime(seconds: nat): (r: string)
    ensures |r| >= 4 && r[|r| - 3] == ':'
    ensures r[..|r| - 3] == Decimal(seconds / 60)
    ensures |r| > 4 ==> r[0] != '0'
    ensures AllDigits(r[..|r| - 3]) && ValueOf(r[..|r| - 3]) == seconds / 60
    ensures AllDigits(r[|r| - 2..]) && ValueOf(r[|r| - 2..]) == seconds % 60
  {
    var minutes := Decimal(seconds / 60);
    var field := SecondsField(seconds % 60);
    var r := minutes + ":" + field;
    assert r[..|r| - 3] == minutes;
    assert r[|r| - 2..] == field;
    assert r[0] == minutes[0] && |r| == |minutes| + 3;
    r
  }

  /** The rendered clock reads back as the same number of seconds. */
  lemma FormatTimeReadsBack(seconds: nat)
    ensures ParseClock(FormatTime(seconds)) == Some(seconds)
  {
    var r := FormatTime(seconds);
    assert ValueOf(r[..|r| - 3]) * 60 + ValueOf(r[|r| - 2..]) == seconds;
  }

  lemma FormatTimeExamples()
    ensures FormatTime(120) == "2:00"
    ensures FormatTime(65) == "1:05"
  {
    assert Decimal(2) == "2" && Decimal(0) == "0";
    assert SecondsField(0) == "00";
    assert Decimal(1) == "1" && Decimal(5) == "5";
    assert SecondsField(5) == "05";
  }

  /** The Timer component, updated in place. */
  class Timer {
    const initialTime: nat
    var timeLeft: int
    var armed: bool

    function State(): Clock
      reads this
    {
      Clock(initialTime, timeLeft, armed)
    }

    ghost predicate Valid()
      reads this
    {
      ClockValid(State())
    }

    /** Mounting with `useState(initialTime)` and the first effect run. */
    constructor (initialTime: nat, isRunning: bool)
      ensures Valid()
      ensures State() == Mounted(initialTime, isRunning)
    {
      this.initialTime := initialTime;
      timeLeft := initialTime;
      armed := isRunning;
    }

    /** A re-render that re-runs the effect with the current `isRunning`. */
    method Resync(isRunning: bool)
      requires Valid()
      modifies this
      ensures Valid()
      ensures State() == Resynced(old(State()), isRunning)
    {
      armed := isRunning;
    }

    /** One firing of the interval; `fired` says whether `onTimeUp` was called. */
    method Tick() returns (fired: bool)
      requires Valid()
      modifies this
      ensures Valid()
      ensures (State(), fired) == Ticked(old(State()))
    {
      fired := false;
      if armed {
        if timeLeft <= 1 {
          armed := false;
          fired := true;
          timeLeft := 0;
        } else {
          timeLeft := timeLeft - 1;
        }
      }
    }
  }
}
