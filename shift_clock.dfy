/**
 * The shift clock of src/garage/UI.java: the static time and order counters,
 * the once-per-second tick, the clock-in detection, the order and break
 * commands and the status text shown in the stats area.
 *
 * The wall clock enters as integers (GetTime's parameters); the
 * orders-per-hour figure, a floating-point DecimalFormat, enters as the
 * formatter `rateText` the clock is built with.
 */
module Garage {

  import opened Text
  import opened Wrappers

  // ---------------------------------------------------------------------------
  // Time arithmetic

  /**
   * What one carry loop of the clock (`while (x > 59) { carry++; x -= 60; }`)
   * leaves: the carry and what is left of x. Above 59 the loop divides by
   * 60 with remainder; otherwise it does not run.
   */
  function Carry(x: int): (r: (int, int))
    ensures r.0 * 60 + r.1 == x
    ensures r.0 >= 0 && r.1 <= 59
    ensures x >= 0 ==> 0 <= r.1
    ensures x <= 59 ==> r.0 == 0
  {
    if x > 59 then (x / 60, x % 60) else (0, x)
  }

  /**
   * Seconds split into (hours, minutes, seconds) by the two carry loops of
   * the countdown: the parts recombine to n, minutes and seconds stay below
   * sixty, and a non-negative n gives non-negative parts.
   */
  function Split(n: int): (r: (int, int, int))
    ensures r.0 * 3600 + r.1 * 60 + r.2 == n
    ensures r.1 <= 59 && r.2 <= 59
    ensures n >= 0 ==> 0 <= r.0 && 0 <= r.1 && 0 <= r.2
    ensures n < 0 ==> r == (0, 0, n)
  {
    var low := Carry(n);
    var high := Carry(low.0);
    (high.0, high.1, low.1)
  }

  /**
   * The clock after one tick of (h, m, s): one second later, and normalised
   * (minutes and seconds in 0..59) whenever the fields were non-negative.
   */
  function Ticked(h: int, m: int, s: int): (r: (int, int, int))
    ensures r.0 * 3600 + r.1 * 60 + r.2 == h * 3600 + m * 60 + s + 1
    ensures r.1 <= 59 && r.2 <= 59
    ensures 0 <= h && 0 <= m && 0 <= s ==> 0 <= r.0 && 0 <= r.1 && 0 <= r.2
  {
    var low := Carry(s + 1);
    var high := Carry(m + low.0);
    (h + high.0, high.1, low.1)
  }

  /** Ticking once from a zeroed clock holding n - 1 seconds gives n split into its fields. */
  lemma TickFromZero(n: int)
    ensures Ticked(0, 0, n - 1) == Split(n)
  {
    var low := Carry(n);
    assert Carry(0 + low.0) == Carry(low.0);
  }

  /** The two carry loops of the countdown in getStats, run on local variables. */
  method SplitCountdown(total: int) returns (hours: int, minutes: int, seconds: int)
    ensures (hours, minutes, seconds) == Split(total)
  {
    seconds := total;
    hours, minutes := 0, 0;
    while seconds > 59
      invariant minutes + Carry(seconds).0 == Carry(total).0 && Carry(seconds).1 == Carry(total).1
      decreases seconds
    {
      minutes := minutes + 1;
      seconds := seconds - 60;
    }
    ghost var m0 := minutes;
    while minutes > 59
      invariant hours + Carry(minutes).0 == Carry(m0).0 && Carry(minutes).1 == Carry(m0).1
      decreases minutes
    {
      hours := hours + 1;
      minutes := minutes - 60;
    }
  }

  // ---------------------------------------------------------------------------
  // Status text

  /** `if (n < 10) sb.append("0"); sb.append(n);` */
  method AppendField(sb: string, n: int) returns (r: string)
    ensures r == sb + Pad(n)
  {
    r := sb;
    if n < 10 {
      r := r + "0";
    }
    r := r + IntToString(n);
  }

  /** "HH:MM:SS", each field with a leading zero when below ten. */
  function ClockText(h: int, m: int, s: int): string {
    Pad(h) + ":" + Pad(m) + ":" + Pad(s)
  }

  const CountdownHeader := "Time until clocked in:\n"

  /** The text shown before clock-in for a countdown of n seconds. */
  function CountdownText(n: int): string {
    var (h, m, s) := Split(n);
    CountdownHeader + ClockText(h, m, s)
  }

  /** Orders still to do: the shortfall against the target, never negative. */
  function Left(orders: int, needed: int): (r: int)
    ensures r >= 0 && orders + r >= needed
    ensures r > 0 ==> orders + r == needed
  {
    if orders < needed then needed - orders else 0
  }

  /** The first line of the stats text. */
  function TimeLine(h: int, m: int, s: int): string {
    "Time: " + ClockText(h, m, s)
  }

  /** The first line as getStats' StringBuilder appends it, field by field. */
  lemma TimeLineInBuilderOrder(h: int, m: int, s: int)
    ensures TimeLine(h, m, s) == "Time: " + Pad(h) + ":" + Pad(m) + ":" + Pad(s)
  {
  }

  /** The rest of the stats text: the orders with their hourly rate, and the orders still needed. */
  function OrderLines(orders: int, needed: int, rate: string): string {
    "\nOrders: " + IntToString(orders) + " (" + rate + "/hr)\nNeeded: "
    + IntToString(needed) + ", " + IntToString(Left(orders, needed)) + " left"
  }

  /** The text shown once clocked in. */
  function StatsText(h: int, m: int, s: int, orders: int, needed: int, rate: string): string {
    TimeLine(h, m, s) + OrderLines(orders, needed, rate)
  }

  /** Reads "HH:MM:SS" (the hour field may be longer) back into its fields. */
  function DecodeClock(t: string): Option<(int, int, int)> {
    if |t| < 8 || t[|t| - 3] != ':' || t[|t| - 6] != ':' then None
    else
      var hh, mm, ss := t[..|t| - 6], t[|t| - 5..|t| - 3], t[|t| - 2..];
      if AllDigits(hh) && AllDigits(mm) && AllDigits(ss) then
        Some((DigitsValue(hh), DigitsValue(mm), DigitsValue(ss)))
      else None
  }

  /** Reads a countdown text back into its number of seconds. */
  function DecodeCountdown(t: string): Option<int> {
    if |t| < |CountdownHeader| || t[..|CountdownHeader|] != CountdownHeader then None
    else match DecodeClock(t[|CountdownHeader|..])
      case Some((h, m, s)) => Some(h * 3600 + m * 60 + s)
      case None => None
  }

  /** The text up to its first line break. */
  function FirstLine(t: string): string {
    if t == [] || t[0] == '\n' then [] else [t[0]] + FirstLine(t[1..])
  }

  /** Reads the time back from the first line of a stats text. */
  function DecodeStatsTime(t: string): Option<(int, int, int)> {
    var line := FirstLine(t);
    if |line| < 6 || line[..6] != "Time: " then None else DecodeClock(line[6..])
  }

  /** The first line of t is a when t continues a with a line break. */
  lemma {:induction false} FirstLineOf(t: string, a: string)
    requires '\n' !in a && |a| < |t| && t[..|a|] == a && t[|a|] == '\n'
    ensures FirstLine(t) == a
  {
    if a != [] {
      assert t[1..][..|a| - 1] == a[1..];
      FirstLineOf(t[1..], a[1..]);
    }
  }

  /** Where the pieces of "a:b:c" sit when b and c have two characters each. */
  lemma ClockPieces(a: string, b: string, c: string)
    requires |b| == 2 && |c| == 2
    ensures var t := a + ":" + b + ":" + c;
      && |t| == |a| + 6 && t[|t| - 3] == ':' && t[|t| - 6] == ':'
      && t[..|t| - 6] == a && t[|t| - 5..|t| - 3] == b && t[|t| - 2..] == c
  {
    var t := a + ":" + b + ":" + c;
    assert t[..|t| - 6] == a;
    assert t[|t| - 5..|t| - 3] == b;
    assert t[|t| - 2..] == c;
  }

  /** A string of digits holds no line break. */
  lemma DigitsHaveNoBreak(s: string)
    requires AllDigits(s)
    ensures '\n' !in s
  {
  }

  /** A normalised clock's text reads back as the same hours, minutes and seconds. */
  lemma ClockTextRoundTrip(h: int, m: int, s: int)
    requires 0 <= h && 0 <= m < 60 && 0 <= s < 60
    ensures |ClockText(h, m, s)| >= 8 && '\n' !in ClockText(h, m, s)
    ensures DecodeClock(ClockText(h, m, s)) == Some((h, m, s))
  {
    PadRoundTrip(h);
    PadRoundTrip(m);
    PadRoundTrip(s);
    ClockPieces(Pad(h), Pad(m), Pad(s));
    DigitsHaveNoBreak(Pad(h));
    DigitsHaveNoBreak(Pad(m));
    DigitsHaveNoBreak(Pad(s));
  }

  /** Every non-negative countdown reads back as the number of seconds it shows. */
  lemma CountdownRoundTrip(n: int)
    requires n >= 0
    ensures DecodeCountdown(CountdownText(n)) == Some(n)
  {
    var (h, m, s) := Split(n);
    ClockTextRoundTrip(h, m, s);
    var t := CountdownText(n);
    assert t[..|CountdownHeader|] == CountdownHeader;
    assert t[|CountdownHeader|..] == ClockText(h, m, s);
  }

  lemma TimeLineHasNoBreak(h: int, m: int, s: int)
    requires 0 <= h && 0 <= m < 60 && 0 <= s < 60
    ensures '\n' !in TimeLine(h, m, s)
  {
    ClockTextRoundTrip(h, m, s);
  }

  /** The first line of the stats text is the time, and it reads back as the clock's fields. */
  lemma StatsTimeRoundTrip(h: int, m: int, s: int, orders: int, needed: int, rate: string)
    requires 0 <= h && 0 <= m < 60 && 0 <= s < 60
    ensures DecodeStatsTime(StatsText(h, m, s, orders, needed, rate)) == Some((h, m, s))
  {
    var line := TimeLine(h, m, s);
    var rest := OrderLines(orders, needed, rate);
    var t := StatsText(h, m, s, orders, needed, rate);
    TimeLineHasNoBreak(h, m, s);
    assert rest[0] == '\n';
    assert t[..|line|] == line && t[|line|] == rest[0];
    FirstLineOf(t, line);
    assert line[..6] == "Time: " && line[6..] == ClockText(h, m, s);
    ClockTextRoundTrip(h, m, s);
  }

  /** The StringBuilder work of getStats before clock-in: the countdown split and padded. */
  method BuildCountdown(total: int) returns (text: string)
    ensures text == CountdownText(total)
  {
    var hours, minutes, seconds := SplitCountdown(total);
    var sb := AppendField("", hours);
    assert sb == Pad(hours);
    sb := sb + ":";
    sb := AppendField(sb, minutes);
    sb := sb + ":";
    sb := AppendField(sb, seconds);
    assert sb == ClockText(hours, minutes, seconds);
    text := CountdownHeader + sb;
  }

  // ---------------------------------------------------------------------------
  // Orders

  /** `orders += amount; if (orders < 0) orders = 0;` */
  function ChangedOrders(orders: int, amount: int): (r: int)
    ensures r >= 0
    ensures r == orders + amount || (r == 0 && orders + amount < 0)
  {
    if orders + amount < 0 then 0 else orders + amount
  }

  /** Orders after a run of changes made off break. */
  function ApplyChanges(orders: int, amounts: seq<int>): int
    decreases |amounts|
  {
    if amounts == [] then orders
    else ApplyChanges(ChangedOrders(orders, amounts[0]), amounts[1..])
  }

  /** n "add order" commands off break raise the count by exactly n. */
  lemma {:induction false} AddsCount(orders: int, n: nat)
    requires orders >= 0
    ensures ApplyChanges(orders, seq(n, _ => 1)) == orders + n
    decreases n
  {
    if n > 0 {
      assert seq(n, _ => 1)[1..] == seq(n - 1, _ => 1);
      AddsCount(orders + 1, n - 1);
    }
  }

  /** No run of changes leaves the count negative, whatever the amounts. */
  lemma {:induction false} ChangesNeverNegative(orders: int, amounts: seq<int>)
    requires orders >= 0
    ensures ApplyChanges(orders, amounts) >= 0
    decreases |amounts|
  {
    if amounts != [] {
      ChangesNeverNegative(ChangedOrders(orders, amounts[0]), amounts[1..]);
    }
  }

  /** Removing an order undoes adding one, and removing at zero stays at zero. */
  lemma AddThenRemove(orders: int)
    requires orders >= 0
    ensures ChangedOrders(ChangedOrders(orders, 1), -1) == orders
    ensures ChangedOrders(0, -1) == 0
  {
  }

  /**
   * Orders needed for the shift: Math.round(target * minutes / 60 - 1), the
   * integer nearest to target * minutes / 60 - 1 with halves rounded up.
   */
  function OrdersNeeded(target: int, minutes: int): (r: int)
    ensures 60 * r - 30 <= target * minutes - 60 < 60 * r + 30
  {
    (2 * (target * minutes) - 60) / 120
  }

  // ---------------------------------------------------------------------------
  // Commands from keys and buttons

  /** The break window getTime's caller is asked to show. */
  datatype BreakPrompt = NoPrompt | EnterBreakPrompt | LeaveBreakPrompt

  /** The order change a key code asks for: -1 for Backspace (8) and Down (40), +1 for Up (38). */
  function KeyOrderChange(key: int): (r: int)
    ensures r == -1 <==> key == 8 || key == 40
    ensures r == 1 <==> key == 38
    ensures r == 0 <==> key != 8 && key != 40 && key != 38
  {
    if key == 8 || key == 40 then -1 else if key == 38 then 1 else 0
  }

  // ---------------------------------------------------------------------------
  // The clock state

  class UI {
    var hr: int
    var min: int
    var sec: int
    var totalSecClocked: int
    var secondsTillCI: int
    var recheckTimeTill: bool
    var recheckTime: bool
    var orders: int
    var inBreak: bool
    /** Ignore entering and leaving break. */
    var freeze: bool
    var clockInTimePassed: bool
    /** Target orders per hour. */
    var target: int
    var ordersNeeded: int
    /** Window.coChosen: whether the clock-out time has been chosen. */
    var coChosen: bool
    /** The text of the stats area. */
    var stats: string
    /** oph.format((orders * 3600) / totalSecClocked), given orders and totalSecClocked. */
    const rateText: (int, int) -> string

    /** The clock fields read as seconds. */
    function ClockSeconds(): int
      reads this
    {
      hr * 3600 + min * 60 + sec
    }

    /**
     * Orders are never negative, the clock fields always add up to the
     * seconds clocked, minutes stay in 0..59, seconds below 60, and a
     * negative seconds field (a clock-in forced before the clock-in time)
     * only occurs with zero hours and minutes.
     */
    ghost predicate Valid()
      reads this
    {
      && orders >= 0
      && ClockSeconds() == totalSecClocked
      && 0 <= hr && 0 <= min <= 59 && sec <= 59
      && (sec < 0 ==> hr == 0 && min == 0)
    }

    /** The stats text for the current state. */
    function CurrentStats(): string
      reads this
    {
      StatsText(hr, min, sec, orders, ordersNeeded, rateText(orders, totalSecClocked))
    }

    /** What getStats leaves behind, given the countdown and text it started from. */
    ghost predicate Refreshed(till0: int, stats0: string)
      reads this
    {
      if clockInTimePassed then secondsTillCI == till0 && stats == CurrentStats()
      else if coChosen then secondsTillCI == till0 - 1 && stats == CountdownText(secondsTillCI)
      else secondsTillCI == till0 && stats == stats0
    }

    /**
     * The static initial state of the clock, then the constructor's getStats:
     * before clock-in it changes nothing unless the clock-out time is already
     * chosen, in which case the countdown drops from its unset -1 to -2.
     */
    constructor (coChosen: bool, rateText: (int, int) -> string)
      ensures Valid()
      ensures this.coChosen == coChosen && this.rateText == rateText
      ensures hr == 0 && min == 0 && sec == 0 && totalSecClocked == 0
      ensures !recheckTime && !recheckTimeTill
      ensures orders == 0 && inBreak && freeze && !clockInTimePassed
      ensures target == 0 && ordersNeeded == 0
      ensures !coChosen ==> secondsTillCI == -1 && stats == "Time: 00:00:00\nOrders: 0 (.00/hr)\nNeeded: 0, 0 left"
      ensures coChosen ==> secondsTillCI == -2 && stats == CountdownText(-2)
    {
      hr, min, sec, totalSecClocked := 0, 0, 0, 0;
      secondsTillCI := -1;
      recheckTimeTill, recheckTime := false, false;
      orders := 0;
      inBreak, freeze, clockInTimePassed := true, true, false;
      target, ordersNeeded := 0, 0;
      this.coChosen := coChosen;
      stats := "Time: 00:00:00\nOrders: 0 (.00/hr)\nNeeded: 0, 0 left";
      this.rateText := rateText;
      new;
      GetStats();
    }

    /**
     * getStats: once clocked in, rewrites the stats text from the state;
     * before that, when the clock-out time is chosen, counts the countdown
     * down by one second and shows it.
     */
    method GetStats()
      modifies this`secondsTillCI, this`stats
      ensures Refreshed(old(secondsTillCI), old(stats))
    {
      if clockInTimePassed {
        stats := BuildStats();
      } else if coChosen {
        secondsTillCI := secondsTillCI - 1;
        stats := BuildCountdown(secondsTillCI);
      }
    }

    /** The StringBuilder work of getStats once clocked in. */
    method BuildStats() returns (sb: string)
      ensures sb == CurrentStats()
    {
      sb := "Time: ";
      sb := AppendField(sb, hr);
      sb := sb + ":";
      sb := AppendField(sb, min);
      sb := sb + ":";
      sb := AppendField(sb, sec);
      TimeLineInBuilderOrder(hr, min, sec);
      var rest := "\nOrders: ";
      rest := rest + IntToString(orders);
      rest := rest + " (";
      rest := rest + rateText(orders, totalSecClocked);
      rest := rest + "/hr)\nNeeded: ";
      rest := rest + IntToString(ordersNeeded);
      rest := rest + ", ";
      if orders < ordersNeeded {
        rest := rest + IntToString(ordersNeeded - orders);
      } else {
        assert IntToString(Left(orders, ordersNeeded)) == "0";
        rest := rest + "0";
      }
      rest := rest + " left";
      sb := sb + rest;
    }

    /**
     * tick: one more second clocked. The seconds carry into minutes and the
     * minutes into hours, so the fields stay normalised and still add up to
     * the seconds clocked.
     */
    method Tick()
      modifies this`totalSecClocked, this`sec, this`min, this`hr, this`secondsTillCI, this`stats
      ensures totalSecClocked == old(totalSecClocked) + 1
      ensures (hr, min, sec) == Ticked(old(hr), old(min), old(sec))
      ensures ClockSeconds() == old(ClockSeconds()) + 1
      ensures old(Valid()) ==> Valid()
      ensures Refreshed(old(secondsTillCI), old(stats))
    {
      AdvanceClock();
      GetStats();
    }

    /** The counting part of tick: one more second, carried into minutes and hours. */
    method AdvanceClock()
      modifies this`totalSecClocked, this`sec, this`min, this`hr
      ensures totalSecClocked == old(totalSecClocked) + 1
      ensures (hr, min, sec) == Ticked(old(hr), old(min), old(sec))
      ensures ClockSeconds() == old(ClockSeconds()) + 1
      ensures old(Valid()) ==> Valid()
    {
      totalSecClocked := totalSecClocked + 1;
      sec := sec + 1;
      CarrySeconds();
      CarryMinutes();
    }

    /** The seconds loop of tick: whole minutes move out of the seconds field. */
    method CarrySeconds()
      modifies this`sec, this`min
      ensures sec == Carry(old(sec)).1 && min == old(min) + Carry(old(sec)).0
    {
      while sec > 59
        invariant min - old(min) + Carry(sec).0 == Carry(old(sec)).0 && Carry(sec).1 == Carry(old(sec)).1
        decreases sec
      {
        min := min + 1;
        sec := sec - 60;
      }
    }

    /** The minutes loop of tick: whole hours move out of the minutes field. */
    method CarryMinutes()
      modifies this`hr, this`min
      ensures min == Carry(old(min)).1 && hr == old(hr) + Carry(old(min)).0
    {
      while min > 59
        invariant hr - old(hr) + Carry(min).0 == Carry(old(min)).0 && Carry(min).1 == Carry(old(min)).1
        decreases min
      {
        hr := hr + 1;
        min := min - 60;
      }
    }

    /**
     * changeOrders: off break, adds amount to the orders, stopping at zero,
     * and refreshes the stats; on break nothing changes.
     */
    method ChangeOrders(amount: int)
      modifies this`orders, this`secondsTillCI, this`stats
      ensures orders == if old(inBreak) then old(orders) else ChangedOrders(old(orders), amount)
      ensures old(inBreak) ==> secondsTillCI == old(secondsTillCI) && stats == old(stats)
      ensures !old(inBreak) ==> Refreshed(old(secondsTillCI), old(stats))
      ensures old(Valid()) ==> Valid()
    {
      if !inBreak {
        orders := orders + amount;
        if orders < 0 {
          orders := 0;
        }
        GetStats();
      }
    }

    /**
     * enterLeaveBreak: unless frozen, asks for the enter-break window when
     * working and for the leave-break window when on break. Those windows,
     * not this method, flip inBreak.
     */
    method EnterLeaveBreak() returns (prompt: BreakPrompt)
      ensures freeze <==> prompt == NoPrompt
      ensures !freeze ==> (prompt == LeaveBreakPrompt <==> inBreak)
    {
      if !freeze {
        if !inBreak {
          prompt := EnterBreakPrompt;
        } else {
          prompt := LeaveBreakPrompt;
        }
      } else {
        prompt := NoPrompt;
      }
    }

    /**
     * keyPressed: Backspace and Down remove an order, 0 asks for a break
     * window, Up adds an order, and every key ends with a refresh. Before
     * clock-in with the clock-out time chosen, each refresh (the final one
     * and the one an order change makes off break) lowers the countdown by
     * a second.
     */
    method KeyPressed(key: int) returns (prompt: BreakPrompt)
      modifies this`orders, this`secondsTillCI, this`stats
      ensures var change := KeyOrderChange(key);
        orders == if change == 0 || old(inBreak) then old(orders) else ChangedOrders(old(orders), change)
      ensures key == 48 ==> (freeze <==> prompt == NoPrompt)
      ensures key == 48 && !freeze ==> (prompt == LeaveBreakPrompt <==> inBreak)
      ensures key != 48 ==> prompt == NoPrompt
      ensures clockInTimePassed ==> secondsTillCI == old(secondsTillCI) && stats == CurrentStats()
      ensures !clockInTimePassed && coChosen ==>
        secondsTillCI == old(secondsTillCI) - (if KeyOrderChange(key) != 0 && !inBreak then 2 else 1)
        && stats == CountdownText(secondsTillCI)
      ensures !clockInTimePassed && !coChosen ==> secondsTillCI == old(secondsTillCI) && stats == old(stats)
      ensures old(Valid()) ==> Valid()
    {
      prompt := Shortcut(key);
      GetStats();
    }

    /** The shortcut part of keyPressed, before its final refresh. */
    method Shortcut(key: int) returns (prompt: BreakPrompt)
      modifies this`orders, this`secondsTillCI, this`stats
      ensures var change := KeyOrderChange(key);
        orders == if change == 0 || old(inBreak) then old(orders) else ChangedOrders(old(orders), change)
      ensures key == 48 ==> (freeze <==> prompt == NoPrompt)
      ensures key == 48 && !freeze ==> (prompt == LeaveBreakPrompt <==> inBreak)
      ensures key != 48 ==> prompt == NoPrompt
      ensures KeyOrderChange(key) != 0 && !inBreak ==> Refreshed(old(secondsTillCI), old(stats))
      ensures KeyOrderChange(key) == 0 || inBreak ==> secondsTillCI == old(secondsTillCI) && stats == old(stats)
      ensures old(Valid()) ==> Valid()
    {
      if key == 8 || key == 40 {
        ChangeOrders(-1);
      }
      prompt := NoPrompt;
      if key == 48 {
        prompt := EnterLeaveBreak();
      }
      if key == 38 {
        ChangeOrders(1);
      }
    }

    /** actionPerformed: the "Add order" button adds an order; the break button asks for a break window. */
    method ActionPerformed(command: string) returns (prompt: BreakPrompt)
      modifies this`orders, this`secondsTillCI, this`stats
      ensures command == "Add order" ==> orders == (if old(inBreak) then old(orders) else ChangedOrders(old(orders), 1))
      ensures command == "Add order" && !old(inBreak) ==> Refreshed(old(secondsTillCI), old(stats))
      ensures command == "Add order" && old(inBreak) ==> secondsTillCI == old(secondsTillCI) && stats == old(stats)
      ensures command != "Add order" ==> orders == old(orders) && secondsTillCI == old(secondsTillCI) && stats == old(stats)
      ensures command == "Enter Break" || command == "Leave Break" ==>
        (freeze <==> prompt == NoPrompt) && (!freeze ==> (prompt == LeaveBreakPrompt <==> inBreak))
      ensures command != "Enter Break" && command != "Leave Break" ==> prompt == NoPrompt
      ensures old(Valid()) ==> Valid()
    {
      prompt := NoPrompt;
      if command == "Add order" {
        ChangeOrders(1);
      } else if command == "Enter Break" || command == "Leave Break" {
        prompt := EnterLeaveBreak();
      }
    }

    /**
     * getTime, with the wall clock as inputs: `reached` is whether the
     * clock-in time is at or before now, `sinceClockIn` and `untilClockIn`
     * the whole seconds from clock-in to now and from now to clock-in, and
     * `shiftMinutes` the whole minutes from clock-in to clock-out.
     *
     * Once clock-in is reached (or a recheck is asked for) the clock starts:
     * no freeze, no break, the seconds clocked equal the seconds since
     * clock-in, the fields are those seconds split into hours, minutes and
     * seconds, and the orders needed are computed. The stats text is written
     * by the inner tick, before the orders needed are updated. Otherwise the
     * countdown is (re)started from the seconds until clock-in when it is
     * unset (-1) or a recheck is asked for, and the stats are refreshed.
     */
    method GetTime(reached: bool, sinceClockIn: int, untilClockIn: int, shiftMinutes: int)
      modifies this`freeze, this`inBreak, this`clockInTimePassed, this`totalSecClocked, this`sec, this`min, this`hr
      modifies this`secondsTillCI, this`stats, this`ordersNeeded, this`recheckTime, this`recheckTimeTill
      ensures old(reached || recheckTime) ==>
        && !freeze && !inBreak && clockInTimePassed && !recheckTime
        && totalSecClocked == sinceClockIn && ClockSeconds() == sinceClockIn
        && (hr, min, sec) == Split(sinceClockIn)
        && ordersNeeded == OrdersNeeded(target, shiftMinutes)
        && secondsTillCI == old(secondsTillCI) && recheckTimeTill == old(recheckTimeTill)
        && stats == StatsText(hr, min, sec, orders, old(ordersNeeded), rateText(orders, totalSecClocked))
      ensures !old(reached || recheckTime) ==>
        var restart := old(secondsTillCI) == -1 || old(recheckTimeTill);
        && hr == old(hr) && min == old(min) && sec == old(sec) && totalSecClocked == old(totalSecClocked)
        && freeze == old(freeze) && inBreak == old(inBreak) && clockInTimePassed == old(clockInTimePassed)
        && ordersNeeded == old(ordersNeeded) && recheckTime == old(recheckTime)
        && recheckTimeTill == (old(recheckTimeTill) && !restart)
        && Refreshed(if restart then untilClockIn + 1 else old(secondsTillCI), old(stats))
      ensures old(Valid()) ==> Valid()
    {
      if reached || recheckTime {
        ClockIn(sinceClockIn, shiftMinutes);
      } else {
        WaitForClockIn(untilClockIn);
      }
    }

    /** The clock-in branch of getTime: the clock starts from the seconds since clock-in. */
    method ClockIn(sinceClockIn: int, shiftMinutes: int)
      modifies this`freeze, this`inBreak, this`clockInTimePassed, this`totalSecClocked, this`sec, this`min, this`hr
      modifies this`secondsTillCI, this`stats, this`ordersNeeded, this`recheckTime
      ensures !freeze && !inBreak && clockInTimePassed && !recheckTime
      ensures totalSecClocked == sinceClockIn && (hr, min, sec) == Split(sinceClockIn)
      ensures ordersNeeded == OrdersNeeded(target, shiftMinutes)
      ensures secondsTillCI == old(secondsTillCI)
      ensures stats == StatsText(hr, min, sec, orders, old(ordersNeeded), rateText(orders, totalSecClocked))
    {
      freeze, inBreak, clockInTimePassed := false, false, true;
      StartClock(sinceClockIn);
      ordersNeeded, recheckTime := OrdersNeeded(target, shiftMinutes), false;
    }

    /** The clock fields set to one second short of the time since clock-in, then one tick. */
    method StartClock(sinceClockIn: int)
      requires clockInTimePassed
      modifies this`totalSecClocked, this`sec, this`min, this`hr, this`secondsTillCI, this`stats
      ensures totalSecClocked == sinceClockIn && (hr, min, sec) == Split(sinceClockIn)
      ensures secondsTillCI == old(secondsTillCI)
      ensures stats == StatsText(hr, min, sec, orders, ordersNeeded, rateText(orders, totalSecClocked))
    {
      totalSecClocked, sec, min, hr := sinceClockIn - 1, sinceClockIn - 1, 0, 0;
      Tick();
      assert stats == CurrentStats();
      TickFromZero(sinceClockIn);
    }

    /** The waiting branch of getTime: the countdown is (re)started when asked to, then refreshed. */
    method WaitForClockIn(untilClockIn: int)
      modifies this`secondsTillCI, this`stats, this`recheckTimeTill
      ensures var restart := old(secondsTillCI) == -1 || old(recheckTimeTill);
        && recheckTimeTill == (old(recheckTimeTill) && !restart)
        && Refreshed(if restart then untilClockIn + 1 else old(secondsTillCI), old(stats))
    {
      if secondsTillCI == -1 || recheckTimeTill {
        secondsTillCI := untilClockIn + 1;
        recheckTimeTill := false;
      }
      GetStats();
    }
  }
}
