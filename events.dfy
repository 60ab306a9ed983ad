/** The firmware's hardware actions, as a trace of events: the decoder that
    powers one sensor or pump line, the blocking delays, the display refresh
    and the watchdog sleep. The firmware's power discipline is a property of
    such traces. */
module Events {
  import opened Types
  import opened Channels

  datatype Event =
    | DecoderSelect(line: uint8)      // setDecoder(line): address written, DEC_EN high
    | DecoderOff                      // digitalWrite(DEC_EN, LOW)
    | SettleDelay                     // delay(2000/clk_scaler): sensor oscillator settles
    | PumpRun(seconds: uint8)         // delay(pump_duration*1000/clk_scaler) with the pump on
    | Render(snapshot: seq<Channel>)  // updateDisplay(): draws the channel records
    | WatchdogSleep(ms: nat)          // Watchdog.sleep(ms)

  /** Whether the decoder is enabled after the event, given whether it was
      enabled before. */
  function PoweredNext(e: Event, on: bool): bool {
    match e
    case DecoderSelect(_) => true
    case DecoderOff => false
    case _ => on
  }

  /** Whether the decoder is enabled after the trace. */
  function PoweredAfter(t: seq<Event>, on: bool): bool {
    if t == [] then on else PoweredAfter(t[1..], PoweredNext(t[0], on))
  }

  /** The decoder's power rule for one event: a line is selected only once
      the previous one is powered down; the settle delay and a pump run
      happen with a line powered; the display refresh and the sleep happen
      with every line powered down. */
  predicate Allowed(e: Event, on: bool) {
    match e
    case DecoderSelect(_) => !on
    case DecoderOff => true
    case SettleDelay => on
    case PumpRun(_) => on
    case Render(_) => !on
    case WatchdogSleep(_) => !on
  }

  predicate Disciplined(t: seq<Event>, on: bool) {
    t == [] || (Allowed(t[0], on) && Disciplined(t[1..], PoweredNext(t[0], on)))
  }

  /** Replaying a concatenation replays its parts in turn. */
  lemma {:induction false} DisciplinedAppend(a: seq<Event>, b: seq<Event>, on: bool)
    ensures PoweredAfter(a + b, on) == PoweredAfter(b, PoweredAfter(a, on))
    ensures Disciplined(a + b, on) <==> Disciplined(a, on) && Disciplined(b, PoweredAfter(a, on))
  {
    if a != [] {
      assert (a + b)[0] == a[0];
      assert (a + b)[1..] == a[1..] + b;
      DisciplinedAppend(a[1..], b, PoweredNext(a[0], on));
    } else {
      assert a + b == b;
    }
  }

  /** The number of events of a trace that satisfy `p`. */
  function Count(t: seq<Event>, p: Event -> bool): (n: nat)
    ensures n <= |t|
  {
    if t == [] then 0 else (if p(t[0]) then 1 else 0) + Count(t[1..], p)
  }

  lemma {:induction false} CountAppend(a: seq<Event>, b: seq<Event>, p: Event -> bool)
    ensures Count(a + b, p) == Count(a, p) + Count(b, p)
  {
    if a != [] {
      assert (a + b)[0] == a[0];
      assert (a + b)[1..] == a[1..] + b;
      CountAppend(a[1..], b, p);
    } else {
      assert a + b == b;
    }
  }

  predicate IsRender(e: Event) { e.Render? }
  predicate IsPumpRun(e: Event) { e.PumpRun? }

  /** The time the trace spends in watchdog sleep, in milliseconds. */
  function SleepTime(t: seq<Event>): nat {
    if t == [] then 0 else (if t[0].WatchdogSleep? then t[0].ms else 0) + SleepTime(t[1..])
  }

  /** `n` calls of `Watchdog.sleep(ms)`. */
  function Sleeps(n: nat, ms: nat): (t: seq<Event>)
    ensures |t| == n
  {
    seq(n, _ => WatchdogSleep(ms))
  }

  /** One more call of `Watchdog.sleep(ms)`. */
  lemma SleepsStep(n: nat, ms: nat)
    ensures Sleeps(n + 1, ms) == Sleeps(n, ms) + [WatchdogSleep(ms)]
  {
    assert Sleeps(n + 1, ms)[..n] == Sleeps(n, ms);
  }

  /** Sleeping is done with the decoder off and leaves it off; it renders
      nothing, runs no pump and lasts n times one sleep. */
  lemma {:induction false} SleepsFacts(n: nat, ms: nat)
    ensures Disciplined(Sleeps(n, ms), false) && !PoweredAfter(Sleeps(n, ms), false)
    ensures Count(Sleeps(n, ms), IsRender) == 0 && Count(Sleeps(n, ms), IsPumpRun) == 0
    ensures SleepTime(Sleeps(n, ms)) == n * ms
  {
    if n > 0 {
      SleepsFacts(n - 1, ms);
      var last := [WatchdogSleep(ms)];
      SleepsStep(n - 1, ms);
      AppendFacts(Sleeps(n - 1, ms), last);
      assert last[1..] == [];
    }
  }

  /** Everything the two parts of a concatenation satisfy, the
      concatenation satisfies. */
  lemma {:induction false} AppendFacts(a: seq<Event>, b: seq<Event>)
    ensures PoweredAfter(a + b, false) == PoweredAfter(b, PoweredAfter(a, false))
    ensures Disciplined(a + b, false) <==> Disciplined(a, false) && Disciplined(b, PoweredAfter(a, false))
    ensures Count(a + b, IsRender) == Count(a, IsRender) + Count(b, IsRender)
    ensures Count(a + b, IsPumpRun) == Count(a, IsPumpRun) + Count(b, IsPumpRun)
    ensures SleepTime(a + b) == SleepTime(a) + SleepTime(b)
  {
    DisciplinedAppend(a, b, false);
    CountAppend(a, b, IsRender);
    CountAppend(a, b, IsPumpRun);
    SleepTimeAppend(a, b);
  }

  lemma {:induction false} SleepTimeAppend(a: seq<Event>, b: seq<Event>)
    ensures SleepTime(a + b) == SleepTime(a) + SleepTime(b)
  {
    if a != [] {
      assert (a + b)[0] == a[0];
      assert (a + b)[1..] == a[1..] + b;
      SleepTimeAppend(a[1..], b);
    } else {
      assert a + b == b;
    }
  }

  /** A block that selects a line, waits with it powered and powers it down
      again keeps the discipline and leaves the decoder off. */
  lemma {:induction false} BlockFacts(line: uint8, d: Event)
    requires d.SettleDelay? || d.PumpRun?
    ensures var b := [DecoderSelect(line), d, DecoderOff];
            && Disciplined(b, false) && !PoweredAfter(b, false)
            && Count(b, IsRender) == 0 && Count(b, IsPumpRun) == (if d.PumpRun? then 1 else 0)
            && SleepTime(b) == 0
  {
    var b := [DecoderSelect(line), d, DecoderOff];
    assert b[1..] == [d, DecoderOff];
    assert b[1..][1..] == [DecoderOff];
    assert b[1..][1..][1..] == [];
    assert Disciplined([DecoderOff], true) && !PoweredAfter([DecoderOff], true);
    assert Disciplined([d, DecoderOff], true) && !PoweredAfter([d, DecoderOff], true);
    assert Count([DecoderOff], IsPumpRun) == 0 && Count([DecoderOff], IsRender) == 0;
    assert SleepTime([DecoderOff]) == 0 && SleepTime([d, DecoderOff]) == 0;
  }

  /** A trace that keeps the discipline and leaves the decoder off. */
  predicate Closed(t: seq<Event>) {
    Disciplined(t, false) && !PoweredAfter(t, false)
  }

  /** Three closed traces in a row form a closed trace whose counts and
      sleep time add up. */
  lemma {:induction false} ConcatFacts(a: seq<Event>, b: seq<Event>, c: seq<Event>)
    requires Closed(a) && Closed(b) && Closed(c)
    ensures Closed(a + b + c)
    ensures Count(a + b + c, IsRender) == Count(a, IsRender) + Count(b, IsRender) + Count(c, IsRender)
    ensures Count(a + b + c, IsPumpRun) == Count(a, IsPumpRun) + Count(b, IsPumpRun) + Count(c, IsPumpRun)
    ensures SleepTime(a + b + c) == SleepTime(a) + SleepTime(b) + SleepTime(c)
  {
    AppendFacts(a, b);
    AppendFacts(a + b, c);
  }

  /** Regrouping a trace split into three parts. */
  lemma AppendAssoc(a: seq<Event>, b: seq<Event>, c: seq<Event>)
    ensures a + b + c == a + (b + c)
  {
  }
}
