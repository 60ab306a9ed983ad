/** The control engine: the global `channel_state` array, `updateState`,
    `runPumps` and the duty cycle `loop`, with the decoder pins and the
    hardware actions they cause. */
module Controller {
  import opened Types
  import opened Calibration
  import opened Hysteresis
  import opened Averaging
  import opened Decoder
  import opened Channels
  import opened Events

  /** The longest watchdog sleep, in milliseconds. */
  const WATCHDOG_SLEEP_MS := 8000
  /** The number of watchdog sleeps that make up ten minutes, written
      `10*60/8` in the firmware. */
  const SLEEP_CALLS := 75

  /** The decoder actions of one channel's sampling window. */
  function SamplingBlock(c: Channel): seq<Event> {
    [DecoderSelect(c.sensorDec), SettleDelay, DecoderOff]
  }

  /** The decoder actions of `updateState` for the first `n` channels. */
  function SamplingTrace(chs: seq<Channel>, n: nat): seq<Event>
    requires n <= |chs|
  {
    if n == 0 then [] else SamplingTrace(chs, n - 1) + SamplingBlock(chs[n - 1])
  }

  /** The actions of `runPumps` for one channel: one pump run of the
      channel's duration, or nothing. */
  function PumpBlock(c: Channel): seq<Event> {
    if ShouldPump(c) then [DecoderSelect(c.pumpDec), PumpRun(c.pumpDuration), DecoderOff] else []
  }

  /** The actions of `runPumps` for the first `n` channels. */
  function PumpTrace(chs: seq<Channel>, n: nat): seq<Event>
    requires n <= |chs|
  {
    if n == 0 then [] else PumpTrace(chs, n - 1) + PumpBlock(chs[n - 1])
  }

  predicate WindowsFit(chs: seq<Channel>, ws: seq<Window>) {
    |ws| == |chs| && forall k :: 0 <= k < |ws| ==> WellFormed(ws[k])
  }

  /** The channel records after `updateState`. */
  function Observed(chs: seq<Channel>, ws: seq<Window>): (r: seq<Channel>)
    requires WindowsFit(chs, ws)
    ensures |r| == |chs|
    ensures forall k :: 0 <= k < |r| ==>
      ConfigOf(r[k]) == ConfigOf(chs[k]) && (ChannelValid(chs[k]) ==> ChannelValid(r[k]))
  {
    seq(|chs|, k requires 0 <= k < |chs| => Observe(chs[k], ws[k]).channel)
  }

  /** The return value of `updateState`: some channel reported a change.
      It is the flag that the loop ORs together over all the channels. */
  predicate AnyUpdate(chs: seq<Channel>, ws: seq<Window>)
    requires WindowsFit(chs, ws)
    ensures AnyUpdate(chs, ws) <==> UpdateAmong(chs, ws, |chs|)
  {
    UpdateAmongExists(chs, ws, |chs|);
    exists k :: 0 <= k < |chs| && Observe(chs[k], ws[k]).update
  }

  /** The `update` flag after the first `n` passes of `updateState`'s loop:
      each pass ORs in its own contribution. */
  predicate UpdateAmong(chs: seq<Channel>, ws: seq<Window>, n: nat)
    requires WindowsFit(chs, ws) && n <= |chs|
  {
    n > 0 && (UpdateAmong(chs, ws, n - 1) || Observe(chs[n - 1], ws[n - 1]).update)
  }

  /** The accumulated flag is set exactly when one of the passes so far
      reported a change. */
  lemma {:induction false} UpdateAmongExists(chs: seq<Channel>, ws: seq<Window>, n: nat)
    requires WindowsFit(chs, ws) && n <= |chs|
    ensures UpdateAmong(chs, ws, n) <==> exists k :: 0 <= k < n && Observe(chs[k], ws[k]).update
  {
    if n > 0 {
      UpdateAmongExists(chs, ws, n - 1);
    }
  }

  /** `updateState` reports an update exactly when some channel accepted a
      new level or a new reference, or is left dry. */
  lemma {:induction false} UpdateMeansChange(chs: seq<Channel>, ws: seq<Window>)
    requires WindowsFit(chs, ws)
    requires forall k :: 0 <= k < |chs| ==> ChannelValid(chs[k])
    ensures AnyUpdate(chs, ws) <==>
      exists k :: 0 <= k < |chs| &&
        (|| Differs(chs[k].moistureLevel, SensorPercent(ws[k]))
         || Differs(chs[k].moistureReferenceLevel, ReferenceOf(ws[k]))
         || IsDry(Observed(chs, ws)[k]))
  {
    forall k | 0 <= k < |chs| {
      ObserveUpdate(chs[k], ws[k]);
    }
  }

  /** The channel records after `runPumps`. */
  function PumpedAll(chs: seq<Channel>): (r: seq<Channel>)
    ensures |r| == |chs|
    ensures forall k :: 0 <= k < |r| ==>
      && r[k] == chs[k].(pumpAttempts := r[k].pumpAttempts)
      && r[k].pumpAttempts == (if ShouldPump(chs[k]) then chs[k].pumpAttempts + 1 else chs[k].pumpAttempts)
      && (ChannelValid(chs[k]) ==> ChannelValid(r[k]))
  {
    seq(|chs|, k requires 0 <= k < |chs| => Pumped(chs[k]))
  }

  /** The channel records after one call of `loop`. */
  function CycleChannels(chs: seq<Channel>, ws: seq<Window>): (r: seq<Channel>)
    requires WindowsFit(chs, ws)
    ensures |r| == |chs|
    ensures forall k :: 0 <= k < |r| ==> ConfigOf(r[k]) == ConfigOf(chs[k])
  {
    var seen := Observed(chs, ws);
    if AnyUpdate(chs, ws) then PumpedAll(seen) else seen
  }

  /** The hardware actions of one call of `loop`. */
  function CycleTrace(chs: seq<Channel>, ws: seq<Window>): (r: seq<Event>)
    requires WindowsFit(chs, ws)
    ensures Disciplined(r, false) && !PoweredAfter(r, false)
  {
    CycleFacts(chs, ws, SLEEP_CALLS, WATCHDOG_SLEEP_MS);
    SamplingTrace(chs, |chs|) + ActingTrace(chs, ws) + Sleeps(SLEEP_CALLS, WATCHDOG_SLEEP_MS)
  }

  /** The gating in `loop` changes no channel's outcome: a cycle without an
      update has no dry channel, so skipping `runPumps` loses nothing. Each
      channel goes through `CycleChannel` independently of the others. */
  lemma {:induction false} CycleIsPerChannel(chs: seq<Channel>, ws: seq<Window>)
    requires WindowsFit(chs, ws)
    ensures var r := CycleChannels(chs, ws);
            |r| == |chs| && forall k :: 0 <= k < |chs| ==> r[k] == CycleChannel(chs[k], ws[k])
  {
    var seen := Observed(chs, ws);
    if !AnyUpdate(chs, ws) {
      forall k | 0 <= k < |chs| ensures Pumped(seen[k]) == seen[k] {
        assert !Observe(chs[k], ws[k]).update;
        if IsDry(seen[k]) {
          DryForcesUpdate(chs[k], ws[k]);
        }
      }
    }
  }

  /** Attempt bound across cycles: every record stays valid and keeps its
      configuration. */
  lemma {:induction false} CyclePreservesValid(chs: seq<Channel>, ws: seq<Window>)
    requires WindowsFit(chs, ws)
    requires forall k :: 0 <= k < |chs| ==> ChannelValid(chs[k])
    ensures var r := CycleChannels(chs, ws);
            |r| == |chs| && forall k :: 0 <= k < |chs| ==> ChannelValid(r[k]) && ConfigOf(r[k]) == ConfigOf(chs[k])
  {
    CycleIsPerChannel(chs, ws);
  }

  lemma {:induction false} SamplingTraceFacts(chs: seq<Channel>, n: nat)
    requires n <= |chs|
    ensures var t := SamplingTrace(chs, n);
            && Disciplined(t, false) && !PoweredAfter(t, false)
            && Count(t, IsRender) == 0 && Count(t, IsPumpRun) == 0 && SleepTime(t) == 0
  {
    if n > 0 {
      SamplingTraceFacts(chs, n - 1);
      AppendFacts(SamplingTrace(chs, n - 1), SamplingBlock(chs[n - 1]));
      BlockFacts(chs[n - 1].sensorDec, SettleDelay);
    }
  }

  /** The number of channels among the first `n` whose pump `runPumps` runs. */
  function PumpCount(chs: seq<Channel>, n: nat): nat
    requires n <= |chs|
  {
    if n == 0 then 0 else PumpCount(chs, n - 1) + (if ShouldPump(chs[n - 1]) then 1 else 0)
  }

  lemma {:induction false} PumpTraceFacts(chs: seq<Channel>, n: nat)
    requires n <= |chs|
    ensures var t := PumpTrace(chs, n);
            && Disciplined(t, false) && !PoweredAfter(t, false)
            && Count(t, IsRender) == 0 && Count(t, IsPumpRun) == PumpCount(chs, n) && SleepTime(t) == 0
  {
    if n > 0 {
      var block := PumpBlock(chs[n - 1]);
      PumpTraceFacts(chs, n - 1);
      AppendFacts(PumpTrace(chs, n - 1), block);
      if block != [] {
        BlockFacts(chs[n - 1].pumpDec, PumpRun(chs[n - 1].pumpDuration));
      } else {
        assert PumpTrace(chs, n - 1) + block == PumpTrace(chs, n - 1);
      }
    }
  }

  lemma {:induction false} NoPumpWhenNoneDry(chs: seq<Channel>, n: nat)
    requires n <= |chs|
    requires forall k :: 0 <= k < |chs| ==> !IsDry(chs[k])
    ensures PumpCount(chs, n) == 0
  {
    if n > 0 {
      NoPumpWhenNoneDry(chs, n - 1);
    }
  }

  /** Without an update, no channel is left dry. */
  lemma {:induction false} NoUpdateNoneDry(chs: seq<Channel>, ws: seq<Window>)
    requires WindowsFit(chs, ws) && !AnyUpdate(chs, ws)
    ensures forall k :: 0 <= k < |chs| ==> !IsDry(Observed(chs, ws)[k])
  {
    forall k | 0 <= k < |chs| ensures !IsDry(Observed(chs, ws)[k]) {
      assert !Observe(chs[k], ws[k]).update;
      if IsDry(Observed(chs, ws)[k]) {
        DryForcesUpdate(chs[k], ws[k]);
      }
    }
  }

  /** The display refresh and pump runs of `loop`, present only on an
      update. */
  function ActingTrace(chs: seq<Channel>, ws: seq<Window>): seq<Event>
    requires WindowsFit(chs, ws)
  {
    var seen := Observed(chs, ws);
    if AnyUpdate(chs, ws) then [Render(seen)] + PumpTrace(seen, |seen|) else []
  }

  lemma {:induction false} ActingFacts(chs: seq<Channel>, ws: seq<Window>)
    requires WindowsFit(chs, ws)
    ensures var t := ActingTrace(chs, ws);
            && Disciplined(t, false) && !PoweredAfter(t, false)
            && Count(t, IsRender) == (if AnyUpdate(chs, ws) then 1 else 0)
            && Count(t, IsPumpRun) == PumpCount(Observed(chs, ws), |chs|)
            && SleepTime(t) == 0
  {
    var seen := Observed(chs, ws);
    PumpTraceFacts(seen, |seen|);
    if AnyUpdate(chs, ws) {
      AppendFacts([Render(seen)], PumpTrace(seen, |seen|));
      assert [Render(seen)][1..] == [];
    } else {
      NoUpdateNoneDry(chs, ws);
      NoPumpWhenNoneDry(seen, |seen|);
    }
  }

  /** One duty cycle obeys the power discipline and ends with the decoder
      off; it refreshes the display exactly when `updateState` reported an
      update; it runs exactly one pump per channel left dry and below its
      ceiling; and it sleeps 75 times 8 s, ten minutes, either way. */
  lemma {:induction false} CycleTraceFacts(chs: seq<Channel>, ws: seq<Window>)
    requires WindowsFit(chs, ws)
    ensures var t := CycleTrace(chs, ws);
            && Disciplined(t, false) && !PoweredAfter(t, false)
            && Count(t, IsRender) == (if AnyUpdate(chs, ws) then 1 else 0)
            && Count(t, IsPumpRun) == PumpCount(Observed(chs, ws), |chs|)
            && SleepTime(t) == 600000
  {
    CycleFacts(chs, ws, SLEEP_CALLS, WATCHDOG_SLEEP_MS);
  }

  /** `CycleTraceFacts` for any number and length of sleeps. */
  lemma {:induction false} CycleFacts(chs: seq<Channel>, ws: seq<Window>, n: nat, ms: nat)
    requires WindowsFit(chs, ws)
    ensures var t := SamplingTrace(chs, |chs|) + ActingTrace(chs, ws) + Sleeps(n, ms);
            && Disciplined(t, false) && !PoweredAfter(t, false)
            && Count(t, IsRender) == (if AnyUpdate(chs, ws) then 1 else 0)
            && Count(t, IsPumpRun) == PumpCount(Observed(chs, ws), |chs|)
            && SleepTime(t) == n * ms
  {
    var sampling := SamplingTrace(chs, |chs|);
    var acting := ActingTrace(chs, ws);
    var sleeping := Sleeps(n, ms);
    SamplingTraceFacts(chs, |chs|);
    ActingFacts(chs, ws);
    SleepsFacts(n, ms);
    ConcatFacts(sampling, acting, sleeping);
  }

  /** The board: the four channel records, the decoder's enable line and
      address pins, and the actions performed so far. */
  class Board {
    const channels: array<Channel>
    var decEnabled: bool
    var address: Levels
    var trace: seq<Event>

    ghost predicate Valid()
      reads channels
    {
      && channels.Length == NUMBER_OF_CHANNELS
      && forall k :: 0 <= k < NUMBER_OF_CHANNELS ==>
           ChannelValid(channels[k]) && ConfigOf(channels[k]) == ConfigAt(k)
    }

    /** The decoder output that is powered, if any. */
    ghost function EnabledLine(): Option<nat>
      reads this
    {
      if decEnabled then Some(Line(address)) else None
    }

    /** The board after the static initialisation of `channel_state` and
        `setup`: the decoder is disabled and its address pins are low. */
    constructor ()
      ensures Valid() && fresh(channels)
      ensures channels[..] == InitialTable()
      ensures EnabledLine() == None && trace == []
    {
      var table := InitialTable();
      forall k | 0 <= k < NUMBER_OF_CHANNELS ensures ConfigAt(k) == ConfigOf(table[k]) {
        ConfigAtIsTable(k);
      }
      channels := new Channel[NUMBER_OF_CHANNELS](k requires 0 <= k < NUMBER_OF_CHANNELS => table[k]);
      decEnabled := false;
      address := Levels(0, 0, 0);
      trace := [];
    }

    /** `setDecoder(val)`: disable, write the three address bits, enable.
        The powered line is `val` modulo 8. */
    method SetDecoder(val: uint8)
      modifies this
      ensures decEnabled && address == AddressLevels(val)
      ensures EnabledLine() == Some(val % 8)
      ensures trace == old(trace) + [DecoderSelect(val)]
    {
      decEnabled := false;
      address := AddressLevels(val);
      decEnabled := true;
      trace := trace + [DecoderSelect(val)];
    }

    /** `digitalWrite(DEC_EN, LOW)`: every line powered down. */
    method DisableDecoder()
      modifies this
      ensures !decEnabled && address == old(address)
      ensures EnabledLine() == None
      ensures trace == old(trace) + [DecoderOff]
    {
      decEnabled := false;
      trace := trace + [DecoderOff];
    }

    /** `updateState`: samples every channel in order and applies the
        hysteresis filter and the reset law to its record. */
    method UpdateState(windows: seq<Window>) returns (update: bool)
      requires Valid() && !decEnabled
      requires WindowsFit(channels[..], windows)
      modifies this, channels
      ensures Valid() && !decEnabled
      ensures channels[..] == Observed(old(channels[..]), windows)
      ensures update == AnyUpdate(old(channels[..]), windows)
      ensures trace == old(trace) + SamplingTrace(old(channels[..]), channels.Length)
    {
      ghost var before := channels[..];
      ghost var seen := Observed(before, windows);
      update := false;
      var i := 0;
      while i < NUMBER_OF_CHANNELS
        invariant 0 <= i <= NUMBER_OF_CHANNELS
        invariant Valid() && !decEnabled
        invariant forall k :: 0 <= k < i ==> channels[k] == seen[k]
        invariant forall k :: i <= k < NUMBER_OF_CHANNELS ==> channels[k] == before[k]
        invariant update == UpdateAmong(before, windows, i)
        invariant trace == old(trace) + SamplingTrace(before, i)
      {
        var changed := SampleChannel(i, windows[i]);
        AppendAssoc(old(trace), SamplingTrace(before, i), SamplingBlock(before[i]));
        update := update || changed;
        i := i + 1;
      }
      UpdateAmongExists(before, windows, i);
    }

    /** One pass of `updateState`'s loop: power the channel's sensor line,
        let it settle, take the samples, power it down, then filter the
        level and the reference and apply the reset law. */
    method SampleChannel(i: nat, w: Window) returns (changed: bool)
      requires Valid() && !decEnabled && i < NUMBER_OF_CHANNELS && WellFormed(w)
      modifies this, channels
      ensures Valid() && !decEnabled
      ensures channels[i] == Observe(old(channels[i]), w).channel
      ensures changed == Observe(old(channels[i]), w).update
      ensures forall k :: 0 <= k < NUMBER_OF_CHANNELS && k != i ==> channels[k] == old(channels[k])
      ensures trace == old(trace) + SamplingBlock(old(channels[i]))
    {
      ghost var c0 := channels[i];
      changed := false;
      SetDecoder(channels[i].sensorDec);
      trace := trace + [SettleDelay];
      var measurement, measurementRef := ReadSamples(w);
      DisableDecoder();
      measurement := measurement / NUMBER_OF_MEASUREMENT_SAMPLES;
      measurementRef := measurementRef / NUMBER_OF_MEASUREMENT_SAMPLES;
      var percentage := ConvertMeasurementToPercent(measurement);
      var percentageRef := ReferencePercent(measurementRef);
      if !AlmostEqual(Trunc8(channels[i].moistureLevel), percentage, TOLERANCE) {
        channels[i] := channels[i].(moistureLevel := percentage, moistureLevelRaw := measurement);
        changed := true;
      }
      if !AlmostEqual(Trunc8(channels[i].moistureReferenceLevel), percentageRef, TOLERANCE) {
        channels[i] := channels[i].(moistureReferenceLevel := percentageRef);
        changed := true;
      }
      if channels[i].moistureLevel >= channels[i].moistureReferenceLevel {
        channels[i] := channels[i].(pumpAttempts := 0);
      } else {
        changed := true;
      }
      assert channels[i] == Observe(c0, w).channel;
      assert ChannelValid(channels[i]) && ConfigOf(channels[i]) == ConfigOf(c0);
    }

    /** `updateDisplay`: the drawing itself is not modelled; the refresh is
        an event carrying the records it shows. */
    method UpdateDisplay()
      modifies this
      ensures trace == old(trace) + [Render(channels[..])]
      ensures decEnabled == old(decEnabled) && address == old(address)
    {
      trace := trace + [Render(channels[..])];
    }

    /** `runPumps`: every dry channel below its ceiling gets one more
        attempt and one pump run, in channel order. */
    method RunPumps()
      requires Valid() && !decEnabled
      modifies this, channels
      ensures Valid() && !decEnabled
      ensures channels[..] == PumpedAll(old(channels[..]))
      ensures trace == old(trace) + PumpTrace(old(channels[..]), channels.Length)
    {
      ghost var before := channels[..];
      var i := 0;
      while i < NUMBER_OF_CHANNELS
        invariant 0 <= i <= NUMBER_OF_CHANNELS
        invariant Valid() && !decEnabled
        invariant forall k :: 0 <= k < i ==> channels[k] == Pumped(before[k])
        invariant forall k :: i <= k < NUMBER_OF_CHANNELS ==> channels[k] == before[k]
        invariant trace == old(trace) + PumpTrace(before, i)
      {
        PumpChannel(i);
        AppendAssoc(old(trace), PumpTrace(before, i), PumpBlock(before[i]));
        i := i + 1;
      }
    }

    /** One pass of `runPumps`'s loop: a dry channel below its ceiling
        counts one more attempt, then its pump line is powered for the
        channel's pump duration and powered down again. */
    method PumpChannel(i: nat)
      requires Valid() && !decEnabled && i < NUMBER_OF_CHANNELS
      modifies this, channels
      ensures Valid() && !decEnabled
      ensures channels[i] == Pumped(old(channels[i]))
      ensures forall k :: 0 <= k < NUMBER_OF_CHANNELS && k != i ==> channels[k] == old(channels[k])
      ensures trace == old(trace) + PumpBlock(old(channels[i]))
    {
      if channels[i].moistureLevel < channels[i].moistureReferenceLevel {
        if channels[i].pumpAttempts < channels[i].maxPumpAttempts {
          channels[i] := channels[i].(pumpAttempts := channels[i].pumpAttempts + 1);
          SetDecoder(channels[i].pumpDec);
          trace := trace + [PumpRun(channels[i].pumpDuration)];
          DisableDecoder();
        }
      }
    }

    /** `loop`: one duty cycle. The display refresh and the pumps run only
        when `updateState` reports an update; the sleep follows either way. */
    method Loop(windows: seq<Window>)
      requires Valid() && !decEnabled
      requires WindowsFit(channels[..], windows)
      modifies this, channels
      ensures Valid() && !decEnabled
      ensures channels[..] == CycleChannels(old(channels[..]), windows)
      ensures trace == old(trace) + CycleTrace(old(channels[..]), windows)
    {
      ghost var before := channels[..];
      ghost var t0 := trace;
      var hasStateUpdate := UpdateState(windows);
      ghost var sampling := SamplingTrace(before, |before|);
      ghost var seen := channels[..];
      if hasStateUpdate {
        UpdateDisplay();
        RunPumps();
        AppendAssoc(t0 + sampling, [Render(seen)], PumpTrace(seen, |seen|));
      }
      ghost var acting := ActingTrace(before, windows);
      assert trace == t0 + sampling + acting;
      AppendAssoc(t0, sampling, acting);
      SleepTenMinutes();
      AppendAssoc(t0, sampling + acting, Sleeps(SLEEP_CALLS, WATCHDOG_SLEEP_MS));
    }

    /** The end of `loop`: ten minutes as 75 watchdog sleeps of 8 s, the
        longest the watchdog allows. */
    method SleepTenMinutes()
      modifies this`trace
      ensures trace == old(trace) + Sleeps(SLEEP_CALLS, WATCHDOG_SLEEP_MS)
    {
      var i := 0;
      while i < SLEEP_CALLS
        invariant 0 <= i <= SLEEP_CALLS
        invariant trace == old(trace) + Sleeps(i, WATCHDOG_SLEEP_MS)
      {
        trace := trace + [WatchdogSleep(WATCHDOG_SLEEP_MS)];
        SleepsStep(i, WATCHDOG_SLEEP_MS);
        AppendAssoc(old(trace), Sleeps(i, WATCHDOG_SLEEP_MS), [WatchdogSleep(WATCHDOG_SLEEP_MS)]);
        i := i + 1;
      }
    }
  }
}
