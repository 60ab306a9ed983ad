/** The channel records of the firmware (`struct ChannelState_T`) and the
    per-channel rules that `updateState` and `runPumps` apply to them. */
module Channels {
  import opened Types
  import opened Calibration
  import opened Hysteresis
  import opened Averaging

  const NUMBER_OF_CHANNELS := 4
  /** `PUMP0_MAX_ATTEMPTS` .. `PUMP3_MAX_ATTEMPTS`. */
  const PUMP_MAX_ATTEMPTS: uint8 := 3
  /** `PUMP0_DURATION` .. `PUMP3_DURATION`, in seconds. */
  const PUMP_DURATION: uint8 := 10

  /** One entry of `channel_state`. `sensorAnalogPin` holds n for the
      analog input An. */
  datatype Channel = Channel(
    pumpDuration: uint8,
    maxPumpAttempts: uint8,
    pumpAttempts: uint8,
    moistureLevel: uint16,
    moistureLevelRaw: uint16,
    moistureReferenceLevel: uint16,
    sensorAnalogPin: uint8,
    sensorDec: uint8,
    pumpDec: uint8)

  /** The `const` members of a channel record. */
  datatype Config = Config(
    pumpDuration: uint8,
    maxPumpAttempts: uint8,
    sensorAnalogPin: uint8,
    sensorDec: uint8,
    pumpDec: uint8)

  function ConfigOf(c: Channel): Config {
    Config(c.pumpDuration, c.maxPumpAttempts, c.sensorAnalogPin, c.sensorDec, c.pumpDec)
  }

  /** What every channel record satisfies between cycles: the percentages
      are in range (the reference can reach 102), the raw value is a
      converter value, the attempts never exceed their ceiling, and only a
      dry channel has attempts on record (a wet one was reset). */
  predicate ChannelValid(c: Channel) {
    && c.moistureLevel <= 99
    && c.moistureReferenceLevel <= 102
    && c.moistureLevelRaw <= 1023
    && c.pumpAttempts <= c.maxPumpAttempts
    && (c.pumpAttempts > 0 ==> IsDry(c))
  }

  /** The initial contents of `channel_state`: 0 attempts, level 99, raw 0,
      reference 25, sensors on A0..A3, sensor lines 4..7, pump lines 0..3. */
  function InitialTable(): (t: seq<Channel>)
    ensures |t| == NUMBER_OF_CHANNELS
    ensures forall i :: 0 <= i < |t| ==> ChannelValid(t[i]) && t[i].pumpAttempts == 0
    ensures forall i :: 0 <= i < |t| ==> t[i].pumpDec < 4 && 4 <= t[i].sensorDec < 8
    ensures forall i, j :: 0 <= i < |t| && 0 <= j < |t| ==> t[i].pumpDec != t[j].sensorDec
    ensures forall i, j :: 0 <= i < j < |t| ==> t[i].pumpDec != t[j].pumpDec && t[i].sensorDec != t[j].sensorDec
  {
    [ Channel(PUMP_DURATION, PUMP_MAX_ATTEMPTS, 0, 99, 0, 25, 0, 4, 0),
      Channel(PUMP_DURATION, PUMP_MAX_ATTEMPTS, 0, 99, 0, 25, 1, 5, 1),
      Channel(PUMP_DURATION, PUMP_MAX_ATTEMPTS, 0, 99, 0, 25, 2, 6, 2),
      Channel(PUMP_DURATION, PUMP_MAX_ATTEMPTS, 0, 99, 0, 25, 3, 7, 3) ]
  }

  /** The configuration of channel k: the same pump settings for every
      channel, sensor on Ak, sensor on decoder line 4 + k, pump on line k. */
  function ConfigAt(k: nat): Config
    requires k < NUMBER_OF_CHANNELS
  {
    Config(PUMP_DURATION, PUMP_MAX_ATTEMPTS, k, 4 + k, k)
  }

  lemma ConfigAtIsTable(k: nat)
    requires k < NUMBER_OF_CHANNELS
    ensures ConfigAt(k) == ConfigOf(InitialTable()[k])
  {
  }

  /** Too dry: the level is below the reference (drawn red on the display). */
  predicate IsDry(c: Channel) {
    c.moistureLevel < c.moistureReferenceLevel
  }

  /** The retry ceiling is reached (the attempt count is drawn red). */
  predicate IsExhausted(c: Channel) {
    c.pumpAttempts >= c.maxPumpAttempts
  }

  /** The case in which `runPumps` runs the channel's pump: dry and not yet
      exhausted. The attempt count it then increments stays a `uint8`. */
  predicate ShouldPump(c: Channel)
    ensures ShouldPump(c) <==> IsDry(c) && !IsExhausted(c)
    ensures ShouldPump(c) ==> c.pumpAttempts + 1 < 0x100
  {
    IsDry(c) && c.pumpAttempts < c.maxPumpAttempts
  }

  /** Two percentages differ by more than the hysteresis tolerance. */
  predicate Differs(stored: int, incoming: int) {
    stored - incoming > TOLERANCE as int || incoming - stored > TOLERANCE as int
  }

  /** The averaged sensor reading of a window and its percentage. */
  function SensorPercent(w: Window): uint8
    requires WellFormed(w)
  {
    ConvertMeasurementToPercent(Average(w.sensor))
  }

  /** The averaged potentiometer reading of a window as a reference
      percentage. */
  function ReferenceOf(w: Window): (r: uint8)
    requires WellFormed(w)
    ensures r <= 102
  {
    ReferenceRange(Average(w.reference));
    ReferencePercent(Average(w.reference))
  }

  datatype Observation = Observation(channel: Channel, update: bool)

  /** The body of `updateState`'s loop for one channel, after the sampling
      window: the new record and this channel's contribution to the
      `update` flag. What it promises is stated by `ObserveLevel`,
      `ObserveReference`, `ObserveResetLaw` and `ObserveUpdate`. */
  function Observe(c: Channel, w: Window): (r: Observation)
    requires WellFormed(w)
    ensures ConfigOf(r.channel) == ConfigOf(c)
    ensures ChannelValid(c) ==> ChannelValid(r.channel)
  {
    var measurement := Average(w.sensor);
    var percentage := ConvertMeasurementToPercent(measurement);
    var percentageRef := ReferencePercent(Average(w.reference));
    var levelChanged := !AlmostEqual(Trunc8(c.moistureLevel), percentage, TOLERANCE);
    var refChanged := !AlmostEqual(Trunc8(c.moistureReferenceLevel), percentageRef, TOLERANCE);
    var level := if levelChanged then percentage as uint16 else c.moistureLevel;
    var reference := if refChanged then percentageRef as uint16 else c.moistureReferenceLevel;
    ReferenceRange(Average(w.reference));
    Observation(
      c.(moistureLevel := level,
         moistureLevelRaw := if levelChanged then measurement else c.moistureLevelRaw,
         moistureReferenceLevel := reference,
         pumpAttempts := if level >= reference then 0 else c.pumpAttempts),
      levelChanged || refChanged || level < reference)
  }

  /** Level and raw value are replaced together, and only when the new
      percentage differs from the stored one by more than the tolerance. */
  lemma ObserveLevel(c: Channel, w: Window)
    requires WellFormed(w) && ChannelValid(c)
    ensures var r := Observe(c, w).channel;
            if Differs(c.moistureLevel, SensorPercent(w)) then
              r.moistureLevel == SensorPercent(w) && r.moistureLevelRaw == Average(w.sensor)
            else
              r.moistureLevel == c.moistureLevel && r.moistureLevelRaw == c.moistureLevelRaw
  {
  }

  /** The reference follows the same rule, independently of the level. */
  lemma ObserveReference(c: Channel, w: Window)
    requires WellFormed(w) && ChannelValid(c)
    ensures Observe(c, w).channel.moistureReferenceLevel ==
      if Differs(c.moistureReferenceLevel, ReferenceOf(w)) then ReferenceOf(w) else c.moistureReferenceLevel
  {
  }

  /** Reset law: a channel observed wet has no attempts left over; a dry
      one keeps its attempts for `runPumps`. */
  lemma ObserveResetLaw(c: Channel, w: Window)
    requires WellFormed(w)
    ensures var r := Observe(c, w).channel;
            (!IsDry(r) ==> r.pumpAttempts == 0) && (IsDry(r) ==> r.pumpAttempts == c.pumpAttempts)
  {
  }

  /** The channel reports an update exactly when it accepted a new level or
      a new reference, or is left dry. */
  lemma ObserveUpdate(c: Channel, w: Window)
    requires WellFormed(w) && ChannelValid(c)
    ensures Observe(c, w).update <==>
      Differs(c.moistureLevel, SensorPercent(w))
      || Differs(c.moistureReferenceLevel, ReferenceOf(w))
      || IsDry(Observe(c, w).channel)
  {
  }

  /** A dry channel always reports an update, valid or not. */
  lemma DryForcesUpdate(c: Channel, w: Window)
    requires WellFormed(w) && IsDry(Observe(c, w).channel)
    ensures Observe(c, w).update
  {
  }

  /** The body of `runPumps`'s loop for one channel: a dry channel below its
      ceiling gets exactly one more attempt; nothing else changes. */
  function Pumped(c: Channel): (r: Channel)
    ensures r.pumpAttempts == if ShouldPump(c) then c.pumpAttempts + 1 else c.pumpAttempts
    ensures r == c.(pumpAttempts := r.pumpAttempts)
    ensures ChannelValid(c) ==> ChannelValid(r)
    ensures IsDry(c) && c.pumpAttempts == c.maxPumpAttempts ==> r == c
  {
    if IsDry(c) then
      if c.pumpAttempts < c.maxPumpAttempts then c.(pumpAttempts := c.pumpAttempts + 1) else c
    else c
  }

  /** What one duty cycle does to one channel: observe, then pump. (That the
      board's cycle acts on each channel this way, whatever the other
      channels do, is `Controller.CycleIsPerChannel`.) */
  function CycleChannel(c: Channel, w: Window): (r: Channel)
    requires WellFormed(w)
    ensures ConfigOf(r) == ConfigOf(c)
    ensures ChannelValid(c) ==> ChannelValid(r)
  {
    Pumped(Observe(c, w).channel)
  }

  /** A channel after a sequence of duty cycles. */
  function Episode(c: Channel, ws: seq<Window>): (r: Channel)
    requires forall k :: 0 <= k < |ws| ==> WellFormed(ws[k])
    ensures ConfigOf(r) == ConfigOf(c)
    ensures ChannelValid(c) ==> ChannelValid(r)
  {
    if ws == [] then c else CycleChannel(Episode(c, ws[..|ws| - 1]), ws[|ws| - 1])
  }

  /** Reset law: a cycle that observes the channel wet leaves it with no
      attempts, whatever it had before. */
  lemma WetCycleResets(c: Channel, w: Window)
    requires WellFormed(w)
    requires !IsDry(Observe(c, w).channel)
    ensures CycleChannel(c, w).pumpAttempts == 0
  {
    ObserveResetLaw(c, w);
  }

  /** Every cycle of the episode observes the channel dry. */
  predicate DryThroughout(c: Channel, ws: seq<Window>)
    requires forall k :: 0 <= k < |ws| ==> WellFormed(ws[k])
  {
    ws != [] ==>
      DryThroughout(c, ws[..|ws| - 1]) && IsDry(Observe(Episode(c, ws[..|ws| - 1]), ws[|ws| - 1]).channel)
  }

  /** Retry bound: over a dry episode the attempts climb by one per cycle up
      to the ceiling and then stay there. */
  lemma {:induction false} DryEpisode(c: Channel, ws: seq<Window>)
    requires ChannelValid(c)
    requires forall k :: 0 <= k < |ws| ==> WellFormed(ws[k])
    requires DryThroughout(c, ws)
    ensures Episode(c, ws).pumpAttempts ==
      if c.pumpAttempts + |ws| <= c.maxPumpAttempts then c.pumpAttempts + |ws| else c.maxPumpAttempts
  {
    if ws != [] {
      var init := ws[..|ws| - 1];
      DryEpisode(c, init);
      var prev := Episode(c, init);
      var seen := Observe(prev, ws[|ws| - 1]).channel;
      ObserveResetLaw(prev, ws[|ws| - 1]);
      assert IsDry(seen) && seen.pumpAttempts == prev.pumpAttempts;
      assert seen.maxPumpAttempts == c.maxPumpAttempts;
      assert Episode(c, ws) == Pumped(seen);
    }
  }

  /** Once a dry channel has used all its attempts, further dry cycles leave
      it exhausted and run no pump. */
  lemma ExhaustedStays(c: Channel, w: Window)
    requires WellFormed(w) && ChannelValid(c)
    requires IsDry(Observe(c, w).channel) && c.pumpAttempts == c.maxPumpAttempts
    ensures !ShouldPump(Observe(c, w).channel)
    ensures CycleChannel(c, w).pumpAttempts == c.maxPumpAttempts
  {
    ObserveResetLaw(c, w);
  }

  /** A stored reference of 100..102, which the potentiometer can produce,
      is above every moisture level: such a channel is dry whatever its
      sensor reads. */
  lemma HighReferenceAlwaysDry(c: Channel)
    requires ChannelValid(c) && c.moistureReferenceLevel > 99
    ensures IsDry(c)
  {
  }

  /** A potentiometer turned near its top end (an averaged reading of 1000
      or more) keeps the channel dry, so it forces an update every cycle:
      once the stored reference is 100 or more, or the new one is accepted,
      no level the sensor can report reaches it. */
  lemma HighReferenceForcesUpdate(c: Channel, w: Window)
    requires WellFormed(w) && ChannelValid(c) && ReferenceOf(w) >= 100
    requires Differs(c.moistureReferenceLevel, ReferenceOf(w)) || c.moistureReferenceLevel >= 100
    ensures IsDry(Observe(c, w).channel) && Observe(c, w).update
  {
    ObserveReference(c, w);
  }

  /** A reset of the attempts never happens silently on a valid record: the
      stored pair was dry, so it turns wet only when a new level or a new
      reference is accepted, and that sets `update`. */
  lemma ResetMeansUpdate(c: Channel, w: Window)
    requires WellFormed(w) && ChannelValid(c)
    requires Observe(c, w).channel.pumpAttempts != c.pumpAttempts
    ensures Observe(c, w).update
    ensures Differs(c.moistureLevel, SensorPercent(w)) || Differs(c.moistureReferenceLevel, ReferenceOf(w))
  {
    ObserveLevel(c, w);
    ObserveReference(c, w);
    ObserveResetLaw(c, w);
  }

  /** Recovery: a channel at 2 of 3 attempts, stored at 78% against a 79%
      reference, reads 80% (within the tolerance, so the level stays) and a
      75% reference (accepted). It is wet now, its attempts are reset and
      it reports an update. */
  lemma RecoveryRefreshes()
    ensures var c := Channel(PUMP_DURATION, PUMP_MAX_ATTEMPTS, 2, 78, 260, 79, 0, 4, 0);
            var w := Window([252, 252, 252, 252], [750, 750, 750, 750]);
            var r := Observe(c, w);
            && ChannelValid(c)
            && r.channel.moistureLevel == 78 && r.channel.moistureReferenceLevel == 75
            && r.channel.pumpAttempts == 0 && r.update
  {
    SumOfSteady(252);
    SumOfSteady(750);
  }

  /** A dry channel at its ceiling whose readings stay within the tolerance
      reports an update every cycle, although the cycle changes nothing:
      the display is refreshed with the same records each time. */
  lemma ExhaustedRefreshesForNothing(c: Channel, w: Window)
    requires WellFormed(w) && ChannelValid(c)
    requires IsDry(c) && c.pumpAttempts == c.maxPumpAttempts
    requires !Differs(c.moistureLevel, SensorPercent(w)) && !Differs(c.moistureReferenceLevel, ReferenceOf(w))
    ensures Observe(c, w).update && CycleChannel(c, w) == c
  {
    ObserveLevel(c, w);
    ObserveReference(c, w);
  }

  lemma SumOfSteady(x: Adc)
    ensures Sum([x, x, x, x]) == 4 * x
  {
    assert [x, x, x, x][..3] == [x, x, x];
    assert [x, x, x][..2] == [x, x];
    assert [x, x][..1] == [x];
    assert [x][..0] == [];
    assert Sum([x]) == x;
    assert Sum([x, x]) == 2 * x;
    assert Sum([x, x, x]) == 3 * x;
  }
}
