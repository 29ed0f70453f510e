/** The decision logic the two sketches share: the heater/fan hysteresis with
    its fail-safe, the pump's phase timer, the light's time window and the
    minute/second split of a remaining time. Everything here is a pure function
    of the controller's globals and the handler's inputs; the classes in
    FishPlant03 and FishPlant02 update their fields as these functions say. */
module Control {
  import opened Millis

  // ---------------------------------------------------------------------------
  // Log events and relay pin writes
  // ---------------------------------------------------------------------------

  datatype Relay = Heater | Fan | Led | Pump

  /** A control line the sketches log: a relay switching, the fail-safe firing,
      or the pump's once-a-minute remaining-time report (its `remainMs`). */
  datatype Event =
    | Switched(relay: Relay, on: bool)
    | WaterAbnormal
    | PumpRemain(remainMs: nat)

  datatype Level = Low | High

  /** One `digitalWrite` to a relay pin. */
  datatype PinWrite = PinWrite(relay: Relay, level: Level)

  /** How a relay board reads its input pin: fish_plant_03 drives HIGH for on,
      fish_plant_02 drives LOW for on. */
  datatype Polarity = ActiveHigh | ActiveLow

  function PinLevel(p: Polarity, on: bool): (l: Level)
    ensures p == ActiveHigh ==> (l == High <==> on)
    ensures p == ActiveLow ==> (l == Low <==> on)
  {
    if on == (p == ActiveHigh) then High else Low
  }

  // ---------------------------------------------------------------------------
  // Thermal controller (handleWaterControl)
  // ---------------------------------------------------------------------------

  const HEATER_ON: real := 22.0
  const HEATER_OFF: real := 22.5
  const FAN_ON: real := 26.0
  const FAN_OFF: real := 25.5

  /** The DallasTemperature library's value for "no reading". */
  const DEVICE_DISCONNECTED_C: real := -127.0

  /** A water reading the fail-safe refuses: disconnected, below 0 or above 50.
      The "disconnected" value lies below 0, so the test comes down to the
      range alone. */
  function Abnormal(t: real): (r: bool)
    ensures r <==> t < 0.0 || t > 50.0
  {
    t == DEVICE_DISCONNECTED_C || t < 0.0 || t > 50.0
  }

  datatype Thermal = Thermal(heater: bool, fan: bool)

  /** The heater and fan after handleWaterControl(t), from the outputs before.
      Written as the source decides: fail-safe first, then the heater test
      (turning on forces the fan off), then the fan test (turning on forces the
      heater off), both tests reading the outputs as they were on entry.
      The contract says what this amounts to: on a refused reading both end
      off; on a usable one each output follows its own two-point hysteresis,
      independently of the other and of the order of the tests, and the two
      are never on together, whatever the state before. */
  function WaterStep(s: Thermal, t: real): (r: Thermal)
    ensures !(r.heater && r.fan)
    ensures Abnormal(t) ==> !r.heater && !r.fan
    ensures !Abnormal(t) ==> (r.heater <==> if s.heater then t < HEATER_OFF else t <= HEATER_ON)
    ensures !Abnormal(t) ==> (r.fan <==> if s.fan then t > FAN_OFF else t >= FAN_ON)
  {
    if Abnormal(t) then
      if s.heater || s.fan then Thermal(false, false) else s
    else
      var afterHeater :=
        if !s.heater && t <= HEATER_ON then Thermal(true, false)
        else if s.heater && t >= HEATER_OFF then s.(heater := false)
        else s;
      if !s.fan && t >= FAN_ON then Thermal(false, true)
      else if s.fan && t <= FAN_OFF then afterHeater.(fan := false)
      else afterHeater
  }

  /** The relay lines for the outputs that differ between `s` and `r`, heater first. */
  function Changes(s: Thermal, r: Thermal): seq<Event>
  {
    (if r.heater != s.heater then [Switched(Heater, r.heater)] else []) +
    (if r.fan != s.fan then [Switched(Fan, r.fan)] else [])
  }

  /** The relay lines of a change from `s` to `r`: none iff nothing changes, a
      line for an output iff it changed, carrying its new value, and the
      heater's before the fan's. */
  lemma ChangesExact(s: Thermal, r: Thermal)
    ensures var es := Changes(s, r);
      && (es == [] <==> r == s)
      && (Switched(Heater, r.heater) in es <==> r.heater != s.heater)
      && (Switched(Fan, r.fan) in es <==> r.fan != s.fan)
      && (forall i :: 0 <= i < |es| ==> es[i] == Switched(Heater, r.heater) || es[i] == Switched(Fan, r.fan))
      && (|es| == 2 ==> es == [Switched(Heater, r.heater), Switched(Fan, r.fan)])
  {
  }

  /** The lines handleWaterControl(t) logs. A line is logged exactly when an
      output changes; the fail-safe logs its one "abnormal" line and nothing
      else; otherwise there is one relay line per changed output, carrying its
      new value, the heater's before the fan's. */
  function WaterEvents(s: Thermal, t: real): (es: seq<Event>)
    ensures es == [] <==> WaterStep(s, t) == s
    ensures Abnormal(t) ==> es == (if s.heater || s.fan then [WaterAbnormal] else [])
    ensures !Abnormal(t) ==> |es| <= 2 && WaterAbnormal !in es
    ensures !Abnormal(t) ==>
      (Switched(Heater, !s.heater) in es <==> WaterStep(s, t).heater != s.heater) &&
      (Switched(Fan, !s.fan) in es <==> WaterStep(s, t).fan != s.fan)
    ensures |es| == 2 ==> es == [Switched(Heater, !s.heater), Switched(Fan, !s.fan)]
  {
    if Abnormal(t) then
      if s.heater || s.fan then [WaterAbnormal] else []
    else
      Changes(s, WaterStep(s, t))
  }

  /** The pin writes for the outputs that differ between `s` and `r`, heater first. */
  function ChangeWrites(p: Polarity, s: Thermal, r: Thermal): seq<PinWrite>
  {
    (if r.heater != s.heater then [PinWrite(Heater, PinLevel(p, r.heater))] else []) +
    (if r.fan != s.fan then [PinWrite(Fan, PinLevel(p, r.fan))] else [])
  }

  /** One pin write per relay line of Changes, in the same order, to that
      line's relay at the level of its new value. */
  lemma ChangeWritesFollow(p: Polarity, s: Thermal, r: Thermal)
    ensures var es, ws := Changes(s, r), ChangeWrites(p, s, r);
      && |ws| == |es|
      && forall i :: 0 <= i < |ws| ==>
        es[i].Switched? && ws[i] == PinWrite(es[i].relay, PinLevel(p, es[i].on))
  {
  }

  /** The relay pin writes handleWaterControl(t) makes under polarity `p`: a
      write happens exactly when an output changes, only to the heater and the
      fan, and each at the level of that relay's new value. */
  function WaterWrites(p: Polarity, s: Thermal, t: real): (ws: seq<PinWrite>)
    ensures ws == [] <==> WaterStep(s, t) == s
    ensures |ws| <= 2
    ensures forall w :: w in ws ==>
      (w.relay == Heater && w.level == PinLevel(p, WaterStep(s, t).heater)) ||
      (w.relay == Fan && w.level == PinLevel(p, WaterStep(s, t).fan))
  {
    if Abnormal(t) then
      if s.heater || s.fan then [PinWrite(Heater, PinLevel(p, false)), PinWrite(Fan, PinLevel(p, false))] else []
    else
      ChangeWrites(p, s, WaterStep(s, t))
  }

  /** Every pin write of handleWaterControl has its relay line beside it, in
      the same order and with the level of the new state; the fail-safe writes
      the "off" level to both relays. */
  lemma WaterWritesFollowEvents(p: Polarity, s: Thermal, t: real)
    ensures var es, ws := WaterEvents(s, t), WaterWrites(p, s, t);
      if Abnormal(t) then
        ws == (if s.heater || s.fan then [PinWrite(Heater, PinLevel(p, false)), PinWrite(Fan, PinLevel(p, false))] else [])
      else
        |ws| == |es| &&
        forall i :: 0 <= i < |es| ==> es[i].Switched? && ws[i] == PinWrite(es[i].relay, PinLevel(p, es[i].on))
  {
  }

  /** Dead zone: with both outputs off, a reading strictly between the heater's
      and the fan's on-thresholds changes nothing and logs nothing. */
  lemma DeadZone(t: real)
    requires HEATER_ON < t < FAN_ON
    ensures WaterStep(Thermal(false, false), t) == Thermal(false, false)
    ensures WaterEvents(Thermal(false, false), t) == []
  {
  }

  /** The states after each of a run of handleWaterControl calls. */
  function Run(s: Thermal, temps: seq<real>): (states: seq<Thermal>)
    ensures |states| == |temps|
    decreases |temps|
  {
    if temps == [] then [] else
      var next := WaterStep(s, temps[0]);
      [next] + Run(next, temps[1..])
  }

  /** The lines each call of such a run logs. */
  function RunEvents(s: Thermal, temps: seq<real>): (lines: seq<seq<Event>>)
    ensures |lines| == |temps|
    decreases |temps|
  {
    if temps == [] then [] else
      [WaterEvents(s, temps[0])] + RunEvents(WaterStep(s, temps[0]), temps[1..])
  }

  /** Mutual exclusion holds in every state a run reaches, from any start. */
  lemma {:induction false} RunExclusive(s: Thermal, temps: seq<real>)
    ensures forall i :: 0 <= i < |temps| ==> !(Run(s, temps)[i].heater && Run(s, temps)[i].fan)
    decreases |temps|
  {
    if temps != [] {
      RunExclusive(WaterStep(s, temps[0]), temps[1..]);
    }
  }

  /** No chatter: a heater that is on stays on, and logs nothing, for as long as
      the readings stay usable and below the off-threshold. */
  lemma {:induction false} HeaterHolds(s: Thermal, temps: seq<real>)
    requires s.heater && !s.fan
    requires forall i :: 0 <= i < |temps| ==> 0.0 <= temps[i] < HEATER_OFF
    ensures forall i :: 0 <= i < |temps| ==> Run(s, temps)[i] == s && RunEvents(s, temps)[i] == []
    decreases |temps|
  {
    if temps != [] {
      HeaterHolds(WaterStep(s, temps[0]), temps[1..]);
    }
  }

  /** The dead zone over a run: outputs off stay off, and nothing is logged,
      while the readings stay strictly between 22.0 and 26.0. */
  lemma {:induction false} DeadZoneRun(temps: seq<real>)
    requires forall i :: 0 <= i < |temps| ==> HEATER_ON < temps[i] < FAN_ON
    ensures forall i :: 0 <= i < |temps| ==>
      Run(Thermal(false, false), temps)[i] == Thermal(false, false) &&
      RunEvents(Thermal(false, false), temps)[i] == []
    decreases |temps|
  {
    if temps != [] {
      var off := Thermal(false, false);
      DeadZone(temps[0]);
      DeadZoneRun(temps[1..]);
      assert Run(off, temps) == [off] + Run(off, temps[1..]);
      assert RunEvents(off, temps) == [[]] + RunEvents(off, temps[1..]);
    }
  }

  /** Readings 23.0, 22.0, 21.0, 22.6 from both off: off/off, on/off, on/off,
      off/off, with a heater line at the second and at the fourth reading. */
  lemma HeaterScenario()
    ensures Run(Thermal(false, false), [23.0, 22.0, 21.0, 22.6]) ==
      [Thermal(false, false), Thermal(true, false), Thermal(true, false), Thermal(false, false)]
    ensures RunEvents(Thermal(false, false), [23.0, 22.0, 21.0, 22.6]) ==
      [[], [Switched(Heater, true)], [], [Switched(Heater, false)]]
  {
    var off, on := Thermal(false, false), Thermal(true, false);
    assert WaterEvents(off, 23.0) == [];
    assert WaterEvents(off, 22.0) == [Switched(Heater, true)];
    assert WaterEvents(on, 21.0) == [];
    assert WaterEvents(on, 22.6) == [Switched(Heater, false)];
  }

  // ---------------------------------------------------------------------------
  // Pump duty cycle (handlePump, getPumpRemainMs)
  // ---------------------------------------------------------------------------

  const PUMP_ON_TIME: nat := 5 * 60 * 1000
  const PUMP_OFF_TIME: nat := 15 * 60 * 1000
  const PUMP_REMAIN_LOG_INTERVAL: nat := 60 * 1000

  /** The length of the current phase: 5 minutes running, three times that
      resting, a whole number of minutes either way. */
  function PhaseLength(pumpOn: bool): (r: nat)
    ensures r == PUMP_ON_TIME <==> pumpOn
    ensures !pumpOn ==> r == 3 * PUMP_ON_TIME
    ensures r % PUMP_REMAIN_LOG_INTERVAL == 0
  {
    if pumpOn then PUMP_ON_TIME else PUMP_OFF_TIME
  }

  /** getPumpRemainMs: what is left of the current phase, 0 once it has run out. */
  function RemainMs(pumpOn: bool, pumpTimer: U32, now: U32): (r: nat)
    ensures r <= PhaseLength(pumpOn)
    ensures r == 0 <==> Sub(now, pumpTimer) >= PhaseLength(pumpOn)
    ensures r > 0 ==> r + Sub(now, pumpTimer) == PhaseLength(pumpOn)
  {
    var target := PhaseLength(pumpOn);
    var elapsed := Sub(now, pumpTimer);
    if elapsed >= target then 0 else target - elapsed
  }

  /** A phase started at `t0` has `length - d` left `d` milliseconds later, and
      nothing once `d` reaches its length, even when the counter wraps. */
  lemma RemainAfter(pumpOn: bool, t0: U32, d: nat)
    requires d < TWO32
    ensures RemainMs(pumpOn, t0, After(t0, d)) ==
      if d >= PhaseLength(pumpOn) then 0 else PhaseLength(pumpOn) - d
  {
    ElapsedAfter(t0, d);
  }

  /** The remaining time falls strictly as time advances through a phase. */
  lemma RemainCountsDown(pumpOn: bool, t0: U32, d1: nat, d2: nat)
    requires d1 < d2 <= PhaseLength(pumpOn)
    ensures RemainMs(pumpOn, t0, After(t0, d1)) > RemainMs(pumpOn, t0, After(t0, d2))
  {
    RemainAfter(pumpOn, t0, d1);
    RemainAfter(pumpOn, t0, d2);
  }

  /** A phase that starts at `now` has its full length left at `now`. */
  lemma FreshPhase(pumpOn: bool, now: U32)
    ensures RemainMs(pumpOn, now, now) == PhaseLength(pumpOn)
  {
  }

  /** handlePump's phase test: the current phase has run its length, which is
      when getPumpRemainMs reaches 0. A phase is not over at the instant it
      starts, and is over once its length has passed. */
  function PhaseOver(pumpOn: bool, pumpTimer: U32, now: U32): (r: bool)
    ensures r <==> RemainMs(pumpOn, pumpTimer, now) == 0
    ensures now == pumpTimer ==> !r
    ensures now == After(pumpTimer, PhaseLength(pumpOn)) ==> r
  {
    ElapsedAfter(pumpTimer, PhaseLength(pumpOn));
    Sub(now, pumpTimer) >= PhaseLength(pumpOn)
  }

  /** handlePump's once-a-minute gate on the remaining-time line: closed at
      the instant it restarts, open once a minute has passed. */
  function RemainLogDue(lastPumpRemainLog: U32, now: U32): (r: bool)
    ensures now == lastPumpRemainLog ==> !r
    ensures now == After(lastPumpRemainLog, PUMP_REMAIN_LOG_INTERVAL) ==> r
  {
    ElapsedAfter(lastPumpRemainLog, PUMP_REMAIN_LOG_INTERVAL);
    Sub(now, lastPumpRemainLog) >= PUMP_REMAIN_LOG_INTERVAL
  }

  /** The phase test and the minute gate open exactly when their interval has
      passed since `t0`, the instant they last reset, even when the counter
      wraps in between. */
  lemma PumpGatesAfter(t0: U32, d: nat)
    requires d < TWO32
    ensures PhaseOver(true, t0, After(t0, d)) <==> d >= PUMP_ON_TIME
    ensures PhaseOver(false, t0, After(t0, d)) <==> d >= PUMP_OFF_TIME
    ensures RemainLogDue(t0, After(t0, d)) <==> d >= PUMP_REMAIN_LOG_INTERVAL
  {
    ElapsedAfter(t0, d);
  }

  /** The lines handlePump logs: the switch line when the phase flips, else the
      remaining-time line when the minute gate is open. The remaining time it
      reports (its own `targetTime - elapsed`) is never 0 and is what
      getPumpRemainMs gives at the same instant. */
  function PumpEvents(pumpOn: bool, pumpTimer: U32, lastPumpRemainLog: U32, now: U32): (es: seq<Event>)
    ensures |es| <= 1
    ensures PhaseOver(pumpOn, pumpTimer, now) ==> es == [Switched(Pump, !pumpOn)]
    ensures !PhaseOver(pumpOn, pumpTimer, now) ==>
      es == if RemainLogDue(lastPumpRemainLog, now) then [PumpRemain(RemainMs(pumpOn, pumpTimer, now))] else []
    ensures forall e :: e in es && e.PumpRemain? ==> 0 < e.remainMs <= PhaseLength(pumpOn)
  {
    var targetTime := PhaseLength(pumpOn);
    if Sub(now, pumpTimer) >= targetTime then
      [Switched(Pump, !pumpOn)]
    else if Sub(now, lastPumpRemainLog) >= PUMP_REMAIN_LOG_INTERVAL then
      var elapsed := Sub(now, pumpTimer);
      if elapsed < targetTime then [PumpRemain(targetTime - elapsed)] else []
    else
      []
  }

  /** The minutes and seconds logPumpRemain and the status report print for a
      remaining time: seconds under 60, together the whole seconds of `remainMs`;
      a remaining time within a phase shows at most 15 minutes. */
  function MinSec(remainMs: nat): (r: (nat, nat))
    ensures r.1 < 60
    ensures r.0 * 60 + r.1 == remainMs / 1000
    ensures remainMs <= PUMP_OFF_TIME ==> r.0 <= 15
  {
    var sec := remainMs / 1000;
    (sec / 60, sec % 60)
  }

  // ---------------------------------------------------------------------------
  // Light schedule (handleLED)
  // ---------------------------------------------------------------------------

  const LED_ON_MINUTE: nat := 5 * 60 + 30
  const LED_OFF_MINUTE: nat := 22 * 60 + 30

  /** handleLED's window: on from 05:30 up to, not including, 22:30. For a clock
      reading (minutes under 60) this is the lexicographic order on (hour, minute). */
  function LightOn(hour: nat, minute: nat): (on: bool)
    ensures minute < 60 ==>
      (on <==> (hour > 5 || (hour == 5 && minute >= 30)) && (hour < 22 || (hour == 22 && minute < 30)))
  {
    var curMin := hour * 60 + minute;
    curMin >= LED_ON_MINUTE && curMin < LED_OFF_MINUTE
  }

  lemma LightBoundaries()
    ensures !LightOn(5, 29) && LightOn(5, 30)
    ensures LightOn(22, 29) && !LightOn(22, 30)
  {
  }

  // ---------------------------------------------------------------------------
  // Sensor interval (handleSensorLog)
  // ---------------------------------------------------------------------------

  const SENSOR_LOG_INTERVAL: nat := 5000

  /** handleSensorLog's gate: at least 5 seconds since the last reading;
      closed at the instant it restarts, open once 5 seconds have passed. */
  function SensorDue(lastSensorLog: U32, now: U32): (r: bool)
    ensures now == lastSensorLog ==> !r
    ensures now == After(lastSensorLog, SENSOR_LOG_INTERVAL) ==> r
  {
    ElapsedAfter(lastSensorLog, SENSOR_LOG_INTERVAL);
    Sub(now, lastSensorLog) >= SENSOR_LOG_INTERVAL
  }


  // ---------------------------------------------------------------------------
  // Status interval (handleStatusLine)
  // ---------------------------------------------------------------------------

  const STATUS_LOG_INTERVAL: nat := 5000

  /** handleStatusLine's gate: at least 5 seconds since the last status line;
      closed at the instant it restarts, open once 5 seconds have passed. */
  function StatusDue(lastStatusLog: U32, now: U32): (r: bool)
    ensures now == lastStatusLog ==> !r
    ensures now == After(lastStatusLog, STATUS_LOG_INTERVAL) ==> r
  {
    ElapsedAfter(lastStatusLog, STATUS_LOG_INTERVAL);
    Sub(now, lastStatusLog) >= STATUS_LOG_INTERVAL
  }

  /** The sensor gate and the status gate open exactly 5 seconds after they
      last let a call through, even when the counter wraps in between. */
  lemma FiveSecondGatesAfter(t0: U32, d: nat)
    requires d < TWO32
    ensures SensorDue(t0, After(t0, d)) <==> d >= SENSOR_LOG_INTERVAL
    ensures StatusDue(t0, After(t0, d)) <==> d >= STATUS_LOG_INTERVAL
  {
    ElapsedAfter(t0, d);
  }
}
