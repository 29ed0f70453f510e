/** fish_plant_02: the serial-console sketch. Its relay board is active-low (a
    relay closes when its pin is LOW), and its control lines go to the serial
    console only, recorded here as the sequence of events they report. */
module FishPlant02 {
  import opened Millis
  import opened Control

  /** The relay board of this sketch switches on at LOW. */
  const POLARITY: Polarity := ActiveLow

  class Controller {
    var heaterState: bool
    var fanState: bool
    var ledState: bool
    var pumpState: bool
    var pumpTimer: U32
    var lastPumpRemainLog: U32
    var lastSensorLog: U32
    var lastStatusLog: U32

    /** The control lines printed, in order. */
    ghost var events: seq<Event>
    /** The relay pin writes, in order. */
    ghost var writes: seq<PinWrite>

    ghost function Outputs(): Thermal
      reads this`heaterState, this`fanState
    {
      Thermal(heaterState, fanState)
    }

    /** The globals' initial values and setup(): every relay pin written HIGH
        (open on this board), every output off, and the pump timer and the
        minute gate started from the two clock readings `timerNow` and
        `logNow`; the pump starts in its rest phase with all of it to go. */
    constructor (timerNow: U32, logNow: U32)
      ensures !heaterState && !fanState && !ledState && !pumpState
      ensures pumpTimer == timerNow && lastPumpRemainLog == logNow && lastSensorLog == 0 && lastStatusLog == 0
      ensures RemainMs(pumpState, pumpTimer, timerNow) == PUMP_OFF_TIME
      ensures events == []
      ensures writes == [PinWrite(Heater, High), PinWrite(Fan, High), PinWrite(Led, High), PinWrite(Pump, High)]
    {
      writes := [PinWrite(Heater, High), PinWrite(Fan, High), PinWrite(Led, High), PinWrite(Pump, High)];
      heaterState, fanState, ledState, pumpState := false, false, false, false;
      lastSensorLog, lastStatusLog := 0, 0;
      events := [];
      pumpTimer := timerNow;
      lastPumpRemainLog := logNow;
      new;
      FreshPhase(false, timerNow);
    }

    /** handlePump at `now`: flip the phase once it has run its length,
        writing the pump's pin (HIGH to stop, LOW to run), and otherwise
        print the remaining time at most once a minute. */
    method HandlePump(now: U32)
      modifies this`pumpState, this`pumpTimer, this`lastPumpRemainLog, this`events, this`writes
      ensures events == old(events) + PumpEvents(old(pumpState), old(pumpTimer), old(lastPumpRemainLog), now)
      ensures PhaseOver(old(pumpState), old(pumpTimer), now) ==>
        pumpState == !old(pumpState) && pumpTimer == now && lastPumpRemainLog == now &&
        writes == old(writes) + [PinWrite(Pump, if pumpState then Low else High)] &&
        RemainMs(pumpState, pumpTimer, now) == PhaseLength(pumpState)
      ensures !PhaseOver(old(pumpState), old(pumpTimer), now) ==>
        pumpState == old(pumpState) && pumpTimer == old(pumpTimer) && writes == old(writes) &&
        lastPumpRemainLog == (if RemainLogDue(old(lastPumpRemainLog), now) then now else old(lastPumpRemainLog))
    {
      var nowMs := now;
      var targetTime: nat;
      if pumpState {
        targetTime := PUMP_ON_TIME;
        if Sub(nowMs, pumpTimer) >= targetTime {
          pumpState := false;
          pumpTimer := nowMs;
          writes := writes + [PinWrite(Pump, High)];
          events := events + [Switched(Pump, false)];
          lastPumpRemainLog := nowMs;
          FreshPhase(false, nowMs);
          return;
        }
      } else {
        targetTime := PUMP_OFF_TIME;
        if Sub(nowMs, pumpTimer) >= targetTime {
          pumpState := true;
          pumpTimer := nowMs;
          writes := writes + [PinWrite(Pump, Low)];
          events := events + [Switched(Pump, true)];
          lastPumpRemainLog := nowMs;
          FreshPhase(true, nowMs);
          return;
        }
      }
      if Sub(nowMs, lastPumpRemainLog) >= PUMP_REMAIN_LOG_INTERVAL {
        var elapsed := Sub(nowMs, pumpTimer);
        if elapsed < targetTime {
          var remain := targetTime - elapsed;
          events := events + [PumpRemain(remain)];
        }
        lastPumpRemainLog := nowMs;
      }
    }

    /** handleLED at the clock's `hour`:`minute`: follow the light window,
        switching, writing the pin (LOW for on) and printing only on a
        change. */
    method HandleLED(hour: nat, minute: nat)
      modifies this`ledState, this`events, this`writes
      ensures ledState == LightOn(hour, minute)
      ensures events == old(events) + (if ledState != old(ledState) then [Switched(Led, ledState)] else [])
      ensures writes == old(writes) + (if ledState != old(ledState) then [PinWrite(Led, if ledState then Low else High)] else [])
    {
      var curMin := hour * 60 + minute;
      var onMin := 5 * 60 + 30;
      var offMin := 22 * 60 + 30;
      var newState := curMin >= onMin && curMin < offMin;
      if newState != ledState {
        ledState := newState;
        writes := writes + [PinWrite(Led, if ledState then Low else High)];
        events := events + [Switched(Led, ledState)];
      }
    }

    /** handleWaterControl(waterTemp): the fail-safe, then the hysteresis,
        then one pin write and relay line per output that changed, the heater
        first. Heater and fan are never left both on. */
    method HandleWaterControl(waterTemp: real)
      modifies this`heaterState, this`fanState, this`events, this`writes
      ensures Outputs() == WaterStep(old(Outputs()), waterTemp)
      ensures !(heaterState && fanState)
      ensures events == old(events) + WaterEvents(old(Outputs()), waterTemp)
      ensures writes == old(writes) + WaterWrites(POLARITY, old(Outputs()), waterTemp)
    {
      var newHeater := heaterState;
      var newFan := fanState;
      if waterTemp == DEVICE_DISCONNECTED_C || waterTemp < 0.0 || waterTemp > 50.0 {
        if heaterState || fanState {
          heaterState := false;
          fanState := false;
          writes := writes + [PinWrite(Heater, High), PinWrite(Fan, High)];
          events := events + [WaterAbnormal];
        }
        return;
      }

      if !heaterState && waterTemp <= HEATER_ON {
        newHeater := true;
        newFan := false;
      } else if heaterState && waterTemp >= HEATER_OFF {
        newHeater := false;
      }
      if !fanState && waterTemp >= FAN_ON {
        newFan := true;
        newHeater := false;
      } else if fanState && waterTemp <= FAN_OFF {
        newFan := false;
      }
      assert Thermal(newHeater, newFan) == WaterStep(old(Outputs()), waterTemp);

      ghost var heaterEvents: seq<Event> := [];
      ghost var heaterWrites: seq<PinWrite> := [];
      if newHeater != heaterState {
        heaterState := newHeater;
        writes := writes + [PinWrite(Heater, if heaterState then Low else High)];
        events := events + [Switched(Heater, heaterState)];
        heaterEvents, heaterWrites := [Switched(Heater, newHeater)], [PinWrite(Heater, PinLevel(POLARITY, newHeater))];
      }
      assert events == old(events) + heaterEvents && writes == old(writes) + heaterWrites;
      ghost var fanEvents: seq<Event> := [];
      ghost var fanWrites: seq<PinWrite> := [];
      if newFan != fanState {
        fanState := newFan;
        writes := writes + [PinWrite(Fan, if fanState then Low else High)];
        events := events + [Switched(Fan, fanState)];
        fanEvents, fanWrites := [Switched(Fan, newFan)], [PinWrite(Fan, PinLevel(POLARITY, newFan))];
      }
      assert events == old(events) + (heaterEvents + fanEvents) && writes == old(writes) + (heaterWrites + fanWrites);
      assert WaterEvents(old(Outputs()), waterTemp) == heaterEvents + fanEvents;
      assert WaterWrites(POLARITY, old(Outputs()), waterTemp) == heaterWrites + fanWrites;
    }

    /** handleSensorLog at `now`: at most every 5 seconds, take the reading
        and run handleWaterControl on the water temperature. */
    method HandleSensorLog(now: U32, waterTemp: real)
      modifies this`lastSensorLog, this`heaterState, this`fanState, this`events, this`writes
      ensures !SensorDue(old(lastSensorLog), now) ==>
        lastSensorLog == old(lastSensorLog) && Outputs() == old(Outputs()) &&
        events == old(events) && writes == old(writes)
      ensures SensorDue(old(lastSensorLog), now) ==>
        lastSensorLog == now &&
        Outputs() == WaterStep(old(Outputs()), waterTemp) &&
        events == old(events) + WaterEvents(old(Outputs()), waterTemp) &&
        writes == old(writes) + WaterWrites(POLARITY, old(Outputs()), waterTemp)
    {
      var nowMs := now;
      if Sub(nowMs, lastSensorLog) < SENSOR_LOG_INTERVAL {
        return;
      }
      lastSensorLog := nowMs;
      HandleWaterControl(waterTemp);
    }

    /** handleStatusLine at `now`: at most every 5 seconds it prints the
        status line and restarts its gate. */
    method HandleStatusLine(now: U32)
      modifies this`lastStatusLog
      ensures lastStatusLog == if StatusDue(old(lastStatusLog), now) then now else old(lastStatusLog)
    {
      var nowMs := now;
      if Sub(nowMs, lastStatusLog) < STATUS_LOG_INTERVAL {
        return;
      }
      lastStatusLog := nowMs;
    }

    /** One pass of loop(): handlePump, handleLED, handleSensorLog and
        handleStatusLine in that order, each with the clock reading it takes
        itself. */
    method Tick(pumpNow: U32, hour: nat, minute: nat, sensorNow: U32, waterTemp: real, statusNow: U32)
      modifies this`pumpState, this`pumpTimer, this`lastPumpRemainLog, this`ledState,
        this`lastSensorLog, this`heaterState, this`fanState, this`lastStatusLog, this`events, this`writes
      ensures pumpState == (if PhaseOver(old(pumpState), old(pumpTimer), pumpNow) then !old(pumpState) else old(pumpState))
      ensures pumpTimer == (if PhaseOver(old(pumpState), old(pumpTimer), pumpNow) then pumpNow else old(pumpTimer))
      ensures lastPumpRemainLog ==
        (if PhaseOver(old(pumpState), old(pumpTimer), pumpNow) || RemainLogDue(old(lastPumpRemainLog), pumpNow)
         then pumpNow else old(lastPumpRemainLog))
      ensures ledState == LightOn(hour, minute)
      ensures lastSensorLog == (if SensorDue(old(lastSensorLog), sensorNow) then sensorNow else old(lastSensorLog))
      ensures Outputs() == (if SensorDue(old(lastSensorLog), sensorNow) then WaterStep(old(Outputs()), waterTemp) else old(Outputs()))
      ensures lastStatusLog == (if StatusDue(old(lastStatusLog), statusNow) then statusNow else old(lastStatusLog))
      ensures events == old(events) +
        PumpEvents(old(pumpState), old(pumpTimer), old(lastPumpRemainLog), pumpNow) +
        (if ledState != old(ledState) then [Switched(Led, ledState)] else []) +
        (if SensorDue(old(lastSensorLog), sensorNow) then WaterEvents(old(Outputs()), waterTemp) else [])
      ensures writes == old(writes) +
        (if PhaseOver(old(pumpState), old(pumpTimer), pumpNow) then [PinWrite(Pump, PinLevel(POLARITY, pumpState))] else []) +
        (if ledState != old(ledState) then [PinWrite(Led, PinLevel(POLARITY, ledState))] else []) +
        (if SensorDue(old(lastSensorLog), sensorNow) then WaterWrites(POLARITY, old(Outputs()), waterTemp) else [])
    {
      HandlePump(pumpNow);
      LightSensorsStatus(hour, minute, sensorNow, waterTemp, statusNow);
    }

    /** The rest of a pass of loop(), after handlePump. */
    method LightSensorsStatus(hour: nat, minute: nat, sensorNow: U32, waterTemp: real, statusNow: U32)
      modifies this`ledState, this`lastSensorLog, this`heaterState, this`fanState, this`lastStatusLog,
        this`events, this`writes
      ensures ledState == LightOn(hour, minute)
      ensures lastSensorLog == (if SensorDue(old(lastSensorLog), sensorNow) then sensorNow else old(lastSensorLog))
      ensures Outputs() == (if SensorDue(old(lastSensorLog), sensorNow) then WaterStep(old(Outputs()), waterTemp) else old(Outputs()))
      ensures lastStatusLog == (if StatusDue(old(lastStatusLog), statusNow) then statusNow else old(lastStatusLog))
      ensures events == old(events) +
        (if ledState != old(ledState) then [Switched(Led, ledState)] else []) +
        (if SensorDue(old(lastSensorLog), sensorNow) then WaterEvents(old(Outputs()), waterTemp) else [])
      ensures writes == old(writes) +
        (if ledState != old(ledState) then [PinWrite(Led, PinLevel(POLARITY, ledState))] else []) +
        (if SensorDue(old(lastSensorLog), sensorNow) then WaterWrites(POLARITY, old(Outputs()), waterTemp) else [])
    {
      HandleLED(hour, minute);
      HandleSensorLog(sensorNow, waterTemp);
      HandleStatusLine(statusNow);
    }
  }
}
