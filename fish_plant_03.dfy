/** fish_plant_03: the web-enabled sketch. Its relays are active-high, and every
    log line goes to a String buffer that keeps at most the last 12000
    characters, served to the web page. */
module FishPlant03 {
  import opened Millis
  import opened Control

  const LOG_LIMIT: nat := 12000

  /** The relay board of this sketch switches on at HIGH. */
  const POLARITY: Polarity := ActiveHigh

  // ---------------------------------------------------------------------------
  // The log buffer
  // ---------------------------------------------------------------------------

  /** The buffer appendLog keeps of everything logged: its last `LOG_LIMIT`
      characters, or all of it while it is shorter. */
  function Tail(s: string): (r: string)
    ensures |r| <= LOG_LIMIT
    ensures |r| <= |s| && r == s[|s| - |r|..]
    ensures |s| <= LOG_LIMIT ==> r == s
    ensures |s| > LOG_LIMIT ==> |r| == LOG_LIMIT
  {
    if |s| > LOG_LIMIT then s[|s| - LOG_LIMIT..] else s
  }

  /** Trimming the buffer before an append loses nothing the trim after it
      would keep: the buffer after any number of appends is the tail of the
      whole log. */
  lemma TailAppend(s: string, t: string)
    ensures Tail(Tail(s) + t) == Tail(s + t)
  {
    if |s| > LOG_LIMIT {
      var k := |s| - LOG_LIMIT;
      assert Tail(s) + t == (s + t)[k..];
      var u := (s + t)[k..];
      if |u| > LOG_LIMIT {
        assert u[|u| - LOG_LIMIT..] == (s + t)[|s + t| - LOG_LIMIT..];
      } else {
        assert |s + t| == |u| + k;
      }
    }
  }

  // ---------------------------------------------------------------------------
  // Log lines
  // ---------------------------------------------------------------------------

  function DigitChar(d: nat): (c: char)
    requires d < 10
    ensures '0' <= c <= '9'
  {
    ('0' as int + d) as char
  }

  /** The value a decimal digit character stands for. */
  function DigitValue(c: char): nat {
    if '0' <= c <= '9' then c as int - '0' as int else 0
  }

  /** The number a string of decimal digits reads as, most significant first. */
  function DecValue(s: string): nat
    decreases |s|
  {
    if s == [] then 0 else DecValue(s[..|s| - 1]) * 10 + DigitValue(s[|s| - 1])
  }

  /** The decimal digits of `n`, as `%lu` prints them: one digit below 10,
      two below 100. */
  function Digits(n: nat): (r: string)
    ensures 1 <= |r|
    ensures n < 10 ==> |r| == 1
    ensures 10 <= n < 100 ==> |r| == 2
    ensures forall c :: c in r ==> '0' <= c <= '9'
    decreases n
  {
    if n < 10 then [DigitChar(n)] else Digits(n / 10) + [DigitChar(n % 10)]
  }

  /** Printed digits read back as the number they print. */
  lemma {:induction false} DigitsRead(n: nat)
    ensures DecValue(Digits(n)) == n
    decreases n
  {
    if n >= 10 {
      var d := Digits(n / 10);
      assert (d + [DigitChar(n % 10)])[..|d|] == d;
      DigitsRead(n / 10);
    }
  }

  /** `%02lu`: zero-padded to two digits. */
  function Pad2(n: nat): (r: string)
    ensures n < 100 ==> |r| == 2
    ensures forall c :: c in r ==> '0' <= c <= '9'
  {
    if n < 10 then "0" + Digits(n) else Digits(n)
  }

  /** The padding leaves the value alone. */
  lemma Pad2Read(n: nat)
    ensures DecValue(Pad2(n)) == n
  {
    DigitsRead(n);
    if n < 10 {
      assert ("0" + Digits(n))[..1] == "0";
    }
  }

  /** `%02lu:%02lu` of the minutes and seconds of a remaining time: within a
      phase, five characters with the colon in the middle. */
  function Clock(remainMs: nat): (r: string)
    ensures remainMs <= PUMP_OFF_TIME ==> |r| == 5 && r[2] == ':'
  {
    var (m, s) := MinSec(remainMs);
    Pad2(m) + ":" + Pad2(s)
  }

  /** The printed time left reads back as the whole seconds it stands for. */
  lemma ClockRead(remainMs: nat)
    requires remainMs <= PUMP_OFF_TIME
    ensures DecValue(Clock(remainMs)[..2]) * 60 + DecValue(Clock(remainMs)[3..]) == remainMs / 1000
  {
    var (m, s) := MinSec(remainMs);
    assert Clock(remainMs)[..2] == Pad2(m);
    assert Clock(remainMs)[3..] == Pad2(s);
    Pad2Read(m);
    Pad2Read(s);
  }

  function OnOff(on: bool): string {
    if on then "ON" else "OFF"
  }

  function RelayName(r: Relay): string {
    match r
    case Heater => "HEATER"
    case Fan => "FAN"
    case Led => "LED"
    case Pump => "PUMP"
  }

  /** The text of a control line; `stamp` is what nowString() reads from the
      real-time clock. Every line but the fail-safe's opens with the stamp in
      brackets, and a remaining-time line ends in its `mm:ss`. */
  function Line(stamp: string, e: Event): (r: string)
    ensures e != WaterAbnormal ==> |r| >= |stamp| + 2 && r[..|stamp| + 2] == "[" + stamp + "]"
    ensures e.PumpRemain? ==> |r| >= |Clock(e.remainMs)| && r[|r| - |Clock(e.remainMs)|..] == Clock(e.remainMs)
  {
    if e == WaterAbnormal then "[WATER] abnormal -> HEATER/FAN OFF"
    else
      var head, rest := "[" + stamp + "]", AfterStamp(e);
      assert (head + rest)[..|head|] == head;
      assert e.PumpRemain? ==> (head + rest)[|head + rest| - |Clock(e.remainMs)|..] == Clock(e.remainMs);
      head + rest
  }

  /** The text of a stamped control line after its bracketed stamp. */
  function AfterStamp(e: Event): string {
    match e
    case Switched(Pump, on) => " [PUMP] " + (if on then "ON (5 min run)" else "OFF (15 min rest)")
    case Switched(r, on) => " [" + RelayName(r) + "] " + OnOff(on)
    case WaterAbnormal => ""
    case PumpRemain(ms) => " [PUMP] remain " + Clock(ms)
  }

  /** The text of a run of control lines, one string per line. */
  function Texts(stamp: string, es: seq<Event>): (ls: seq<string>)
    ensures |ls| == |es|
    decreases |es|
  {
    if es == [] then [] else [Line(stamp, es[0])] + Texts(stamp, es[1..])
  }

  lemma {:induction false} TextsAppend(stamp: string, a: seq<Event>, b: seq<Event>)
    ensures Texts(stamp, a + b) == Texts(stamp, a) + Texts(stamp, b)
    decreases |a|
  {
    if a == [] {
      assert a + b == b;
    } else {
      assert (a + b)[1..] == a[1..] + b;
      TextsAppend(stamp, a[1..], b);
    }
  }

  /** The log as appendLog writes it: each line followed by a newline. */
  function Join(ls: seq<string>): string
    decreases |ls|
  {
    if ls == [] then "" else Join(ls[..|ls| - 1]) + ls[|ls| - 1] + "\n"
  }

  /** appendLog on a buffer that holds the tail of the log: trimming the buffer
      with `s` and its newline added gives the tail of the log with `s` added. */
  lemma AppendTrims(buffer: string, ls: seq<string>, s: string)
    requires buffer == Tail(Join(ls))
    ensures Tail(buffer + s + "\n") == Tail(Join(ls + [s]))
  {
    JoinSnoc(ls, s);
    TailAppend(Join(ls), s + "\n");
    assert buffer + s + "\n" == buffer + (s + "\n");
    assert Join(ls) + s + "\n" == Join(ls) + (s + "\n");
  }

  /** Appending a line to the log appends its text and a newline. */
  lemma JoinSnoc(ls: seq<string>, s: string)
    ensures Join(ls + [s]) == Join(ls) + s + "\n"
  {
    assert (ls + [s])[..|ls|] == ls;
  }

  /** The lines handleSensorLog writes before handing the reading on:
      a separator, the time, the DHT11 line and the DS18B20 line. The two sensor
      lines hold formatted floating-point values and come in as text. */
  function SensorLines(stamp: string, dhtLine: string, water: real, waterLine: string): (ls: seq<string>)
    ensures |ls| == 4 && ls[0] == "----------------------------------"
    ensures ls[1] == "[" + stamp + "]" && ls[2] == dhtLine
    ensures water == DEVICE_DISCONNECTED_C ==> ls[3] == "[DS18B20] read fail"
    ensures water != DEVICE_DISCONNECTED_C ==> ls[3] == waterLine
  {
    ["----------------------------------",
     "[" + stamp + "]",
     dhtLine,
     if water == DEVICE_DISCONNECTED_C then "[DS18B20] read fail" else waterLine]
  }

  /** handleStatusLine's line: the stamp, the sensor readings (formatted
      floating-point values, passed in as text), the pump's time left and the
      four outputs. It opens with the bracketed stamp and shows the time left
      as its `mm:ss`. */
  function StatusText(stamp: string, readings: string, remainMs: nat,
                      heater: bool, fan: bool, led: bool, pump: bool): (r: string)
    ensures |r| >= |stamp| + 2 && r[..|stamp| + 2] == "[" + stamp + "]"
    ensures var k := |stamp| + 3 + |readings| + 9;
      |r| >= k + |Clock(remainMs)| && r[k..k + |Clock(remainMs)|] == Clock(remainMs)
  {
    var head := "[" + stamp + "] " + readings + "PUMP_REM=";
    var outputs := " HEATER=" + OnOff(heater) + " FAN=" + OnOff(fan) + " LED=" + OnOff(led) + " PUMP=" + OnOff(pump);
    assert head[..|stamp| + 2] == "[" + stamp + "]";
    head + Clock(remainMs) + outputs
  }

  // ---------------------------------------------------------------------------
  // The controller's globals and handlers
  // ---------------------------------------------------------------------------

  class Controller {
    var heaterState: bool
    var fanState: bool
    var ledState: bool
    var pumpState: bool
    var pumpTimer: U32
    var lastPumpRemainLog: U32
    var lastSensorLog: U32
    var lastStatusLog: U32
    var logBuffer: string

    /** Every line ever appended, in order. */
    ghost var lines: seq<string>
    /** The control lines logged, in order. */
    ghost var events: seq<Event>
    /** The relay pin writes, in order. */
    ghost var writes: seq<PinWrite>

    /** The buffer is the tail of the whole log. */
    ghost predicate Valid()
      reads this`logBuffer, this`lines
    {
      logBuffer == Tail(Join(lines))
    }

    ghost function Outputs(): Thermal
      reads this`heaterState, this`fanState
    {
      Thermal(heaterState, fanState)
    }

    /** The globals' initial values and setup(): every relay pin written LOW
        (open on this board), every output off, the pump timer and the minute
        gate started from the two clock readings `timerNow` and `logNow`, and
        the two start-up lines; the pump starts in its rest phase with all of
        it to go. `apIp` is the access point's address as text. */
    constructor (timerNow: U32, logNow: U32, apIp: string)
      ensures Valid()
      ensures !heaterState && !fanState && !ledState && !pumpState
      ensures pumpTimer == timerNow && lastPumpRemainLog == logNow && lastSensorLog == 0 && lastStatusLog == 0
      ensures RemainMs(pumpState, pumpTimer, timerNow) == PUMP_OFF_TIME
      ensures lines == ["System start", "AP IP : " + apIp]
      ensures events == []
      ensures writes == [PinWrite(Heater, Low), PinWrite(Fan, Low), PinWrite(Led, Low), PinWrite(Pump, Low)]
    {
      heaterState, fanState, ledState, pumpState := false, false, false, false;
      lastSensorLog, lastStatusLog := 0, 0;
      logBuffer, lines, events := "", [], [];
      writes := [PinWrite(Heater, Low), PinWrite(Fan, Low), PinWrite(Led, Low), PinWrite(Pump, Low)];
      pumpTimer := timerNow;
      lastPumpRemainLog := logNow;
      new;
      FreshPhase(false, timerNow);
      AppendLog("System start");
      AppendLog("AP IP : " + apIp);
    }

    /** appendLog: add the line and its newline, then drop characters from the
        front until at most `LOG_LIMIT` remain. The new buffer is the tail of
        the log with `s` added (Valid); AppendTrims shows that this is what
        trimming the old buffer plus `s` gives. */
    method AppendLog(s: string)
      requires Valid()
      modifies this`logBuffer, this`lines
      ensures Valid()
      ensures lines == old(lines) + [s]
      ensures logBuffer == Tail(old(logBuffer) + s + "\n")
    {
      ghost var line := s + "\n";
      logBuffer := logBuffer + s;
      logBuffer := logBuffer + "\n";
      assert logBuffer == old(logBuffer) + line;
      if |logBuffer| > LOG_LIMIT {
        logBuffer := logBuffer[|logBuffer| - LOG_LIMIT..];
      }
      assert logBuffer == Tail(old(logBuffer) + line);
      AppendTrims(old(logBuffer), lines, s);
      lines := lines + [s];
    }

    /** A control line: logged as text and recorded as an event. */
    method Log(stamp: string, e: Event)
      requires Valid()
      modifies this`logBuffer, this`lines, this`events
      ensures Valid()
      ensures lines == old(lines) + [Line(stamp, e)]
      ensures events == old(events) + [e]
    {
      AppendLog(Line(stamp, e));
      events := events + [e];
    }

    /** handlePump at `now`: flip the phase once it has run its length, and
        otherwise log the remaining time at most once a minute. */
    method HandlePump(now: U32, stamp: string)
      requires Valid()
      modifies this`pumpState, this`pumpTimer, this`lastPumpRemainLog,
        this`logBuffer, this`lines, this`events, this`writes
      ensures Valid()
      ensures events == old(events) + PumpEvents(old(pumpState), old(pumpTimer), old(lastPumpRemainLog), now)
      ensures lines == old(lines) + Texts(stamp, PumpEvents(old(pumpState), old(pumpTimer), old(lastPumpRemainLog), now))
      ensures PhaseOver(old(pumpState), old(pumpTimer), now) ==>
        pumpState == !old(pumpState) && pumpTimer == now && lastPumpRemainLog == now &&
        writes == old(writes) + [PinWrite(Pump, PinLevel(POLARITY, pumpState))] &&
        RemainMs(pumpState, pumpTimer, now) == PhaseLength(pumpState)
      ensures !PhaseOver(old(pumpState), old(pumpTimer), now) ==>
        pumpState == old(pumpState) && pumpTimer == old(pumpTimer) && writes == old(writes) &&
        lastPumpRemainLog == (if RemainLogDue(old(lastPumpRemainLog), now) then now else old(lastPumpRemainLog))
    {
      var nowMs := now;
      var targetTime: nat;
      if pumpState {
        targetTime := PUMP_ON_TIME;
        if Sub(nowMs, pumpTimer) >= targetTime {
          SwitchPump(false, nowMs, stamp);
          FreshPhase(false, nowMs);
          return;
        }
      } else {
        targetTime := PUMP_OFF_TIME;
        if Sub(nowMs, pumpTimer) >= targetTime {
          SwitchPump(true, nowMs, stamp);
          FreshPhase(true, nowMs);
          return;
        }
      }
      LogRemain(nowMs, targetTime, stamp);
    }

    /** A phase change of handlePump: the new phase starts at `nowMs`, with
        its pin write and its line, and the minute gate restarts. */
    method SwitchPump(on: bool, nowMs: U32, stamp: string)
      requires Valid()
      modifies this`pumpState, this`pumpTimer, this`lastPumpRemainLog,
        this`logBuffer, this`lines, this`events, this`writes
      ensures Valid()
      ensures pumpState == on && pumpTimer == nowMs && lastPumpRemainLog == nowMs
      ensures writes == old(writes) + [PinWrite(Pump, PinLevel(POLARITY, on))]
      ensures events == old(events) + [Switched(Pump, on)]
      ensures lines == old(lines) + [Line(stamp, Switched(Pump, on))]
    {
      pumpState := on;
      pumpTimer := nowMs;
      writes := writes + [PinWrite(Pump, PinLevel(POLARITY, on))];
      Log(stamp, Switched(Pump, on));
      lastPumpRemainLog := nowMs;
    }

    /** The end of handlePump within a phase: once the minute gate is open,
        log the time left (always some, since the phase is not over) and
        restart the gate. */
    method LogRemain(nowMs: U32, targetTime: nat, stamp: string)
      requires Valid()
      requires targetTime == PhaseLength(pumpState) && !PhaseOver(pumpState, pumpTimer, nowMs)
      modifies this`lastPumpRemainLog, this`logBuffer, this`lines, this`events
      ensures Valid()
      ensures events == old(events) + PumpEvents(pumpState, pumpTimer, old(lastPumpRemainLog), nowMs)
      ensures lines == old(lines) + Texts(stamp, PumpEvents(pumpState, pumpTimer, old(lastPumpRemainLog), nowMs))
      ensures lastPumpRemainLog == (if RemainLogDue(old(lastPumpRemainLog), nowMs) then nowMs else old(lastPumpRemainLog))
    {
      if Sub(nowMs, lastPumpRemainLog) >= PUMP_REMAIN_LOG_INTERVAL {
        var elapsed := Sub(nowMs, pumpTimer);
        if elapsed < targetTime {
          var e := PumpRemain(targetTime - elapsed);
          assert PumpEvents(pumpState, pumpTimer, lastPumpRemainLog, nowMs) == [e];
          assert Texts(stamp, [e]) == [Line(stamp, e)];
          Log(stamp, e);
        }
        lastPumpRemainLog := nowMs;
      } else {
        assert PumpEvents(pumpState, pumpTimer, old(lastPumpRemainLog), nowMs) == [];
      }
    }

    /** handleLED at the clock's `hour`:`minute`: follow the light window,
        switching and logging only on a change. */
    method HandleLED(hour: nat, minute: nat, stamp: string)
      requires Valid()
      modifies this`ledState, this`logBuffer, this`lines, this`events, this`writes
      ensures Valid()
      ensures ledState == LightOn(hour, minute)
      ensures events == old(events) + (if ledState != old(ledState) then [Switched(Led, ledState)] else [])
      ensures writes == old(writes) + (if ledState != old(ledState) then [PinWrite(Led, PinLevel(POLARITY, ledState))] else [])
      ensures lines == old(lines) + Texts(stamp, events[|old(events)|..])
    {
      var curMin := hour * 60 + minute;
      var onMin := 5 * 60 + 30;
      var offMin := 22 * 60 + 30;
      var newState := curMin >= onMin && curMin < offMin;
      if newState != ledState {
        SetLed(newState, stamp);
      }
      assert events[|old(events)|..] == if ledState != old(ledState) then [Switched(Led, ledState)] else [];
    }

    /** Polling handleLED twice at the same clock reading: the second call
        changes nothing and logs nothing. */
    method HandleLEDTwice(hour: nat, minute: nat, stamp: string)
      requires Valid()
      modifies this`ledState, this`logBuffer, this`lines, this`events, this`writes
      ensures Valid()
      ensures ledState == LightOn(hour, minute)
      ensures events == old(events) + (if ledState != old(ledState) then [Switched(Led, ledState)] else [])
      ensures writes == old(writes) + (if ledState != old(ledState) then [PinWrite(Led, PinLevel(POLARITY, ledState))] else [])
      ensures lines == old(lines) + Texts(stamp, events[|old(events)|..])
    {
      HandleLED(hour, minute, stamp);
      ghost var afterFirst, eventsFirst, writesFirst := lines, events, writes;
      HandleLED(hour, minute, stamp);
      assert events == eventsFirst && writes == writesFirst && lines == afterFirst;
    }

    /** handleWaterControl(waterTemp): the fail-safe, then the hysteresis,
        then one pin write and relay line per output that changed, the
        heater first. Heater and fan are never left both on. */
    method HandleWaterControl(waterTemp: real, stamp: string)
      requires Valid()
      modifies this`heaterState, this`fanState, this`logBuffer, this`lines, this`events, this`writes
      ensures Valid()
      ensures Outputs() == WaterStep(old(Outputs()), waterTemp)
      ensures !(heaterState && fanState)
      ensures events == old(events) + WaterEvents(old(Outputs()), waterTemp)
      ensures lines == old(lines) + Texts(stamp, WaterEvents(old(Outputs()), waterTemp))
      ensures writes == old(writes) + WaterWrites(POLARITY, old(Outputs()), waterTemp)
    {
      var newHeater := heaterState;
      var newFan := fanState;
      if waterTemp == DEVICE_DISCONNECTED_C || waterTemp < 0.0 || waterTemp > 50.0 {
        if heaterState || fanState {
          FailSafe(stamp);
        }
        return;
      }

      if !heaterState && waterTemp <= HEATER_ON {
        newHeater := true;
        newFan := false;
      } else if heaterState && waterTemp >= HEATER_OFF {
        newHeater := false;
      }
      if !fanState && waterTemp >= FAN_ON {
        newFan := true;
        newHeater := false;
      } else if fanState && waterTemp <= FAN_OFF {
        newFan := false;
      }
      assert Thermal(newHeater, newFan) == WaterStep(old(Outputs()), waterTemp);
      ApplyOutputs(newHeater, newFan, stamp);
    }

    /** The end of handleWaterControl: write and log each output whose new
        value differs from the current one, the heater first. */
    method ApplyOutputs(newHeater: bool, newFan: bool, stamp: string)
      requires Valid()
      modifies this`heaterState, this`fanState, this`logBuffer, this`lines, this`events, this`writes
      ensures Valid()
      ensures Outputs() == Thermal(newHeater, newFan)
      ensures events == old(events) + Changes(old(Outputs()), Outputs())
      ensures lines == old(lines) + Texts(stamp, Changes(old(Outputs()), Outputs()))
      ensures writes == old(writes) + ChangeWrites(POLARITY, old(Outputs()), Outputs())
    {
      ghost var heaterEvents: seq<Event> := [];
      ghost var heaterWrites: seq<PinWrite> := [];
      if newHeater != heaterState {
        SetHeater(newHeater, stamp);
        heaterEvents := [Switched(Heater, newHeater)];
        heaterWrites := [PinWrite(Heater, PinLevel(POLARITY, newHeater))];
        assert Texts(stamp, heaterEvents) == [Line(stamp, Switched(Heater, newHeater))];
      }
      ghost var fanEvents: seq<Event> := [];
      ghost var fanWrites: seq<PinWrite> := [];
      if newFan != fanState {
        SetFan(newFan, stamp);
        fanEvents := [Switched(Fan, newFan)];
        fanWrites := [PinWrite(Fan, PinLevel(POLARITY, newFan))];
        assert Texts(stamp, fanEvents) == [Line(stamp, Switched(Fan, newFan))];
      }
      assert Changes(old(Outputs()), Outputs()) == heaterEvents + fanEvents;
      assert ChangeWrites(POLARITY, old(Outputs()), Outputs()) == heaterWrites + fanWrites;
      TextsAppend(stamp, heaterEvents, fanEvents);
    }

    /** The fail-safe of handleWaterControl: both outputs off, both pins
        written, one line. */
    method FailSafe(stamp: string)
      requires Valid()
      modifies this`heaterState, this`fanState, this`logBuffer, this`lines, this`events, this`writes
      ensures Valid()
      ensures !heaterState && !fanState
      ensures writes == old(writes) + [PinWrite(Heater, PinLevel(POLARITY, false)), PinWrite(Fan, PinLevel(POLARITY, false))]
      ensures events == old(events) + [WaterAbnormal]
      ensures lines == old(lines) + [Line(stamp, WaterAbnormal)]
    {
      heaterState := false;
      fanState := false;
      writes := writes + [PinWrite(Heater, PinLevel(POLARITY, false)), PinWrite(Fan, PinLevel(POLARITY, false))];
      Log(stamp, WaterAbnormal);
    }

    /** Switching the heater: its state, its pin and logRelay's line. */
    method SetHeater(on: bool, stamp: string)
      requires Valid()
      modifies this`heaterState, this`logBuffer, this`lines, this`events, this`writes
      ensures Valid()
      ensures heaterState == on
      ensures writes == old(writes) + [PinWrite(Heater, PinLevel(POLARITY, on))]
      ensures events == old(events) + [Switched(Heater, on)]
      ensures lines == old(lines) + [Line(stamp, Switched(Heater, on))]
    {
      heaterState := on;
      writes := writes + [PinWrite(Heater, PinLevel(POLARITY, on))];
      Log(stamp, Switched(Heater, on));
    }

    /** Switching the fan: its state, its pin and logRelay's line. */
    method SetFan(on: bool, stamp: string)
      requires Valid()
      modifies this`fanState, this`logBuffer, this`lines, this`events, this`writes
      ensures Valid()
      ensures fanState == on
      ensures writes == old(writes) + [PinWrite(Fan, PinLevel(POLARITY, on))]
      ensures events == old(events) + [Switched(Fan, on)]
      ensures lines == old(lines) + [Line(stamp, Switched(Fan, on))]
    {
      fanState := on;
      writes := writes + [PinWrite(Fan, PinLevel(POLARITY, on))];
      Log(stamp, Switched(Fan, on));
    }

    /** Switching the light: its state, its pin and logRelay's line. */
    method SetLed(on: bool, stamp: string)
      requires Valid()
      modifies this`ledState, this`logBuffer, this`lines, this`events, this`writes
      ensures Valid()
      ensures ledState == on
      ensures writes == old(writes) + [PinWrite(Led, PinLevel(POLARITY, on))]
      ensures events == old(events) + [Switched(Led, on)]
      ensures lines == old(lines) + [Line(stamp, Switched(Led, on))]
    {
      ledState := on;
      writes := writes + [PinWrite(Led, PinLevel(POLARITY, on))];
      Log(stamp, Switched(Led, on));
    }

    /** handleSensorLog at `now`: at most every 5 seconds, log the readings
        and run handleWaterControl on the water temperature. */
    method HandleSensorLog(now: U32, waterTemp: real, stamp: string, dhtLine: string, waterLine: string)
      requires Valid()
      modifies this`lastSensorLog, this`heaterState, this`fanState,
        this`logBuffer, this`lines, this`events, this`writes
      ensures Valid()
      ensures !SensorDue(old(lastSensorLog), now) ==>
        lastSensorLog == old(lastSensorLog) && Outputs() == old(Outputs()) &&
        lines == old(lines) && events == old(events) && writes == old(writes)
      ensures SensorDue(old(lastSensorLog), now) ==>
        lastSensorLog == now &&
        Outputs() == WaterStep(old(Outputs()), waterTemp) &&
        events == old(events) + WaterEvents(old(Outputs()), waterTemp) &&
        writes == old(writes) + WaterWrites(POLARITY, old(Outputs()), waterTemp) &&
        lines == old(lines) + SensorLines(stamp, dhtLine, waterTemp, waterLine) +
                 Texts(stamp, WaterEvents(old(Outputs()), waterTemp))
    {
      var nowMs := now;
      if Sub(nowMs, lastSensorLog) < SENSOR_LOG_INTERVAL {
        return;
      }
      lastSensorLog := nowMs;
      LogReadings(stamp, dhtLine, waterTemp, waterLine);
      HandleWaterControl(waterTemp, stamp);
    }


    /** handleStatusLine at `now`: at most every 5 seconds, log one status
        line. Its time left is getPumpRemainMs at `remainNow`, the clock
        reading that call makes itself; `readings` is the text of the last
        sensor values. */
    method HandleStatusLine(now: U32, remainNow: U32, stamp: string, readings: string)
      requires Valid()
      modifies this`lastStatusLog, this`logBuffer, this`lines
      ensures Valid()
      ensures !StatusDue(old(lastStatusLog), now) ==> lastStatusLog == old(lastStatusLog) && lines == old(lines)
      ensures StatusDue(old(lastStatusLog), now) ==>
        lastStatusLog == now &&
        lines == old(lines) + [StatusText(stamp, readings, RemainMs(pumpState, pumpTimer, remainNow),
                                          heaterState, fanState, ledState, pumpState)]
    {
      var nowMs := now;
      if Sub(nowMs, lastStatusLog) < STATUS_LOG_INTERVAL {
        return;
      }
      lastStatusLog := nowMs;
      var remain := RemainMs(pumpState, pumpTimer, remainNow);
      AppendLog(StatusText(stamp, readings, remain, heaterState, fanState, ledState, pumpState));
    }

    /** The reading lines of handleSensorLog: the separator, the time, the
        DHT11 line and the DS18B20 line, or its failure line when the sensor
        is disconnected. */
    method LogReadings(stamp: string, dhtLine: string, waterTemp: real, waterLine: string)
      requires Valid()
      modifies this`logBuffer, this`lines
      ensures Valid()
      ensures lines == old(lines) + SensorLines(stamp, dhtLine, waterTemp, waterLine)
    {
      LogHeader(stamp);
      LogSensors(dhtLine, waterTemp, waterLine);
    }

    /** The separator and the time line that open a reading. */
    method LogHeader(stamp: string)
      requires Valid()
      modifies this`logBuffer, this`lines
      ensures Valid()
      ensures lines == old(lines) + ["----------------------------------", "[" + stamp + "]"]
    {
      AppendLog("----------------------------------");
      AppendLog("[" + stamp + "]");
    }

    /** The DHT11 line, then the DS18B20 line or its failure line. */
    method LogSensors(dhtLine: string, waterTemp: real, waterLine: string)
      requires Valid()
      modifies this`logBuffer, this`lines
      ensures Valid()
      ensures lines == old(lines) + [dhtLine, if waterTemp == DEVICE_DISCONNECTED_C then "[DS18B20] read fail" else waterLine]
    {
      AppendLog(dhtLine);
      if waterTemp == DEVICE_DISCONNECTED_C {
        AppendLog("[DS18B20] read fail");
      } else {
        AppendLog(waterLine);
      }
    }
  }
}
