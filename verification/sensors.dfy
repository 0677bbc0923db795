/**
 * The sensor pipeline (src/SensorManager.cpp): a light level averaged over a ten-slot circular
 * buffer, a USB-power detector and a debounced pill-box switch, each read on its own interval.
 *
 * The hardware readings are arguments: `raw` light and USB values are the analogRead results,
 * the pill-box value is `digitalRead(...) == HIGH` (true = open). millis() is `now`. The three
 * callbacks are flags saying whether one is installed, and each call is recorded in order.
 */
module Sensors {
  import opened Common
  import opened Config

  /**
   * C's `/` on int: the quotient truncated toward zero, so the remainder takes the sign of the
   * dividend and is smaller than the divisor in magnitude.
   */
  function CDiv(a: int, b: int): (q: int)
    requires b > 0
    ensures a >= 0 ==> 0 <= a - q * b < b
    ensures a < 0 ==> -b < a - q * b <= 0
  {
    if a >= 0 then a / b else -((-a) / b)
  }

  function Abs(x: int): int {
    if x < 0 then -x else x
  }

  function Sum(s: seq<int>): int {
    if s == [] then 0 else Sum(s[..|s| - 1]) + s[|s| - 1]
  }

  /** Overwriting one slot changes the sum by the difference. */
  lemma {:induction false} SumUpdate(s: seq<int>, i: nat, v: int)
    requires i < |s|
    ensures Sum(s[i := v]) == Sum(s) - s[i] + v
  {
    var t := s[i := v];
    if i < |s| - 1 {
      assert t[..|t| - 1] == s[..|s| - 1][i := v];
      SumUpdate(s[..|s| - 1], i, v);
    } else {
      assert t[..|t| - 1] == s[..|s| - 1];
    }
  }

  /** The sum of n copies of v. */
  lemma {:induction false} SumOfCopies(v: int, n: nat)
    ensures Sum(seq(n, _ => v)) == n * v
  {
    if n > 0 {
      var s := seq(n, _ => v);
      assert s[..n - 1] == seq(n - 1, _ => v);
      SumOfCopies(v, n - 1);
    }
  }

  // ---------------------------------------------------------------------------------------
  // Light level

  /** The light-filter fields: the buffer, next slot, running total, published level, first-read flag. */
  datatype Light = Light(readings: seq<int>, index: int, total: int, level: int, initialized: bool)

  predicate LightValid(l: Light) {
    |l.readings| == LightSamples && 0 <= l.index < LightSamples
  }

  /** The running total equals the sum of the buffer. */
  predicate Consistent(l: Light) {
    l.total == Sum(l.readings)
  }

  const LightChangeThreshold: int := 50

  /** Whether a new mean is published: on the first reading, or when it moved by more than 50. */
  predicate Publishes(l: Light, mean: int) {
    !l.initialized || Abs(mean - l.level) > LightChangeThreshold
  }

  /** The buffer half of readLightSensor: the reading replaces the oldest slot, which advances. */
  function PushReading(l: Light, raw: int): (r: Light)
    requires LightValid(l)
  {
    l.(readings := l.readings[l.index := raw], index := (l.index + 1) % LightSamples,
       total := l.total - l.readings[l.index] + raw)
  }

  /** readLightSensor: push the reading, then publish the mean if it moved enough. */
  function ReadLight(l: Light, raw: int): (r: Light)
    requires LightValid(l)
  {
    var pushed := PushReading(l, raw);
    var mean := CDiv(pushed.total, LightSamples);
    pushed.(level := if Publishes(l, mean) then mean else l.level, initialized := true)
  }

  /** The bedtime callback's condition: the published level went from light to dark. */
  predicate FallsDark(before: int, after: int) {
    before >= BedtimeLightThreshold && after < BedtimeLightThreshold
  }

  /**
   * A reading overwrites exactly the current slot, advances the slot modulo ten, and keeps the
   * difference between the running total and the buffer's sum, so a consistent total stays
   * consistent. The published level moves only to the new mean, and only on the first reading
   * or a change of more than 50.
   */
  lemma ReadLightTracksBuffer(l: Light, raw: int)
    requires LightValid(l)
    ensures
      var r := ReadLight(l, raw);
      && LightValid(r)
      && r.readings == l.readings[l.index := raw]
      && r.index == (l.index + 1) % LightSamples
      && r.total - Sum(r.readings) == l.total - Sum(l.readings)
      && (Consistent(l) ==> Consistent(r) && r.total == Sum(r.readings))
      && r.initialized
      && (r.level != l.level ==>
            r.level == CDiv(r.total, LightSamples)
            && (!l.initialized || Abs(r.level - l.level) > LightChangeThreshold))
      && (!l.initialized ==> r.level == CDiv(r.total, LightSamples))
      && (l.initialized && Abs(CDiv(r.total, LightSamples) - l.level) > LightChangeThreshold ==>
            r.level == CDiv(r.total, LightSamples))
      && (l.initialized && Abs(CDiv(r.total, LightSamples) - l.level) <= LightChangeThreshold ==>
            r.level == l.level)
  {
    SumUpdate(l.readings, l.index, raw);
  }

  /** initializeLightSamples: fill the buffer, adding each sample to the total, then publish the mean. */
  function InitializeLight(l: Light, samples: seq<int>): (r: Light)
    requires |samples| == LightSamples
  {
    var total := l.total + Sum(samples);
    Light(samples, l.index, total, CDiv(total, LightSamples), l.initialized)
  }

  /** calibrateLightSensor: reset total, slot and first-read flag, then refill. */
  function CalibrateLight(l: Light, samples: seq<int>): (r: Light)
    requires |samples| == LightSamples
  {
    InitializeLight(l.(total := 0, index := 0, initialized := false), samples)
  }

  /**
   * Filling from a zero total gives a consistent total and publishes the mean of the samples;
   * ten identical readings v publish exactly v. Calibration always starts from zero.
   */
  lemma InitializeFromZero(l: Light, samples: seq<int>, v: int)
    requires |samples| == LightSamples
    ensures l.total == 0 ==>
      Consistent(InitializeLight(l, samples))
      && InitializeLight(l, samples).level == CDiv(Sum(samples), LightSamples)
    ensures Consistent(CalibrateLight(l, samples)) && CalibrateLight(l, samples).index == 0
    ensures !CalibrateLight(l, samples).initialized
    ensures samples == seq(LightSamples, _ => v) ==> CalibrateLight(l, samples).level == v
  {
    SumOfCopies(v, LightSamples);
  }

  /**
   * Filling keeps the total's difference from the buffer's sum only when it was zero: filling
   * twice from a fresh state (begin called twice) counts the first samples twice.
   */
  lemma InitializeTwiceDoublesTotal(l: Light, samples: seq<int>)
    requires |samples| == LightSamples && l.total == 0
    ensures InitializeLight(InitializeLight(l, samples), samples).total == 2 * Sum(samples)
    ensures Sum(samples) != 0 ==> !Consistent(InitializeLight(InitializeLight(l, samples), samples))
  {
  }

  // ---------------------------------------------------------------------------------------
  // Pill-box debounce

  /** The debounce fields: last raw value, when it last changed, committed and previous state. */
  datatype PillBox = PillBox(rawState: bool, debounceTime: Millis, current: bool, previous: bool)

  /** readPillBoxState: restart the timer on a raw change; commit a raw value stable for 50 ms. */
  function DebounceStep(d: PillBox, now: Millis, raw: bool): (r: PillBox)
  {
    var seen := if raw != d.rawState then d.(debounceTime := now, rawState := raw) else d;
    if Elapsed(now, seen.debounceTime) >= PillBoxDebounceMs && seen.rawState != seen.current then
      seen.(previous := seen.current, current := seen.rawState)
    else seen
  }

  /** A debounce step commits when it changes the committed state. */
  predicate Commits(d: PillBox, now: Millis, raw: bool) {
    DebounceStep(d, now, raw).current != d.current
  }

  /**
   * The debounce: a raw change restarts the timer and never commits in the same call; the
   * committed state only ever takes the raw value, and only after it has been stable for
   * PILL_BOX_DEBOUNCE_MS; a commit remembers the old committed value as the previous one.
   */
  lemma Debounce(d: PillBox, now: Millis, raw: bool)
    ensures
      var r := DebounceStep(d, now, raw);
      && r.rawState == raw
      && (raw != d.rawState ==> r.debounceTime == now && !Commits(d, now, raw))
      && (raw == d.rawState ==> r.debounceTime == d.debounceTime)
      && (Commits(d, now, raw) <==>
            raw == d.rawState && raw != d.current && Elapsed(now, d.debounceTime) >= PillBoxDebounceMs)
      && (Commits(d, now, raw) ==> r.current == raw && r.previous == d.current)
      && (!Commits(d, now, raw) ==> r.current == d.current && r.previous == d.previous)
  {
    assert Elapsed(now, now) == 0;
  }

  /**
   * A bounce shorter than the debounce window never commits: if the switch is settled (the raw
   * value equals the committed one, or the timer was restarted inside the window), then any raw
   * values at all, read at non-decreasing times inside one 50 ms window, leave the committed and
   * previous states as they were.
   */
  lemma {:induction false} BouncesDoNotCommit(d: PillBox, t0: Millis, times: seq<Millis>, raws: seq<bool>)
    requires |times| == |raws|
    requires t0 + PillBoxDebounceMs < 0x1_0000_0000
    requires forall i :: 0 <= i < |times| ==> t0 <= times[i] < t0 + PillBoxDebounceMs
    requires forall i, j :: 0 <= i <= j < |times| ==> times[i] <= times[j]
    requires d.rawState == d.current
          || (t0 <= d.debounceTime && forall i :: 0 <= i < |times| ==> d.debounceTime <= times[i])
    ensures DebounceRun(d, times, raws).current == d.current
    ensures DebounceRun(d, times, raws).previous == d.previous
    decreases |times|
  {
    if times != [] {
      var next := DebounceStep(d, times[0], raws[0]);
      if raws[0] != d.rawState {
        assert Elapsed(times[0], times[0]) == 0;
        assert next.debounceTime == times[0];
      } else if d.rawState != d.current {
        assert Elapsed(times[0], d.debounceTime) == times[0] - d.debounceTime;
        assert next == d;
      }
      BouncesDoNotCommit(next, t0, times[1..], raws[1..]);
    }
  }

  /** Repeated debounce steps at the given times with the given raw values. */
  function DebounceRun(d: PillBox, times: seq<Millis>, raws: seq<bool>): PillBox
    requires |times| == |raws|
    decreases |times|
  {
    if times == [] then d else DebounceRun(DebounceStep(d, times[0], raws[0]), times[1..], raws[1..])
  }

  /** Whether a read is due: its interval has elapsed since it was last taken. */
  predicate Due(now: Millis, last: Millis, interval: nat) {
    Elapsed(now, last) >= interval
  }

  // ---------------------------------------------------------------------------------------
  // The whole manager, as a value

  /** The callbacks installed, and the argument of every call made to each, oldest first. */
  datatype Reports = Reports(hasBedtime: bool, hasUsb: bool, hasPillBox: bool,
                             bedtime: seq<bool>, usb: seq<bool>, pillBox: seq<bool>)

  /** The three sensors, when each was last read, and the callbacks. */
  datatype SensorState = SensorState(light: Light, usb: bool, pillBox: PillBox,
                                     lastLight: Millis, lastUsb: Millis, lastPillBox: Millis,
                                     reports: Reports)

  /** readLightSensor on the whole state: the bedtime callback hears a fall from light to dark. */
  function ReadLightStep(s: SensorState, raw: int): (r: SensorState)
    requires LightValid(s.light)
  {
    var light := ReadLight(s.light, raw);
    var call := s.reports.hasBedtime && FallsDark(s.light.level, light.level);
    s.(light := light,
       reports := s.reports.(bedtime := s.reports.bedtime + if call then [true] else []))
  }

  /** readUsbState on the whole state: the USB callback hears every change of the powered state. */
  function ReadUsbStep(s: SensorState, raw: int): (r: SensorState)
  {
    var powered := raw > UsbVoltageThreshold;
    var call := s.reports.hasUsb && powered != s.usb;
    s.(usb := powered, reports := s.reports.(usb := s.reports.usb + if call then [powered] else []))
  }

  /** readPillBoxState on the whole state: the pill-box callback hears every commit. */
  function ReadPillBoxStep(s: SensorState, now: Millis, raw: bool): (r: SensorState)
  {
    var pillBox := DebounceStep(s.pillBox, now, raw);
    var call := s.reports.hasPillBox && pillBox.current != s.pillBox.current;
    s.(pillBox := pillBox,
       reports := s.reports.(pillBox := s.reports.pillBox + if call then [pillBox.current] else []))
  }

  /** update: each sensor whose interval has elapsed is read, and its read time becomes `now`. */
  function UpdateStep(s: SensorState, now: Millis, lightRaw: int, usbRaw: int, pillBoxRaw: bool): (r: SensorState)
    requires LightValid(s.light)
  {
    var s1 := if Due(now, s.lastLight, LightSensorIntervalMs)
      then ReadLightStep(s, lightRaw).(lastLight := now) else s;
    var s2 := if Due(now, s1.lastUsb, UsbDetectIntervalMs)
      then ReadUsbStep(s1, usbRaw).(lastUsb := now) else s1;
    if Due(now, s2.lastPillBox, PillBoxCheckIntervalMs)
      then ReadPillBoxStep(s2, now, pillBoxRaw).(lastPillBox := now) else s2
  }

  /** begin: fill the light buffer, then one reading of each sensor, leaving the read times. */
  function BeginStep(s: SensorState, samples: seq<int>, lightRaw: int, usbRaw: int, pillBoxRaw: bool,
                     now: Millis): (r: SensorState)
    requires |samples| == LightSamples && 0 <= s.light.index < LightSamples
  {
    var filled := s.(light := InitializeLight(s.light, samples));
    ReadPillBoxStep(ReadUsbStep(ReadLightStep(filled, lightRaw), usbRaw), now, pillBoxRaw)
  }

  /**
   * A light reading changes only the light fields and the bedtime calls. The callback is
   * called, with true, exactly when one is installed and the published level falls from at or
   * above the bedtime threshold to below it, which needs a published change of level.
   */
  lemma ReadLightReportsBedtime(s: SensorState, raw: int)
    requires LightValid(s.light)
    ensures
      var r := ReadLightStep(s, raw);
      && r.light == ReadLight(s.light, raw)
      && r.(light := s.light, reports := s.reports) == s
      && r.reports.(bedtime := s.reports.bedtime) == s.reports
      && (r.reports.bedtime == s.reports.bedtime + [true] || r.reports.bedtime == s.reports.bedtime)
      && (r.reports.bedtime != s.reports.bedtime <==>
            s.reports.hasBedtime && s.light.level >= BedtimeLightThreshold
            && r.light.level < BedtimeLightThreshold)
      && (r.reports.bedtime != s.reports.bedtime ==> r.light.level != s.light.level)
  {
    var r := ReadLightStep(s, raw);
    if r.reports.bedtime != s.reports.bedtime {
      assert |r.reports.bedtime| == |s.reports.bedtime| + 1;
    }
  }

  /**
   * A USB reading changes only the USB state and the USB calls: the state is "powered" exactly
   * when the reading exceeds the threshold, and the callback hears the new state exactly when
   * one is installed and the state changed. Reading the same value again reports nothing.
   */
  lemma ReadUsbReportsChanges(s: SensorState, raw: int)
    ensures
      var r := ReadUsbStep(s, raw);
      && (r.usb <==> raw > UsbVoltageThreshold)
      && r.(usb := s.usb, reports := s.reports) == s
      && r.reports.(usb := s.reports.usb) == s.reports
      && (r.reports.usb == s.reports.usb + [r.usb] || r.reports.usb == s.reports.usb)
      && (r.reports.usb != s.reports.usb <==> s.reports.hasUsb && r.usb != s.usb)
      && ReadUsbStep(r, raw) == r
  {
    var r := ReadUsbStep(s, raw);
    if r.reports.usb != s.reports.usb {
      assert |r.reports.usb| == |s.reports.usb| + 1;
    }
  }

  /**
   * A pill-box reading changes only the debounce fields and the pill-box calls. The callback
   * hears the raw value exactly when one is installed and the reading commits: the value had
   * already been seen, differs from the committed state, and has been stable for 50 ms.
   */
  lemma ReadPillBoxReportsCommits(s: SensorState, now: Millis, raw: bool)
    ensures
      var r := ReadPillBoxStep(s, now, raw);
      && r.pillBox == DebounceStep(s.pillBox, now, raw)
      && r.(pillBox := s.pillBox, reports := s.reports) == s
      && r.reports.(pillBox := s.reports.pillBox) == s.reports
      && (r.reports.pillBox == s.reports.pillBox + [raw] || r.reports.pillBox == s.reports.pillBox)
      && (r.reports.pillBox != s.reports.pillBox <==>
            s.reports.hasPillBox && raw == s.pillBox.rawState && raw != s.pillBox.current
            && Elapsed(now, s.pillBox.debounceTime) >= PillBoxDebounceMs)
  {
    Debounce(s.pillBox, now, raw);
    var r := ReadPillBoxStep(s, now, raw);
    if r.reports.pillBox != s.reports.pillBox {
      assert |r.reports.pillBox| == |s.reports.pillBox| + 1;
    }
  }

  /**
   * update reads the light sensor exactly when 30000 ms have elapsed since its last read; the
   * read sets its read time to `now`, and when it is not due the light fields, its read time and
   * the bedtime calls are kept. The installed callbacks never change.
   */
  lemma UpdateReadsLightWhenDue(s: SensorState, now: Millis, lightRaw: int, usbRaw: int, pillBoxRaw: bool)
    requires LightValid(s.light)
    ensures
      var r := UpdateStep(s, now, lightRaw, usbRaw, pillBoxRaw);
      var due := Due(now, s.lastLight, LightSensorIntervalMs);
      && r.light == (if due then ReadLight(s.light, lightRaw) else s.light)
      && r.lastLight == (if due then now else s.lastLight)
      && (!due ==> r.reports.bedtime == s.reports.bedtime)
      && r.reports.hasBedtime == s.reports.hasBedtime && r.reports.hasUsb == s.reports.hasUsb
      && r.reports.hasPillBox == s.reports.hasPillBox
  {
  }

  /** update reads the USB level exactly when 5000 ms have elapsed since its last read. */
  lemma UpdateReadsUsbWhenDue(s: SensorState, now: Millis, lightRaw: int, usbRaw: int, pillBoxRaw: bool)
    requires LightValid(s.light)
    ensures
      var r := UpdateStep(s, now, lightRaw, usbRaw, pillBoxRaw);
      var due := Due(now, s.lastUsb, UsbDetectIntervalMs);
      && r.usb == (if due then usbRaw > UsbVoltageThreshold else s.usb)
      && r.lastUsb == (if due then now else s.lastUsb)
      && (!due ==> r.reports.usb == s.reports.usb)
  {
  }

  /** update reads the pill-box switch exactly when 100 ms have elapsed since its last read. */
  lemma UpdateReadsPillBoxWhenDue(s: SensorState, now: Millis, lightRaw: int, usbRaw: int, pillBoxRaw: bool)
    requires LightValid(s.light)
    ensures
      var r := UpdateStep(s, now, lightRaw, usbRaw, pillBoxRaw);
      var due := Due(now, s.lastPillBox, PillBoxCheckIntervalMs);
      && r.pillBox == (if due then DebounceStep(s.pillBox, now, pillBoxRaw) else s.pillBox)
      && r.lastPillBox == (if due then now else s.lastPillBox)
      && (!due ==> r.reports.pillBox == s.reports.pillBox)
  {
  }

  /** A second update in the same millisecond reads nothing: every sensor read has just become not due. */
  lemma UpdateTwiceSameTick(s: SensorState, now: Millis, lightRaw: int, usbRaw: int, pillBoxRaw: bool)
    requires LightValid(s.light)
    ensures
      var r := UpdateStep(s, now, lightRaw, usbRaw, pillBoxRaw);
      && LightValid(r.light)
      && UpdateStep(r, now, lightRaw, usbRaw, pillBoxRaw) == r
  {
    assert Elapsed(now, now) == 0;
    ReadLightTracksBuffer(s.light, lightRaw);
    UpdateReadsLightWhenDue(s, now, lightRaw, usbRaw, pillBoxRaw);
    UpdateReadsUsbWhenDue(s, now, lightRaw, usbRaw, pillBoxRaw);
    UpdateReadsPillBoxWhenDue(s, now, lightRaw, usbRaw, pillBoxRaw);
  }

  // ---------------------------------------------------------------------------------------
  // The manager

  class SensorManager {
    var currentLightLevel: int
    var currentUsbState: bool
    var currentPillBoxState: bool
    var previousPillBoxState: bool
    var lastLightRead: Millis
    var lastUsbRead: Millis
    var lastPillBoxRead: Millis
    var pillBoxDebounceTime: Millis
    var pillBoxRawState: bool
    var lightReadings: array<int>
    var lightReadIndex: int
    var lightTotal: int
    var lightSamplesInitialized: bool
    var hasBedtimeCallback: bool
    var hasUsbCallback: bool
    var hasPillBoxCallback: bool
    /** The arguments of every bedtime, USB and pill-box callback call, oldest first. */
    var bedtimeCalls: seq<bool>
    var usbCalls: seq<bool>
    var pillBoxCalls: seq<bool>

    ghost predicate Valid()
      reads this
    {
      lightReadings.Length == LightSamples && 0 <= lightReadIndex < LightSamples
    }

    /** The manager's fields as a value. */
    function State(): SensorState
      reads this, lightReadings
    {
      SensorState(
        Light(lightReadings[..], lightReadIndex, lightTotal, currentLightLevel, lightSamplesInitialized),
        currentUsbState,
        PillBox(pillBoxRawState, pillBoxDebounceTime, currentPillBoxState, previousPillBoxState),
        lastLightRead, lastUsbRead, lastPillBoxRead,
        Reports(hasBedtimeCallback, hasUsbCallback, hasPillBoxCallback, bedtimeCalls, usbCalls, pillBoxCalls))
    }

    constructor ()
      ensures Valid() && fresh(lightReadings)
      ensures State() == SensorState(Light(seq(LightSamples, _ => 0), 0, 0, 0, false), false,
        PillBox(false, 0, false, false), 0, 0, 0, Reports(false, false, false, [], [], []))
      ensures Consistent(State().light)
    {
      currentLightLevel := 0;
      currentUsbState := false;
      currentPillBoxState := false;
      previousPillBoxState := false;
      lastLightRead := 0;
      lastUsbRead := 0;
      lastPillBoxRead := 0;
      pillBoxDebounceTime := 0;
      pillBoxRawState := false;
      lightReadIndex := 0;
      lightTotal := 0;
      lightSamplesInitialized := false;
      lightReadings := new int[LightSamples](_ => 0);
      hasBedtimeCallback := false;
      hasUsbCallback := false;
      hasPillBoxCallback := false;
      bedtimeCalls := [];
      usbCalls := [];
      pillBoxCalls := [];
      new;
      SumOfCopies(0, LightSamples);
      assert lightReadings[..] == seq(LightSamples, _ => 0);
    }

    /** Install or remove the three callbacks. */
    method SetCallbacks(bedtime: bool, usb: bool, pillBox: bool)
      requires Valid()
      modifies this
      ensures State() == old(State()).(reports :=
        old(State().reports).(hasBedtime := bedtime, hasUsb := usb, hasPillBox := pillBox))
      ensures Valid() && lightReadings == old(lightReadings)
    {
      hasBedtimeCallback := bedtime;
      hasUsbCallback := usb;
      hasPillBoxCallback := pillBox;
    }

    /** The first half of readLightSensor: the total loses the old slot and gains the new reading. */
    method PushLightReading(raw: int)
      requires Valid()
      modifies this, lightReadings
      ensures State() == old(State()).(light := PushReading(old(State().light), raw))
      ensures Valid() && lightReadings == old(lightReadings)
    {
      ghost var before := State().light;
      lightTotal := lightTotal - lightReadings[lightReadIndex];
      lightReadings[lightReadIndex] := raw;
      lightTotal := lightTotal + lightReadings[lightReadIndex];
      lightReadIndex := (lightReadIndex + 1) % LightSamples;
      assert lightReadings[..] == before.readings[before.index := raw];
    }

    /** readLightSensor with the ADC value `raw`. */
    method ReadLightSensor(raw: int)
      requires Valid()
      modifies this, lightReadings
      ensures State() == ReadLightStep(old(State()), raw)
      ensures Valid() && lightReadings == old(lightReadings)
    {
      ghost var before := State();
      PushLightReading(raw);
      var newLightLevel := CDiv(lightTotal, LightSamples);
      if !lightSamplesInitialized || Abs(newLightLevel - currentLightLevel) > LightChangeThreshold {
        var wasDark := currentLightLevel < BedtimeLightThreshold;
        currentLightLevel := newLightLevel;
        var isDark := currentLightLevel < BedtimeLightThreshold;
        if !wasDark && isDark && hasBedtimeCallback {
          bedtimeCalls := bedtimeCalls + [true];
        }
      }
      lightSamplesInitialized := true;
      assert State().light == ReadLight(before.light, raw);
      assert State().reports == ReadLightStep(before, raw).reports;
    }

    /** readUsbState with the ADC value `raw`: powered above the threshold; report changes only. */
    method ReadUsbState(raw: int)
      requires Valid()
      modifies this
      ensures State() == ReadUsbStep(old(State()), raw)
      ensures Valid() && lightReadings == old(lightReadings)
    {
      var newUsbState := raw > UsbVoltageThreshold;
      if newUsbState != currentUsbState {
        currentUsbState := newUsbState;
        if hasUsbCallback {
          usbCalls := usbCalls + [currentUsbState];
        }
      }
    }

    /** readPillBoxState at `now`, with `rawOpen` the switch reading. */
    method ReadPillBoxState(now: Millis, rawOpen: bool)
      requires Valid()
      modifies this
      ensures State() == ReadPillBoxStep(old(State()), now, rawOpen)
      ensures Valid() && lightReadings == old(lightReadings)
    {
      ghost var before := State();
      if rawOpen != pillBoxRawState {
        pillBoxDebounceTime := now;
        pillBoxRawState := rawOpen;
      }
      ghost var seen := State().pillBox;
      assert seen == if rawOpen != before.pillBox.rawState
        then before.pillBox.(debounceTime := now, rawState := rawOpen) else before.pillBox;
      assert State() == before.(pillBox := seen);
      if Elapsed(now, pillBoxDebounceTime) >= PillBoxDebounceMs {
        if pillBoxRawState != currentPillBoxState {
          previousPillBoxState := currentPillBoxState;
          currentPillBoxState := pillBoxRawState;
          if hasPillBoxCallback {
            pillBoxCalls := pillBoxCalls + [currentPillBoxState];
          }
        }
      }
    }

    /** initializeLightSamples with the ten readings taken. */
    method InitializeLightSamples(samples: seq<int>)
      requires Valid() && |samples| == LightSamples
      modifies this, lightReadings
      ensures State() == old(State()).(light := InitializeLight(old(State().light), samples))
      ensures Valid() && lightReadings == old(lightReadings)
    {
      var total := lightTotal;
      for i := 0 to LightSamples
        modifies lightReadings
        invariant lightReadings[..i] == samples[..i]
        invariant total == old(lightTotal) + Sum(samples[..i])
      {
        lightReadings[i] := samples[i];
        total := total + lightReadings[i];
        assert samples[..i + 1][..i] == samples[..i];
      }
      assert lightReadings[..] == samples[..LightSamples] == samples;
      lightTotal := total;
      currentLightLevel := CDiv(lightTotal, LightSamples);
    }

    /** calibrateLightSensor with the ten readings taken. */
    method CalibrateLightSensor(samples: seq<int>)
      requires Valid() && |samples| == LightSamples
      modifies this, lightReadings
      ensures State() == old(State()).(light := CalibrateLight(old(State().light), samples))
      ensures Valid() && lightReadings == old(lightReadings)
    {
      lightTotal := 0;
      lightReadIndex := 0;
      lightSamplesInitialized := false;
      InitializeLightSamples(samples);
    }

    /**
     * getAverageLightLevel: the running total over ten once readings have started, which is the
     * buffer's truncated mean while the total is consistent; the published level before.
     */
    function GetAverageLightLevel(): (level: int)
      reads this, lightReadings
      ensures lightSamplesInitialized ==> level == CDiv(lightTotal, LightSamples)
      ensures lightSamplesInitialized && Consistent(State().light) ==>
        level == CDiv(Sum(lightReadings[..]), LightSamples)
      ensures !lightSamplesInitialized ==> level == currentLightLevel
    {
      if lightSamplesInitialized then CDiv(lightTotal, LightSamples) else currentLightLevel
    }

    /** update at `now`, with the reading each sensor would give if it is read. */
    method Update(now: Millis, lightRaw: int, usbRaw: int, pillBoxRawOpen: bool)
      requires Valid()
      modifies this, lightReadings
      ensures State() == UpdateStep(old(State()), now, lightRaw, usbRaw, pillBoxRawOpen)
      ensures Valid() && lightReadings == old(lightReadings)
    {
      ghost var s0 := State();
      if Elapsed(now, lastLightRead) >= LightSensorIntervalMs {
        ReadLightSensor(lightRaw);
        lastLightRead := now;
      }
      ghost var s1 := State();
      assert s1 == if Due(now, s0.lastLight, LightSensorIntervalMs)
        then ReadLightStep(s0, lightRaw).(lastLight := now) else s0;
      if Elapsed(now, lastUsbRead) >= UsbDetectIntervalMs {
        ReadUsbState(usbRaw);
        lastUsbRead := now;
      }
      ghost var s2 := State();
      assert s2 == if Due(now, s1.lastUsb, UsbDetectIntervalMs)
        then ReadUsbStep(s1, usbRaw).(lastUsb := now) else s1;
      if Elapsed(now, lastPillBoxRead) >= PillBoxCheckIntervalMs {
        ReadPillBoxState(now, pillBoxRawOpen);
        lastPillBoxRead := now;
      }
    }

    /** begin: fill the light buffer, then take one reading of each sensor. Always succeeds. */
    method Begin(samples: seq<int>, lightRaw: int, usbRaw: int, pillBoxRawOpen: bool, now: Millis) returns (ok: bool)
      requires Valid() && |samples| == LightSamples
      modifies this, lightReadings
      ensures State() == BeginStep(old(State()), samples, lightRaw, usbRaw, pillBoxRawOpen, now) && ok
      ensures Valid() && lightReadings == old(lightReadings)
    {
      InitializeLightSamples(samples);
      ReadLightSensor(lightRaw);
      ReadUsbState(usbRaw);
      ReadPillBoxState(now, pillBoxRawOpen);
      ok := true;
    }
  }
}
