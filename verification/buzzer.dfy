/**
 * The buzzer pattern engine (src/BuzzerController.cpp). The PWM output is replaced by two
 * fields: `duty`, the last value written to the channel (0 = silent, 128 = a tone at 50% duty,
 * anything else = a pulse intensity), and `pwmFrequency`, the last frequency the channel was
 * switched to. millis() is the `now` argument of the operations that read it.
 */
module Buzzer {
  import opened Common
  import opened Config

  datatype Pattern =
    | Off | Continuous | BeepFast | BeepSlow | Pulse | Alarm | Success | Error | Notification

  /** One step of a pattern table: frequency in Hz, tone length and pause in ms. */
  datatype Tone = Tone(frequency: int, duration: int, pause: int)

  const Terminator := Tone(0, 0, 0)

  /** The patterns that are played from a step table. */
  predicate HasTable(p: Pattern) {
    p in {Alarm, Success, Error, Notification}
  }

  const AlarmTable := [Tone(2000, 500, 200), Tone(2500, 500, 200), Tone(2000, 500, 200), Tone(2500, 500, 1000), Terminator]
  const SuccessTable := [Tone(1000, 100, 50), Tone(1500, 100, 50), Tone(2000, 200, 0), Terminator]
  const ErrorTable := [Tone(500, 300, 100), Tone(400, 300, 100), Tone(300, 500, 0), Terminator]
  const NotificationTable := [Tone(1500, 200, 200), Tone(1500, 200, 0), Terminator]

  /**
   * The step tables. Each ends in the {0, 0, 0} marker, every earlier step is an audible tone,
   * and each table's first step is followed by a pause.
   */
  function Table(p: Pattern): (t: seq<Tone>)
    requires HasTable(p)
    ensures 2 <= |t| && t[|t| - 1] == Terminator
    ensures forall i :: 0 <= i < |t| - 1 ==> t[i].frequency > 0 && t[i].duration > 0
    ensures t[0].pause > 0
  {
    match p
    case Alarm => AlarmTable
    case Success => SuccessTable
    case Error => ErrorTable
    case Notification => NotificationTable
  }

  const ToneDuty: int := 128
  const FastToggleMs: nat := 250
  const SlowToggleMs: nat := 1000
  const PulseStepMs: nat := 100
  const PulseIncrement: int := 32

  /** The fields of the controller, as a value. */
  datatype BuzzerState = BuzzerState(
    currentFrequency: int,
    currentPattern: Pattern,
    isActive: bool,
    patternStartTime: Millis,
    lastToggleTime: Millis,
    patternStep: int,
    toneOn: bool,
    duty: int,
    pwmFrequency: int,
    pulseIntensity: int,
    pulseDirection: int)

  /**
   * The controller invariant: a table pattern's step is an index into its table, and a tone
   * can be sounding only for a step before the end marker; the pulse ramp stays in [0, 255]
   * and moves up or down by one increment.
   */
  predicate StateValid(s: BuzzerState) {
    && (HasTable(s.currentPattern) ==>
          && 0 <= s.patternStep < |Table(s.currentPattern)|
          && (s.toneOn ==> s.patternStep < |Table(s.currentPattern)| - 1))
    && 0 <= s.pulseIntensity <= 255
    && (s.pulseDirection == 1 || s.pulseDirection == -1)
  }

  /** playTone: a positive frequency retunes the channel and sounds it; otherwise silence. */
  function PlayToneStep(s: BuzzerState, frequency: int): (r: BuzzerState)
    ensures frequency > 0 ==> r.duty == ToneDuty && r.currentFrequency == frequency && r.pwmFrequency == frequency
    ensures frequency <= 0 ==> r.duty == 0 && r.currentFrequency == s.currentFrequency && r.pwmFrequency == s.pwmFrequency
    ensures r.(duty := s.duty, currentFrequency := s.currentFrequency, pwmFrequency := s.pwmFrequency) == s
  {
    if frequency > 0 then s.(duty := ToneDuty, currentFrequency := frequency, pwmFrequency := frequency)
    else s.(duty := 0)
  }

  /** stopPattern: OFF, silent, inactive; step, tone flag and times are left as they were. */
  function StopPatternStep(s: BuzzerState): (r: BuzzerState)
    ensures r.currentPattern == Off && !r.isActive && r.duty == 0
    ensures StateValid(s) ==> StateValid(r)
    ensures r.(currentPattern := s.currentPattern, isActive := s.isActive, duty := s.duty) == s
  {
    s.(currentPattern := Off, duty := 0, isActive := false)
  }

  /** executePatternStep: one step of a table pattern. */
  function ExecuteStep(s: BuzzerState, table: seq<Tone>, now: Millis): (r: BuzzerState)
    requires 1 <= |table| && 0 <= s.patternStep < |table|
    requires s.toneOn ==> s.patternStep < |table| - 1
  {
    if !s.toneOn then
      if s.patternStep < |table| - 1 && table[s.patternStep].frequency != 0 then
        PlayToneStep(s, table[s.patternStep].frequency).(toneOn := true, lastToggleTime := now)
      else if s.currentPattern == Alarm then s.(patternStep := 0)
      else StopPatternStep(s)
    else
      var tone := table[s.patternStep];
      if Elapsed(now, s.lastToggleTime) >= tone.duration then
        var silent := s.(duty := 0, toneOn := false, lastToggleTime := now);
        if tone.pause > 0 then
          // the pause is measured from the lastToggleTime that was just set to now
          if Elapsed(now, silent.lastToggleTime) >= tone.pause then silent.(patternStep := s.patternStep + 1)
          else silent
        else silent.(patternStep := s.patternStep + 1)
      else s
  }

  /** The pulse ramp: up or down by 32, clamped to [0, 255], turning round at either end. */
  function PulseRamp(intensity: int, direction: int): (r: (int, int))
    requires 0 <= intensity <= 255 && (direction == 1 || direction == -1)
    ensures 0 <= r.0 <= 255 && (r.1 == 1 || r.1 == -1)
    ensures r.1 != direction ==> r.0 == (if direction == 1 then 255 else 0)
    ensures r.1 == direction ==> r.0 == intensity + direction * PulseIncrement
    ensures r.0 == 255 ==> r.1 == -1
    ensures r.0 == 0 ==> r.1 == 1
  {
    var next := intensity + direction * PulseIncrement;
    if next >= 255 then (255, -1)
    else if next <= 0 then (0, 1)
    else (next, direction)
  }

  /** A beep toggle: flip the tone, sounding the current frequency or going silent. */
  function ToggleStep(s: BuzzerState, now: Millis): (r: BuzzerState)
  {
    var flipped := s.(toneOn := !s.toneOn);
    var sounded := if flipped.toneOn then PlayToneStep(flipped, flipped.currentFrequency) else flipped.(duty := 0);
    sounded.(lastToggleTime := now)
  }

  /** updatePattern: the timed behaviour of the pattern being played. */
  function UpdatePatternStep(s: BuzzerState, now: Millis): (r: BuzzerState)
    requires StateValid(s)
  {
    match s.currentPattern
    case BeepFast => if Elapsed(now, s.lastToggleTime) >= FastToggleMs then ToggleStep(s, now) else s
    case BeepSlow => if Elapsed(now, s.lastToggleTime) >= SlowToggleMs then ToggleStep(s, now) else s
    case Pulse =>
      if Elapsed(now, s.lastToggleTime) >= PulseStepMs then
        var (intensity, direction) := PulseRamp(s.pulseIntensity, s.pulseDirection);
        s.(pulseIntensity := intensity, pulseDirection := direction, duty := intensity, lastToggleTime := now)
      else s
    case Off => s
    case Continuous => s
    case _ => ExecuteStep(s, Table(s.currentPattern), now)
  }

  /** update: only the timed patterns have anything to do. */
  function UpdateStep(s: BuzzerState, now: Millis): (r: BuzzerState)
    requires StateValid(s)
    ensures s.currentPattern == Off || s.currentPattern == Continuous ==> r == s
  {
    if s.currentPattern != Off && s.currentPattern != Continuous then UpdatePatternStep(s, now) else s
  }

  /** playPattern: select the pattern from step 0 with the tone off, then start it. */
  function PlayPatternStep(s: BuzzerState, p: Pattern, now: Millis): (r: BuzzerState)
    requires StateValid(s)
  {
    var reset := s.(currentPattern := p, patternStartTime := now, lastToggleTime := now, patternStep := 0, toneOn := false);
    match p
    case Off => StopToneOf(reset).(isActive := false)
    case Continuous => PlayToneStep(reset, reset.currentFrequency).(isActive := true)
    case BeepFast => reset.(isActive := true)
    case BeepSlow => reset.(isActive := true)
    case Pulse => reset.(isActive := true)
    case _ => ExecuteStep(reset.(isActive := true), Table(p), now)
  }

  /** stopTone: silence. */
  function StopToneOf(s: BuzzerState): BuzzerState {
    s.(duty := 0)
  }

  /** setBuzzer: on selects CONTINUOUS, off stops the pattern. */
  function SetBuzzerStep(s: BuzzerState, enabled: bool, now: Millis): (r: BuzzerState)
    requires StateValid(s)
  {
    if enabled then PlayPatternStep(s, Continuous, now) else StopPatternStep(s)
  }

  // ---------------------------------------------------------------------------------------
  // Properties of the engine

  /** update keeps the controller invariant. */
  lemma UpdateKeepsInvariant(s: BuzzerState, now: Millis)
    requires StateValid(s)
    ensures StateValid(UpdateStep(s, now))
  {
    if HasTable(s.currentPattern) {
      ExecuteStepKeepsRange(s, s.currentPattern, now);
    }
  }

  /** playPattern keeps the controller invariant. */
  lemma PlayPatternKeepsInvariant(s: BuzzerState, p: Pattern, now: Millis)
    requires StateValid(s)
    ensures StateValid(PlayPatternStep(s, p, now))
  {
    if HasTable(p) {
      var reset := s.(currentPattern := p, patternStartTime := now, lastToggleTime := now, patternStep := 0, toneOn := false);
      ExecuteStepKeepsRange(reset.(isActive := true), p, now);
    }
  }

  /** setBuzzer keeps the controller invariant. */
  lemma SetBuzzerKeepsInvariant(s: BuzzerState, enabled: bool, now: Millis)
    requires StateValid(s)
    ensures StateValid(SetBuzzerStep(s, enabled, now))
  {
    PlayPatternKeepsInvariant(s, Continuous, now);
  }

  /** A step keeps the step index inside the table, and a sounding tone before the end marker. */
  lemma ExecuteStepKeepsRange(s: BuzzerState, p: Pattern, now: Millis)
    requires HasTable(p) && s.currentPattern == p && StateValid(s)
    ensures
      var r := ExecuteStep(s, Table(p), now);
      && StateValid(r)
      && (r.currentPattern == p || (r.currentPattern == Off && p != Alarm))
      && r.pulseIntensity == s.pulseIntensity && r.pulseDirection == s.pulseDirection
  {
  }

  /**
   * playPattern sets the pattern, and the controller is active exactly for a pattern other
   * than OFF. A table pattern starts its first tone at once, so it is left at step 0 with the
   * tone on at the first step's frequency; the beep and pulse patterns
   * reset the tone flag but leave the output's duty as it was, so a tone already sounding keeps
   * sounding until their first toggle.
   */
  lemma PlayPatternStarts(s: BuzzerState, p: Pattern, now: Millis)
    requires StateValid(s)
    ensures
      var r := PlayPatternStep(s, p, now);
      && r.currentPattern == p
      && (r.isActive <==> p != Off)
      && r.patternStep == 0
      && r.lastToggleTime == now && r.patternStartTime == now
      && (p == Off ==> r.duty == 0 && !r.toneOn)
      && (p in {BeepFast, BeepSlow, Pulse} ==> !r.toneOn && r.duty == s.duty)
      && (HasTable(p) ==> r.toneOn && r.duty == ToneDuty && r.currentFrequency == Table(p)[0].frequency)
  {
  }

  /**
   * setBuzzer(true) plays CONTINUOUS at the last frequency played (not the configured
   * default); setBuzzer(false), like stopPattern, leaves OFF, inactive and silent.
   */
  lemma SetBuzzerSelects(s: BuzzerState, enabled: bool, now: Millis)
    requires StateValid(s)
    ensures
      var r := SetBuzzerStep(s, enabled, now);
      && (enabled ==> r.currentPattern == Continuous && r.isActive)
      && (enabled && s.currentFrequency > 0 ==> r.duty == ToneDuty && r.pwmFrequency == s.currentFrequency)
      && (enabled && s.currentFrequency <= 0 ==> r.duty == 0)
      && (!enabled ==> r.currentPattern == Off && !r.isActive && r.duty == 0)
  {
  }

  /**
   * When no tone is sounding, a step either starts the tone of a step before the end marker,
   * or, at the marker, loops ALARM back to step 0 and ends every other table pattern.
   */
  lemma StepStartsOrEnds(s: BuzzerState, p: Pattern, now: Millis)
    requires HasTable(p) && s.currentPattern == p && StateValid(s) && !s.toneOn
    ensures
      var t := Table(p);
      var r := ExecuteStep(s, t, now);
      && (s.patternStep < |t| - 1 ==>
            r.toneOn && r.duty == ToneDuty && r.currentFrequency == t[s.patternStep].frequency
            && r.patternStep == s.patternStep && r.lastToggleTime == now)
      && (s.patternStep == |t| - 1 && p == Alarm ==>
            r == s.(patternStep := 0))
      && (s.patternStep == |t| - 1 && p != Alarm ==>
            r.currentPattern == Off && !r.isActive && r.duty == 0)
  {
  }

  /** A tone starts only at a step before the end marker, and only with that step's frequency. */
  lemma ToneStartsOnlyAtToneStep(s: BuzzerState, p: Pattern, now: Millis)
    requires HasTable(p) && s.currentPattern == p && StateValid(s)
    ensures
      var t := Table(p);
      var r := ExecuteStep(s, t, now);
      !s.toneOn && r.toneOn ==>
        s.patternStep < |t| - 1 && t[s.patternStep].frequency != 0 && r.currentFrequency == t[s.patternStep].frequency
  {
  }

  /**
   * When a sounding tone's duration is up the output goes silent and the tone flag drops; the
   * step advances only when that step has no pause. A step with a pause stays where it is
   * and its tone is replayed on the next tick, because the pause is measured from the moment
   * just recorded. Before the duration is up nothing changes.
   */
  lemma ToneEnds(s: BuzzerState, p: Pattern, now: Millis)
    requires HasTable(p) && s.currentPattern == p && StateValid(s) && s.toneOn
    ensures
      var t := Table(p);
      var r := ExecuteStep(s, t, now);
      && (Elapsed(now, s.lastToggleTime) >= t[s.patternStep].duration ==>
            && !r.toneOn && r.duty == 0 && r.lastToggleTime == now
            && r.patternStep == (if t[s.patternStep].pause == 0 then s.patternStep + 1 else s.patternStep))
      && (Elapsed(now, s.lastToggleTime) < t[s.patternStep].duration ==> r == s)
  {
  }

  /**
   * The fast and slow beeps flip the tone exactly when 250 ms (fast) or 1000 ms (slow) have
   * passed since the last flip, sounding the current frequency or going silent.
   */
  lemma BeepsToggle(s: BuzzerState, now: Millis)
    requires StateValid(s) && (s.currentPattern == BeepFast || s.currentPattern == BeepSlow)
    ensures
      var period := if s.currentPattern == BeepFast then FastToggleMs else SlowToggleMs;
      var r := UpdateStep(s, now);
      && (r.toneOn != s.toneOn <==> Elapsed(now, s.lastToggleTime) >= period)
      && (Elapsed(now, s.lastToggleTime) >= period ==>
            r.lastToggleTime == now
            && (r.toneOn && s.currentFrequency > 0 ==> r.duty == ToneDuty)
            && (!r.toneOn ==> r.duty == 0))
      && (Elapsed(now, s.lastToggleTime) < period ==> r == s)
  {
  }

  /** The pulse writes its ramp value to the output every 100 ms and stays within [0, 255]. */
  lemma PulseStaysInRange(s: BuzzerState, now: Millis)
    requires StateValid(s) && s.currentPattern == Pulse
    ensures
      var r := UpdateStep(s, now);
      && 0 <= r.pulseIntensity <= 255
      && (Elapsed(now, s.lastToggleTime) >= PulseStepMs ==> r.duty == r.pulseIntensity && r.lastToggleTime == now)
      && (Elapsed(now, s.lastToggleTime) < PulseStepMs ==> r == s)
  {
  }

  /** The ramp after n pulse ticks. */
  function RampAfter(intensity: int, direction: int, n: nat): (r: (int, int))
    requires 0 <= intensity <= 255 && (direction == 1 || direction == -1)
    ensures 0 <= r.0 <= 255 && (r.1 == 1 || r.1 == -1)
    decreases n
  {
    if n == 0 then (intensity, direction)
    else
      var next := PulseRamp(intensity, direction);
      RampAfter(next.0, next.1, n - 1)
  }

  /** m ticks and then n more are m + n ticks. */
  lemma {:induction false} RampAfterAdds(intensity: int, direction: int, m: nat, n: nat)
    requires 0 <= intensity <= 255 && (direction == 1 || direction == -1)
    ensures
      var mid := RampAfter(intensity, direction, m);
      RampAfter(intensity, direction, m + n) == RampAfter(mid.0, mid.1, n)
    decreases m
  {
    if m > 0 {
      var next := PulseRamp(intensity, direction);
      RampAfterAdds(next.0, next.1, m - 1, n);
    }
  }

  /** Eight ticks up from 0: 32, 64, ..., 224, then clamped to 255 and turning down. */
  lemma RampClimbs()
    ensures RampAfter(0, 1, 8) == (255, -1)
  {
    assert RampAfter(224, 1, 1) == (255, -1);
    assert RampAfter(128, 1, 4) == (255, -1);
  }

  /** Eight ticks down from 255: 223, 191, ..., 31, then clamped to 0 and turning up. */
  lemma RampFalls()
    ensures RampAfter(255, -1, 8) == (0, 1)
  {
    assert RampAfter(31, -1, 1) == (0, 1);
    assert RampAfter(127, -1, 4) == (0, 1);
  }

  /**
   * From its start at 0 going up (the statics are set once and never reset), the ramp climbs
   * to 255 in eight ticks, comes back down to 0 in eight more, and then repeats with period 16.
   */
  lemma PulseRampPeriod(n: nat)
    ensures RampAfter(0, 1, n) == RampAfter(0, 1, n % 16)
  {
    RampClimbs();
    RampFalls();
    RampAfterAdds(0, 1, 8, 8);
    RampRepeats(0, 1, n);
  }

  /** A ramp state that recurs after 16 ticks recurs every 16 ticks. */
  lemma {:induction false} RampRepeats(intensity: int, direction: int, n: nat)
    requires 0 <= intensity <= 255 && (direction == 1 || direction == -1)
    requires RampAfter(intensity, direction, 16) == (intensity, direction)
    ensures RampAfter(intensity, direction, n) == RampAfter(intensity, direction, n % 16)
    decreases n
  {
    if n >= 16 {
      RampAfterAdds(intensity, direction, 16, n - 16);
      assert RampAfter(intensity, direction, n) == RampAfter(intensity, direction, n - 16);
      RampRepeats(intensity, direction, n - 16);
      assert (n - 16) % 16 == n % 16;
    } else {
      assert n % 16 == n;
    }
  }



  /** Repeated ticks of update at the given times. */
  function Run(s: BuzzerState, times: seq<Millis>): (r: BuzzerState)
    requires StateValid(s)
    ensures StateValid(r)
    decreases |times|
  {
    if times == [] then s
    else
      UpdateKeepsInvariant(s, times[0]);
      Run(UpdateStep(s, times[0]), times[1..])
  }

  /**
   * Every table's first step has a pause, so a table pattern started by playPattern never
   * gets past step 0: however many ticks follow, the pattern is still playing, still active
   * and still at step 0. SUCCESS, ERROR and NOTIFICATION never reach their end marker and so
   * never stop by themselves.
   */
  lemma {:induction false} TablePatternStaysAtFirstStep(s: BuzzerState, times: seq<Millis>)
    requires StateValid(s) && HasTable(s.currentPattern) && s.patternStep == 0 && s.isActive
    ensures
      var r := Run(s, times);
      r.currentPattern == s.currentPattern && r.isActive && r.patternStep == 0
    decreases |times|
  {
    if times != [] {
      var next := UpdateStep(s, times[0]);
      ExecuteStepKeepsRange(s, s.currentPattern, times[0]);
      assert next.currentPattern == s.currentPattern && next.isActive && next.patternStep == 0;
      TablePatternStaysAtFirstStep(next, times[1..]);
    }
  }

  // ---------------------------------------------------------------------------------------
  // The controller

  class BuzzerController {
    var currentFrequency: int
    var currentPattern: Pattern
    var isActive: bool
    var patternStartTime: Millis
    var lastToggleTime: Millis
    var patternStep: int
    var toneOn: bool
    /** The value last written to the PWM channel. */
    var duty: int
    /** The frequency the PWM channel was last set to. */
    var pwmFrequency: int
    /** The function-static intensity and direction of the pulse ramp. */
    var pulseIntensity: int
    var pulseDirection: int

    function State(): BuzzerState
      reads this
    {
      BuzzerState(currentFrequency, currentPattern, isActive, patternStartTime, lastToggleTime,
        patternStep, toneOn, duty, pwmFrequency, pulseIntensity, pulseDirection)
    }

    ghost predicate Valid()
      reads this
    {
      StateValid(State())
    }

    /** The constructor: default frequency, OFF, silent; the pulse ramp starts at 0 going up. */
    constructor ()
      ensures Valid()
      ensures State() == BuzzerState(BuzzerFrequency, Off, false, 0, 0, 0, false, 0, BuzzerFrequency, 0, 1)
    {
      currentFrequency := BuzzerFrequency;
      currentPattern := Off;
      isActive := false;
      patternStartTime := 0;
      lastToggleTime := 0;
      patternStep := 0;
      toneOn := false;
      duty := 0;
      pwmFrequency := BuzzerFrequency;
      pulseIntensity := 0;
      pulseDirection := 1;
    }

    method PlayTone(frequency: int)
      modifies this
      ensures State() == PlayToneStep(old(State()), frequency)
    {
      if frequency > 0 {
        pwmFrequency := frequency;
        duty := ToneDuty;
        currentFrequency := frequency;
      } else {
        StopTone();
      }
    }

    method StopTone()
      modifies this
      ensures State() == StopToneOf(old(State()))
    {
      duty := 0;
    }

    method StopPattern()
      modifies this
      ensures State() == StopPatternStep(old(State()))
    {
      currentPattern := Off;
      StopTone();
      isActive := false;
    }

    /** playBeep: the tone, then silence; the blocking delay between them is left out. */
    method PlayBeep(frequency: int)
      modifies this
      ensures State() == old(State()).(duty := 0,
        currentFrequency := if frequency > 0 then frequency else old(currentFrequency),
        pwmFrequency := if frequency > 0 then frequency else old(pwmFrequency))
    {
      PlayTone(frequency);
      StopTone();
    }

    /**
     * begin: sets up the channel at the current frequency and silences it, then plays the
     * startup beeps at 1000, 1500 and 2000 Hz. The controller is left silent at 2000 Hz, so a
     * default frequency set before begin is replaced; nothing else changes.
     */
    method Begin() returns (ok: bool)
      modifies this
      ensures ok
      ensures State() == old(State()).(duty := 0, currentFrequency := 2000, pwmFrequency := 2000)
    {
      pwmFrequency := currentFrequency;
      duty := 0;
      PlayBeep(1000);
      PlayBeep(1500);
      PlayBeep(2000);
      ok := true;
    }

    /** setDefaultFrequency: only the remembered frequency changes, not the sounding one. */
    method SetDefaultFrequency(frequency: int)
      requires Valid()
      modifies this
      ensures Valid()
      ensures State() == old(State()).(currentFrequency := frequency)
    {
      currentFrequency := frequency;
    }

    method ExecutePatternStep(table: seq<Tone>, now: Millis)
      requires 1 <= |table| && 0 <= patternStep < |table|
      requires toneOn ==> patternStep < |table| - 1
      modifies this
      ensures State() == ExecuteStep(old(State()), table, now)
    {
      if !toneOn {
        if patternStep < |table| - 1 && table[patternStep].frequency != 0 {
          PlayTone(table[patternStep].frequency);
          toneOn := true;
          lastToggleTime := now;
        } else {
          if currentPattern == Alarm {
            patternStep := 0;
          } else {
            StopPattern();
            return;
          }
        }
      } else {
        if Elapsed(now, lastToggleTime) >= table[patternStep].duration {
          StopTone();
          toneOn := false;
          lastToggleTime := now;
          if table[patternStep].pause > 0 {
            // waits for the pause measured from the lastToggleTime just set
            patternStep := patternStep + if Elapsed(now, lastToggleTime) >= table[patternStep].pause then 1 else 0;
          } else {
            patternStep := patternStep + 1;
          }
        }
      }
    }

    /** playPattern at `now`. */
    method PlayPattern(p: Pattern, now: Millis)
      requires Valid()
      modifies this
      ensures State() == PlayPatternStep(old(State()), p, now)
      ensures Valid()
    {
      ghost var before := State();
      currentPattern := p;
      patternStartTime := now;
      lastToggleTime := now;
      patternStep := 0;
      toneOn := false;
      assert State() == before.(currentPattern := p, patternStartTime := now, lastToggleTime := now,
        patternStep := 0, toneOn := false);
      match p {
        case Off =>
          StopTone();
          isActive := false;
        case Continuous =>
          PlayTone(currentFrequency);
          isActive := true;
        case BeepFast =>
          isActive := true;
        case BeepSlow =>
          isActive := true;
        case Pulse =>
          isActive := true;
        case _ =>
          // ALARM, SUCCESS, ERROR and NOTIFICATION each start their own table
          isActive := true;
          ExecutePatternStep(Table(p), now);
      }
      assert State() == PlayPatternStep(before, p, now);
      PlayPatternKeepsInvariant(before, p, now);
    }

    /** setBuzzer at `now`. */
    method SetBuzzer(enabled: bool, now: Millis)
      requires Valid()
      modifies this
      ensures Valid()
      ensures State() == SetBuzzerStep(old(State()), enabled, now)
    {
      SetBuzzerKeepsInvariant(State(), enabled, now);
      if enabled {
        PlayPattern(Continuous, now);
      } else {
        StopPattern();
      }
    }

    method UpdatePattern(now: Millis)
      requires Valid()
      modifies this
      ensures State() == UpdatePatternStep(old(State()), now)
    {
      match currentPattern {
        case BeepFast =>
          if Elapsed(now, lastToggleTime) >= FastToggleMs {
            toneOn := !toneOn;
            if toneOn {
              PlayTone(currentFrequency);
            } else {
              StopTone();
            }
            lastToggleTime := now;
          }
        case BeepSlow =>
          if Elapsed(now, lastToggleTime) >= SlowToggleMs {
            toneOn := !toneOn;
            if toneOn {
              PlayTone(currentFrequency);
            } else {
              StopTone();
            }
            lastToggleTime := now;
          }
        case Pulse =>
          if Elapsed(now, lastToggleTime) >= PulseStepMs {
            pulseIntensity := pulseIntensity + pulseDirection * PulseIncrement;
            if pulseIntensity >= 255 {
              pulseIntensity := 255;
              pulseDirection := -1;
            } else if pulseIntensity <= 0 {
              pulseIntensity := 0;
              pulseDirection := 1;
            }
            duty := pulseIntensity;
            lastToggleTime := now;
          }
        case Off =>
        case Continuous =>
        case _ =>
          // ALARM, SUCCESS, ERROR and NOTIFICATION each run their own table
          ExecutePatternStep(Table(currentPattern), now);
      }
    }

    /** update at `now`: the timed patterns advance; OFF and CONTINUOUS change nothing. */
    method Update(now: Millis)
      requires Valid()
      modifies this
      ensures Valid()
      ensures State() == UpdateStep(old(State()), now)
    {
      UpdateKeepsInvariant(State(), now);
      if currentPattern != Off && currentPattern != Continuous {
        UpdatePattern(now);
      }
    }
  }
}
