/**
 * The alarm manager (src/AlarmManager.cpp): a list of at most five alarms and the alarm
 * lifecycle IDLE -> TRIGGERED -> (SNOOZED | WAITING_FOR_PILL_BOX | IDLE) driven by a periodic
 * update.
 *
 * The hardware reaches the manager through narrow inputs, which become parameters here:
 *  - millis() is the `now: Millis` argument of the operations that read it;
 *  - the RTC (getLocalTime) is `clock: Option<DateTime>`, None when the clock is unavailable;
 *  - the pill-box callback is `pillBox: Option<bool>`, None when no callback is installed and
 *    otherwise the value the callback returns on this tick;
 *  - the buzzer callback is the flag `hasBuzzerCallback`, and every call made to it is
 *    recorded, in order, in `buzzerCalls`;
 *  - the flash store read at start-up is a stored count and a sequence of stored records.
 */
module Alarms {
  import opened Common
  import opened Config
  import opened AlarmText

  /** A calendar date as localtime_r decomposes it: tm_year, tm_mon, tm_mday. */
  datatype Date = Date(year: int, month: int, day: int)

  /** time_t 0, the date a default-constructed alarm carries. */
  const EpochDate := Date(70, 0, 1)

  /** The wall-clock reading getLocalTime gives: the date, tm_wday, tm_hour and tm_min. */
  datatype DateTime = DateTime(date: Date, weekday: Weekday, hour: int, minute: int)

  datatype Alarm = Alarm(
    id: Byte,
    hour: Byte,
    minute: Byte,
    dayMask: Byte,
    enabled: bool,
    labelText: string,
    repeating: bool,
    oneTimeDate: Date)

  datatype AlarmState = Idle | Triggered | Snoozed | WaitingForPillBox

  /** isDayMatched: mask 0 means every day; otherwise bit `weekday` must be set. */
  predicate IsDayMatched(dayMask: Byte, weekday: Weekday) {
    dayMask == 0 || HasDay(dayMask, weekday)
  }

  /** isAlarmTimeMatched: same hour and minute, then the date (one-time) or the day mask. */
  predicate IsAlarmTimeMatched(alarm: Alarm, now: DateTime) {
    if now.hour != alarm.hour as int || now.minute != alarm.minute as int then false
    else if !alarm.repeating then now.date == alarm.oneTimeDate
    else IsDayMatched(alarm.dayMask, now.weekday)
  }

  /** The condition of the IDLE scan: the alarm is enabled and its time has come. */
  predicate Fires(alarm: Alarm, now: DateTime) {
    alarm.enabled && IsAlarmTimeMatched(alarm, now)
  }

  /** Mask 0 and the all-days mask match on every weekday; any other mask exactly on its bits. */
  lemma DayMatching(dayMask: Byte, weekday: Weekday)
    ensures IsDayMatched(0, weekday) && IsDayMatched(Daily, weekday)
    ensures dayMask != 0 ==> (IsDayMatched(dayMask, weekday) <==> HasDay(dayMask, weekday))
    ensures IsDayMatched(SingleDay(weekday), weekday)
    ensures dayMask != 0 && dayMask == SingleDay(weekday) ==>
      forall d: Weekday :: IsDayMatched(dayMask, d) <==> d == weekday
  {
    KeywordMasksSelectTheirDays(weekday);
  }

  /**
   * A time match needs the hour and the minute; past that, a one-time alarm looks only at the
   * date and a repeating one only at the weekday.
   */
  lemma TimeMatching(alarm: Alarm, now: DateTime)
    ensures IsAlarmTimeMatched(alarm, now) ==>
      now.hour == alarm.hour as int && now.minute == alarm.minute as int
    ensures !alarm.repeating && now.hour == alarm.hour as int && now.minute == alarm.minute as int ==>
      (IsAlarmTimeMatched(alarm, now) <==> now.date == alarm.oneTimeDate)
    ensures alarm.repeating && now.hour == alarm.hour as int && now.minute == alarm.minute as int ==>
      (IsAlarmTimeMatched(alarm, now) <==> IsDayMatched(alarm.dayMask, now.weekday))
  {
  }

  /** The position of the first alarm that fires at `now`, in list order. */
  function FirstMatch(alarms: seq<Alarm>, now: DateTime): (r: Option<nat>)
    ensures r.Some? ==> r.value < |alarms| && Fires(alarms[r.value], now)
    ensures r.Some? ==> forall j :: 0 <= j < r.value ==> !Fires(alarms[j], now)
    ensures r.None? <==> forall j :: 0 <= j < |alarms| ==> !Fires(alarms[j], now)
  {
    if alarms == [] then None
    else if Fires(alarms[0], now) then Some(0)
    else match FirstMatch(alarms[1..], now)
      case None => None
      case Some(i) => Some(i + 1)
  }

  /** An alarm that fires with none firing before it is the one FirstMatch finds. */
  lemma FirstMatchIsFirst(alarms: seq<Alarm>, now: DateTime, i: nat)
    requires i < |alarms| && Fires(alarms[i], now)
    requires forall j :: 0 <= j < i ==> !Fires(alarms[j], now)
    ensures FirstMatch(alarms, now) == Some(i)
  {
    var m := FirstMatch(alarms, now);
    assert m.Some?;
    assert Fires(alarms[m.value], now);
  }

  /** The position of the first alarm with the id, as the id searches of the manager find it. */
  function IndexOfId(alarms: seq<Alarm>, id: int): (r: Option<nat>)
    ensures r.Some? ==> r.value < |alarms| && alarms[r.value].id as int == id
    ensures r.Some? ==> forall j :: 0 <= j < r.value ==> alarms[j].id as int != id
    ensures r.None? <==> forall j :: 0 <= j < |alarms| ==> alarms[j].id as int != id
  {
    if alarms == [] then None
    else if alarms[0].id as int == id then Some(0)
    else match IndexOfId(alarms[1..], id)
      case None => None
      case Some(i) => Some(i + 1)
  }

  /** vector::erase of position k. */
  function RemoveAt(alarms: seq<Alarm>, k: nat): (r: seq<Alarm>)
    requires k < |alarms|
    ensures |r| == |alarms| - 1
    ensures forall j :: 0 <= j < k ==> r[j] == alarms[j]
    ensures forall j :: k <= j < |r| ==> r[j] == alarms[j + 1]
  {
    alarms[..k] + alarms[k + 1..]
  }

  /** The alarm addAlarm appends: repeating, enabled, id one more than the list length. */
  function NewRepeating(count: nat, hour: Byte, minute: Byte, dayMask: Byte, labelText: string): Alarm
    requires count < MaxAlarms
  {
    Alarm(count + 1, hour, minute, dayMask, true, labelText, true, EpochDate)
  }

  /** The alarm addOneTimeAlarm appends: one-time, mask 0, enabled, id one more than the length. */
  function NewOneTime(count: nat, hour: Byte, minute: Byte, date: Date, labelText: string): Alarm
    requires count < MaxAlarms
  {
    Alarm(count + 1, hour, minute, 0, true, labelText, false, date)
  }

  /**
   * Ids are the list length plus one at the time of the add, so after a removal anywhere but
   * at the end an add reuses the id of the last alarm in the list.
   */
  lemma AddAfterRemovalRepeatsId(alarms: seq<Alarm>, k: nat, hour: Byte, minute: Byte, dayMask: Byte)
    requires k + 1 < |alarms| <= MaxAlarms
    requires alarms[|alarms| - 1].id as int == |alarms|
    ensures
      var after := RemoveAt(alarms, k) + [NewRepeating(|alarms| - 1, hour, minute, dayMask, "")];
      |after| == |alarms| && after[|after| - 2].id == after[|after| - 1].id
  {
  }

  // ---------------------------------------------------------------------------------------
  // Loading from flash (the count and id logic; the key layout is not modelled)

  /** What the flash holds for one alarm slot; a slot that is missing reads as the defaults. */
  datatype StoredAlarm = StoredAlarm(
    hour: Byte, minute: Byte, dayMask: Byte, enabled: bool, labelText: string, repeating: bool,
    date: Date)

  /** The getX(key, default) defaults of loadAlarmsFromFlash. */
  const DefaultStored := StoredAlarm(0, 0, 0, true, "", true, EpochDate)

  function StoredAt(stored: seq<StoredAlarm>, i: nat): StoredAlarm {
    if i < |stored| then stored[i] else DefaultStored
  }

  /** The alarm loaded from slot i: id i + 1 and the stored fields. */
  function Loaded(i: nat, s: StoredAlarm): Alarm
    requires i < MaxAlarms
  {
    Alarm(i + 1, s.hour, s.minute, s.dayMask, s.enabled, s.labelText, s.repeating, s.date)
  }

  // ---------------------------------------------------------------------------------------
  // The lifecycle, as values

  /** The fields of the manager that the lifecycle operations change. */
  datatype Lifecycle = Lifecycle(
    state: AlarmState,
    activeAlarmId: Byte,
    alarmStartTime: Millis,
    snoozeStartTime: Millis,
    buzzerActive: bool,
    buzzerCalls: seq<bool>)

  /**
   * The lifecycle invariant: an alarm is active exactly in TRIGGERED and SNOOZED, and the
   * start time is reset whenever the manager is IDLE or WAITING_FOR_PILL_BOX.
   */
  predicate LifecycleValid(lc: Lifecycle) {
    && (lc.activeAlarmId != 0 <==> lc.state == Triggered || lc.state == Snoozed)
    && (lc.state == Idle || lc.state == WaitingForPillBox ==> lc.alarmStartTime == 0)
  }

  /** The transitions the lifecycle can take in one step. */
  predicate LegalTransition(from: AlarmState, to: AlarmState) {
    || from == to
    || (from == Idle && to == Triggered)
    || (from == Triggered && to in {Snoozed, WaitingForPillBox, Idle})
    || (from == Snoozed && to in {Triggered, Idle})
    || (from == WaitingForPillBox && to == Idle)
  }

  /** A call of the buzzer callback, when one is installed, and the flag that tracks it. */
  function Signal(lc: Lifecycle, hasBuzzerCallback: bool, on: bool): (r: Lifecycle)
    ensures r.state == lc.state && r.activeAlarmId == lc.activeAlarmId
    ensures r.alarmStartTime == lc.alarmStartTime && r.snoozeStartTime == lc.snoozeStartTime
  {
    if hasBuzzerCallback then lc.(buzzerActive := on, buzzerCalls := lc.buzzerCalls + [on])
    else lc
  }

  /** triggerAlarm: TRIGGERED with the alarm's id from `now`, buzzer on. */
  function TriggerStep(lc: Lifecycle, id: Byte, now: Millis, hasBuzzerCallback: bool): (r: Lifecycle)
    ensures id != 0 ==> LifecycleValid(r)
    ensures LegalTransition(lc.state, r.state) <==> lc.state in {Idle, Triggered, Snoozed}
    ensures r.state == Triggered && r.activeAlarmId == id && r.alarmStartTime == now
    ensures r.snoozeStartTime == lc.snoozeStartTime
    ensures hasBuzzerCallback ==> r.buzzerActive && r.buzzerCalls == lc.buzzerCalls + [true]
    ensures !hasBuzzerCallback ==> r.buzzerActive == lc.buzzerActive && r.buzzerCalls == lc.buzzerCalls
  {
    Signal(lc.(state := Triggered, activeAlarmId := id, alarmStartTime := now), hasBuzzerCallback, true)
  }

  /** stopAlarm: IDLE, no active alarm, start time 0, buzzer off. */
  function StopStep(lc: Lifecycle, hasBuzzerCallback: bool): (r: Lifecycle)
    ensures LifecycleValid(r)
    ensures LegalTransition(lc.state, r.state)
    ensures r.state == Idle && r.activeAlarmId == 0 && r.alarmStartTime == 0
    ensures r.snoozeStartTime == lc.snoozeStartTime
    ensures hasBuzzerCallback ==> !r.buzzerActive && r.buzzerCalls == lc.buzzerCalls + [false]
    ensures !hasBuzzerCallback ==> r.buzzerActive == lc.buzzerActive && r.buzzerCalls == lc.buzzerCalls
  {
    Signal(lc.(state := Idle, activeAlarmId := 0, alarmStartTime := 0), hasBuzzerCallback, false)
  }

  /** snoozeCurrentAlarm: only from TRIGGERED, into SNOOZED from `now`, buzzer off. */
  function SnoozeStep(lc: Lifecycle, now: Millis, hasBuzzerCallback: bool): (r: Lifecycle)
    ensures LifecycleValid(lc) ==> LifecycleValid(r)
    ensures LegalTransition(lc.state, r.state)
    ensures lc.state != Triggered ==> r == lc
    ensures lc.state == Triggered ==>
      && r.state == Snoozed && r.activeAlarmId == lc.activeAlarmId && r.snoozeStartTime == now
      && r.alarmStartTime == lc.alarmStartTime
    ensures lc.state == Triggered && hasBuzzerCallback ==>
      !r.buzzerActive && r.buzzerCalls == lc.buzzerCalls + [false]
    ensures lc.state == Triggered && !hasBuzzerCallback ==>
      r.buzzerActive == lc.buzzerActive && r.buzzerCalls == lc.buzzerCalls
  {
    if lc.state != Triggered then lc
    else Signal(lc.(state := Snoozed, snoozeStartTime := now), hasBuzzerCallback, false)
  }

  /** onPillBoxOpened: from TRIGGERED, stop the alarm, then wait for the box to close. */
  function PillBoxOpenedStep(lc: Lifecycle, hasBuzzerCallback: bool): (r: Lifecycle)
    ensures LifecycleValid(lc) ==> LifecycleValid(r)
    ensures LegalTransition(lc.state, r.state)
    ensures lc.state != Triggered ==> r == lc
    ensures lc.state == Triggered ==>
      && r.state == WaitingForPillBox && r.activeAlarmId == 0 && r.alarmStartTime == 0
      && r.snoozeStartTime == lc.snoozeStartTime
    ensures lc.state == Triggered && hasBuzzerCallback ==>
      !r.buzzerActive && r.buzzerCalls == lc.buzzerCalls + [false]
    ensures lc.state == Triggered && !hasBuzzerCallback ==>
      r.buzzerActive == lc.buzzerActive && r.buzzerCalls == lc.buzzerCalls
  {
    if lc.state == Triggered then StopStep(lc, hasBuzzerCallback).(state := WaitingForPillBox)
    else lc
  }

  /** update: one tick of the lifecycle. */
  function UpdateStep(
    lc: Lifecycle, alarms: seq<Alarm>, hasBuzzerCallback: bool,
    now: Millis, clock: Option<DateTime>, pillBox: Option<bool>): (r: Lifecycle)
  {
    if clock.None? then lc
    else match lc.state
      case Idle =>
        (match FirstMatch(alarms, clock.value)
          case None => lc
          case Some(i) => TriggerStep(lc, alarms[i].id, now, hasBuzzerCallback))
      case Triggered =>
        var afterPillBox := if pillBox == Some(true) then PillBoxOpenedStep(lc, hasBuzzerCallback) else lc;
        var afterExpiry :=
          if Elapsed(now, afterPillBox.alarmStartTime) >= AlarmBuzzerDurationMs then StopStep(afterPillBox, hasBuzzerCallback)
          else afterPillBox;
        if hasBuzzerCallback && !afterExpiry.buzzerActive then Signal(afterExpiry, true, true) else afterExpiry
      case Snoozed =>
        if Elapsed(now, lc.snoozeStartTime) >= AlarmSnoozeDurationMs then
          lc.(state := Triggered, alarmStartTime := now)
        else lc
      case WaitingForPillBox =>
        if pillBox == Some(false) then lc.(state := Idle, activeAlarmId := 0) else lc
  }

  predicate IdsPositive(alarms: seq<Alarm>) {
    forall j :: 0 <= j < |alarms| ==> alarms[j].id != 0
  }

  /** Every tick keeps the lifecycle invariant and takes a legal transition. */
  lemma UpdateKeepsLifecycle(
    lc: Lifecycle, alarms: seq<Alarm>, hasBuzzerCallback: bool,
    now: Millis, clock: Option<DateTime>, pillBox: Option<bool>)
    requires LifecycleValid(lc) && IdsPositive(alarms)
    ensures LifecycleValid(UpdateStep(lc, alarms, hasBuzzerCallback, now, clock, pillBox))
    ensures LegalTransition(lc.state, UpdateStep(lc, alarms, hasBuzzerCallback, now, clock, pillBox).state)
  {
    var r := UpdateStep(lc, alarms, hasBuzzerCallback, now, clock, pillBox);
    if clock.Some? && lc.state == Triggered {
      var afterPillBox := if pillBox == Some(true) then PillBoxOpenedStep(lc, hasBuzzerCallback) else lc;
      var afterExpiry :=
        if Elapsed(now, afterPillBox.alarmStartTime) >= AlarmBuzzerDurationMs then StopStep(afterPillBox, hasBuzzerCallback)
        else afterPillBox;
      assert LifecycleValid(afterExpiry);
      assert afterExpiry.state in {Triggered, WaitingForPillBox, Idle};
    }
  }

  /** Without a clock the tick changes nothing. */
  lemma UpdateWithoutClock(lc: Lifecycle, alarms: seq<Alarm>, hasBuzzerCallback: bool, now: Millis, pillBox: Option<bool>)
    ensures UpdateStep(lc, alarms, hasBuzzerCallback, now, None, pillBox) == lc
  {
  }

  /**
   * In IDLE the first enabled alarm whose time matches, in list order, is triggered with its
   * id from `now`; when none matches nothing changes.
   */
  lemma IdleTriggersFirstMatch(
    lc: Lifecycle, alarms: seq<Alarm>, hasBuzzerCallback: bool, now: Millis, clock: DateTime, pillBox: Option<bool>)
    requires lc.state == Idle
    ensures
      var r := UpdateStep(lc, alarms, hasBuzzerCallback, now, Some(clock), pillBox);
      && ((forall j :: 0 <= j < |alarms| ==> !Fires(alarms[j], clock)) ==> r == lc)
      && (forall i ::
            (0 <= i < |alarms| && Fires(alarms[i], clock) && (forall j :: 0 <= j < i ==> !Fires(alarms[j], clock)))
            ==>
            && r.state == Triggered
            && r.activeAlarmId == alarms[i].id
            && r.alarmStartTime == now
            && (hasBuzzerCallback ==> r.buzzerActive && r.buzzerCalls == lc.buzzerCalls + [true]))
  {
    forall i | 0 <= i < |alarms| && Fires(alarms[i], clock) && (forall j :: 0 <= j < i ==> !Fires(alarms[j], clock))
      ensures FirstMatch(alarms, clock) == Some(i)
    {
      FirstMatchIsFirst(alarms, clock, i);
    }
  }

  /**
   * With a buzzer callback installed, every TRIGGERED tick ends with the buzzer on, whatever
   * else the tick did: lines 79-82 re-assert it after the pill-box and auto-stop paths too.
   */
  lemma TriggeredTickLeavesBuzzerOn(
    lc: Lifecycle, alarms: seq<Alarm>, now: Millis, clock: DateTime, pillBox: Option<bool>)
    requires lc.state == Triggered
    ensures UpdateStep(lc, alarms, true, now, Some(clock), pillBox).buzzerActive
  {
  }

  /**
   * The pill box opening during TRIGGERED: the alarm is stopped (activeAlarmId already 0 and
   * the start time reset) and the manager waits for the box to close; but because the start
   * time is now 0, a tick at or past 300000 ms of uptime also takes the auto-stop path and ends
   * in IDLE. Either way the buzzer is switched off and then on again in the same tick.
   */
  lemma PillBoxOpenedTick(lc: Lifecycle, alarms: seq<Alarm>, now: Millis, clock: DateTime)
    requires lc.state == Triggered
    ensures
      var r := UpdateStep(lc, alarms, true, now, Some(clock), Some(true));
      && r.activeAlarmId == 0
      && r.alarmStartTime == 0
      && (now < AlarmBuzzerDurationMs ==>
            r.state == WaitingForPillBox && r.buzzerCalls == lc.buzzerCalls + [false, true])
      && (now >= AlarmBuzzerDurationMs ==>
            r.state == Idle && r.buzzerCalls == lc.buzzerCalls + [false, false, true])
      && r.buzzerActive
  {
    var afterPillBox := PillBoxOpenedStep(lc, true);
    assert afterPillBox.alarmStartTime == 0;
    assert Elapsed(now, 0) == now;
  }

  /**
   * The auto-stop after ALARM_BUZZER_DURATION_MS: the alarm is stopped and the manager is IDLE,
   * yet the buzzer callback is called with false and then true again, so it is left on.
   */
  lemma AutoStopTick(lc: Lifecycle, alarms: seq<Alarm>, now: Millis, clock: DateTime, pillBox: Option<bool>)
    requires lc.state == Triggered && pillBox != Some(true)
    requires Elapsed(now, lc.alarmStartTime) >= AlarmBuzzerDurationMs
    ensures
      var r := UpdateStep(lc, alarms, true, now, Some(clock), pillBox);
      && r.state == Idle && r.activeAlarmId == 0 && r.alarmStartTime == 0
      && r.buzzerActive && r.buzzerCalls == lc.buzzerCalls + [false, true]
  {
  }

  /**
   * A TRIGGERED tick without the pill box opening and before the maximum duration keeps the
   * alarm ringing: state, id and start time stay as they were.
   */
  lemma TriggeredTickKeepsRinging(
    lc: Lifecycle, alarms: seq<Alarm>, hasBuzzerCallback: bool, now: Millis, clock: DateTime, pillBox: Option<bool>)
    requires lc.state == Triggered && pillBox != Some(true)
    requires Elapsed(now, lc.alarmStartTime) < AlarmBuzzerDurationMs
    ensures
      var r := UpdateStep(lc, alarms, hasBuzzerCallback, now, Some(clock), pillBox);
      r.state == Triggered && r.activeAlarmId == lc.activeAlarmId && r.alarmStartTime == lc.alarmStartTime
  {
  }

  /**
   * Snoozing and then ticking: before ALARM_SNOOZE_DURATION_MS has elapsed since the snooze the
   * manager stays SNOOZED; from then on it is TRIGGERED again for the same alarm, timed anew.
   */
  lemma SnoozeThenWake(
    lc: Lifecycle, alarms: seq<Alarm>, hasBuzzerCallback: bool,
    snoozedAt: Millis, now: Millis, clock: DateTime, pillBox: Option<bool>)
    requires lc.state == Triggered
    ensures
      var s := SnoozeStep(lc, snoozedAt, hasBuzzerCallback);
      var r := UpdateStep(s, alarms, hasBuzzerCallback, now, Some(clock), pillBox);
      && (Elapsed(now, snoozedAt) < AlarmSnoozeDurationMs ==> r == s)
      && (Elapsed(now, snoozedAt) >= AlarmSnoozeDurationMs ==>
            r.state == Triggered && r.activeAlarmId == lc.activeAlarmId && r.alarmStartTime == now)
  {
  }

  /** WAITING_FOR_PILL_BOX ends, in IDLE with no active alarm, exactly when the check reports closed. */
  lemma WaitingEndsWhenClosed(
    lc: Lifecycle, alarms: seq<Alarm>, hasBuzzerCallback: bool, now: Millis, clock: DateTime, pillBox: Option<bool>)
    requires lc.state == WaitingForPillBox
    ensures
      var r := UpdateStep(lc, alarms, hasBuzzerCallback, now, Some(clock), pillBox);
      && (r.state == Idle <==> pillBox == Some(false))
      && (pillBox == Some(false) ==> r.activeAlarmId == 0 && r.buzzerCalls == lc.buzzerCalls)
      && (pillBox != Some(false) ==> r == lc)
  {
  }

  // ---------------------------------------------------------------------------------------
  // The manager

  class AlarmManager {
    var alarms: seq<Alarm>
    var state: AlarmState
    var activeAlarmId: Byte
    var alarmStartTime: Millis
    var snoozeStartTime: Millis
    var buzzerActive: bool
    var hasBuzzerCallback: bool
    /** Every argument the buzzer callback has been called with, oldest first. */
    var buzzerCalls: seq<bool>

    function Current(): Lifecycle
      reads this
    {
      Lifecycle(state, activeAlarmId, alarmStartTime, snoozeStartTime, buzzerActive, buzzerCalls)
    }

    ghost predicate Valid()
      reads this
    {
      && |alarms| <= MaxAlarms
      && IdsPositive(alarms)
      && LifecycleValid(Current())
    }

    constructor ()
      ensures Valid()
      ensures alarms == [] && state == Idle && activeAlarmId == 0
      ensures alarmStartTime == 0 && snoozeStartTime == 0
      ensures !buzzerActive && !hasBuzzerCallback && buzzerCalls == []
    {
      alarms := [];
      state := Idle;
      activeAlarmId := 0;
      alarmStartTime := 0;
      snoozeStartTime := 0;
      buzzerActive := false;
      hasBuzzerCallback := false;
      buzzerCalls := [];
    }

    /** setBuzzerCallback: install (or remove) the buzzer callback. */
    method SetBuzzerCallback(installed: bool)
      requires Valid()
      modifies this
      ensures Valid()
      ensures hasBuzzerCallback == installed
      ensures alarms == old(alarms) && Current() == old(Current())
    {
      hasBuzzerCallback := installed;
    }

    /**
     * begin: fails, changing nothing, when the store cannot be opened; otherwise loads the
     * alarms from it.
     */
    method Begin(storageOpens: bool, storedCount: nat, stored: seq<StoredAlarm>) returns (ok: bool)
      requires Valid()
      modifies this
      ensures Valid()
      ensures ok == storageOpens
      ensures !ok ==> alarms == old(alarms)
      ensures ok ==> |alarms| == Min(storedCount, MaxAlarms)
      ensures ok ==> forall i :: 0 <= i < |alarms| ==> alarms[i] == Loaded(i, StoredAt(stored, i))
      ensures Current() == old(Current()) && hasBuzzerCallback == old(hasBuzzerCallback)
    {
      if !storageOpens {
        return false;
      }
      LoadAlarmsFromFlash(storedCount, stored);
      ok := true;
    }

    /**
     * loadAlarmsFromFlash: the list becomes the first min(count, MAX_ALARMS) stored slots,
     * slot i getting id i + 1.
     */
    method LoadAlarmsFromFlash(storedCount: nat, stored: seq<StoredAlarm>)
      requires Valid()
      modifies this
      ensures Valid()
      ensures |alarms| == Min(storedCount, MaxAlarms)
      ensures forall i :: 0 <= i < |alarms| ==> alarms[i] == Loaded(i, StoredAt(stored, i))
      ensures Current() == old(Current()) && hasBuzzerCallback == old(hasBuzzerCallback)
    {
      alarms := [];
      var i := 0;
      while i < storedCount && i < MaxAlarms
        invariant i <= MaxAlarms && i <= storedCount
        invariant |alarms| == i
        invariant forall j :: 0 <= j < i ==> alarms[j] == Loaded(j, StoredAt(stored, j))
        invariant Current() == old(Current()) && hasBuzzerCallback == old(hasBuzzerCallback)
      {
        alarms := alarms + [Loaded(i, StoredAt(stored, i))];
        i := i + 1;
      }
    }

    /**
     * addAlarm: refused when the list is full or the time is invalid; otherwise appends an
     * enabled repeating alarm whose id is the old length plus one.
     */
    method AddAlarm(hour: Byte, minute: Byte, dayMask: Byte, labelText: string) returns (ok: bool)
      requires Valid()
      modifies this
      ensures Valid()
      ensures ok <==> |old(alarms)| < MaxAlarms && hour <= 23 && minute <= 59
      ensures ok ==> alarms == old(alarms) + [NewRepeating(|old(alarms)|, hour, minute, dayMask, labelText)]
      ensures !ok ==> alarms == old(alarms)
      ensures Current() == old(Current()) && hasBuzzerCallback == old(hasBuzzerCallback)
    {
      if |alarms| >= MaxAlarms {
        return false;
      }
      if hour > 23 || minute > 59 {
        return false;
      }
      alarms := alarms + [NewRepeating(|alarms|, hour, minute, dayMask, labelText)];
      ok := true;
    }

    /**
     * addOneTimeAlarm: refused when the list is full or the time is invalid; otherwise appends
     * an enabled one-time alarm for `date`, with mask 0 and id the old length plus one.
     */
    method AddOneTimeAlarm(hour: Byte, minute: Byte, date: Date, labelText: string) returns (ok: bool)
      requires Valid()
      modifies this
      ensures Valid()
      ensures ok <==> |old(alarms)| < MaxAlarms && hour <= 23 && minute <= 59
      ensures ok ==> alarms == old(alarms) + [NewOneTime(|old(alarms)|, hour, minute, date, labelText)]
      ensures !ok ==> alarms == old(alarms)
      ensures Current() == old(Current()) && hasBuzzerCallback == old(hasBuzzerCallback)
    {
      if |alarms| >= MaxAlarms {
        return false;
      }
      if hour > 23 || minute > 59 {
        return false;
      }
      alarms := alarms + [NewOneTime(|alarms|, hour, minute, date, labelText)];
      ok := true;
    }

    /** removeAlarm: erases the first alarm with the id; false, changing nothing, if none has it. */
    method RemoveAlarm(alarmId: Byte) returns (ok: bool)
      requires Valid()
      modifies this
      ensures Valid()
      ensures ok <==> IndexOfId(old(alarms), alarmId as int).Some?
      ensures ok ==> alarms == RemoveAt(old(alarms), IndexOfId(old(alarms), alarmId as int).value)
      ensures !ok ==> alarms == old(alarms)
      ensures Current() == old(Current()) && hasBuzzerCallback == old(hasBuzzerCallback)
    {
      var i := 0;
      while i < |alarms|
        invariant 0 <= i <= |alarms|
        invariant forall j :: 0 <= j < i ==> alarms[j].id != alarmId
      {
        if alarms[i].id == alarmId {
          alarms := RemoveAt(alarms, i);
          return true;
        }
        i := i + 1;
      }
      return false;
    }

    /** enableAlarm: sets `enabled` of the first alarm with the id, and nothing else. */
    method EnableAlarm(alarmId: Byte, enabled: bool) returns (ok: bool)
      requires Valid()
      modifies this
      ensures Valid()
      ensures ok <==> IndexOfId(old(alarms), alarmId as int).Some?
      ensures ok ==>
        var k := IndexOfId(old(alarms), alarmId as int).value;
        alarms == old(alarms)[k := old(alarms)[k].(enabled := enabled)]
      ensures !ok ==> alarms == old(alarms)
      ensures Current() == old(Current()) && hasBuzzerCallback == old(hasBuzzerCallback)
    {
      var i := 0;
      while i < |alarms|
        invariant 0 <= i <= |alarms|
        invariant forall j :: 0 <= j < i ==> alarms[j].id != alarmId
      {
        if alarms[i].id == alarmId {
          alarms := alarms[i := alarms[i].(enabled := enabled)];
          return true;
        }
        i := i + 1;
      }
      return false;
    }

    /**
     * modifyAlarm: an invalid time is refused before any search; otherwise the first alarm with
     * the id gets the new hour, minute and mask, and nothing else of it changes.
     */
    method ModifyAlarm(alarmId: Byte, hour: Byte, minute: Byte, dayMask: Byte) returns (ok: bool)
      requires Valid()
      modifies this
      ensures Valid()
      ensures ok <==> hour <= 23 && minute <= 59 && IndexOfId(old(alarms), alarmId as int).Some?
      ensures ok ==>
        var k := IndexOfId(old(alarms), alarmId as int).value;
        alarms == old(alarms)[k := old(alarms)[k].(hour := hour, minute := minute, dayMask := dayMask)]
      ensures !ok ==> alarms == old(alarms)
      ensures Current() == old(Current()) && hasBuzzerCallback == old(hasBuzzerCallback)
    {
      if hour > 23 || minute > 59 {
        return false;
      }
      var i := 0;
      while i < |alarms|
        invariant 0 <= i <= |alarms|
        invariant forall j :: 0 <= j < i ==> alarms[j].id != alarmId
      {
        if alarms[i].id == alarmId {
          alarms := alarms[i := alarms[i].(hour := hour, minute := minute, dayMask := dayMask)];
          return true;
        }
        i := i + 1;
      }
      return false;
    }

    /** clearAllAlarms: the list becomes empty; the lifecycle is left as it is. */
    method ClearAllAlarms()
      requires Valid()
      modifies this
      ensures Valid()
      ensures alarms == []
      ensures Current() == old(Current()) && hasBuzzerCallback == old(hasBuzzerCallback)
    {
      alarms := [];
    }

    /** getAlarm: the first alarm with the id, if any. */
    function GetAlarm(alarmId: Byte): (r: Option<Alarm>)
      reads this
      ensures r.Some? ==> r.value in alarms && r.value.id == alarmId
      ensures r.Some? ==> exists k :: 0 <= k < |alarms| && alarms[k] == r.value
                                      && forall j :: 0 <= j < k ==> alarms[j].id != alarmId
      ensures r.None? <==> forall a :: a in alarms ==> a.id != alarmId
    {
      match IndexOfId(alarms, alarmId as int)
      case None => None
      case Some(k) => Some(alarms[k])
    }

    method TriggerAlarm(alarmId: Byte, now: Millis)
      modifies this
      ensures Current() == TriggerStep(old(Current()), alarmId, now, hasBuzzerCallback)
      ensures alarms == old(alarms) && hasBuzzerCallback == old(hasBuzzerCallback)
    {
      state := Triggered;
      activeAlarmId := alarmId;
      alarmStartTime := now;
      if hasBuzzerCallback {
        buzzerCalls := buzzerCalls + [true];
        buzzerActive := true;
      }
    }

    method StopAlarm()
      modifies this
      ensures Current() == StopStep(old(Current()), hasBuzzerCallback)
      ensures alarms == old(alarms) && hasBuzzerCallback == old(hasBuzzerCallback)
    {
      state := Idle;
      if hasBuzzerCallback {
        buzzerCalls := buzzerCalls + [false];
        buzzerActive := false;
      }
      activeAlarmId := 0;
      alarmStartTime := 0;
    }

    /** snoozeCurrentAlarm: true, and SNOOZED from `now`, exactly when the alarm is ringing. */
    method SnoozeCurrentAlarm(now: Millis) returns (ok: bool)
      requires Valid()
      modifies this
      ensures Valid()
      ensures ok == (old(state) == Triggered)
      ensures Current() == SnoozeStep(old(Current()), now, hasBuzzerCallback)
      ensures alarms == old(alarms) && hasBuzzerCallback == old(hasBuzzerCallback)
    {
      if state != Triggered {
        return false;
      }
      state := Snoozed;
      snoozeStartTime := now;
      if hasBuzzerCallback {
        buzzerCalls := buzzerCalls + [false];
        buzzerActive := false;
      }
      ok := true;
    }

    /** dismissCurrentAlarm: stops the alarm, in whatever state the manager is. */
    method DismissCurrentAlarm()
      requires Valid()
      modifies this
      ensures Valid()
      ensures Current() == StopStep(old(Current()), hasBuzzerCallback)
      ensures alarms == old(alarms) && hasBuzzerCallback == old(hasBuzzerCallback)
    {
      StopAlarm();
    }

    method OnPillBoxOpened()
      modifies this
      ensures Current() == PillBoxOpenedStep(old(Current()), hasBuzzerCallback)
      ensures alarms == old(alarms) && hasBuzzerCallback == old(hasBuzzerCallback)
    {
      if state == Triggered {
        StopAlarm();
        state := WaitingForPillBox;
      }
    }

    /** update: one tick of the lifecycle at `now`, with the clock and pill-box readings given. */
    method Update(now: Millis, clock: Option<DateTime>, pillBox: Option<bool>)
      requires Valid()
      modifies this
      ensures Valid()
      ensures Current() == UpdateStep(old(Current()), alarms, hasBuzzerCallback, now, clock, pillBox)
      ensures alarms == old(alarms) && hasBuzzerCallback == old(hasBuzzerCallback)
    {
      ghost var before := Current();
      UpdateKeepsLifecycle(before, alarms, hasBuzzerCallback, now, clock, pillBox);
      if clock.None? {
        return;
      }
      var time := clock.value;
      match state {
        case Idle =>
          var i := 0;
          while i < |alarms|
            invariant 0 <= i <= |alarms|
            invariant forall j :: 0 <= j < i ==> !Fires(alarms[j], time)
            invariant Current() == before
            invariant alarms == old(alarms) && hasBuzzerCallback == old(hasBuzzerCallback)
          {
            if alarms[i].enabled && IsAlarmTimeMatched(alarms[i], time) {
              FirstMatchIsFirst(alarms, time, i);
              TriggerAlarm(alarms[i].id, now);
              break;
            }
            i := i + 1;
          }
        case Triggered =>
          if pillBox == Some(true) {
            OnPillBoxOpened();
          }
          if Elapsed(now, alarmStartTime) >= AlarmBuzzerDurationMs {
            StopAlarm();
          }
          if hasBuzzerCallback && !buzzerActive {
            buzzerCalls := buzzerCalls + [true];
            buzzerActive := true;
          }
        case Snoozed =>
          if Elapsed(now, snoozeStartTime) >= AlarmSnoozeDurationMs {
            state := Triggered;
            alarmStartTime := now;
          }
        case WaitingForPillBox =>
          if pillBox == Some(false) {
            state := Idle;
            activeAlarmId := 0;
          }
      }
    }
  }
}
