/**
 * Runs of several operations in a row, through the managers' own methods, showing how the
 * components behave as written.
 */
module Scenarios {
  import opened Common
  import opened AlarmText
  import opened Alarms
  import Buzzer
  import Sensors
  import Logging

  /** 07:00 on Monday 6 January 2025. */
  const Monday7am := DateTime(Date(125, 0, 6), 1, 7, 0)

  /**
   * Three alarms are added (ids 1, 2, 3), the first is removed, and one more is added: it
   * gets id 3 again, the list length plus one, so two alarms share an id.
   */
  method IdReuseAfterRemoval() returns (ids: seq<Byte>)
    ensures ids == [2, 3, 3]
  {
    var m := new AlarmManager();
    var ok := m.AddAlarm(6, 30, Weekdays, []);
    ok := m.AddAlarm(7, 0, Weekdays, []);
    ok := m.AddAlarm(8, 0, Weekends, []);
    ok := m.RemoveAlarm(1);
    ok := m.AddAlarm(9, 0, 0, []);
    ids := [m.alarms[0].id, m.alarms[1].id, m.alarms[2].id];
  }

  /**
   * An alarm rings once the device has been up for more than 300000 ms; the pill box is opened
   * 100 ms later. The same tick that enters WAITING_FOR_PILL_BOX also finds the (reset) start
   * time 0 more than 300000 ms ago, stops again into IDLE, and finally switches the buzzer back
   * on: the manager is IDLE with the buzzer left sounding.
   */
  method PillBoxOpenedLateInUptime() returns (state: AlarmState, buzzerOn: bool, calls: seq<bool>)
    ensures state == Idle && buzzerOn
    ensures calls == [true, false, false, true]
  {
    var m := new AlarmManager();
    m.SetBuzzerCallback(true);
    var ok := m.AddAlarm(7, 0, Weekdays, []);
    KeywordMasksSelectTheirDays(1);
    m.Update(400000, Some(Monday7am), None);
    assert m.state == Triggered;
    m.Update(400100, Some(Monday7am), Some(true));
    state, buzzerOn, calls := m.state, m.buzzerActive, m.buzzerCalls;
  }

  /**
   * The same alarm, with the pill box opened early in the device's uptime: the manager waits
   * for the box to close and then returns to IDLE, but the buzzer is still on.
   */
  method PillBoxOpenedEarlyThenClosed() returns (states: seq<AlarmState>, buzzerOn: bool)
    ensures states == [Triggered, WaitingForPillBox, WaitingForPillBox, Idle]
    ensures buzzerOn
  {
    var m := new AlarmManager();
    m.SetBuzzerCallback(true);
    var ok := m.AddAlarm(7, 0, Weekdays, []);
    KeywordMasksSelectTheirDays(1);
    m.Update(1000, Some(Monday7am), None);
    var s1 := m.state;
    m.Update(2000, Some(Monday7am), Some(true));
    var s2 := m.state;
    m.Update(3000, Some(Monday7am), Some(true));
    var s3 := m.state;
    m.Update(4000, Some(Monday7am), Some(false));
    states := [s1, s2, s3, m.state];
    buzzerOn := m.buzzerActive;
  }

  /**
   * Snoozing a ringing alarm and ticking after the snooze period: the same alarm rings again,
   * timed from the wake-up tick.
   */
  method SnoozeAndWake() returns (snoozed: bool, state: AlarmState, id: Byte, start: Millis)
    ensures snoozed && state == Triggered && id == 1 && start == 600000
  {
    var m := new AlarmManager();
    var ok := m.AddAlarm(7, 0, Weekdays, []);
    KeywordMasksSelectTheirDays(1);
    m.Update(1000, Some(Monday7am), None);
    snoozed := m.SnoozeCurrentAlarm(2000);
    m.Update(100000, Some(Monday7am), None);
    assert m.state == Snoozed;
    m.Update(600000, Some(Monday7am), None);
    state, id, start := m.state, m.activeAlarmId, m.alarmStartTime;
  }

  /**
   * The SUCCESS pattern, played and then updated well past the length of its table, is still
   * playing at step 0: its first step's pause keeps it replaying the first tone.
   */
  method SuccessPatternNeverEnds() returns (pattern: Buzzer.Pattern, active: bool, step: int)
    ensures pattern == Buzzer.Success && active && step == 0
  {
    var b := new Buzzer.BuzzerController();
    b.PlayPattern(Buzzer.Success, 0);
    var t: Millis := 0;
    while t < 5000
      invariant b.Valid() && b.currentPattern == Buzzer.Success && b.isActive && b.patternStep == 0
      invariant t <= 5000 && t % 50 == 0
    {
      t := t + 50;
      Buzzer.ExecuteStepKeepsRange(b.State(), Buzzer.Success, t);
      b.Update(t);
    }
    pattern, active, step := b.currentPattern, b.isActive, b.patternStep;
  }

  /**
   * A pill-box switch that bounces open for 20 ms and settles closed again is never reported;
   * held open for 50 ms, it is reported once.
   */
  method PillBoxBounce() returns (openAfterBounce: bool, openAfterHold: bool, reports: seq<bool>)
    ensures !openAfterBounce && openAfterHold && reports == [true]
  {
    var s := new Sensors.SensorManager();
    s.SetCallbacks(false, false, true);
    s.ReadPillBoxState(1000, true);
    s.ReadPillBoxState(1020, false);
    s.ReadPillBoxState(1200, false);
    openAfterBounce := s.currentPillBoxState;
    s.ReadPillBoxState(2000, true);
    s.ReadPillBoxState(2050, true);
    openAfterHold := s.currentPillBoxState;
    reports := s.pillBoxCalls;
  }

  /**
   * When the "logger" namespace cannot be opened, begin fails; later entries still reach the
   * buffer and still advance the flash counter, but nothing is stored in flash. A second begin
   * that opens the namespace lets the next entry through, under the key the counter has reached.
   */
  method FlashWritesNeedOpenNamespace() returns (failed: bool, before: map<string, Logging.LogEntry>, keys: set<string>)
    ensures failed && before == map[] && keys == {Logging.FlashKey(1)}
  {
    var l := new Logging.Logger();
    var ok := l.Begin(false, 0);
    failed := !ok;
    l.Log(Logging.Info, Logging.SystemStart, "first", "", 10);
    before := l.flash;
    ok := l.Begin(true, 20);
    keys := l.flash.Keys;
  }
}
