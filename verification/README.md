# nighty_byte smart alarm — a Dafny model of the firmware core

The model covers the timing and state logic of the alarm, buzzer, sensor and logger components
of the nighty_byte ESP32 bedside alarm:

- **alarm manager** (`alarms.dfy`, `alarm_text.dfy`):
  - holds up to five alarms and matches them against the wall clock;
  - runs the lifecycle IDLE → TRIGGERED → SNOOZED / WAITING_FOR_PILL_BOX / IDLE;
  - drives the buzzer through a callback;
  - also the static day-mask and time text helpers.
- **buzzer controller** (`buzzer.dfy`): the pattern engine.
  - Tone tables are walked step by step.
  - The fast and slow beeps toggle.
  - The pulse ramps up and down.
- **sensor manager** (`sensors.dfy`):
  - a ten-slot running-average light filter with a bedtime (light → dark) callback;
  - a USB-power detector;
  - a debounced pill-box switch;
  - each read on its own interval.
- **logger** (`logger.dfy`):
  - a FIFO buffer of at most 100 entries;
  - twenty rotating flash keys;
  - the per-level summary counts;
  - the text export.

`config.dfy` holds the compile-time constants of `include/config.h`. `common.dfy` holds the
pieces they share:

- the 32-bit `millis()` tick;
- `Elapsed`, the unsigned subtraction `now - since` modulo 2^32, so roll-over behaves as on the
  device;
- decimal text with its round trip.

`scenarios.dfy` drives the manager classes through several calls in a row.

## How the model is built

Each C++ class is a Dafny `class` whose methods update its fields in place. The fields are the
C++ fields that hold state, with some changes:

- Hardware handles are not fields: pins, the logger pointer, the RTC and the preferences store.
- Some fields stand for hardware outputs or hidden state: the PWM `duty` and `pwmFrequency` of
  the buzzer, the `flash` map, `flashCounter` and `namespaceOpen` of the logger.
- Each callback is a flag plus a record of the calls made to it.

Each class has a value view: `AlarmManager.Current()`, `BuzzerController.State()` and
`SensorManager.State()`.

Every state-changing method is specified against a pure step function of the old view, for
example `ensures Current() == UpdateStep(old(Current()), …)`. The lemmas about those step
functions state the properties:

- the lifecycle invariant and the legal transitions;
- the behaviour of each branch;
- the debounce rule;
- the FIFO window of the log;
- and so on.

The light buffer is an `array<int>`, as in the source. Everything the firmware reads from
hardware is an argument of the operation that reads it:

- `millis()` is `now`;
- the RTC reading is `clock: Option<DateTime>`, with `None` when it is unavailable;
- an `analogRead` or `digitalRead` result is `raw`.

Callbacks are modelled in two ways:

- Callbacks the component calls are a flag saying whether one is installed, plus a sequence
  recording every call made, in order.
- The pill-box check that the alarm manager polls is an `Option<bool>` argument: `None` means no
  callback is installed, otherwise it holds the callback's answer.

The model follows the code as written. Several of the behaviours it proves are easy to miss when
reading the code:

- Ids are the list length plus one (src/AlarmManager.cpp:127), so they are reused after a
  removal: `AddAfterRemovalRepeatsId` and `Scenarios.IdReuseAfterRemoval`.
- Opening the pill box stops the alarm before entering WAITING_FOR_PILL_BOX, so the active id is
  0 there. The lifecycle invariant is therefore "an id is active exactly in TRIGGERED and
  SNOOZED".
- In the same TRIGGERED tick, the buzzer is switched back on after the pill box opens and after
  the auto-stop (`PillBoxOpenedTick`, `AutoStopTick`).
- At an uptime of 300000 ms or more, the pill-box tick ends in IDLE rather than
  WAITING_FOR_PILL_BOX. The reason is that the reset start time 0 looks expired.
- The pause of a tone step is measured from the moment just recorded, so it never elapses. Every
  table's first step has a pause, so table patterns repeat their first tone forever
  (`TablePatternStaysAtFirstStep`).
- `setBuzzer(true)` sounds the last frequency played, not the configured default.
- `stringToDayMask` searches for lower-case day names only. The capitalised names that
  `dayMaskToString` prints therefore read back as the empty mask
  (`SingleDayTextReadsBackEmpty`).
- Running `initializeLightSamples` twice without a reset counts the first samples twice
  (`InitializeTwiceDoublesTotal`).

## Model

| member | source | states |
|---|---|---|
| Common.Elapsed | src/AlarmManager.cpp:69 | `now - since` on unsigned long: equal to the difference when no roll-over happened, otherwise the difference plus 2^32; always below 2^32 |
| Common.DecimalText | src/Logger.cpp:134 | Arduino `String(n)`: a non-empty string of decimal digits, one digit exactly for n < 10, at most two for n < 100 |
| Common.DecimalRoundTrip | src/Logger.cpp:195 | the decimal text of a number reads back as the same number |
| Common.DecimalTextInjective | src/Logger.cpp:134 | two different numbers never print the same text |
| Common.TwoDigit | src/AlarmManager.cpp:449 | `%02d`: at least two digits, exactly two for n < 100, reading back as n |
| AlarmText.KeywordMasksSelectTheirDays | src/AlarmManager.cpp:413-415 | 0x7F holds every weekday, 0x3E exactly Monday to Friday, 0x41 exactly Saturday and Sunday |
| AlarmText.SingleDay | src/AlarmManager.cpp:407-408 | `1 << day` holds that weekday and no other |
| AlarmText.DayMaskToString | src/AlarmManager.cpp:411-428 | the loop builds the comma-separated list of set days, Sunday first, matching `DayMaskText`; the result is never empty |
| AlarmText.Lower | src/AlarmManager.cpp:431-433 | ASCII lower-casing used by equalsIgnoreCase: same length, each character lowered |
| AlarmText.IndexOfFrom | src/AlarmManager.cpp:436-442 | String::indexOf: -1 exactly when the pattern does not occur at or after `from`, otherwise the first position where it does |
| AlarmText.IndexOfShortText | src/AlarmManager.cpp:436-442 | a text no longer than the pattern contains it exactly when it equals it |
| AlarmText.StringToDayMask | src/AlarmManager.cpp:430-445 | the mask only ever uses the seven weekday bits |
| AlarmText.FoundMask | src/AlarmManager.cpp:435-444 | the mask OR-ed together from the per-day flags uses only the seven weekday bits |
| AlarmText.FlagBitsSelect | src/AlarmManager.cpp:436-442 | bit d of the OR-ed constants is set exactly when flag d is true |
| AlarmText.FoundMaskSelects | src/AlarmManager.cpp:435-444 | bit d of that mask is set exactly when flag d is true |
| AlarmText.OneFlagSet | src/AlarmManager.cpp:435-444 | with only one day's flag true, the mask is `1 << day` |
| AlarmText.DayNamesSelectDays | src/AlarmManager.cpp:430-445 | for a text that is no keyword, each day's bit is set exactly when that day's lower-case name occurs in the text |
| AlarmText.KeywordTextsIgnoringCase | src/AlarmManager.cpp:431-433 | each keyword text equals its own lower-case keyword ignoring case, and none of the keywords checked before it |
| AlarmText.KeywordMasksRoundTrip | src/AlarmManager.cpp:411-434 | mask 0 and 0x7F print "Daily", 0x3E "Weekdays", 0x41 "Weekends"; each text reads back as its mask, with 0 reading back as 0x7F |
| AlarmText.LowerDayName | src/AlarmManager.cpp:436-442 | each searched-for day name has three letters |
| AlarmText.ShortTextIsNoKeyword | src/AlarmManager.cpp:431-433 | a text shorter than five characters matches none of the keywords |
| AlarmText.NoDayNameFound | src/AlarmManager.cpp:430-445 | with no keyword and no lower-case day name in it, a text reads as the empty mask |
| AlarmText.OneDayNameFound | src/AlarmManager.cpp:430-445 | with no keyword and exactly one lower-case day name in it, a text reads as that day's single-bit mask |
| AlarmText.CapitalisedTextHoldsNoName | src/AlarmManager.cpp:436-442 | the case-sensitive search finds no lower-case day name in a text of at most three characters that starts with a capital |
| AlarmText.CapitalisedShortTextReadsEmpty | src/AlarmManager.cpp:430-445 | such a text reads as the empty mask |
| AlarmText.SingleDayList | src/AlarmManager.cpp:419-427 | the day list of a single-day mask over the first n days is that day's name once the day is among them, else empty |
| AlarmText.SingleDayText | src/AlarmManager.cpp:419-427 | a single-day mask prints as that day's capitalised name |
| AlarmText.SingleDayTextReadsBackEmpty | src/AlarmManager.cpp:411-445 | the printed text of a single-day mask reads back as mask 0, because the search is case-sensitive |
| AlarmText.LowerDayNames | src/AlarmManager.cpp:420-442 | the searched-for names are the printed names in lower case, and are pairwise different |
| AlarmText.OnlyOwnNameFound | src/AlarmManager.cpp:436-442 | searching a lower-case day name for all seven names finds only itself |
| AlarmText.LowerCaseDayNameReadsBack | src/AlarmManager.cpp:411-445 | a day name written in lower case reads back as that day's mask |
| AlarmText.FormatTime | src/AlarmManager.cpp:447-451 | for an hour and a minute below 100, "HH:MM" is five characters with ':' in the middle, and the two fields read back as the hour and the minute |
| Alarms.DayMatching | src/AlarmManager.cpp:406-409 | masks 0 and 0x7F match every weekday; any other mask matches exactly its set bits; a single-day mask matches that day only |
| Alarms.TimeMatching | src/AlarmManager.cpp:385-404 | a match needs equal hour and minute; after that, a one-time alarm matches exactly on its date and a repeating one exactly on a day its mask matches |
| Alarms.FirstMatch | src/AlarmManager.cpp:54-58 | the position of the first alarm, in list order, that is enabled and matches; None exactly when no alarm does |
| Alarms.FirstMatchIsFirst | src/AlarmManager.cpp:54-58 | an alarm that fires with none firing before it is the first match |
| Alarms.IndexOfId | src/AlarmManager.cpp:180-190 | the first position holding the id; None exactly when no alarm has it |
| Alarms.RemoveAt | src/AlarmManager.cpp:182 | vector::erase: one element shorter, earlier elements kept, later ones shifted down by one |
| Alarms.AddAfterRemovalRepeatsId | src/AlarmManager.cpp:127 | after removing any alarm other than the last, the next add gets the same id as the last alarm in the list |
| Alarms.Signal | src/AlarmManager.cpp:316-319 | calling the buzzer callback changes only the buzzer flag and the recorded calls |
| Alarms.TriggerStep | src/AlarmManager.cpp:311-328 | TRIGGERED with the given id and start time `now`, snooze time kept; with a callback the buzzer is called with true and is on, without one the buzzer fields are kept; a nonzero id establishes the lifecycle invariant; legal exactly from IDLE, TRIGGERED or SNOOZED |
| Alarms.StopStep | src/AlarmManager.cpp:330-346 | IDLE with id 0 and start time 0, snooze time kept; establishes the invariant and is always legal; with a callback the buzzer is called with false and is off, without one the buzzer fields are kept |
| Alarms.SnoozeStep | src/AlarmManager.cpp:238-259 | keeps the invariant and is legal; outside TRIGGERED it changes nothing; from TRIGGERED it enters SNOOZED with the same alarm and start time, snoozed from `now`, and a callback is called with false and the buzzer is off |
| Alarms.PillBoxOpenedStep | src/AlarmManager.cpp:265-276 | keeps the invariant and is legal; outside TRIGGERED it changes nothing; from TRIGGERED it waits for the box with id 0 and start time 0, snooze time kept, and a callback is called with false and the buzzer is off |
| Alarms.UpdateKeepsLifecycle | src/AlarmManager.cpp:41-112 | every tick keeps the lifecycle invariant and takes a legal transition |
| Alarms.UpdateWithoutClock | src/AlarmManager.cpp:46-49 | without the RTC, a tick changes nothing |
| Alarms.IdleTriggersFirstMatch | src/AlarmManager.cpp:52-60 | in IDLE, the first enabled matching alarm is triggered with its id from `now` and the buzzer on; with none matching nothing changes |
| Alarms.TriggeredTickLeavesBuzzerOn | src/AlarmManager.cpp:78-82 | with a buzzer callback, every TRIGGERED tick ends with the buzzer on |
| Alarms.PillBoxOpenedTick | src/AlarmManager.cpp:62-83 | the pill box opening while TRIGGERED gives: no active alarm and start time 0; WAITING_FOR_PILL_BOX with calls false, true before 300000 ms of uptime; IDLE with calls false, false, true from then on; the buzzer is left on |
| Alarms.AutoStopTick | src/AlarmManager.cpp:68-82 | after the maximum duration the alarm stops into IDLE, yet the buzzer is called with false then true and stays on |
| Alarms.TriggeredTickKeepsRinging | src/AlarmManager.cpp:62-83 | with the box closed and before the maximum duration, the state, the id and the start time are kept |
| Alarms.SnoozeThenWake | src/AlarmManager.cpp:85-97 | after a snooze the manager stays SNOOZED until 540000 ms have elapsed, then it is TRIGGERED again for the same alarm from the waking tick |
| Alarms.WaitingEndsWhenClosed | src/AlarmManager.cpp:99-110 | WAITING_FOR_PILL_BOX ends in IDLE exactly when the check reports the box closed; otherwise nothing changes |
| Alarms.AlarmManager.constructor | src/AlarmManager.cpp:10-19 | an empty list, IDLE, no active alarm, zero times, buzzer off, no callbacks |
| Alarms.AlarmManager.SetBuzzerCallback | include/AlarmManager.h:94 | only the callback changes |
| Alarms.AlarmManager.Begin | src/AlarmManager.cpp:25-39 | fails, changing nothing, when the store cannot be opened; otherwise loads the alarms |
| Alarms.AlarmManager.LoadAlarmsFromFlash | src/AlarmManager.cpp:363-383 | the list becomes the first min(count, 5) stored slots, slot i loaded with id i + 1 and missing fields at their defaults |
| Alarms.AlarmManager.AddAlarm | src/AlarmManager.cpp:114-145 | succeeds exactly when the list is not full and the time is valid; then appends an enabled repeating alarm whose id is the old length plus one; otherwise nothing changes |
| Alarms.AlarmManager.AddOneTimeAlarm | src/AlarmManager.cpp:147-177 | the same, for an enabled one-time alarm with mask 0 and the given date |
| Alarms.AlarmManager.RemoveAlarm | src/AlarmManager.cpp:179-191 | succeeds exactly when some alarm has the id, and erases the first such alarm; otherwise nothing changes |
| Alarms.AlarmManager.EnableAlarm | src/AlarmManager.cpp:193-207 | succeeds exactly when some alarm has the id; only that alarm's enabled flag changes |
| Alarms.AlarmManager.ModifyAlarm | src/AlarmManager.cpp:209-228 | an invalid time is refused first; otherwise succeeds exactly when the id exists, changing only that alarm's hour, minute and mask |
| Alarms.AlarmManager.ClearAllAlarms | src/AlarmManager.cpp:230-236 | the list becomes empty and the lifecycle is untouched |
| Alarms.AlarmManager.GetAlarm | src/AlarmManager.cpp:278-285 | the first alarm of the list with that id; None exactly when no alarm has the id |
| Alarms.AlarmManager.TriggerAlarm | src/AlarmManager.cpp:311-328 | the lifecycle takes `TriggerStep`; the list is untouched |
| Alarms.AlarmManager.StopAlarm | src/AlarmManager.cpp:330-346 | the lifecycle takes `StopStep`; the list is untouched |
| Alarms.AlarmManager.SnoozeCurrentAlarm | src/AlarmManager.cpp:238-259 | returns true exactly when the alarm was ringing; the lifecycle takes `SnoozeStep` and keeps its invariant |
| Alarms.AlarmManager.DismissCurrentAlarm | src/AlarmManager.cpp:261-263 | the same as stopping, from any state |
| Alarms.AlarmManager.OnPillBoxOpened | src/AlarmManager.cpp:265-276 | the lifecycle takes `PillBoxOpenedStep` |
| Alarms.AlarmManager.Update | src/AlarmManager.cpp:41-112 | the scan loop and the state branches compute `UpdateStep`; the manager invariant is kept |
| Buzzer.Table | src/BuzzerController.cpp:11-37 | every table ends in the {0,0,0} marker; every earlier step is audible with a positive duration; the first step has a pause |
| Buzzer.PlayToneStep | src/BuzzerController.cpp:156-171 | a positive frequency retunes the channel, sounds it at duty 128 and becomes the current frequency; otherwise the output goes silent; nothing else changes |
| Buzzer.StopPatternStep | src/BuzzerController.cpp:146-154 | OFF, inactive and silent; nothing else changes; keeps the controller invariant |
| Buzzer.PulseRamp | src/BuzzerController.cpp:208-218 | the intensity stays in [0, 255] and moves by 32 in the current direction; it turns round only at 255 (down) or 0 (up) |
| Buzzer.UpdateStep | src/BuzzerController.cpp:82-86 | OFF and CONTINUOUS are left unchanged |
| Buzzer.UpdateKeepsInvariant | src/BuzzerController.cpp:82-86 | update keeps the step index inside its table, a sounding tone before the end marker, and the pulse ramp in range |
| Buzzer.PlayPatternKeepsInvariant | src/BuzzerController.cpp:96-144 | playPattern keeps the same invariant |
| Buzzer.SetBuzzerKeepsInvariant | src/BuzzerController.cpp:88-94 | setBuzzer keeps the same invariant |
| Buzzer.ExecuteStepKeepsRange | src/BuzzerController.cpp:246-285 | a table step keeps the invariant; the pattern stays, or becomes OFF for a pattern other than ALARM; the pulse ramp is untouched |
| Buzzer.PlayPatternStarts | src/BuzzerController.cpp:96-144 | playPattern selects the pattern at step 0 from `now`, active exactly when not OFF; OFF silences the output; the beeps and pulse clear the tone flag but keep the output's duty, so a tone already sounding keeps sounding; a table pattern starts its first tone at once |
| Buzzer.SetBuzzerSelects | src/BuzzerController.cpp:88-94 | true plays CONTINUOUS at the current, last played frequency; false leaves OFF, inactive and silent |
| Buzzer.StepStartsOrEnds | src/BuzzerController.cpp:250-266 | with no tone sounding: before the marker the step's tone starts; at the marker ALARM loops to step 0 and the other patterns stop |
| Buzzer.ToneStartsOnlyAtToneStep | src/BuzzerController.cpp:250-255 | a tone starts only at a step before the marker, with that step's frequency |
| Buzzer.ToneEnds | src/BuzzerController.cpp:267-284 | once the tone's duration is up the output goes silent; the step advances only for a step without a pause; before then nothing changes |
| Buzzer.BeepsToggle | src/BuzzerController.cpp:181-203 | the fast and slow beeps flip the tone exactly when 250 or 1000 ms have passed since the last flip |
| Buzzer.PulseStaysInRange | src/BuzzerController.cpp:205-223 | every 100 ms the pulse writes its ramp value, which stays in [0, 255]; between steps nothing changes |
| Buzzer.RampAfter | src/BuzzerController.cpp:208-218 | the ramp after n pulse ticks stays in [0, 255] with direction up or down |
| Buzzer.RampAfterAdds | src/BuzzerController.cpp:208-218 | m ticks followed by n ticks are m + n ticks |
| Buzzer.RampClimbs | src/BuzzerController.cpp:208-218 | from its start at 0 going up, the ramp reaches 255 and turns down after eight ticks |
| Buzzer.RampFalls | src/BuzzerController.cpp:208-218 | from 255 going down, the ramp reaches 0 and turns up after eight ticks |
| Buzzer.RampRepeats | src/BuzzerController.cpp:208-218 | a ramp state that recurs after 16 ticks recurs every 16 ticks |
| Buzzer.PulseRampPeriod | src/BuzzerController.cpp:208-218 | from its start at 0 going up, the ramp repeats with period 16 ticks |
| Buzzer.Run | src/BuzzerController.cpp:82-86 | any sequence of update ticks keeps the controller invariant |
| Buzzer.TablePatternStaysAtFirstStep | src/BuzzerController.cpp:269-282 | a table pattern started at step 0 is still playing, still active and still at step 0 after any number of ticks |
| Buzzer.BuzzerController.constructor | src/BuzzerController.cpp:39-52 | default frequency, OFF, inactive, all times and the step at 0, tone off |
| Buzzer.BuzzerController.PlayTone | src/BuzzerController.cpp:156-171 | the fields take `PlayToneStep` |
| Buzzer.BuzzerController.StopTone | src/BuzzerController.cpp:173-175 | only the output goes silent |
| Buzzer.BuzzerController.StopPattern | src/BuzzerController.cpp:146-154 | the fields take `StopPatternStep` |
| Buzzer.BuzzerController.PlayBeep | src/BuzzerController.cpp:291-295 | the tone is played at a positive frequency, which becomes the current one, and the output is then silent |
| Buzzer.BuzzerController.Begin | src/BuzzerController.cpp:58-80 | always succeeds, leaving the output silent at 2000 Hz after the startup beeps, which replaces any default frequency set earlier |
| Buzzer.BuzzerController.SetDefaultFrequency | src/BuzzerController.cpp:310-315 | only the remembered frequency changes, not the sounding one |
| Buzzer.BuzzerController.ExecutePatternStep | src/BuzzerController.cpp:246-285 | the fields take `ExecuteStep` |
| Buzzer.BuzzerController.PlayPattern | src/BuzzerController.cpp:96-144 | the fields take `PlayPatternStep`, keeping the invariant |
| Buzzer.BuzzerController.SetBuzzer | src/BuzzerController.cpp:88-94 | the fields take `SetBuzzerStep`, keeping the invariant |
| Buzzer.BuzzerController.UpdatePattern | src/BuzzerController.cpp:177-244 | the fields take `UpdatePatternStep`, keeping the invariant |
| Buzzer.BuzzerController.Update | src/BuzzerController.cpp:82-86 | the fields take `UpdateStep`, keeping the invariant |
| Sensors.CDiv | src/SensorManager.cpp:97 | C integer division truncates toward zero: the remainder has the sign of the dividend and is smaller than the divisor |
| Sensors.SumUpdate | src/SensorManager.cpp:92-95 | overwriting one slot changes the buffer sum by the difference |
| Sensors.SumOfCopies | src/SensorManager.cpp:173-181 | ten equal readings sum to ten times the reading |
| Sensors.ReadLightTracksBuffer | src/SensorManager.cpp:86-118 | a reading overwrites exactly the current slot and advances it modulo 10; a total equal to the buffer sum stays equal; the level becomes the new mean exactly on the first reading or a move of more than 50, and is kept otherwise |
| Sensors.InitializeFromZero | src/SensorManager.cpp:173-181 | from a zero total the fill gives a consistent total and publishes the mean; calibration always starts from zero, and ten equal readings publish that reading |
| Sensors.InitializeTwiceDoublesTotal | src/SensorManager.cpp:173-181 | filling twice without a reset counts the samples twice, so the total no longer matches the buffer |
| Sensors.Debounce | src/SensorManager.cpp:142-171 | a raw change restarts the timer and never commits in the same call; a commit happens exactly when the raw value differs from the state and has been stable for 50 ms; a commit remembers the previous state |
| Sensors.BouncesDoNotCommit | src/SensorManager.cpp:142-171 | a settled switch (raw value equal to the state, or timer restarted inside the window) read at non-decreasing times within one 50 ms window, with any raw values, keeps its committed and previous states |
| Sensors.ReadLightReportsBedtime | src/SensorManager.cpp:86-118 | a light reading changes only the light fields and the bedtime calls; the callback is called, with true, exactly when installed and the published level falls from at or above 500 to below it, which needs a published change |
| Sensors.ReadUsbReportsChanges | src/SensorManager.cpp:120-140 | a USB reading changes only the USB state and calls; powered exactly when the reading exceeds 2048; the callback hears the new state exactly when installed and the state changed; the same reading again reports nothing |
| Sensors.ReadPillBoxReportsCommits | src/SensorManager.cpp:142-171 | a pill-box reading changes only the debounce fields and calls; the callback hears the raw value exactly when installed and the value was already seen, differs from the state and has been stable for 50 ms |
| Sensors.UpdateReadsLightWhenDue | src/SensorManager.cpp:67-71 | the light sensor is read, and its read time set to `now`, exactly when 30000 ms have elapsed since its last read; otherwise its fields, read time and calls are kept; the installed callbacks never change |
| Sensors.UpdateReadsUsbWhenDue | src/SensorManager.cpp:73-77 | the same for the USB level and 5000 ms |
| Sensors.UpdateReadsPillBoxWhenDue | src/SensorManager.cpp:79-83 | the same for the pill-box switch and 100 ms |
| Sensors.UpdateTwiceSameTick | src/SensorManager.cpp:64-84 | a second update in the same millisecond changes nothing |
| Sensors.SensorManager.constructor | src/SensorManager.cpp:10-33 | a zeroed light buffer with a consistent total, all states false, all times 0, no callbacks and no calls |
| Sensors.SensorManager.SetCallbacks | include/SensorManager.h:79-81 | only the callbacks change |
| Sensors.SensorManager.PushLightReading | src/SensorManager.cpp:90-94 | the buffer half of a light reading: the light fields take `PushReading`, nothing else changes |
| Sensors.SensorManager.ReadLightSensor | src/SensorManager.cpp:86-118 | the state takes `ReadLightStep` |
| Sensors.SensorManager.ReadUsbState | src/SensorManager.cpp:120-140 | the state takes `ReadUsbStep` |
| Sensors.SensorManager.ReadPillBoxState | src/SensorManager.cpp:142-171 | the state takes `ReadPillBoxStep` |
| Sensors.SensorManager.InitializeLightSamples | src/SensorManager.cpp:173-181 | the loop fills the array with the samples and adds each to the total, then publishes the mean: the light fields take `InitializeLight`, nothing else changes |
| Sensors.SensorManager.CalibrateLightSensor | src/SensorManager.cpp:198-215 | resets the total, the slot and the first-read flag, then refills: the light fields take `CalibrateLight` |
| Sensors.SensorManager.GetAverageLightLevel | src/SensorManager.cpp:183-185 | lightTotal / 10 once readings have started, which is the buffer's truncated mean while the total is consistent; the published level before |
| Sensors.SensorManager.Update | src/SensorManager.cpp:64-84 | the state takes `UpdateStep`: each sensor read when its own interval has elapsed |
| Sensors.SensorManager.Begin | src/SensorManager.cpp:39-62 | fills the light buffer, then takes one reading of each sensor, leaving the read times; always succeeds |
| Logging.LevelToString | src/Logger.cpp:77-85 | every level has a non-empty single-line name other than "UNKNOWN" |
| Logging.EventTypeToString | src/Logger.cpp:87-108 | every event type has a non-empty single-line name other than "UNKNOWN" |
| Logging.LevelToStringInjective | src/Logger.cpp:77-85 | different levels print differently |
| Logging.EventTypeToStringInjective | src/Logger.cpp:87-108 | different event types print differently |
| Logging.Newest | src/Logger.cpp:146-149 | the newest n entries: the last min(size, n) of them, in order |
| Logging.AppendedKeepsNewest | src/Logger.cpp:45-48 | appending to the newest 100 entries of a history gives the newest 100 of the extended history |
| Logging.AppendedSize | src/Logger.cpp:45-48 | the buffer never grows past 100; it grows by one until full; the new entry is last |
| Logging.FlashKeyPeriodic | src/Logger.cpp:133-134 | the flash keys repeat with period 20 |
| Logging.FlashKeysDistinct | src/Logger.cpp:133-134 | writes whose counters differ modulo 20 use different keys |
| Logging.SlotKeys | src/Logger.cpp:133-134 | the keys of the first n slots: at most n keys, holding each slot's key |
| Logging.FlashHoldsAtMostTwenty | src/Logger.cpp:128-144 | however many entries are written, the flash namespace holds at most 20 |
| Logging.CountsCoverBuffer | src/Logger.cpp:173-182 | the four per-level counts add up to the buffer size |
| Logging.EntryHead | src/Logger.cpp:195-198 | "[timestamp] LEVEL EVENT: message" holds no newline when the message holds none |
| Logging.DataSuffix | src/Logger.cpp:199-201 | the " (data)" suffix holds no newline when the data holds none |
| Logging.EntryLineIsOneLine | src/Logger.cpp:195-202 | an entry whose message and data hold no newline renders as exactly one line |
| Logging.DataSuffixOnlyWhenPresent | src/Logger.cpp:199-201 | the " (data)" suffix is added exactly when the data is not empty, and is the only difference the data makes |
| Logging.ExportHasOneLinePerEntry | src/Logger.cpp:192-204 | the export has one line per buffered entry |
| Logging.Logger.constructor | src/Logger.cpp:11-15 | an empty buffer and flash, the namespace not yet open, both kinds of logging on |
| Logging.Logger.Begin | src/Logger.cpp:21-34 | fails, changing nothing, exactly when flash logging is on and the namespace cannot be opened; otherwise opens the namespace when flash logging is on and logs the start with both flags, writing it to flash under the next key exactly when flash logging is on |
| Logging.Logger.WriteToFlash | src/Logger.cpp:128-144 | stores the entry under "log_" + counter % 20 when the namespace is open, leaving flash as it was otherwise, and advances the counter either way; nothing else changes |
| Logging.Logger.Log | src/Logger.cpp:36-59 | the buffer drops its oldest entry when full and gets the new one last, keeping the newest 100 of all entries logged; flash is written exactly when enabled and the namespace is open; the counter advances exactly when enabled |
| Logging.Logger.RecentLogs | src/Logger.cpp:146-149 | the last min(count, size) entries, in their original order |
| Logging.Logger.ClearLogs | src/Logger.cpp:151-157 | exactly one entry is left, the "Log buffer cleared" info entry; when flash logging is on and the namespace is open, flash is emptied and then holds just that entry under the next key, otherwise flash is kept; the counter advances exactly when flash logging is on |
| Logging.Logger.EnableFlashLogging | src/Logger.cpp:159-162 | sets the flag, then logs the change, which is written to flash under the next key exactly when enabled and the namespace is open; the counter advances exactly when enabled |
| Logging.Logger.EnableSerialLogging | src/Logger.cpp:164-167 | sets the flag, then logs the change, which is written to flash exactly when flash logging is on and the namespace is open |
| Logging.Logger.GetLogsSummary | src/Logger.cpp:169-190 | the counting loop gives the total and the per-level counts, which add up to the total |
| Logging.Logger.ExportLogsToString | src/Logger.cpp:192-204 | the loop builds one rendered line per entry, oldest first; single-line entries give exactly that many lines |
| Scenarios.IdReuseAfterRemoval | src/AlarmManager.cpp:114-191 | adding three alarms, removing the first and adding one more leaves ids 2, 3, 3 |
| Scenarios.PillBoxOpenedLateInUptime | src/AlarmManager.cpp:41-112 | an alarm ringing after 400000 ms of uptime and the box opened ends IDLE, with the buzzer on and calls true, false, false, true |
| Scenarios.PillBoxOpenedEarlyThenClosed | src/AlarmManager.cpp:41-112 | early in the uptime the manager goes TRIGGERED, WAITING, WAITING, IDLE, with the buzzer left on |
| Scenarios.SnoozeAndWake | src/AlarmManager.cpp:85-97 | a snoozed alarm rings again, with the same id, from the tick after the snooze period |
| Scenarios.SuccessPatternNeverEnds | src/BuzzerController.cpp:269-282 | SUCCESS is still active at step 0 after 100 update ticks |
| Scenarios.PillBoxBounce | src/SensorManager.cpp:142-171 | a 20 ms bounce is not reported; a reading held for 50 ms is reported once |
| Scenarios.FlashWritesNeedOpenNamespace | src/Logger.cpp:21-34 | after a failed begin an entry leaves flash empty but uses up key log_0; a later successful begin stores its entry under log_1 alone |

## Left out

- Persistence of alarms:
  - `saveAlarmsToFlash` and the preferences key layout are not modelled.
  - Loading takes the stored count and per-slot records as input.
  - A missing slot reads as all-default fields, not per key.
- Logger calls made by the components are left out, and so are serial printing and `printToSerial`. The status text builders are also left out: `getAlarmsStatus`, `getSensorStatus` and the text of `getLogsSummary`. They only produce text for people.
- Other parts of the manager and sensors that only report:
  - `getAlarmDuration`, `getCurrentReadings` and `setLightThreshold` (the last only logs);
  - the battery voltage field.
- The blocking diagnostics use `delay()` and are left out:
  - `playDoubleBeep` and `playTripleBeep`;
  - the `delay()` inside `playBeep` and `playStartupTone` (both are modelled without it, `playStartupTone` as part of `begin`);
  - `performBuzzerTest`, `performSensorTest`.
- The PWM channel set-up inside `BuzzerController::begin` (`ledcSetup`, `ledcAttachPin`) is left out; the model keeps only the frequency and duty it leaves.
- The function-local statics are fields of each object in the model: the pulse intensity and direction (src/BuzzerController.cpp:209-210) and the log counter (src/Logger.cpp:133). In the source all instances share them; the firmware creates one instance of each class, so this makes no difference.
- `logDebug`, `logInfo`, `logWarning` and `logError` are left out: each is `log` with a fixed level.
- The log entry's flash string format (comma-separated numbers) is left out: the flash map stores the entry itself.
- `localtime_r` and `mktime` are left out. Dates and times are given already split into their `tm` fields.
- The RTC object is left out: the clock is an input.
- `NetworkManager.cpp` and `mainv1.cpp` are not part of this model.
- Timing is read once per operation:
  - `millis()` gives the same `now` to every call inside one operation;
  - for example, `triggerAlarm` during `update` uses the tick of the update.
- Logging.Logger.RecentLogs: takes `count: nat`. A negative count makes the start index larger than the buffer size, which is undefined behaviour in the source, so it is not covered. The default count of 10 (include/Logger.h:76) is a C++ default argument; callers pass the count.
- AlarmText.FormatTime: states nothing for hour or minute of 100 or more. Those overflow the six-byte buffer in the source. The callers check hour <= 23 and minute <= 59 first.
- Sensors.SensorManager.ReadLightSensor: does not model overflow of the `int` light total. The total is an unbounded integer.
- Logging.Logger.WriteToFlash: does not model overflow of the `static int` log counter. The counter is a `nat`.
- Logging.Logger.WriteToFlash: a store into the open namespace is taken to succeed; a full flash partition, where `putString` writes nothing, is not modelled.
- Concurrency and interrupts are left out: every operation runs to completion.
