/** Compile-time constants of the firmware (include/config.h). */
module Config {
  const BuzzerFrequency: int := 2000
  const PillBoxDebounceMs: nat := 50
  const LightSamples: nat := 10
  const BedtimeLightThreshold: int := 500
  const UsbVoltageThreshold: int := 2048
  const MaxAlarms: nat := 5
  const AlarmBuzzerDurationMs: nat := 300000
  const AlarmSnoozeDurationMs: nat := 540000
  const MaxLogEntries: nat := 100
  const LightSensorIntervalMs: nat := 30000
  const UsbDetectIntervalMs: nat := 5000
  const PillBoxCheckIntervalMs: nat := 100
}
