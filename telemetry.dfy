/**
 * The device's JSON status body and its conversion to the live compartment's record
 * (`convertESP32DataToCompartmentData` in train_crowd_monitor.js).
 */
module Telemetry {
  import opened Wrappers
  import opened Records

  /** The `sensors` object the device sends; any `*_crowd` flag may be missing. */
  datatype DeviceSensors = DeviceSensors(
    ir1Crowd: Option<bool>,
    ir2Crowd: Option<bool>,
    ir3Crowd: Option<bool>,
    ultrasonicCrowd: Option<bool>)

  /**
   * The body of `GET /api/status`, which is also what `esp32Data` caches. Every field
   * may be missing; `timestamp` is in milliseconds.
   */
  datatype DeviceTelemetry = DeviceTelemetry(
    status: Option<string>,
    timestamp: Option<int>,
    sensors: Option<DeviceSensors>,
    deviceId: Option<string>)

  datatype DeviceFlag = Ir1Crowd | Ir2Crowd | Ir3Crowd | UltrasonicCrowd

  /** `sensors?.<flag>`: missing when the flag or the whole `sensors` object is missing. */
  function Reported(sensors: Option<DeviceSensors>, f: DeviceFlag): Option<bool> {
    match sensors
    case None => None
    case Some(s) =>
      match f
      case Ir1Crowd => s.ir1Crowd
      case Ir2Crowd => s.ir2Crowd
      case Ir3Crowd => s.ir3Crowd
      case UltrasonicCrowd => s.ultrasonicCrowd
  }

  /** `sensors?.<flag> || false`: a flag the device did not send reads as false. */
  function FlagOrFalse(sensors: Option<DeviceSensors>, f: DeviceFlag): bool {
    Reported(sensors, f).GetOr(false)
  }

  /**
   * The record that replaces compartment 1 after a successful poll read at time `now`:
   * the status verbatim, each flag as reported or false, the device timestamp unless
   * it is missing or 0, and marked as real device data.
   */
  function ConvertTelemetry(data: DeviceTelemetry, now: int): (r: CompartmentRecord)
    ensures r.crowdStatus == data.status
    ensures r.isReal
    ensures r.sensors.ir1 <==> data.sensors.Some? && data.sensors.value.ir1Crowd == Some(true)
    ensures r.sensors.ir2 <==> data.sensors.Some? && data.sensors.value.ir2Crowd == Some(true)
    ensures r.sensors.ir3 == Some(data.sensors.Some? && data.sensors.value.ir3Crowd == Some(true))
    ensures r.sensors.ultrasonic <==> data.sensors.Some? && data.sensors.value.ultrasonicCrowd == Some(true)
    ensures data.timestamp == None || data.timestamp == Some(0) ==> r.lastUpdated == now
    ensures data.timestamp.Some? && data.timestamp.value != 0 ==> r.lastUpdated == data.timestamp.value
  {
    var lastUpdated := match data.timestamp
      case Some(t) => if t != 0 then t else now
      case None => now;
    CompartmentRecord(
      data.status,
      Sensors(
        FlagOrFalse(data.sensors, Ir1Crowd),
        FlagOrFalse(data.sensors, Ir2Crowd),
        Some(FlagOrFalse(data.sensors, Ir3Crowd)),
        FlagOrFalse(data.sensors, UltrasonicCrowd)),
      lastUpdated,
      true)
  }

  /** The number of reported flags that are true (`[...].filter(Boolean).length`), logged after a poll. */
  function ActiveSensorCount(data: DeviceTelemetry): (n: nat)
    ensures n <= 4
    ensures data.sensors.None? ==> n == 0
  {
    (if Reported(data.sensors, Ir1Crowd) == Some(true) then 1 else 0)
      + (if Reported(data.sensors, Ir2Crowd) == Some(true) then 1 else 0)
      + (if Reported(data.sensors, Ir3Crowd) == Some(true) then 1 else 0)
      + (if Reported(data.sensors, UltrasonicCrowd) == Some(true) then 1 else 0)
  }

  /** The count logged is the number of sensors the converted record shows as active. */
  lemma ActiveCountMatchesRecord(data: DeviceTelemetry, now: int)
    ensures ActiveSensorCount(data) == CountActive(ConvertTelemetry(data, now).sensors)
  {
  }
}
