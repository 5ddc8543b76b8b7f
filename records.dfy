/**
 * The shared record table `compartmentData` of train_crowd_monitor.js: three fixed
 * compartments, each holding the latest record of its crowd status and sensors.
 */
module Records {
  import opened Wrappers

  /** The keys of `compartmentData`, in the order `Object.keys` lists them. */
  datatype Id = C1 | C2 | C3

  const CompartmentIds: seq<Id> := [C1, C2, C3]

  /** The compartment fed by the device. */
  const LiveId: Id := C1

  /** The compartments fed by the simulator, in the order it visits them. */
  const SimulatedIds: seq<Id> := [C2, C3]

  /**
   * The `sensors` object of a record. The live compartment has all four flags; a
   * simulated one has no `ir3` key at all, hence `ir3` is optional.
   */
  datatype Sensors = Sensors(ir1: bool, ir2: bool, ir3: Option<bool>, ultrasonic: bool)

  /**
   * A compartment record. `crowdStatus` is whatever status string was received
   * (absent when the device omitted it); `lastUpdated` is a time in milliseconds
   * since the epoch; `isReal` is true for device data, false for simulated data.
   */
  datatype CompartmentRecord = CompartmentRecord(
    crowdStatus: Option<string>,
    sensors: Sensors,
    lastUpdated: int,
    isReal: bool)

  /** A table with exactly the three compartments (`compartmentData` never gains or loses a key). */
  predicate IsTable(table: map<Id, CompartmentRecord>) {
    forall id: Id :: id in table
  }

  lemma ThreeKeysMakeTable(table: map<Id, CompartmentRecord>)
    requires C1 in table && C2 in table && C3 in table
    ensures IsTable(table)
  {
    forall id: Id ensures id in table {
      match id
      case C1 =>
      case C2 =>
      case C3 =>
    }
  }

  /** How many of a record's sensors report a crowd (a missing `ir3` counts as clear). */
  function CountActive(s: Sensors): (n: nat)
    ensures n <= 4
    ensures n == 0 <==> !s.ir1 && !s.ir2 && s.ir3 != Some(true) && !s.ultrasonic
  {
    (if s.ir1 then 1 else 0) + (if s.ir2 then 1 else 0)
      + (if s.ir3 == Some(true) then 1 else 0) + (if s.ultrasonic then 1 else 0)
  }
}
