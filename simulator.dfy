/**
 * The simulator of compartments 2 and 3 (`updateSimulatedCompartments` in
 * train_crowd_monitor.js). Each `Math.random()` draw is a parameter.
 */
module Simulator {
  import opened Wrappers
  import opened CrowdLevels
  import opened Records
  import opened Render

  /** `SIMULATION_PROBABILITY`: the chance of each status. */
  const GreenProbability: real := 0.35
  const YellowProbability: real := 0.50
  const RedProbability: real := 0.15

  /**
   * The draws for one simulated compartment, in the order the source makes them
   * (the status draw, then the `ir1`, `ir2` and `ultrasonic` draws), and the clock
   * reading of its `new Date()`.
   */
  datatype Sample = Sample(status: real, ir1: real, ir2: real, ultrasonic: real, now: int)

  /**
   * The status a draw selects, by cumulative thresholds: below 0.35 GREEN, below
   * 0.35 + 0.50 YELLOW, otherwise RED.
   */
  function Classify(r: real): (l: Level)
    ensures l == Green <==> r < 0.35
    ensures l == Yellow <==> 0.35 <= r < 0.85
    ensures l == Red <==> 0.85 <= r
  {
    if r < GreenProbability then Green
    else if r < GreenProbability + YellowProbability then Yellow
    else Red
  }

  /**
   * The three chances of `SIMULATION_PROBABILITY` add up to one, and the draws that
   * select RED are exactly the top `RedProbability` of the range.
   */
  lemma RedShare(r: real)
    ensures GreenProbability + YellowProbability + RedProbability == 1.0
    ensures Classify(r) == Red <==> 1.0 - RedProbability <= r
  {
  }

  /** A larger draw never selects a less severe status. */
  lemma ClassifyMonotone(r1: real, r2: real)
    requires r1 <= r2
    ensures Rank(Classify(r1)) <= Rank(Classify(r2))
  {
  }

  datatype SimulatedSensor = Ir1 | Ir2 | Ultrasonic

  /** A sensor is active when its draw exceeds this threshold, which depends on the status. */
  function Threshold(l: Level, s: SimulatedSensor): (t: real)
    ensures 0.0 < t < 1.0
  {
    match l
    case Green => (match s case Ir1 => 0.8 case Ir2 => 0.9 case Ultrasonic => 0.85)
    case Yellow => (match s case Ir1 => 0.4 case Ir2 => 0.6 case Ultrasonic => 0.5)
    case Red => (match s case Ir1 => 0.2 case Ir2 => 0.3 case Ultrasonic => 0.2)
  }

  /** A more severe status has a strictly lower activation threshold for every sensor. */
  lemma ThresholdsDecrease(l1: Level, l2: Level, s: SimulatedSensor)
    requires Rank(l1) < Rank(l2)
    ensures Threshold(l2, s) < Threshold(l1, s)
  {
  }

  /** The `sensors` object a simulated compartment gets: three flags, no `ir3`. */
  function SimulatedSensors(l: Level, x: Sample): (s: Sensors)
    ensures s.ir3 == None
    ensures s.ir1 <==> x.ir1 > Threshold(l, Ir1)
    ensures s.ir2 <==> x.ir2 > Threshold(l, Ir2)
    ensures s.ultrasonic <==> x.ultrasonic > Threshold(l, Ultrasonic)
  {
    Sensors(x.ir1 > Threshold(l, Ir1), x.ir2 > Threshold(l, Ir2), None, x.ultrasonic > Threshold(l, Ultrasonic))
  }

  /**
   * For the same draws, a more severe status activates every sensor a less severe one
   * does, and so never fewer sensors in all.
   */
  lemma ActivationMonotone(l1: Level, l2: Level, x: Sample)
    requires Rank(l1) <= Rank(l2)
    ensures SimulatedSensors(l1, x).ir1 ==> SimulatedSensors(l2, x).ir1
    ensures SimulatedSensors(l1, x).ir2 ==> SimulatedSensors(l2, x).ir2
    ensures SimulatedSensors(l1, x).ultrasonic ==> SimulatedSensors(l2, x).ultrasonic
    ensures CountActive(SimulatedSensors(l1, x)) <= CountActive(SimulatedSensors(l2, x))
  {
    if l1 != l2 {
      ThresholdsDecrease(l1, l2, Ir1);
      ThresholdsDecrease(l1, l2, Ir2);
      ThresholdsDecrease(l1, l2, Ultrasonic);
    }
  }

  /** The expected number of active sensors for a status, for draws uniform on [0, 1). */
  function ExpectedActiveSensors(l: Level): real {
    (1.0 - Threshold(l, Ir1)) + (1.0 - Threshold(l, Ir2)) + (1.0 - Threshold(l, Ultrasonic))
  }

  /** More severe statuses light up more sensors on average. */
  lemma ExpectedActiveIncreases(l1: Level, l2: Level)
    requires Rank(l1) < Rank(l2)
    ensures ExpectedActiveSensors(l1) < ExpectedActiveSensors(l2)
  {
    ThresholdsDecrease(l1, l2, Ir1);
    ThresholdsDecrease(l1, l2, Ir2);
    ThresholdsDecrease(l1, l2, Ultrasonic);
  }

  /** What a simulated record always is: simulated, with a level's status name and no `ir3`. */
  predicate IsSimulatedRecord(r: CompartmentRecord) {
    && !r.isReal
    && r.crowdStatus in {Some(Name(Green)), Some(Name(Yellow)), Some(Name(Red))}
    && r.sensors.ir3 == None
  }

  /** The record written for one simulated compartment. */
  function SimulatedRecord(x: Sample): (r: CompartmentRecord)
    ensures IsSimulatedRecord(r)
    ensures r.crowdStatus == Some(Name(Classify(x.status)))
    ensures r.sensors == SimulatedSensors(Classify(x.status), x)
    ensures r.lastUpdated == x.now
  {
    var newStatus := Classify(x.status);
    CompartmentRecord(Some(Name(newStatus)), SimulatedSensors(newStatus, x), x.now, false)
  }

  /**
   * A simulated record never throws and never falls back when rendered: its card shows
   * the class and label of the status drawn, and its three indicators its flags.
   */
  lemma SimulatedRecordRenders(x: Sample)
    ensures var l := Classify(x.status);
      RenderCompartment(true, SimulatedRecord(x))
      == Rendered(CardView("compartment-card " + Key(l), Info(l).text), RenderedIndicators(SimulatedSensors(l, x)))
  {
    var l := Classify(x.status);
    NameLowersToKey(l);
    CardOfKnownStatus(Name(l), l);
  }
}
