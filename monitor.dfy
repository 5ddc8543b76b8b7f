/**
 * The page's module-level state in train_crowd_monitor.js (`ESP32_IP`, `ESP32_URL`,
 * `esp32Data`, `compartmentData`) and the three steps that overwrite it: configuring
 * the address, one poll of the device, and one round of the simulator.
 */
module Monitor {
  import opened Wrappers
  import opened CrowdLevels
  import opened Records
  import opened Render
  import opened Telemetry
  import opened Simulator
  import opened Configurator
  import opened JsText

  /** How one poll ended: a parsed body, or a failure (transport error, non-ok status, unreadable body). */
  datatype PollOutcome = Failed | Received(data: DeviceTelemetry)

  /** The record compartment 1 starts with, at load time `now`. */
  function InitialLiveRecord(now: int): CompartmentRecord {
    CompartmentRecord(Some("GREEN"), Sensors(false, false, Some(false), false), now, true)
  }

  /** The records the simulated compartments start with, at load time `now`. */
  function InitialSimulatedRecord(id: Id, now: int): CompartmentRecord
    requires id in SimulatedIds
  {
    if id == C3 then CompartmentRecord(Some("YELLOW"), Sensors(true, false, None, true), now, false)
    else CompartmentRecord(Some("GREEN"), Sensors(false, false, None, false), now, false)
  }

  /** The cached device body before any poll succeeds. */
  const InitialTelemetry: DeviceTelemetry := DeviceTelemetry(
    Some("GREEN"), Some(0),
    Some(DeviceSensors(Some(false), Some(false), Some(false), Some(false))),
    Some("ESP32_CrowdDetector_001"))

  class Monitor {
    var esp32Ip: string
    var esp32Url: string
    var esp32Data: DeviceTelemetry
    var compartmentData: map<Id, CompartmentRecord>
    /** Whether `startESP32Connection` has run, so that the device is polled every 2 s. */
    var polling: bool

    /**
     * The table always has its three compartments; the URL is always built from the
     * address; compartment 1 always holds device data and compartments 2 and 3 simulated data.
     */
    ghost predicate Valid()
      reads this
    {
      && IsTable(compartmentData)
      && esp32Url == StatusUrl(esp32Ip)
      && compartmentData[LiveId].isReal
      && IsSimulatedRecord(compartmentData[C2])
      && IsSimulatedRecord(compartmentData[C3])
    }

    /** The state when the script has loaded at time `now`, before the address prompt. */
    constructor (now: int)
      ensures Valid()
      ensures esp32Ip == DefaultIp && !polling
      ensures esp32Data == InitialTelemetry
      ensures compartmentData == map[
        C1 := InitialLiveRecord(now),
        C2 := InitialSimulatedRecord(C2, now),
        C3 := InitialSimulatedRecord(C3, now)]
    {
      esp32Ip := DefaultIp;
      esp32Url := StatusUrl(DefaultIp);
      esp32Data := InitialTelemetry;
      compartmentData := map[
        C1 := InitialLiveRecord(now),
        C2 := InitialSimulatedRecord(C2, now),
        C3 := InitialSimulatedRecord(C3, now)];
      polling := false;
      new;
      ThreeKeysMakeTable(compartmentData);
    }

    /**
     * `showIPDialog` given the prompt's answer (None when cancelled). An accepted
     * address replaces `ESP32_IP` and `ESP32_URL` and starts polling; otherwise nothing
     * changes and polling does not start.
     */
    method ShowIPDialog(input: Option<string>) returns (started: bool)
      requires Valid()
      modifies this`esp32Ip, this`esp32Url, this`polling
      ensures Valid()
      ensures started <==> ConfiguredAddress(input).Some?
      ensures started ==> esp32Ip == ConfiguredAddress(input).value && esp32Url == StatusUrl(esp32Ip) && polling
      ensures !started ==> esp32Ip == old(esp32Ip) && esp32Url == old(esp32Url) && polling == old(polling)
    {
      var ip := ConfiguredAddress(input);
      if ip.Some? {
        esp32Ip := ip.value;
        esp32Url := StatusUrl(esp32Ip);
        polling := true;
        started := true;
        assert Valid();
      } else {
        started := false;
      }
    }

    /**
     * `fetchESP32Data` at time `now`, once its outcome is known, followed by the
     * `updateDashboard` pass for the display elements in `found`. A received body
     * replaces `esp32Data` and compartment 1's record and nothing else; a failure changes
     * nothing and renders nothing.
     */
    method ApplyPoll(outcome: PollOutcome, now: int, found: set<Id>) returns (outcomes: seq<RenderOutcome>)
      requires Valid()
      modifies this`esp32Data, this`compartmentData
      ensures Valid()
      ensures outcome.Failed? ==> esp32Data == old(esp32Data) && compartmentData == old(compartmentData) && outcomes == []
      ensures outcome.Received? ==>
        && esp32Data == outcome.data
        && compartmentData == old(compartmentData)[LiveId := ConvertTelemetry(outcome.data, now)]
        && outcomes == DashboardPass(CompartmentIds, compartmentData, found)
      ensures compartmentData[C2] == old(compartmentData[C2]) && compartmentData[C3] == old(compartmentData[C3])
    {
      match outcome
      case Failed =>
        outcomes := [];
      case Received(data) =>
        esp32Data := data;
        compartmentData := compartmentData[LiveId := ConvertTelemetry(data, now)];
        outcomes := UpdateDashboard(compartmentData, found);
    }

    /**
     * `updateSimulatedCompartments` with the draws of compartments 2 and 3, followed by
     * the `updateDashboard` pass. Each simulated record is overwritten with the record
     * its draws select; compartment 1's record is untouched.
     */
    method UpdateSimulatedCompartments(samples: seq<Sample>, found: set<Id>) returns (outcomes: seq<RenderOutcome>)
      requires Valid()
      requires |samples| == |SimulatedIds|
      modifies this`compartmentData
      ensures Valid()
      ensures compartmentData == old(compartmentData)[C2 := SimulatedRecord(samples[0])][C3 := SimulatedRecord(samples[1])]
      ensures compartmentData[LiveId] == old(compartmentData[LiveId])
      ensures outcomes == DashboardPass(CompartmentIds, compartmentData, found)
    {
      var i := 0;
      while i < |SimulatedIds|
        invariant 0 <= i <= |SimulatedIds|
        invariant IsTable(compartmentData)
        invariant compartmentData[LiveId] == old(compartmentData[LiveId])
        invariant forall j :: 0 <= j < i ==> compartmentData[SimulatedIds[j]] == SimulatedRecord(samples[j])
        invariant forall j :: i <= j < |SimulatedIds| ==> compartmentData[SimulatedIds[j]] == old(compartmentData[SimulatedIds[j]])
      {
        var compartmentId := SimulatedIds[i];
        compartmentData := compartmentData[compartmentId := SimulatedRecord(samples[i])];
        i := i + 1;
      }
      assert compartmentData[C2] == SimulatedRecord(samples[0]);
      assert compartmentData[C3] == SimulatedRecord(samples[1]);
      ghost var expected := old(compartmentData)[C2 := SimulatedRecord(samples[0])][C3 := SimulatedRecord(samples[1])];
      forall id: Id ensures id in expected && compartmentData[id] == expected[id] {
        match id
        case C1 =>
        case C2 =>
        case C3 =>
      }
      assert compartmentData.Keys == expected.Keys;
      outcomes := UpdateDashboard(compartmentData, found);
    }
  }

  /** The answer "10.0.0.5" makes the page poll `http://10.0.0.5/api/status`. */
  lemma AddressExample()
    ensures ConfiguredAddress(Some("10.0.0.5")) == Some("10.0.0.5")
    ensures StatusUrl("10.0.0.5") == "http://10.0.0.5/api/status"
  {
    var plain := "10.0.0.5";
    assert !IsJsSpace(plain[0]) && !IsJsSpace(plain[7]);
    assert SkipSpace(plain, 0) == 0;
    assert SkipSpaceBack(plain, 0, 8) == 8;
    assert plain[0..8] == plain;
  }

  /**
   * A body `{status: "RED", sensors: {ir1_crowd: true}, timestamp: 1700000000000}` makes
   * compartment 1 show HIGH CROWD with only the IR1 indicator active.
   */
  lemma PollExample(now: int)
    ensures var r := ConvertTelemetry(
        DeviceTelemetry(Some("RED"), Some(1700000000000), Some(DeviceSensors(Some(true), None, None, None)), None), now);
      && r.lastUpdated == 1700000000000
      && r.sensors == Sensors(true, false, Some(false), false)
      && RenderCompartment(true, r) == Rendered(
        CardView("compartment-card red", "HIGH CROWD"),
        [Indicator(true, "IR1" + TooltipSuffix(true)), Indicator(false, "IR2" + TooltipSuffix(false)),
         Indicator(false, "ULTRASONIC" + TooltipSuffix(false))])
  {
    var r := ConvertTelemetry(
        DeviceTelemetry(Some("RED"), Some(1700000000000), Some(DeviceSensors(Some(true), None, None, None)), None), now);
    NameLowersToKey(Red);
    CardOfKnownStatus("RED", Red);
    IndicatorsShown(r.sensors);
  }
}
