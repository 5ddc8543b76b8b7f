/**
 * The render engine of train_crowd_monitor.js (`updateDashboard`, `updateCompartment`,
 * `updateSensorIndicators`) as a projection from records to what the page shows.
 */
module Render {
  import opened Wrappers
  import opened JsText
  import opened CrowdLevels
  import opened Records

  /** What a compartment card shows: its CSS class and its level text. */
  datatype CardView = CardView(className: string, levelText: string)

  /** What a sensor indicator shows: whether it carries the `active` class, and its tooltip. */
  datatype Indicator = Indicator(active: bool, title: string)

  /**
   * The card of a record whose status is `status` (`updateCompartment`, class and level
   * text): the class list is `compartment-card` followed by the status lower-cased
   * character by character, unfiltered; the text is always one of the three labels.
   */
  function CardOf(status: string): (c: CardView)
    ensures |c.className| == |CardClassPrefix| + |status|
    ensures c.className[..|CardClassPrefix|] == CardClassPrefix
    ensures forall i :: 0 <= i < |status| ==> c.className[|CardClassPrefix| + i] == LowerChar(status[i])
    ensures c.levelText in {"LOW CROWD", "MODERATE CROWD", "HIGH CROWD"}
  {
    var crowdLevel := GetCrowdLevel(status);
    CardView(CardClassPrefix + crowdLevel, GetCrowdInfo(crowdLevel).text)
  }

  const CardClassPrefix: string := "compartment-card "

  /** A status that names a level, in any letter case, gets that level's class and label. */
  lemma CardOfKnownStatus(status: string, l: Level)
    requires GetCrowdLevel(status) == Key(l)
    ensures CardOf(status) == CardView("compartment-card " + Key(l), Info(l).text)
  {
  }

  /**
   * A status that names no level keeps its own lower-cased text in the class attribute
   * but shows the LOW CROWD label. The class string is then unequal to the string
   * `compartment-card <key>` of every level; it may still contain a level's class name
   * as one of its space-separated words (see `PaddedStatusCard`).
   */
  lemma CardOfUnknownStatus(status: string)
    requires forall l: Level :: GetCrowdLevel(status) != Key(l)
    ensures CardOf(status).levelText == Info(Green).text == "LOW CROWD"
    ensures forall l: Level :: CardOf(status).className != "compartment-card " + Key(l)
  {
    forall l: Level ensures CardOf(status).className != "compartment-card " + Key(l) {
      PrefixCancels("compartment-card ", GetCrowdLevel(status), Key(l));
    }
  }

  /**
   * A status with a trailing space lowers to "red ", which is no key of the table: the
   * card shows LOW CROWD, yet its class list still holds the word `red`.
   */
  lemma PaddedStatusCard()
    ensures CardOf("RED ") == CardView("compartment-card red ", "LOW CROWD")
  {
    assert GetCrowdLevel("RED ") == "red ";
    assert "red " != Key(Green) && "red " != Key(Yellow) && "red " != Key(Red);
  }

  lemma PrefixCancels(p: string, a: string, b: string)
    ensures p + a == p + b ==> a == b
  {
    if p + a == p + b {
      assert a == (p + a)[|p|..];
    }
  }

  /** The card depends on the status only up to ASCII letter case. */
  lemma CardOfIgnoresCase(status: string)
    ensures CardOf(GetCrowdLevel(status)) == CardOf(status)
  {
    ToLowerIdempotent(status);
  }

  /** Two statuses that differ only in ASCII letter case give the same card. */
  lemma CardOfCaseInsensitive(s: string, t: string)
    requires |s| == |t|
    requires forall i :: 0 <= i < |s| ==> LowerChar(s[i]) == LowerChar(t[i])
    ensures CardOf(s) == CardOf(t)
  {
    ToLowerIgnoresCase(s, t);
  }

  // ---------------------------------------------------------------------------
  // sensor indicators

  /** The sensors `updateSensorIndicators` shows, in the order it visits them; `ir3` is not among them. */
  const IndicatorSensors: seq<string> := ["ir1", "ir2", "ultrasonic"]

  /** The truthiness of `sensors[name]`: a key the record does not hold reads as `undefined`, which is false. */
  function SensorFlag(sensors: Sensors, name: string): bool {
    if name == "ir1" then sensors.ir1
    else if name == "ir2" then sensors.ir2
    else if name == "ir3" then sensors.ir3 == Some(true)
    else if name == "ultrasonic" then sensors.ultrasonic
    else false
  }

  /** The tooltip text after the sensor's upper-cased name. */
  function TooltipSuffix(flag: bool): string {
    if flag then " sensor detecting crowd" else " sensor clear"
  }

  /** The state one indicator is given for a sensor name and its flag. */
  function IndicatorFor(name: string, flag: bool): Indicator {
    Indicator(flag, ToUpper(name) + TooltipSuffix(flag))
  }

  /** The three indicators of a compartment, as `updateSensorIndicators` sets them. */
  function RenderedIndicators(sensors: Sensors): (r: seq<Indicator>)
    ensures |r| == |IndicatorSensors|
    ensures forall i :: 0 <= i < |r| ==> r[i].active == SensorFlag(sensors, IndicatorSensors[i])
  {
    seq(|IndicatorSensors|, i requires 0 <= i < |IndicatorSensors| =>
      IndicatorFor(IndicatorSensors[i], SensorFlag(sensors, IndicatorSensors[i])))
  }

  /**
   * Each of IR1, IR2 and ULTRASONIC is active exactly when its flag is set, and its
   * tooltip says whether that sensor is detecting a crowd or is clear.
   */
  lemma IndicatorsShown(sensors: Sensors)
    ensures |RenderedIndicators(sensors)| == 3
    ensures RenderedIndicators(sensors)[0] == Indicator(sensors.ir1, "IR1" + TooltipSuffix(sensors.ir1))
    ensures RenderedIndicators(sensors)[1] == Indicator(sensors.ir2, "IR2" + TooltipSuffix(sensors.ir2))
    ensures RenderedIndicators(sensors)[2] == Indicator(sensors.ultrasonic, "ULTRASONIC" + TooltipSuffix(sensors.ultrasonic))
  {
    assert ToUpper("ir1") == "IR1";
    assert ToUpper("ir2") == "IR2";
    assert ToUpper("ultrasonic") == "ULTRASONIC";
  }

  /** The `ir3` flag never affects what the page shows. */
  lemma Ir3NeverShown(sensors: Sensors, ir3: Option<bool>)
    ensures RenderedIndicators(sensors.(ir3 := ir3)) == RenderedIndicators(sensors)
  {
  }

  /**
   * `updateSensorIndicators`: every indicator element that exists (Some) is overwritten
   * with the state its sensor's flag calls for; a missing element (None) is skipped.
   */
  method UpdateSensorIndicators(panel: array<Option<Indicator>>, sensors: Sensors)
    requires panel.Length == |IndicatorSensors|
    modifies panel
    ensures forall i :: 0 <= i < panel.Length ==>
      panel[i] == if old(panel[i]).None? then None else Some(RenderedIndicators(sensors)[i])
  {
    for i := 0 to |IndicatorSensors|
      invariant forall j :: 0 <= j < i ==>
        panel[j] == if old(panel[j]).None? then None else Some(RenderedIndicators(sensors)[j])
      invariant forall j :: i <= j < panel.Length ==> panel[j] == old(panel[j])
    {
      var sensorType := IndicatorSensors[i];
      if panel[i].Some? {
        panel[i] := Some(IndicatorFor(sensorType, SensorFlag(sensors, sensorType)));
      }
    }
  }

  // ---------------------------------------------------------------------------
  // compartments and the dashboard

  /**
   * The result of `updateCompartment`: skipped when the card or level element is
   * missing, an exception when the record has no status (`toLowerCase` of undefined),
   * otherwise the card and indicator states written.
   */
  datatype RenderOutcome = Skipped | Threw | Rendered(card: CardView, indicators: seq<Indicator>)

  function RenderCompartment(found: bool, r: CompartmentRecord): (o: RenderOutcome)
    ensures o.Skipped? <==> !found
    ensures o.Threw? <==> found && r.crowdStatus.None?
    ensures o.Rendered? ==> o.card == CardOf(r.crowdStatus.value) && o.indicators == RenderedIndicators(r.sensors)
  {
    if !found then Skipped
    else match r.crowdStatus
      case None => Threw
      case Some(status) => Rendered(CardOf(status), RenderedIndicators(r.sensors))
  }

  /** Rendering a record with a status shows its card and indicators; without one it throws. */
  lemma RenderCompartmentCases(found: bool, r: CompartmentRecord)
    ensures !found ==> RenderCompartment(found, r) == Skipped
    ensures found && r.crowdStatus.None? ==> RenderCompartment(found, r) == Threw
    ensures found && r.crowdStatus.Some? ==>
      var o := RenderCompartment(found, r);
      o.Rendered? && o.card.className == "compartment-card " + GetCrowdLevel(r.crowdStatus.value)
      && o.card.levelText in {"LOW CROWD", "MODERATE CROWD", "HIGH CROWD"}
      && |o.indicators| == 3 && (forall i :: 0 <= i < 3 ==> o.indicators[i].active == SensorFlag(r.sensors, IndicatorSensors[i]))
  {
  }

  /**
   * The pass of `updateDashboard` over `ids`: each compartment in turn, stopping at
   * the first one that throws (the exception leaves the whole pass).
   */
  function DashboardPass(ids: seq<Id>, table: map<Id, CompartmentRecord>, found: set<Id>): (r: seq<RenderOutcome>)
    requires IsTable(table)
    ensures |r| <= |ids|
    ensures |r| < |ids| ==> r != [] && r[|r| - 1].Threw?
  {
    if ids == [] then []
    else
      var o := RenderCompartment(ids[0] in found, table[ids[0]]);
      if o.Threw? then [o] else [o] + DashboardPass(ids[1..], table, found)
  }

  /**
   * The pass is the prefix of the per-compartment outcomes up to and including the
   * first exception: every entry is that compartment's outcome, and only the last may
   * be an exception.
   */
  lemma {:induction false} DashboardPassPrefix(ids: seq<Id>, table: map<Id, CompartmentRecord>, found: set<Id>)
    requires IsTable(table)
    ensures var r := DashboardPass(ids, table, found);
      && (forall i :: 0 <= i < |r| ==> r[i] == RenderCompartment(ids[i] in found, table[ids[i]]))
      && (forall i :: 0 <= i < |r| - 1 ==> !r[i].Threw?)
  {
    if ids != [] {
      DashboardPassPrefix(ids[1..], table, found);
    }
  }

  /** `updateDashboard`: render every compartment of the table in key order until one throws. */
  method UpdateDashboard(table: map<Id, CompartmentRecord>, found: set<Id>) returns (outcomes: seq<RenderOutcome>)
    requires IsTable(table)
    ensures outcomes == DashboardPass(CompartmentIds, table, found)
  {
    outcomes := [];
    var i := 0;
    while i < |CompartmentIds|
      invariant 0 <= i <= |CompartmentIds|
      invariant outcomes + DashboardPass(CompartmentIds[i..], table, found) == DashboardPass(CompartmentIds, table, found)
    {
      var compartmentId := CompartmentIds[i];
      var o := RenderCompartment(compartmentId in found, table[compartmentId]);
      assert CompartmentIds[i..][1..] == CompartmentIds[i + 1..];
      outcomes := outcomes + [o];
      if o.Threw? {
        return;
      }
      i := i + 1;
    }
  }

  /** When every record has a status, the pass renders or skips all three compartments in order. */
  lemma {:induction false} DashboardPassComplete(ids: seq<Id>, table: map<Id, CompartmentRecord>, found: set<Id>)
    requires IsTable(table)
    requires forall id :: id in ids ==> table[id].crowdStatus.Some?
    ensures |DashboardPass(ids, table, found)| == |ids|
    ensures forall i :: 0 <= i < |ids| ==>
      DashboardPass(ids, table, found)[i] == RenderCompartment(ids[i] in found, table[ids[i]]) && !DashboardPass(ids, table, found)[i].Threw?
  {
    if ids != [] {
      assert ids[0] in ids;
      forall id | id in ids[1..] ensures table[id].crowdStatus.Some? {
        assert id in ids;
      }
      DashboardPassComplete(ids[1..], table, found);
    }
  }

  /**
   * A live record without a status whose card exists throws first, so neither
   * simulated compartment is redrawn in that pass.
   */
  lemma MissingLiveStatusBlocksPass(table: map<Id, CompartmentRecord>, found: set<Id>)
    requires IsTable(table) && C1 in found && table[C1].crowdStatus.None?
    ensures DashboardPass(CompartmentIds, table, found) == [Threw]
  {
  }
}
