/**
 * The three crowd levels and their display metadata (`getCrowdLevel` and
 * `getCrowdInfo` in train_crowd_monitor.js).
 */
module CrowdLevels {
  import opened JsText

  /** The closed set of crowd levels, ordered by severity. */
  datatype Level = Green | Yellow | Red

  function Rank(l: Level): nat {
    match l
    case Green => 0
    case Yellow => 1
    case Red => 2
  }

  /** The status string the device and the simulator report for a level. */
  function Name(l: Level): string {
    match l
    case Green => "GREEN"
    case Yellow => "YELLOW"
    case Red => "RED"
  }

  /** The lower-case key under which a level's display metadata is stored. */
  function Key(l: Level): string {
    match l
    case Green => "green"
    case Yellow => "yellow"
    case Red => "red"
  }

  datatype CrowdInfo = CrowdInfo(text: string, description: string)

  /** The display metadata table `crowdLevels` of `getCrowdInfo`. */
  const CrowdLevelTable: map<string, CrowdInfo> := map[
    "green" := CrowdInfo("LOW CROWD", "Comfortable seating available"),
    "yellow" := CrowdInfo("MODERATE CROWD", "Limited seating available"),
    "red" := CrowdInfo("HIGH CROWD", "Standing room only")
  ]

  /** The metadata of a level, read from the table under its key. */
  function Info(l: Level): (info: CrowdInfo)
    ensures Key(l) in CrowdLevelTable && info == CrowdLevelTable[Key(l)]
  {
    CrowdLevelTable[Key(l)]
  }

  /** `getCrowdLevel`: the lower-cased status, used as the key of the table and as a CSS class. */
  function GetCrowdLevel(status: string): (level: string)
    ensures |level| == |status|
    ensures forall i :: 0 <= i < |level| ==> !IsUpper(level[i])
    ensures forall i :: 0 <= i < |status| ==> level[i] == LowerChar(status[i])
  {
    ToLower(status)
  }

  /**
   * `getCrowdInfo`: the metadata stored under `level`, falling back to the metadata of
   * GREEN for any key the table does not hold. It is total.
   */
  function GetCrowdInfo(level: string): (info: CrowdInfo)
    ensures forall l: Level :: level == Key(l) ==> info == Info(l)
    ensures (forall l: Level :: level != Key(l)) ==> info == Info(Green)
    ensures info.text in {"LOW CROWD", "MODERATE CROWD", "HIGH CROWD"}
  {
    assert level in CrowdLevelTable ==> level == Key(Green) || level == Key(Yellow) || level == Key(Red);
    if level in CrowdLevelTable then CrowdLevelTable[level] else CrowdLevelTable["green"]
  }

  /** Lower-casing a level's status name gives its table key. */
  lemma NameLowersToKey(l: Level)
    ensures GetCrowdLevel(Name(l)) == Key(l)
  {
  }

  /** Each label belongs to one level only, so the label shown identifies the level. */
  lemma LabelIdentifiesLevel(l1: Level, l2: Level)
    ensures Info(l1).text == Info(l2).text ==> l1 == l2
  {
  }

  /** Any status, in any letter case, that names a level shows that level's label; anything else shows LOW CROWD. */
  lemma StatusLabel(status: string)
    ensures forall l: Level :: GetCrowdLevel(status) == Key(l) ==> GetCrowdInfo(GetCrowdLevel(status)).text == Info(l).text
    ensures (forall l: Level :: GetCrowdLevel(status) != Key(l)) ==> GetCrowdInfo(GetCrowdLevel(status)).text == "LOW CROWD"
  {
  }
}
