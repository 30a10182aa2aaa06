/** The list row shown for each satellite (`SatelliteUIModel`). */
module SatelliteUi {
  import opened Numerals
  import opened Seqs
  import opened Domain

  /** ARGB green and red, as the `Long` literals of the source. */
  const ActiveColor: int := 0xFF00FF00
  const PassiveColor: int := 0xFFFF0000

  datatype SatelliteUIModel = SatelliteUIModel(
    id: Int32,
    active: bool,
    name: string,
    statusText: string,
    statusColor: int)

  /**
   * `SatelliteDomainModel.toUIModel()`: the identity fields are copied; the
   * status label and colour tell exactly whether the satellite is active.
   */
  function ToUIModel(d: SatelliteDomainModel): (u: SatelliteUIModel)
    ensures u.id == d.id && u.active == d.active && u.name == d.name
    ensures u.statusText in {"Active", "Passive"} && (u.statusText == "Active" <==> d.active)
    ensures u.statusColor in {ActiveColor, PassiveColor} && (u.statusColor == ActiveColor <==> d.active)
  {
    SatelliteUIModel(
      d.id, d.active, d.name,
      if d.active then "Active" else "Passive",
      if d.active then ActiveColor else PassiveColor)
  }

  /** The status columns depend on `active` and nothing else. */
  lemma StatusDependsOnlyOnActive(a: SatelliteDomainModel, b: SatelliteDomainModel)
    requires a.active == b.active
    ensures ToUIModel(a).statusText == ToUIModel(b).statusText
    ensures ToUIModel(a).statusColor == ToUIModel(b).statusColor
  {
  }

  /** `List<SatelliteDomainModel>.toUIModel()`: same length, same order. */
  function ToUIModels(ds: seq<SatelliteDomainModel>): (us: seq<SatelliteUIModel>)
    ensures |us| == |ds|
    ensures forall i :: 0 <= i < |ds| ==>
      us[i].id == ds[i].id && us[i].active == ds[i].active && us[i].name == ds[i].name
    ensures forall i :: 0 <= i < |ds| ==> us[i] == ToUIModel(ds[i])
  {
    Map(ds, ToUIModel)
  }
}
