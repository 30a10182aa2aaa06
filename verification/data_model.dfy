/**
 * The records parsed from the bundled JSON assets and their mapping into
 * the domain. A position is an opaque `P`: its two `Double` coordinates are
 * copied verbatim by `Position.toDomain`, so that mapping is the identity here.
 */
module DataModel {
  import opened Numerals
  import opened Seqs
  import opened Domain

  /** An entry of `satellites.json`. */
  datatype Satellite = Satellite(id: Int32, active: bool, name: string)

  /** An entry of `satellites-detail.json` (`costPerLaunch` is `cost_per_launch` on disk). */
  datatype SatelliteDetail = SatelliteDetail(
    id: Int32,
    costPerLaunch: Int32,
    height: Int32,
    mass: Int32,
    name: string)

  /** One group of `positions.json`: the satellite id as text, and its track. */
  datatype SatellitePosition<P> = SatellitePosition(id: string, positions: seq<P>)

  datatype PositionResponse<P> = PositionResponse(list: seq<SatellitePosition<P>>)

  function SatelliteToDomain(s: Satellite): (d: SatelliteDomainModel)
    ensures d.id == s.id && d.active == s.active && d.name == s.name
  {
    SatelliteDomainModel(s.id, s.active, s.name)
  }

  /** `List<Satellite>.toDomain()`: element-wise, same length and order. */
  function SatellitesToDomain(ss: seq<Satellite>): (ds: seq<SatelliteDomainModel>)
    ensures |ds| == |ss|
    ensures forall i :: 0 <= i < |ss| ==>
      ds[i].id == ss[i].id && ds[i].active == ss[i].active && ds[i].name == ss[i].name
    ensures ss == [] ==> ds == []
  {
    Map(ss, SatelliteToDomain)
  }

  /** No information is lost: the record can be read back from its domain model. */
  lemma SatelliteToDomainInjective(a: Satellite, b: Satellite)
    requires SatelliteToDomain(a) == SatelliteToDomain(b)
    ensures a == b
  {
  }

  function DetailToDomain(r: SatelliteDetail): (d: SatelliteDetailDomainModel)
    ensures d.id == r.id && d.name == r.name
    ensures d.costPerLaunch == r.costPerLaunch && d.height == r.height && d.mass == r.mass
  {
    SatelliteDetailDomainModel(r.id, r.name, r.costPerLaunch, r.height, r.mass)
  }

  /** Distinct detail records map to distinct domain models. */
  lemma DetailToDomainInjective(a: SatelliteDetail, b: SatelliteDetail)
    requires a != b
    ensures DetailToDomain(a) != DetailToDomain(b)
  {
  }
}
