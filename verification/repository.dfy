/**
 * `SatelliteRepositoryImpl`: the cache-aside detail lookup and the two
 * dataset-only reads. Each bundled asset is given as `Option<…>`, where
 * `None` is an `IOException` while opening or reading it. The Room table
 * is threaded through explicitly.
 */
module SatelliteRepository {
  import opened Wrappers
  import opened Numerals
  import opened Seqs
  import opened Domain
  import opened DataModel
  import Dao = SatelliteDetailDao
  import Mapper = SatelliteDetailMapper

  /**
   * `getSatellites()`: every record of the list asset, mapped to the domain
   * in asset order; an unreadable asset degrades to the empty list.
   */
  function GetSatellites(dataset: Option<seq<Satellite>>): (r: seq<SatelliteDomainModel>)
    ensures dataset.None? ==> r == []
    ensures dataset.Some? ==> |r| == |dataset.value|
    ensures dataset.Some? ==> forall i :: 0 <= i < |r| ==> r[i] == SatelliteToDomain(dataset.value[i])
  {
    match dataset
    case None => []
    case Some(satellites) => SatellitesToDomain(satellites)
  }

  /** `i` is the first detail record carrying `id`, the one `find { it.id == id }` returns. */
  ghost predicate IsFirstWithId(details: seq<SatelliteDetail>, id: Int32, i: int) {
    0 <= i < |details| && details[i].id == id && forall j :: 0 <= j < i ==> details[j].id != id
  }

  /** What the detail asset alone says about `id`: its first matching record, mapped to the domain. */
  function Resolve(details: seq<SatelliteDetail>, id: Int32): (r: Option<SatelliteDetailDomainModel>)
    ensures r.None? <==> forall j :: 0 <= j < |details| ==> details[j].id != id
    ensures forall i :: IsFirstWithId(details, id, i) ==> r == Some(DetailToDomain(details[i]))
    ensures r.Some? ==> r.value.id == id
  {
    match FirstIndex(details, (d: SatelliteDetail) => d.id == id)
    case None => None
    case Some(i) => Some(DetailToDomain(details[i]))
  }

  /**
   * The answer of `getSatelliteDetail`, the table after the call, and whether
   * the detail asset was opened.
   */
  datatype DetailResult = DetailResult(
    detail: Option<SatelliteDetailDomainModel>,
    cache: Dao.Table,
    readDataset: bool)

  /**
   * `getSatelliteDetail(satelliteId)`: a cached row is returned without
   * touching the asset; on a miss the first matching record is returned and
   * written to the table; a missing record or an unreadable asset gives
   * `null` and leaves the table as it was.
   */
  function GetSatelliteDetail(
    cache: Dao.Table, details: Option<seq<SatelliteDetail>>, satelliteId: Int32): (r: DetailResult)
    // hit
    ensures satelliteId in cache ==>
      && r.detail == Some(Mapper.ToDomain(cache[satelliteId]))
      && r.cache == cache
      && !r.readDataset
    // miss
    ensures satelliteId !in cache ==> r.readDataset
    ensures satelliteId !in cache && details.None? ==> r.detail.None? && r.cache == cache
    ensures satelliteId !in cache && details.Some?
      && (forall j :: 0 <= j < |details.value| ==> details.value[j].id != satelliteId)
      ==> r.detail.None? && r.cache == cache
    ensures forall i :: satelliteId !in cache && details.Some? && IsFirstWithId(details.value, satelliteId, i) ==>
      && r.detail == Some(DetailToDomain(details.value[i]))
      && r.cache == Dao.InsertSatelliteDetail(cache, Mapper.ToEntity(DetailToDomain(details.value[i])))
    // the table keeps one row per key, and the answer is about the requested id
    ensures Dao.Keyed(cache) ==> Dao.Keyed(r.cache)
    ensures Dao.Keyed(cache) && r.detail.Some? ==> r.detail.value.id == satelliteId
  {
    match Dao.GetSatelliteDetail(cache, satelliteId)
    case Some(cached) => DetailResult(Some(Mapper.ToDomain(cached)), cache, false)
    case None =>
      match details
      case None => DetailResult(None, cache, true)
      case Some(records) =>
        match Resolve(records, satelliteId)
        case None => DetailResult(None, cache, true)
        case Some(model) =>
          DetailResult(Some(model), Dao.InsertSatelliteDetail(cache, Mapper.ToEntity(model)), true)
  }

  /** After a lookup that found something, asking again is a cache hit with an equal answer. */
  lemma SecondRequestHitsCache(
    cache: Dao.Table, details: Option<seq<SatelliteDetail>>, later: Option<seq<SatelliteDetail>>, satelliteId: Int32)
    requires GetSatelliteDetail(cache, details, satelliteId).detail.Some?
    ensures var first := GetSatelliteDetail(cache, details, satelliteId);
            var second := GetSatelliteDetail(first.cache, later, satelliteId);
            second.detail == first.detail && second.cache == first.cache && !second.readDataset
  {
  }

  /** Every cached row is what the asset itself would yield for its key. */
  ghost predicate Coherent(cache: Dao.Table, details: seq<SatelliteDetail>) {
    && Dao.Keyed(cache)
    && forall k :: k in cache ==> Resolve(details, k) == Some(Mapper.ToDomain(cache[k]))
  }

  /**
   * The cache is invisible to callers: starting from a table filled only by
   * this repository (coherent with the asset), every lookup answers exactly
   * what the asset alone says, and the table stays coherent.
   */
  lemma CacheIsTransparent(cache: Dao.Table, details: seq<SatelliteDetail>, satelliteId: Int32)
    requires Coherent(cache, details)
    ensures GetSatelliteDetail(cache, Some(details), satelliteId).detail == Resolve(details, satelliteId)
    ensures Coherent(GetSatelliteDetail(cache, Some(details), satelliteId).cache, details)
  {
    var r := GetSatelliteDetail(cache, Some(details), satelliteId);
    if satelliteId !in cache {
      match Resolve(details, satelliteId)
      case None =>
      case Some(model) =>
        forall k | k in r.cache
          ensures Resolve(details, k) == Some(Mapper.ToDomain(r.cache[k]))
        {
          if k == satelliteId {
            assert r.cache[k] == Mapper.ToEntity(model);
          }
        }
    }
  }

  /** The group `i` is the first whose textual id equals `key`. */
  ghost predicate IsFirstGroup<P>(groups: seq<SatellitePosition<P>>, key: string, i: int) {
    0 <= i < |groups| && groups[i].id == key && forall j :: 0 <= j < i ==> groups[j].id != key
  }

  /**
   * `getSatellitePositions(satelliteId)`: the track of the first group whose
   * id is the decimal text of `satelliteId`, in asset order; empty when no
   * group matches or the asset is unreadable. The table is not involved.
   */
  function GetSatellitePositions<P>(dataset: Option<PositionResponse<P>>, satelliteId: Int32): (r: seq<P>)
    ensures dataset.None? ==> r == []
    ensures dataset.Some? && (forall j :: 0 <= j < |dataset.value.list| ==> dataset.value.list[j].id != Show(satelliteId))
      ==> r == []
    ensures forall i :: dataset.Some? && IsFirstGroup(dataset.value.list, Show(satelliteId), i) ==>
      r == dataset.value.list[i].positions
  {
    match dataset
    case None => []
    case Some(response) =>
      var key := Show(satelliteId);
      match FirstIndex(response.list, (g: SatellitePosition<P>) => g.id == key)
      case None => []
      case Some(i) => response.list[i].positions
  }

  /** A non-empty track always comes from a group whose id parses back to the requested satellite. */
  lemma PositionsBelongToSatellite<P>(dataset: Option<PositionResponse<P>>, satelliteId: Int32)
    requires GetSatellitePositions(dataset, satelliteId) != []
    ensures dataset.Some?
    ensures exists i :: 0 <= i < |dataset.value.list| && ParseInt(dataset.value.list[i].id) == Some(satelliteId)
  {
    var key := Show(satelliteId);
    var i :| 0 <= i < |dataset.value.list| && dataset.value.list[i].id == key;
    ParseShow(satelliteId);
  }
}
