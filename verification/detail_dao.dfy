/**
 * The Room table `satellite_details` and its DAO. The table is a map from
 * primary key to row; `@Insert(onConflict = REPLACE)` overwrites the row
 * that has the same key.
 */
module SatelliteDetailDao {
  import opened Wrappers
  import opened Numerals

  datatype SatelliteDetailEntity = SatelliteDetailEntity(
    id: Int32,
    name: string,
    costPerLaunch: Int32,
    height: Int32,
    mass: Int32)

  type Table = map<Int32, SatelliteDetailEntity>

  /** Every row is stored under its own primary key, so one row per id. */
  ghost predicate Keyed(t: Table) {
    forall k :: k in t ==> t[k].id == k
  }

  /** `SELECT * FROM satellite_details WHERE id = :satelliteId`. */
  function GetSatelliteDetail(t: Table, satelliteId: Int32): (r: Option<SatelliteDetailEntity>)
    ensures r.None? <==> satelliteId !in t
    ensures r.Some? ==> r.value == t[satelliteId]
    ensures r.Some? && Keyed(t) ==> r.value.id == satelliteId
  {
    if satelliteId in t then Some(t[satelliteId]) else None
  }

  /** `insertSatelliteDetail` with `OnConflictStrategy.REPLACE`. */
  function InsertSatelliteDetail(t: Table, e: SatelliteDetailEntity): (t': Table)
    ensures GetSatelliteDetail(t', e.id) == Some(e)
    ensures forall k :: k != e.id ==> GetSatelliteDetail(t', k) == GetSatelliteDetail(t, k)
    ensures t'.Keys == t.Keys + {e.id}
    ensures Keyed(t) ==> Keyed(t')
  {
    t[e.id := e]
  }

  /** Inserting twice under one key keeps only the second row: last write wins. */
  lemma LastWriteWins(t: Table, e1: SatelliteDetailEntity, e2: SatelliteDetailEntity)
    requires e1.id == e2.id
    ensures InsertSatelliteDetail(InsertSatelliteDetail(t, e1), e2) == InsertSatelliteDetail(t, e2)
  {
  }
}
