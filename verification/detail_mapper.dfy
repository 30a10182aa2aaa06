/** Conversions between the cached row and the domain model. */
module SatelliteDetailMapper {
  import opened Domain
  import opened SatelliteDetailDao

  /** `SatelliteDetailEntity.toDomain()`: every column is carried over to the field of the same name. */
  function ToDomain(e: SatelliteDetailEntity): (d: SatelliteDetailDomainModel)
    ensures d.id == e.id && d.name == e.name
    ensures d.costPerLaunch == e.costPerLaunch && d.height == e.height && d.mass == e.mass
  {
    SatelliteDetailDomainModel(e.id, e.name, e.costPerLaunch, e.height, e.mass)
  }

  /**
   * `SatelliteDetailDomainModel.toEntity()`: keyed by the domain id, every
   * field stored in the column of the same name, and read back unchanged.
   */
  function ToEntity(d: SatelliteDetailDomainModel): (e: SatelliteDetailEntity)
    ensures e.id == d.id && e.name == d.name
    ensures e.costPerLaunch == d.costPerLaunch && e.height == d.height && e.mass == d.mass
    ensures ToDomain(e) == d
  {
    SatelliteDetailEntity(d.id, d.name, d.costPerLaunch, d.height, d.mass)
  }

  /** A row converted to the domain and back is the same row. */
  lemma EntityRoundTrip(e: SatelliteDetailEntity)
    ensures ToEntity(ToDomain(e)) == e
  {
  }
}
