/** The domain models the repository hands to the use cases and view models. */
module Domain {
  import opened Numerals

  datatype SatelliteDomainModel = SatelliteDomainModel(id: Int32, active: bool, name: string)

  datatype SatelliteDetailDomainModel = SatelliteDetailDomainModel(
    id: Int32,
    name: string,
    costPerLaunch: Int32,
    height: Int32,
    mass: Int32)
}
