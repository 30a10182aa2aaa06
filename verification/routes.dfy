/**
 * `SatelliteRoutes` and the argument parse of the detail destination in
 * `MainActivity`: the detail route carries the satellite id as its last
 * path segment.
 */
module SatelliteRoutes {
  import opened Wrappers
  import opened Numerals

  const SatelliteList: string := "satellite_list"

  /** The literal part of the detail route, and the name of its argument. */
  const DetailPrefix: string := "satellite_detail/"
  const DetailArgument: string := "satelliteId"

  /** `SATELLITE_DETAIL`: the prefix followed by the `{satelliteId}` placeholder. */
  const SatelliteDetail: string := DetailPrefix + "{" + DetailArgument + "}"

  /**
   * `createSatelliteDetailRoute(satelliteId)`: the detail template with its
   * placeholder replaced by the decimal text of the id.
   */
  function CreateSatelliteDetailRoute(satelliteId: Int32): (route: string)
    ensures |route| > |DetailPrefix| && route[..|DetailPrefix|] == DetailPrefix
    ensures route[|DetailPrefix|..] == Show(satelliteId)
  {
    DetailPrefix + Show(satelliteId)
  }

  /**
   * A route pattern whose last segment is the placeholder of `argument`,
   * with that placeholder replaced by `value`.
   */
  function FillTemplate(template: string, argument: string, value: string): (r: Option<string>)
    ensures r.Some? ==> exists p :: template == p + "{" + argument + "}" && r.value == p + value
    ensures (|template| >= |"{" + argument + "}"| &&
             template[|template| - |"{" + argument + "}"|..] == "{" + argument + "}") ==> r.Some?
  {
    var placeholder := "{" + argument + "}";
    if |template| >= |placeholder| && template[|template| - |placeholder|..] == placeholder then
      var p := template[..|template| - |placeholder|];
      assert template == p + placeholder;
      Some(p + value)
    else None
  }

  /** The built route is exactly `SATELLITE_DETAIL` with `{satelliteId}` replaced by the decimal id. */
  lemma RouteFillsTemplate(satelliteId: Int32)
    ensures FillTemplate(SatelliteDetail, DetailArgument, Show(satelliteId)) == Some(CreateSatelliteDetailRoute(satelliteId))
  {
    assert SatelliteDetail[|SatelliteDetail| - 13..] == "{satelliteId}";
    assert SatelliteDetail[..|SatelliteDetail| - 13] == DetailPrefix;
  }

  /** The text the navigation library hands over as the `satelliteId` argument of a detail route. */
  function RouteArgument(route: string): (arg: Option<string>)
    ensures arg.Some? <==> |route| >= |DetailPrefix| && route[..|DetailPrefix|] == DetailPrefix
    ensures arg.Some? ==> route == DetailPrefix + arg.value
  {
    if |route| >= |DetailPrefix| && route[..|DetailPrefix|] == DetailPrefix
    then Some(route[|DetailPrefix|..])
    else None
  }

  /**
   * `arguments?.getString("satelliteId")?.toIntOrNull() ?: 0`: a missing or
   * non-numeric argument resolves to satellite 0.
   */
  function ResolveSatelliteId(arg: Option<string>): (id: Int32)
    ensures arg.None? ==> id == 0
    ensures arg.Some? && ParseInt(arg.value).None? ==> id == 0
    ensures arg.Some? && ParseInt(arg.value).Some? ==> id == ParseInt(arg.value).value
  {
    match arg
    case None => 0
    case Some(text) =>
      match ParseInt(text)
      case None => 0
      case Some(n) => n
  }

  /** The detail screen opened through a built route receives the id the route was built from. */
  lemma RouteRoundTrip(satelliteId: Int32)
    ensures RouteArgument(CreateSatelliteDetailRoute(satelliteId)) == Some(Show(satelliteId))
    ensures ResolveSatelliteId(RouteArgument(CreateSatelliteDetailRoute(satelliteId))) == satelliteId
  {
    ParseShow(satelliteId);
  }

  /** Distinct ids give distinct routes. */
  lemma RoutesDistinct(a: Int32, b: Int32)
    requires a != b
    ensures CreateSatelliteDetailRoute(a) != CreateSatelliteDetailRoute(b)
  {
    if CreateSatelliteDetailRoute(a) == CreateSatelliteDetailRoute(b) {
      ShowInjective(a, b);
    }
  }

  /** A detail route is never the list route. */
  lemma DetailRouteIsNotList(satelliteId: Int32)
    ensures CreateSatelliteDetailRoute(satelliteId) != SatelliteList
  {
    assert |CreateSatelliteDetailRoute(satelliteId)| > |DetailPrefix| > |SatelliteList|;
  }
}
