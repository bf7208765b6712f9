/** The location rule shared by the dashboard and the gateway: a coordinate pair wins over a
    free-text place name, and a request needs one or the other. Both sides also exchange the
    choice as a query-string parameter map, modelled here before URL encoding. */
module Location {
  import opened Js

  /** A resolved location: both coordinates, or a place name. */
  datatype LocationQuery = Coordinates(lat: string, lon: string) | Place(q: string)

  /** Every component of a resolved location is non-empty (it came through a truthiness test). */
  predicate WellFormed(loc: LocationQuery)
  {
    match loc
    case Coordinates(lat, lon) => lat != "" && lon != ""
    case Place(q) => q != ""
  }

  /** `if (lat && lon) … else if (q) … else …`: which location a request names, if any. */
  function Resolve(lat: Option<string>, lon: Option<string>, q: Option<string>): (r: Option<LocationQuery>)
    ensures r.Some? ==> WellFormed(r.value)
    ensures Truthy(lat) && Truthy(lon) ==> r == Some(Coordinates(lat.value, lon.value))
    ensures !(Truthy(lat) && Truthy(lon)) && Truthy(q) ==> r == Some(Place(q.value))
    ensures r.None? <==> !(Truthy(lat) && Truthy(lon)) && !Truthy(q)
  {
    if Truthy(lat) && Truthy(lon) then Some(Coordinates(lat.value, lon.value))
    else if Truthy(q) then Some(Place(q.value))
    else None
  }

  /** A coordinate pair takes precedence: the place name is then irrelevant. */
  lemma CoordinatesOverridePlace(lat: string, lon: string, q1: Option<string>, q2: Option<string>)
    requires lat != "" && lon != ""
    ensures Resolve(Some(lat), Some(lon), q1) == Resolve(Some(lat), Some(lon), q2)
  {
  }

  /** Half a coordinate pair (or an empty one) counts for nothing: only the place name is used. */
  lemma HalfPairIgnored(lat: Option<string>, lon: Option<string>, q: Option<string>)
    requires !Truthy(lat) || !Truthy(lon)
    ensures Resolve(lat, lon, q) == Resolve(None, None, q)
  {
  }

  /** Resolving a well-formed location's own components gives that location back. */
  lemma ResolveOwnComponents(loc: LocationQuery)
    requires WellFormed(loc)
    ensures loc.Coordinates? ==> Resolve(Some(loc.lat), Some(loc.lon), None) == Some(loc)
    ensures loc.Place? ==> Resolve(None, None, Some(loc.q)) == Some(loc)
  {
  }

  // ---------------------------------------------------------------------------
  // Query-string parameters

  /** A parsed query string (`req.query`, `URLSearchParams`), one value per name. */
  type Params = map<string, string>

  function Lookup(p: Params, name: string): (r: Option<string>)
    ensures r.Some? <==> name in p
    ensures r.Some? ==> r.value == p[name]
  {
    if name in p then Some(p[name]) else None
  }

  /** The parameters the dashboard appends to `/api/weather?`: `lat` and `lon`, or `q`, or none. */
  function LocationParams(loc: Option<LocationQuery>): Params
  {
    match loc
    case None => map[]
    case Some(Coordinates(lat, lon)) => map["lat" := lat, "lon" := lon]
    case Some(Place(q)) => map["q" := q]
  }

  /** Resolving a request's `lat`, `lon` and `q` parameters. */
  function ResolveParams(p: Params): Option<LocationQuery>
  {
    Resolve(Lookup(p, "lat"), Lookup(p, "lon"), Lookup(p, "q"))
  }

  /** Sending a resolved location as parameters and resolving them again gives the same
      location back, and sending no location gives none. */
  lemma {:induction false} ParamsRoundTrip(loc: Option<LocationQuery>)
    requires loc.Some? ==> WellFormed(loc.value)
    ensures ResolveParams(LocationParams(loc)) == loc
  {
  }
}
