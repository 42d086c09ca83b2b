/** The two HTTP routes: `GET /:zip/:rng` (records near a zip code) and
    `GET /:search?` (full-text search). The database calls are parameters:
    `findOne` and the `$nearSphere` and `$text` queries are answered by the
    store, whose geodesic search and text scoring are not modelled; this
    module models the request validation, the queries the routes build and
    the responses they assemble from the answers. */
module Routes {
  import opened Js
  import opened Records

  /** The default of `MAX_DIST_KM`. When the environment variable is set it
      is a string, and `rng > MAX_DIST_KM` becomes a comparison of two strings
      (lexicographic); only the numeric default is modelled. */
  const MaxDistKm: real := 200.0

  /** The guard of the proximity route: reject (400) when `zip` or `rng` is
      missing or empty, or when `rng`, converted to a number by the caller's
      `toNumber` (JavaScript's string-to-number conversion), lies outside
      `[0, MaxDistKm]`. Both bounds are inclusive. A comparison with NaN is
      false, so a non-numeric `rng` is NOT rejected. */
  function ProximityRequestInvalid(zip: Maybe<string>, rng: Maybe<string>, toNumber: string -> Number): (invalid: bool)
    ensures !Truthy(zip) || !Truthy(rng) ==> invalid
    ensures Truthy(zip) && Truthy(rng) ==>
      (invalid <==> match toNumber(rng.value)
                    case Finite(r) => r < 0.0 || MaxDistKm < r
                    case NaN => false
                    case _ => true)
  {
    !Truthy(zip) || !Truthy(rng) || LessThan(toNumber(rng.value), 0.0) || GreaterThan(toNumber(rng.value), MaxDistKm)
  }

  /** The guard of the search route: reject (400) when `search` is missing or empty. */
  function SearchRequestInvalid(search: Maybe<string>): (invalid: bool)
    ensures invalid <==> search == Undefined || search == Defined("")
  {
    !Truthy(search)
  }

  /** The filter `{zip_code: zip}` handed to `findOne`. */
  function ZipFilter(zip: string): Doc
  {
    map["zip_code" := Text(zip)]
  }

  /** `{location: {$nearSphere: {$geometry: g, $maxDistance: m}}}`. */
  datatype NearQuery = NearSphere(geometry: Maybe<Value>, maxDistanceMeters: Number)

  /** `rng * 1000`: the radius in metres (the string operand is converted to a number first). */
  function KilometersToMeters(km: Number): Number
  {
    match km
    case Finite(r) => Finite(r * 1000.0)
    case _ => km
  }

  /** The spatial query issued for anchor `point` and radius `rng`. */
  function NearQueryFor(point: Doc, rng: Number): NearQuery
  {
    NearSphere(Field(point, "location"), KilometersToMeters(rng))
  }

  /** Once the guard has let a request through, the `$maxDistance` handed
      to the store is NaN (a non-numeric `rng`) or a finite number of metres
      within `[0, 1000 * MaxDistKm]`; it is never negative or infinite. */
  lemma AcceptedNearQueryRadius(zip: Maybe<string>, rng: Maybe<string>, toNumber: string -> Number, point: Doc)
    requires !ProximityRequestInvalid(zip, rng, toNumber)
    ensures var m := NearQueryFor(point, toNumber(rng.value)).maxDistanceMeters;
            m == NaN || (m.Finite? && 0.0 <= m.value <= 1000.0 * MaxDistKm)
    ensures NearQueryFor(point, toNumber(rng.value)).maxDistanceMeters == NaN <==> toNumber(rng.value) == NaN
  {
  }

  /** `{$text: {$search: s}}` with the projection that hides `_id` and
      `nearest`, sorted by text score and limited to `limit` hits. */
  datatype TextQuery = TextSearch(search: string, hidden: set<string>, sortByTextScore: bool, limit: nat)

  /** One element of `nearest`: `{zip_code: hit.zip_code}`. */
  datatype NearestEntry = NearestEntry(zipCode: Maybe<Value>)

  /** What a route sends back. */
  datatype Response =
    | BadRequest
    | EmptyArray
    | Neighbourhood(countryCode: Maybe<Value>, zipCode: Maybe<Value>, name: Maybe<Value>, nearest: seq<NearestEntry>)
    | Matches(docs: seq<Doc>)

  /** The push loop filling `result.nearest`: one entry per hit, carrying the
      hit's `zip_code`, in the order the spatial query returned the hits. */
  method BuildNearest(nearby: seq<Doc>) returns (nearest: seq<NearestEntry>)
    ensures |nearest| == |nearby|
    ensures forall i :: 0 <= i < |nearby| ==> nearest[i] == NearestEntry(Field(nearby[i], "zip_code"))
  {
    nearest := [];
    var i := 0;
    while i < |nearby|
      invariant 0 <= i <= |nearby|
      invariant |nearest| == i
      invariant forall j :: 0 <= j < i ==> nearest[j] == NearestEntry(Field(nearby[j], "zip_code"))
    {
      nearest := nearest + [NearestEntry(Field(nearby[i], "zip_code"))];
      i := i + 1;
    }
  }

  /** The handler of `GET /:zip/:rng`. `findOne` and `nearSphere` stand for
      the store's answers. An invalid request is a 400; an unknown zip code
      is an empty array, not an error; otherwise the header fields are the
      anchor record's and `nearest` lists the hits' zip codes in order. */
  method HandleProximity(zip: Maybe<string>, rng: Maybe<string>, toNumber: string -> Number,
                         findOne: Doc -> Maybe<Doc>, nearSphere: NearQuery -> seq<Doc>)
    returns (resp: Response)
    ensures resp == BadRequest <==> ProximityRequestInvalid(zip, rng, toNumber)
    ensures !ProximityRequestInvalid(zip, rng, toNumber) && findOne(ZipFilter(zip.value)) == Undefined ==>
      resp == EmptyArray
    ensures !ProximityRequestInvalid(zip, rng, toNumber) && findOne(ZipFilter(zip.value)).Defined? ==>
      var point := findOne(ZipFilter(zip.value)).value;
      var nearby := nearSphere(NearQueryFor(point, toNumber(rng.value)));
      && resp.Neighbourhood?
      && resp.countryCode == Field(point, "country_code")
      && resp.zipCode == Field(point, "zip_code")
      && resp.name == Field(point, "name")
      && |resp.nearest| == |nearby|
      && forall i :: 0 <= i < |nearby| ==> resp.nearest[i] == NearestEntry(Field(nearby[i], "zip_code"))
  {
    if ProximityRequestInvalid(zip, rng, toNumber) {
      return BadRequest;
    }
    var found := findOne(ZipFilter(zip.value));
    if found == Undefined {
      return EmptyArray;
    }
    var point := found.value;
    // An array is always truthy, so the `!nearby` check after the query never fires.
    var nearby := nearSphere(NearQueryFor(point, toNumber(rng.value)));
    var nearest := BuildNearest(nearby);
    resp := Neighbourhood(Field(point, "country_code"), Field(point, "zip_code"), Field(point, "name"), nearest);
  }

  /** The handler of `GET /:search?`: a 400 for a missing or empty search
      string, otherwise the store's answer to the top-5 text query, as is. */
  function HandleSearch(search: Maybe<string>, textFind: TextQuery -> seq<Doc>): (resp: Response)
    ensures resp == BadRequest <==> search == Undefined || search == Defined("")
    ensures resp != BadRequest ==>
      resp.Matches? && resp.docs == textFind(TextSearch(search.value, {"_id", "nearest"}, true, 5))
  {
    if SearchRequestInvalid(search) then BadRequest
    else Matches(textFind(TextSearch(search.value, {"_id", "nearest"}, true, 5)))
  }
}
