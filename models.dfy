/** Data model of the location recommendation service (internal/models/models.go).
    Floating-point fields are modelled as `real`, timestamps as opaque integers. */
module Models {

  /** Go's "value or nil". */
  datatype Option<T> = None | Some(value: T)

  /** Go's `(value, error)` pair: an error is identified by its message. */
  datatype Result<T> = Ok(value: T) | Err(message: string)

  /** A point in time; only compared and copied, never computed with. */
  type Timestamp = int

  /** A Go pointer `*T`: a heap cell whose pointee can be read and overwritten. */
  class Ref<T> {
    var value: T

    constructor (v: T)
      ensures value == v
    {
      value := v;
    }
  }

  datatype GeoPoint = GeoPoint(lat: real, lon: real)

  datatype Demographics = Demographics(
    ageGroup: string,
    averageIncome: real,
    interests: seq<string>,
    populationDensity: real)

  /** A recommendable place as stored in the search index. `score` is the
      transient ranking score, filled in only on search results. */
  datatype Location = Location(
    id: string,
    name: string,
    address: string,
    coordinates: GeoPoint,
    region: string,
    city: string,
    description: string,
    businessTypesSuitable: seq<string>,
    trafficScore: real,
    competitionDensity: real,
    demographics: Demographics,
    embedding: seq<real>,
    createdAt: Timestamp,
    updatedAt: Timestamp,
    score: real)

  datatype BusinessType = BusinessType(
    id: int,
    name: string,
    description: string,
    createdAt: Timestamp,
    updatedAt: Timestamp)

  /** A region of the reference hierarchy; `parentRegionId` is None for a root. */
  datatype Region = Region(
    id: int,
    name: string,
    parentRegionId: Option<int>,
    createdAt: Timestamp,
    updatedAt: Timestamp)

  /** The recommendation request. It is a class because the query builder
      writes the defaulted limit back through the caller's pointer. */
  class RecommendRequest {
    var region: string
    var city: string
    var businessType: string
    var limit: int

    constructor (region: string, city: string, businessType: string, limit: int)
      ensures this.region == region && this.city == city
      ensures this.businessType == businessType && this.limit == limit
    {
      this.region := region;
      this.city := city;
      this.businessType := businessType;
      this.limit := limit;
    }
  }

  /** The ranked result list and its length. */
  datatype RecommendResponse = RecommendResponse(locations: seq<Location>, total: int)

  /** The values the pointers in `refs` point to, in order. */
  function Values<T>(refs: seq<Ref<T>>): (vs: seq<T>)
    reads refs
    ensures |vs| == |refs|
    ensures forall i :: 0 <= i < |refs| ==> vs[i] == refs[i].value
  {
    if refs == [] then [] else [refs[0].value] + Values(refs[1..])
  }
}
