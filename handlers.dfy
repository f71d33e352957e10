/** The HTTP handlers (internal/handlers/handlers.go): request validation,
    limit defaulting, the mapping of storage errors to status codes and the
    shaping of response bodies. A request is given as its method and its
    already decoded parameters; a response is a status and a body. */
module Handlers {
  import opened Models
  import opened Transport
  import opened Storage

  const StatusOK: int := 200
  const StatusBadRequest: int := 400
  const StatusNotFound: int := 404
  const StatusMethodNotAllowed: int := 405
  const StatusInternalServerError: int := 500

  datatype ResponseBody =
    | Text(text: string)
    | RecommendJson(response: RecommendResponse)
    | LocationJson(location: Location)
    | BusinessTypesJson(businessTypes: seq<BusinessType>)
    | RegionsJson(regions: seq<Region>)

  datatype HttpResponse = HttpResponse(status: int, body: ResponseBody)

  /** Go's `http.Error`: the message and a newline, with the given status. */
  function HttpError(message: string, status: int): HttpResponse
  {
    HttpResponse(status, Text(message + "\n"))
  }

  /** The JSON body of a recommendation request after decoding; a field the
      client leaves out decodes to its zero value. */
  datatype RecommendFields = RecommendFields(region: string, city: string, businessType: string, limit: int)

  /** What the reference store returns for each of its two queries. */
  datatype ReferenceStore = ReferenceStore(
    businessTypes: Result<seq<Ref<BusinessType>>>,
    regions: Result<seq<Ref<Region>>>)

  predicate HasRequiredFields(fields: RecommendFields)
  {
    fields.region != "" && fields.businessType != ""
  }

  /** The response to a valid recommendation request, given what the search
      returned: 500 on any error, otherwise the locations in search order
      with their count as the total. */
  function RecommendReply(outcome: Result<seq<Location>>): (resp: HttpResponse)
    ensures resp.status == StatusOK <==> outcome.Ok?
    ensures outcome.Err? ==> resp == HttpError("Internal server error", StatusInternalServerError)
    ensures outcome.Ok? ==>
      && resp.body.RecommendJson?
      && resp.body.response.locations == outcome.value
      && resp.body.response.total == |resp.body.response.locations|
  {
    match outcome
    case Err(_) => HttpError("Internal server error", StatusInternalServerError)
    case Ok(locations) => HttpResponse(StatusOK, RecommendJson(RecommendResponse(locations, |locations|)))
  }

  /** End to end: a valid recommendation succeeds exactly on a decodable
      reply below 400, and then lists one location per hit, in hit order,
      with the hit's score, and a total equal to the number of hits. */
  lemma RecommendReplyFromEngine(reply: EngineReply)
    ensures var resp := RecommendReply(SearchOutcome(reply));
      && (resp.status == StatusOK <==> reply.Reply? && reply.status < 400 && reply.json.Decoded?)
      && (resp.status != StatusOK ==> resp.status == StatusInternalServerError)
      && (resp.status == StatusOK ==>
            && resp.body.response.total == |reply.json.hits|
            && forall i :: 0 <= i < |reply.json.hits| ==>
                 resp.body.response.locations[i] == reply.json.hits[i].source.(score := reply.json.hits[i].score))
  {
  }

  /** When the engine honours the search a valid request sends, a successful
      response holds at most the effective limit of locations, each in the
      requested region (and city, when given) and suited to the requested
      business type, in ranking order. */
  lemma RecommendationsHonourRequest(index: string, fields: RecommendFields, reply: EngineReply)
    requires HasRequiredFields(fields)
    requires HonoursSearch(SearchCall(index, EffectiveLimit(fields.limit),
                                      RecommendQuery(fields.region, fields.city, fields.businessType)), reply)
    ensures var resp := RecommendReply(SearchOutcome(reply));
      resp.status == StatusOK ==>
        var locs := resp.body.response.locations;
        && (fields.limit >= 0 ==> |locs| <= EffectiveLimit(fields.limit))
        && (forall i :: 0 <= i < |locs| ==>
              && locs[i].region == fields.region
              && (fields.city != "" ==> locs[i].city == fields.city)
              && fields.businessType in locs[i].businessTypesSuitable)
        && RankingOrder(locs)
  {
    var resp := RecommendReply(SearchOutcome(reply));
    if resp.status == StatusOK {
      var hits := reply.json.hits;
      var locs := resp.body.response.locations;
      assert locs == ScoredLocations(hits);
      forall i | 0 <= i < |locs|
        ensures locs[i].region == fields.region
        ensures fields.city != "" ==> locs[i].city == fields.city
        ensures fields.businessType in locs[i].businessTypesSuitable
      {
        RecommendQueryAdmits(fields.region, fields.city, fields.businessType, hits[i].source);
      }
      forall i, j | 0 <= i < j < |locs|
        ensures || locs[i].score > locs[j].score
                || (locs[i].score == locs[j].score && locs[i].trafficScore > locs[j].trafficScore)
                || (&& locs[i].score == locs[j].score && locs[i].trafficScore == locs[j].trafficScore
                    && locs[i].competitionDensity <= locs[j].competitionDensity)
      {
        RankingSortOrder(hits[i], hits[j]);
      }
    }
  }

  /** The response to a lookup with a non-empty id, given what storage
      returned: 404 exactly for the "location not found" message, 500 for
      every other error, otherwise the location. */
  function LocationReply(outcome: Result<Location>): (resp: HttpResponse)
    ensures resp.status == StatusNotFound <==> outcome == Err(NotFoundMessage)
    ensures resp.status == StatusInternalServerError <==> outcome.Err? && outcome.message != NotFoundMessage
    ensures resp.status == StatusOK <==> outcome.Ok?
    ensures outcome.Ok? ==> resp.body == LocationJson(outcome.value)
  {
    match outcome
    case Err(message) =>
      if message == NotFoundMessage then HttpError("Location not found", StatusNotFound)
      else HttpError("Internal server error", StatusInternalServerError)
    case Ok(location) => HttpResponse(StatusOK, LocationJson(location))
  }

  /** End to end: a lookup answers 404 exactly when the engine reports the
      document missing, 200 exactly when it returns it, and 500 on every
      transport failure, other error status or undecodable body. */
  lemma LocationReplyFromEngine(reply: EngineReply)
    ensures var resp := LocationReply(GetOutcome(reply));
      && (resp.status == StatusNotFound <==> DocumentMissing(reply))
      && (resp.status == StatusOK <==>
            reply.Reply? && reply.status < 400 && reply.json.Decoded? && reply.json.found)
      && (resp.status == StatusInternalServerError <==>
            || reply.TransportFailure?
            || (reply.status >= 400 && reply.status != 404)
            || (reply.status < 400 && reply.json.Malformed?))
      && (resp.status == StatusOK ==> resp.body == LocationJson(reply.json.source))
  {
  }

  /** Copies the values behind a slice of pointers into a new slice. */
  method Dereference<T(0)>(ptrs: seq<Ref<T>>) returns (values: seq<T>)
    ensures values == Values(ptrs)
  {
    var a := new T[|ptrs|];
    for i := 0 to |ptrs|
      invariant forall j :: 0 <= j < i ==> a[j] == ptrs[j].value
    {
      a[i] := ptrs[i].value;
    }
    values := a[..];
  }

  class Handlers {
    const es: ElasticsearchStorage
    const pg: ReferenceStore

    constructor (es: ElasticsearchStorage, pg: ReferenceStore)
      ensures this.es == es && this.pg == pg
    {
      this.es := es;
      this.pg := pg;
    }

    /** POST /locations/recommend. Rejections happen before any search. */
    method RecommendLocations(httpMethod: string, body: Option<RecommendFields>) returns (resp: HttpResponse)
      modifies es.engine
      ensures httpMethod != "POST" ==>
        resp == HttpError("Method not allowed", StatusMethodNotAllowed) && es.engine.sent == old(es.engine.sent)
      ensures httpMethod == "POST" && body.None? ==>
        resp == HttpError("Invalid request body", StatusBadRequest) && es.engine.sent == old(es.engine.sent)
      ensures httpMethod == "POST" && body.Some? && !HasRequiredFields(body.value) ==>
        && resp == HttpError("Region and business_type are required", StatusBadRequest)
        && es.engine.sent == old(es.engine.sent)
      ensures httpMethod == "POST" && body.Some? && HasRequiredFields(body.value) ==>
        var fields := body.value;
        var call := SearchCall(es.index, EffectiveLimit(fields.limit),
                               RecommendQuery(fields.region, fields.city, fields.businessType));
        && es.engine.sent == old(es.engine.sent) + [call]
        && resp == RecommendReply(SearchOutcome(es.engine.respond(old(es.engine.sent), call)))
    {
      if httpMethod != "POST" {
        return HttpError("Method not allowed", StatusMethodNotAllowed);
      }
      if body.None? {
        return HttpError("Invalid request body", StatusBadRequest);
      }
      var fields := body.value;
      if fields.region == "" || fields.businessType == "" {
        return HttpError("Region and business_type are required", StatusBadRequest);
      }
      var req := new RecommendRequest(fields.region, fields.city, fields.businessType, fields.limit);
      if req.limit == 0 {
        req.limit := DefaultLimit;
      }
      var locations := es.RecommendLocations(req);
      if locations.Err? {
        return HttpError("Internal server error", StatusInternalServerError);
      }
      var values := Dereference(locations.value);
      return HttpResponse(StatusOK, RecommendJson(RecommendResponse(values, |values|)));
    }

    /** GET /locations/{id}. */
    method GetLocation(httpMethod: string, id: string) returns (resp: HttpResponse)
      modifies es.engine
      ensures httpMethod != "GET" ==>
        resp == HttpError("Method not allowed", StatusMethodNotAllowed) && es.engine.sent == old(es.engine.sent)
      ensures httpMethod == "GET" && id == "" ==>
        resp == HttpError("Location ID is required", StatusBadRequest) && es.engine.sent == old(es.engine.sent)
      ensures httpMethod == "GET" && id != "" ==>
        var call := GetDocument(es.index, id);
        && es.engine.sent == old(es.engine.sent) + [call]
        && resp == LocationReply(GetOutcome(es.engine.respond(old(es.engine.sent), call)))
    {
      if httpMethod != "GET" {
        return HttpError("Method not allowed", StatusMethodNotAllowed);
      }
      if id == "" {
        return HttpError("Location ID is required", StatusBadRequest);
      }
      var location := es.GetLocation(id);
      if location.Err? {
        if location.message == NotFoundMessage {
          return HttpError("Location not found", StatusNotFound);
        }
        return HttpError("Internal server error", StatusInternalServerError);
      }
      return HttpResponse(StatusOK, LocationJson(location.value.value));
    }

    /** GET /business-types: the rows as the store returned them. */
    method GetBusinessTypes(httpMethod: string) returns (resp: HttpResponse)
      ensures httpMethod != "GET" ==> resp == HttpError("Method not allowed", StatusMethodNotAllowed)
      ensures httpMethod == "GET" && pg.businessTypes.Err? ==>
        resp == HttpError("Internal server error", StatusInternalServerError)
      ensures httpMethod == "GET" && pg.businessTypes.Ok? ==>
        resp == HttpResponse(StatusOK, BusinessTypesJson(Values(pg.businessTypes.value)))
    {
      if httpMethod != "GET" {
        return HttpError("Method not allowed", StatusMethodNotAllowed);
      }
      var businessTypes := pg.businessTypes;
      if businessTypes.Err? {
        return HttpError("Internal server error", StatusInternalServerError);
      }
      var values := Dereference(businessTypes.value);
      return HttpResponse(StatusOK, BusinessTypesJson(values));
    }

    /** GET /regions: the rows as the store returned them. */
    method GetRegions(httpMethod: string) returns (resp: HttpResponse)
      ensures httpMethod != "GET" ==> resp == HttpError("Method not allowed", StatusMethodNotAllowed)
      ensures httpMethod == "GET" && pg.regions.Err? ==>
        resp == HttpError("Internal server error", StatusInternalServerError)
      ensures httpMethod == "GET" && pg.regions.Ok? ==>
        resp == HttpResponse(StatusOK, RegionsJson(Values(pg.regions.value)))
    {
      if httpMethod != "GET" {
        return HttpError("Method not allowed", StatusMethodNotAllowed);
      }
      var regions := pg.regions;
      if regions.Err? {
        return HttpError("Internal server error", StatusInternalServerError);
      }
      var values := Dereference(regions.value);
      return HttpResponse(StatusOK, RegionsJson(values));
    }
  }
}
