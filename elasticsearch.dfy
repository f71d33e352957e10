/** The search index client (internal/storage/elasticsearch.go): the
    recommendation query builder, the conversion of search hits into
    scored locations, the NDJSON body of a bulk upsert, and the mapping of
    engine replies to results and error messages. */
module Storage {
  import opened Models
  import opened Transport

  /** The result size used when a request leaves its limit at zero. */
  const DefaultLimit: int := 20

  /** The message of the error that the HTTP layer turns into a 404. */
  const NotFoundMessage: string := "location not found"

  function EffectiveLimit(limit: int): int
  {
    if limit == 0 then DefaultLimit else limit
  }

  // ---------------------------------------------------------------------
  // The recommendation query, as a specification

  /** An exact-match filter on `field`, present only when `value` is set. */
  function TermIfSet(field: string, value: string): seq<Clause>
  {
    if value == "" then [] else [Term(field, value)]
  }

  function MustClauses(region: string, city: string, businessType: string): seq<Clause>
  {
    TermIfSet("region", region) + TermIfSet("city", city)
      + TermIfSet("business_types_suitable", businessType)
  }

  /** The two optional clauses that raise the relevance of busy, uncrowded places. */
  const RankingBoosts: seq<Clause> :=
    [Range("traffic_score", Gte, 7.0, 2.0), Range("competition_density", Lte, 3.0, 1.5)]

  const RankingSort: seq<SortKey> :=
    [SortKey("_score", Desc), SortKey("traffic_score", Desc), SortKey("competition_density", Asc)]

  /** The query the builder produces for a request with these fields. */
  function RecommendQuery(region: string, city: string, businessType: string): SearchQuery
  {
    SearchQuery(BoolQuery(MustClauses(region, city, businessType), RankingBoosts, 0), RankingSort)
  }

  /** The clauses of `clauses` that constrain `field`, in order. */
  function ClausesOn(field: string, clauses: seq<Clause>): seq<Clause>
  {
    if clauses == [] then []
    else (if clauses[0].field == field then [clauses[0]] else []) + ClausesOn(field, clauses[1..])
  }

  lemma {:induction false} ClausesOnAppend(field: string, a: seq<Clause>, b: seq<Clause>)
    ensures ClausesOn(field, a + b) == ClausesOn(field, a) + ClausesOn(field, b)
  {
    if a == [] {
      assert a + b == b;
    } else {
      assert (a + b)[0] == a[0];
      assert (a + b)[1..] == a[1..] + b;
      ClausesOnAppend(field, a[1..], b);
    }
  }

  /** Per field, the filter list holds no clause when the request field is
      empty and exactly one term carrying the request's value otherwise. */
  lemma MustClausesPerField(region: string, city: string, businessType: string)
    ensures ClausesOn("region", MustClauses(region, city, businessType)) == TermIfSet("region", region)
    ensures ClausesOn("city", MustClauses(region, city, businessType)) == TermIfSet("city", city)
    ensures ClausesOn("business_types_suitable", MustClauses(region, city, businessType))
         == TermIfSet("business_types_suitable", businessType)
  {
    var r, c, b := TermIfSet("region", region), TermIfSet("city", city),
                   TermIfSet("business_types_suitable", businessType);
    ClausesOnAppend("region", r + c, b);
    ClausesOnAppend("region", r, c);
    ClausesOnAppend("city", r + c, b);
    ClausesOnAppend("city", r, c);
    ClausesOnAppend("business_types_suitable", r + c, b);
    ClausesOnAppend("business_types_suitable", r, c);
  }

  /** Position of a filtered field in the builder's fixed order. */
  function FieldRank(field: string): int
  {
    if field == "region" then 0 else if field == "city" then 1 else 2
  }

  function CountSet(values: seq<string>): nat
  {
    if values == [] then 0 else (if values[0] != "" then 1 else 0) + CountSet(values[1..])
  }

  /** The filter list has one term per non-empty field and lists them in
      the order region, city, business type. */
  lemma MustClausesOrder(region: string, city: string, businessType: string)
    ensures var must := MustClauses(region, city, businessType);
      && |must| == CountSet([region, city, businessType]) <= 3
      && (forall i :: 0 <= i < |must| ==>
            must[i].Term? && must[i].field in ["region", "city", "business_types_suitable"])
      && (forall i, j :: 0 <= i < j < |must| ==> FieldRank(must[i].field) < FieldRank(must[j].field))
  {
    assert CountSet([businessType]) == (if businessType != "" then 1 else 0);
    assert [city, businessType][1..] == [businessType];
    assert [region, city, businessType][1..] == [city, businessType];
  }

  /** The should list, match requirement and sort do not depend on the request. */
  lemma RecommendQueryFixedParts(region: string, city: string, businessType: string)
    ensures var q := RecommendQuery(region, city, businessType);
      && q.query.should == [Range("traffic_score", Gte, 7.0, 2.0), Range("competition_density", Lte, 3.0, 1.5)]
      && q.query.minimumShouldMatch == 0
      && q.sort == [SortKey("_score", Desc), SortKey("traffic_score", Desc), SortKey("competition_density", Asc)]
  {
  }

  // ---------------------------------------------------------------------
  // What a bool query admits (the Elasticsearch/OpenSearch reading of
  // must, should and minimum_should_match), used to state what the built
  // query filters.

  /** The keyword values a location holds in `field`. */
  function KeywordValues(loc: Location, field: string): seq<string>
  {
    if field == "region" then [loc.region]
    else if field == "city" then [loc.city]
    else if field == "business_types_suitable" then loc.businessTypesSuitable
    else []
  }

  function NumericValue(loc: Location, field: string): Option<real>
  {
    if field == "traffic_score" then Some(loc.trafficScore)
    else if field == "competition_density" then Some(loc.competitionDensity)
    else None
  }

  predicate Matches(loc: Location, clause: Clause)
  {
    match clause
    case Term(field, value) => value in KeywordValues(loc, field)
    case Range(field, op, bound, _) =>
      var v := NumericValue(loc, field);
      v.Some? && (if op == Gte then v.value >= bound else v.value <= bound)
  }

  predicate AllMatch(loc: Location, clauses: seq<Clause>)
  {
    forall i :: 0 <= i < |clauses| ==> Matches(loc, clauses[i])
  }

  function CountMatching(loc: Location, clauses: seq<Clause>): nat
  {
    if clauses == [] then 0
    else (if Matches(loc, clauses[0]) then 1 else 0) + CountMatching(loc, clauses[1..])
  }

  /** How many should clauses a document must match. A bool query without
      must clauses but with should clauses matches only documents that
      satisfy at least one of them, whatever lower `minimum_should_match`
      it carries. */
  function RequiredShouldMatches(q: BoolQuery): int
  {
    if q.must == [] && q.should != [] && q.minimumShouldMatch < 1 then 1 else q.minimumShouldMatch
  }

  predicate Admits(q: SearchQuery, loc: Location)
  {
    AllMatch(loc, q.query.must) && CountMatching(loc, q.query.should) >= RequiredShouldMatches(q.query)
  }

  lemma AllMatchAppend(loc: Location, a: seq<Clause>, b: seq<Clause>)
    ensures AllMatch(loc, a + b) <==> AllMatch(loc, a) && AllMatch(loc, b)
  {
    if AllMatch(loc, a) && AllMatch(loc, b) {
      forall i | 0 <= i < |a + b| ensures Matches(loc, (a + b)[i]) {
        if i < |a| { assert (a + b)[i] == a[i]; } else { assert (a + b)[i] == b[i - |a|]; }
      }
    }
    if AllMatch(loc, a + b) {
      forall i | 0 <= i < |a| ensures Matches(loc, a[i]) { assert (a + b)[i] == a[i]; }
      forall i | 0 <= i < |b| ensures Matches(loc, b[i]) { assert (a + b)[|a| + i] == b[i]; }
    }
  }

  /** The built query admits exactly the locations that agree with every
      non-empty request field. When some field is set the boosts never
      exclude a location; when none is, the boosts become the filter and a
      location must be busy or uncrowded. */
  lemma RecommendQueryAdmits(region: string, city: string, businessType: string, loc: Location)
    ensures Admits(RecommendQuery(region, city, businessType), loc)
        <==> && (region == "" || loc.region == region)
             && (city == "" || loc.city == city)
             && (businessType == "" || businessType in loc.businessTypesSuitable)
             && (region == "" && city == "" && businessType == "" ==>
                   loc.trafficScore >= 7.0 || loc.competitionDensity <= 3.0)
  {
    var r, c, b := TermIfSet("region", region), TermIfSet("city", city),
                   TermIfSet("business_types_suitable", businessType);
    assert CountMatching(loc, RankingBoosts)
        == (if loc.trafficScore >= 7.0 then 1 else 0) + (if loc.competitionDensity <= 3.0 then 1 else 0)
    by {
      var traffic, competition := RankingBoosts[0], RankingBoosts[1];
      assert Matches(loc, traffic) <==> loc.trafficScore >= 7.0;
      assert Matches(loc, competition) <==> loc.competitionDensity <= 3.0;
      assert RankingBoosts[1..] == [competition] && [competition][1..] == [];
      assert CountMatching(loc, [competition]) == if loc.competitionDensity <= 3.0 then 1 else 0;
    }
    assert MustClauses(region, city, businessType) == [] <==> region == "" && city == "" && businessType == "";
    AllMatchAppend(loc, r + c, b);
    AllMatchAppend(loc, r, c);
    assert AllMatch(loc, r) <==> (region == "" || loc.region == region) by {
      if region != "" { assert r[0] == Term("region", region); }
    }
    assert AllMatch(loc, c) <==> (city == "" || loc.city == city) by {
      if city != "" { assert c[0] == Term("city", city); }
    }
    assert AllMatch(loc, b) <==> (businessType == "" || businessType in loc.businessTypesSuitable) by {
      if businessType != "" { assert b[0] == Term("business_types_suitable", businessType); }
    }
  }

  /** The value a hit is sorted on for `field`: `_score` is the relevance
      score, any other field is read from the document. */
  function SortValue(hit: Hit, field: string): real
  {
    if field == "_score" then hit.score
    else match NumericValue(hit.source, field)
      case Some(v) => v
      case None => 0.0
  }

  /** Hit `a` may come before hit `b` under the sort keys `sort`, compared
      key by key, later keys breaking ties of earlier ones. */
  predicate NotAfter(sort: seq<SortKey>, a: Hit, b: Hit)
  {
    if sort == [] then true
    else
      var x, y := SortValue(a, sort[0].field), SortValue(b, sort[0].field);
      if x == y then NotAfter(sort[1..], a, b)
      else if sort[0].order == Desc then x > y else x < y
  }

  /** The engine answered a search as the request asks: no more hits than
      the size, every hit admitted by the query, hits in the sort order. */
  predicate HonoursSearch(call: EngineCall, reply: EngineReply)
  {
    call.SearchCall? && reply.Reply? && reply.status < 400 && reply.json.Decoded? ==>
      && (call.size >= 0 ==> |reply.json.hits| <= call.size)
      && (forall i :: 0 <= i < |reply.json.hits| ==> Admits(call.query, reply.json.hits[i].source))
      && (forall i, j :: 0 <= i < j < |reply.json.hits| ==>
            NotAfter(call.query.sort, reply.json.hits[i], reply.json.hits[j]))
  }

  /** The emitted sort keys allow hit `a` before hit `b` exactly when they
      are ordered by score descending, then traffic score descending, then
      competition density ascending. */
  lemma RankingSortOrder(a: Hit, b: Hit)
    ensures NotAfter(RankingSort, a, b) <==>
            || a.score > b.score
            || (a.score == b.score && a.source.trafficScore > b.source.trafficScore)
            || (&& a.score == b.score && a.source.trafficScore == b.source.trafficScore
                && a.source.competitionDensity <= b.source.competitionDensity)
  {
    var byTraffic, byCompetition := RankingSort[1..], RankingSort[2..];
    assert byTraffic == [SortKey("traffic_score", Desc), SortKey("competition_density", Asc)];
    assert byTraffic[1..] == byCompetition == [SortKey("competition_density", Asc)];
    assert byCompetition[1..] == [];
    assert SortValue(a, "traffic_score") == a.source.trafficScore;
    assert SortValue(b, "traffic_score") == b.source.trafficScore;
    assert SortValue(a, "competition_density") == a.source.competitionDensity;
    assert SortValue(b, "competition_density") == b.source.competitionDensity;
    assert NotAfter(RankingSort, a, b)
        == if a.score == b.score then NotAfter(byTraffic, a, b) else a.score > b.score;
    assert NotAfter(byTraffic, a, b)
        == if a.source.trafficScore == b.source.trafficScore then NotAfter(byCompetition, a, b)
           else a.source.trafficScore > b.source.trafficScore;
    assert NotAfter(byCompetition, a, b)
        == if a.source.competitionDensity == b.source.competitionDensity then NotAfter([], a, b)
           else a.source.competitionDensity < b.source.competitionDensity;
  }

  /** Locations in ranking order: relevance score descending, then traffic
      score descending, then competition density ascending. */
  predicate RankingOrder(locs: seq<Location>)
  {
    forall i, j :: 0 <= i < j < |locs| ==>
      || locs[i].score > locs[j].score
      || (locs[i].score == locs[j].score && locs[i].trafficScore > locs[j].trafficScore)
      || (&& locs[i].score == locs[j].score && locs[i].trafficScore == locs[j].trafficScore
          && locs[i].competitionDensity <= locs[j].competitionDensity)
  }

  // ---------------------------------------------------------------------
  // Search hits, bulk bodies and replies, as specifications

  /** A hit's document with its relevance score copied in. */
  function Scored(hit: Hit): Location
  {
    hit.source.(score := hit.score)
  }

  /** One location per hit, in hit order, each the hit's document with only
      its score replaced by the hit's score. */
  function ScoredLocations(hits: seq<Hit>): (locs: seq<Location>)
    ensures |locs| == |hits|
    ensures forall i :: 0 <= i < |hits| ==>
      locs[i] == hits[i].source.(score := hits[i].score)
  {
    if hits == [] then [] else ScoredLocations(hits[..|hits| - 1]) + [Scored(hits[|hits| - 1])]
  }

  /** The NDJSON lines of a bulk upsert: an index action and then the
      document, for each location in turn. */
  function BulkLines(index: string, docs: seq<Location>): seq<BulkLine>
  {
    if docs == [] then []
    else
      var last := docs[|docs| - 1];
      BulkLines(index, docs[..|docs| - 1]) + [IndexAction(index, last.id), Source(last)]
  }

  /** Line 2i of the bulk body names the index and document i's id;
      line 2i+1 is document i. */
  lemma {:induction false} BulkLinesLayout(index: string, docs: seq<Location>)
    ensures |BulkLines(index, docs)| == 2 * |docs|
    ensures forall i :: 0 <= i < |docs| ==>
      && BulkLines(index, docs)[2 * i] == IndexAction(index, docs[i].id)
      && BulkLines(index, docs)[2 * i + 1] == Source(docs[i])
  {
    if docs != [] {
      var init := docs[..|docs| - 1];
      BulkLinesLayout(index, init);
      forall i | 0 <= i < |docs|
        ensures BulkLines(index, docs)[2 * i] == IndexAction(index, docs[i].id)
        ensures BulkLines(index, docs)[2 * i + 1] == Source(docs[i])
      {
        if i < |init| { assert docs[i] == init[i]; }
      }
    }
  }

  /** Go's `%d` formatting of an integer. */
  function DecimalString(n: int): string
    decreases if n < 0 then 1 - n else n
  {
    if n < 0 then "-" + DecimalString(-n)
    else if n < 10 then ["0123456789"[n]]
    else DecimalString(n / 10) + ["0123456789"[n % 10]]
  }

  /** The result of a search, given the engine's reply. */
  function SearchOutcome(reply: EngineReply): (r: Result<seq<Location>>)
    ensures r.Ok? <==> reply.Reply? && reply.status < 400 && reply.json.Decoded?
    ensures r.Ok? ==> r.value == ScoredLocations(reply.json.hits)
  {
    match reply
    case TransportFailure(reason) => Err("failed to search: " + reason)
    case Reply(status, body, json) =>
      if status >= 400 then Err("error searching: status " + DecimalString(status) + ", body: " + body)
      else match json
        case Malformed(reason) => Err("failed to decode response: " + reason)
        case Decoded(_, _, hits) => Ok(ScoredLocations(hits))
  }

  /** The result of a point lookup, given the engine's reply. */
  function GetOutcome(reply: EngineReply): Result<Location>
  {
    match reply
    case TransportFailure(reason) => Err("failed to get location: " + reason)
    case Reply(status, body, json) =>
      if status == 404 then Err(NotFoundMessage)
      else if status >= 400 then Err("error getting location: status " + DecimalString(status) + ", body: " + body)
      else match json
        case Malformed(reason) => Err("failed to decode response: " + reason)
        case Decoded(found, source, _) => if found then Ok(source) else Err(NotFoundMessage)
  }

  /** The engine says the document is absent: status 404, or a successful
      reply whose `found` flag is false. */
  predicate DocumentMissing(reply: EngineReply)
  {
    reply.Reply? && (reply.status == 404 || (reply.status < 400 && reply.json.Decoded? && !reply.json.found))
  }

  /** A lookup fails with the not-found message exactly when the document is
      missing; it succeeds exactly on a decodable 2xx/3xx reply with
      `found` set, and then yields `_source`. No other failure, whatever the
      transport or the engine says, carries the not-found message. */
  lemma GetOutcomeNotFound(reply: EngineReply)
    ensures GetOutcome(reply) == Err(NotFoundMessage) <==> DocumentMissing(reply)
    ensures GetOutcome(reply).Ok? <==>
      reply.Reply? && reply.status < 400 && reply.json.Decoded? && reply.json.found
    ensures GetOutcome(reply).Ok? ==> GetOutcome(reply).value == reply.json.source
  {
  }

  // ---------------------------------------------------------------------
  // The client

  class ElasticsearchStorage {
    const engine: SearchEngine
    const index: string

    constructor (engine: SearchEngine, index: string)
      ensures this.engine == engine && this.index == index
    {
      this.engine := engine;
      this.index := index;
    }

    /** Creates the index with the given mapping unless the existence probe
        answers 200. */
    method CreateIndex(mapping: string) returns (err: Option<string>)
      modifies engine
      ensures var probe := engine.respond(old(engine.sent), IndexExists(index));
        var afterProbe := old(engine.sent) + [IndexExists(index)];
        if probe.TransportFailure? then
          engine.sent == afterProbe && err == Some("failed to check index existence: " + probe.reason)
        else if probe.status == 200 then
          engine.sent == afterProbe && err == None
        else
          var created := engine.respond(afterProbe, CreateIndexCall(index, mapping));
          && engine.sent == afterProbe + [CreateIndexCall(index, mapping)]
          && err == (if created.TransportFailure? then Some("failed to create index: " + created.reason)
                     else if created.status > 299 then Some("error creating index: " + created.body)
                     else None)
    {
      var probe := engine.Do(IndexExists(index));
      if probe.TransportFailure? {
        return Some("failed to check index existence: " + probe.reason);
      }
      if probe.status == 200 {
        return None;
      }
      var created := engine.Do(CreateIndexCall(index, mapping));
      if created.TransportFailure? {
        return Some("failed to create index: " + created.reason);
      }
      if created.status > 299 {
        return Some("error creating index: " + created.body);
      }
      return None;
    }

    /** Upserts one document under its id, asking for immediate visibility. */
    method IndexLocation(location: Ref<Location>) returns (err: Option<string>)
      modifies engine
      ensures var call := IndexDocument(index, location.value.id, location.value, true);
        var reply := engine.respond(old(engine.sent), call);
        && engine.sent == old(engine.sent) + [call]
        && err == (if reply.TransportFailure? then Some("failed to index location: " + reply.reason)
                   else if reply.status > 299 then Some("error indexing location: " + reply.body)
                   else None)
    {
      var call := IndexDocument(index, location.value.id, location.value, true);
      var reply := engine.Do(call);
      if reply.TransportFailure? {
        return Some("failed to index location: " + reply.reason);
      }
      if reply.status > 299 {
        return Some("error indexing location: " + reply.body);
      }
      return None;
    }

    /** Writes the NDJSON body of a bulk upsert, two lines per location. */
    method BulkBody(locations: seq<Ref<Location>>) returns (lines: seq<BulkLine>)
      ensures lines == BulkLines(index, Values(locations))
    {
      lines := [];
      for i := 0 to |locations|
        invariant lines == BulkLines(index, Values(locations[..i]))
      {
        assert Values(locations[..i + 1])[..i] == Values(locations[..i]);
        lines := lines + [IndexAction(index, locations[i].value.id), Source(locations[i].value)];
      }
      assert locations[..|locations|] == locations;
    }

    /** Upserts all locations in one `_bulk` round trip; any status of 400
        or above fails the whole batch. */
    method BulkIndexLocations(locations: seq<Ref<Location>>) returns (err: Option<string>)
      modifies engine
      ensures var call := BulkCall(BulkLines(index, Values(locations)));
        var reply := engine.respond(old(engine.sent), call);
        && engine.sent == old(engine.sent) + [call]
        && err == (if reply.TransportFailure? then Some("failed to bulk index: " + reply.reason)
                   else if reply.status >= 400 then
                     Some("error bulk indexing: status " + DecimalString(reply.status) + ", body: " + reply.body)
                   else None)
    {
      var lines := BulkBody(locations);
      var reply := engine.Do(BulkCall(lines));
      if reply.TransportFailure? {
        return Some("failed to bulk index: " + reply.reason);
      }
      if reply.status >= 400 {
        return Some("error bulk indexing: status " + DecimalString(reply.status) + ", body: " + reply.body);
      }
      return None;
    }

    /** Looks a location up by id. */
    method GetLocation(id: string) returns (r: Result<Ref<Location>>)
      modifies engine
      ensures engine.sent == old(engine.sent) + [GetDocument(index, id)]
      ensures var outcome := GetOutcome(engine.respond(old(engine.sent), GetDocument(index, id)));
        && (r.Err? <==> outcome.Err?)
        && (r.Err? ==> r.message == outcome.message)
        && (r.Ok? ==> fresh(r.value) && r.value.value == outcome.value)
    {
      var reply := engine.Do(GetDocument(index, id));
      if reply.TransportFailure? {
        return Err("failed to get location: " + reply.reason);
      }
      if reply.status == 404 {
        return Err(NotFoundMessage);
      }
      if reply.status >= 400 {
        return Err("error getting location: status " + DecimalString(reply.status) + ", body: " + reply.body);
      }
      if reply.json.Malformed? {
        return Err("failed to decode response: " + reply.json.reason);
      }
      if !reply.json.found {
        return Err(NotFoundMessage);
      }
      var location := new Ref(reply.json.source);
      return Ok(location);
    }

    /** Builds the recommendation query and defaults the caller's limit. */
    method BuildRecommendQuery(req: RecommendRequest) returns (query: SearchQuery)
      modifies req
      ensures query == RecommendQuery(old(req.region), old(req.city), old(req.businessType))
      ensures req.limit == EffectiveLimit(old(req.limit))
      ensures req.region == old(req.region) && req.city == old(req.city)
      ensures req.businessType == old(req.businessType)
    {
      var must: seq<Clause> := [];
      if req.region != "" {
        must := must + [Term("region", req.region)];
      }
      if req.city != "" {
        must := must + [Term("city", req.city)];
      }
      if req.businessType != "" {
        must := must + [Term("business_types_suitable", req.businessType)];
      }
      var should: seq<Clause> := [];
      should := should + [Range("traffic_score", Gte, 7.0, 2.0)];
      should := should + [Range("competition_density", Lte, 3.0, 1.5)];
      query := SearchQuery(
        BoolQuery(must, should, 0),
        [SortKey("_score", Desc), SortKey("traffic_score", Desc), SortKey("competition_density", Asc)]);
      if req.limit == 0 {
        req.limit := DefaultLimit;
      }
    }

    /** Turns search hits into fresh locations carrying the hits' scores. */
    method HitsToLocations(hits: seq<Hit>) returns (locations: seq<Ref<Location>>)
      ensures |locations| == |hits|
      ensures forall i :: 0 <= i < |hits| ==> fresh(locations[i])
      ensures forall i, j :: 0 <= i < j < |locations| ==> locations[i] != locations[j]
      ensures Values(locations) == ScoredLocations(hits)
    {
      locations := [];
      for i := 0 to |hits|
        invariant |locations| == i
        invariant forall j :: 0 <= j < i ==> fresh(locations[j]) && locations[j].value == Scored(hits[j])
        invariant forall j, k :: 0 <= j < k < i ==> locations[j] != locations[k]
      {
        var location := hits[i].source;
        location := location.(score := hits[i].score);
        var cell := new Ref(location);
        locations := locations + [cell];
      }
    }

    /** Searches with the built query, asking for `req.limit` hits after
        defaulting it. */
    method RecommendLocations(req: RecommendRequest) returns (r: Result<seq<Ref<Location>>>)
      modifies req, engine
      ensures req.limit == EffectiveLimit(old(req.limit))
      ensures req.region == old(req.region) && req.city == old(req.city)
      ensures req.businessType == old(req.businessType)
      ensures var call := SearchCall(index, req.limit, RecommendQuery(req.region, req.city, req.businessType));
        var outcome := SearchOutcome(engine.respond(old(engine.sent), call));
        && engine.sent == old(engine.sent) + [call]
        && (r.Err? <==> outcome.Err?)
        && (r.Err? ==> r.message == outcome.message)
        && (r.Ok? ==>
              && (forall i :: 0 <= i < |r.value| ==> fresh(r.value[i]))
              && (forall i, j :: 0 <= i < j < |r.value| ==> r.value[i] != r.value[j])
              && Values(r.value) == outcome.value)
    {
      var query := BuildRecommendQuery(req);
      var reply := engine.Do(SearchCall(index, req.limit, query));
      if reply.TransportFailure? {
        return Err("failed to search: " + reply.reason);
      }
      if reply.status >= 400 {
        return Err("error searching: status " + DecimalString(reply.status) + ", body: " + reply.body);
      }
      if reply.json.Malformed? {
        return Err("failed to decode response: " + reply.json.reason);
      }
      var locations := HitsToLocations(reply.json.hits);
      return Ok(locations);
    }
  }
}
