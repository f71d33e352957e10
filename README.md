# Location recommendation service: query builder, index client and HTTP handlers

This project models the core of a Go service that recommends business locations.
A recommendation request names a region, an optional city, a business type and a
result limit. The service turns it into a bool query for an Elasticsearch or
OpenSearch index: exact-match `must` filters, two `should` boosts and a
three-key sort. It sends the query and turns the hits into scored locations. The
HTTP handlers validate requests, default the limit, map storage errors to status
codes and shape the response bodies.

The Dafny modules follow the Go source files, with one added module for the wire
protocol between the storage client and the engine:

- `Models` (`models.dfy`): the records of `internal/models/models.go` as
  datatypes. `RecommendRequest` is a class, because the query builder writes the
  defaulted limit back through the caller's pointer. A Go pointer `*T` is a
  `Ref<T>` cell. `Result<T>` stands for Go's `(value, error)` pair; an error is
  represented by its message, because the handler compares messages.
- `Transport` (`transport.dfy`): what the storage client sends the engine and
  what it may get back. Requests and replies are typed values (`EngineCall`,
  `EngineReply`). The engine itself is a `SearchEngine` object. Its reply to a
  request is a fixed function of that request and of every request it received
  before, and it logs every request in `sent`. "Storage is never called" is
  stated as "`sent` is unchanged".
- `Storage` (`elasticsearch.dfy`): `internal/storage/elasticsearch.go`. The
  `ElasticsearchStorage` class holds the engine and the index name. Its methods
  follow the Go control flow and are proved against specification functions:
  `RecommendQuery`, `ScoredLocations`, `BulkLines`, `SearchOutcome` and
  `GetOutcome`. Lemmas prove what those functions promise. The module also
  defines what a bool query admits and what sort order a list of hits has
  (`Admits`, `NotAfter`, `HonoursSearch`), so that end-to-end properties can
  be stated for an engine that honours the query. `Admits` follows the
  engine's rule that a bool query without must clauses matches only
  documents that satisfy at least one should clause.
- `Handlers` (`handlers.dfy`): `internal/handlers/handlers.go`. Each handler
  method takes the HTTP method and the decoded request parameters and returns a
  status and a body. The reference-data store (PostgreSQL) is an oracle value,
  `ReferenceStore`, holding what each of its two queries returns.

The model follows the code as written, including these points a reader might not
expect:

- A negative limit is passed through unchanged. Only a zero limit is replaced
  by 20 (`internal/handlers/handlers.go:60-62`,
  `internal/storage/elasticsearch.go:328-330`).
- "Not found" is recognised by comparing the error message with
  `"location not found"`, not by a structured error kind
  (`internal/handlers/handlers.go:119`).
  `Storage.GetOutcomeNotFound` proves that no other failure path can produce
  that message.
- Index creation treats only a 200 answer to the existence probe as "exists".
  Any other status, 500 included, leads to a create attempt
  (`internal/storage/elasticsearch.go:54-64`).
- The official-client calls (`CreateIndex`, `IndexLocation`) treat a status
  above 299 as an error. The direct HTTP calls (bulk, get, search) treat a
  status of 400 and above as an error. Both thresholds are modelled as written.
- The doc comments of the search and of the recommendation handler
  (`internal/storage/elasticsearch.go:194-195`, `internal/handlers/handlers.go:34`)
  say the ranking also weighs demographics. The query that is built
  (`internal/storage/elasticsearch.go:251-333`) has no demographic clause: the
  only boosts are the two range clauses, as `Storage.RecommendQueryFixedParts`
  proves.

## Model

| member | source | states |
|---|---|---|
| `Storage.ElasticsearchStorage.BuildRecommendQuery` | internal/storage/elasticsearch.go:251-333 | The query built by successive appends equals `RecommendQuery` of the request's original region, city and business type. The limit becomes 20 exactly when it was 0 and is otherwise unchanged, negative values included. The other request fields are unchanged. |
| `Storage.MustClausesPerField` | internal/storage/elasticsearch.go:255-280 | For each of `region`, `city` and `business_types_suitable`, the must list has no clause on that field when the request field is empty. Otherwise it has exactly one, a `Term` carrying the request's exact value. |
| `Storage.MustClausesOrder` | internal/storage/elasticsearch.go:252-280 | The must list has one clause per non-empty field among region, city and business type, so at most 3. Every clause is a term on one of the fields `region`, `city` and `business_types_suitable`. They appear in the order region, city, business type. |
| `Storage.RecommendQueryFixedParts` | internal/storage/elasticsearch.go:282-326 | Whatever the request, the should list is `traffic_score` gte 7.0 boost 2.0, then `competition_density` lte 3.0 boost 1.5. `minimum_should_match` is 0. The sort is `_score` desc, `traffic_score` desc, `competition_density` asc. |
| `Storage.RecommendQueryAdmits` | internal/storage/elasticsearch.go:252-308 | The built bool query admits a location exactly when it agrees with every non-empty request field: same region, same city, business type among its suitable types. When some field is set, the boosts never exclude a location. When all three are empty, the query has no must clause and the engine then requires one boost to match, so a location is admitted exactly when its traffic score is at least 7.0 or its competition density at most 3.0. |
| `Storage.ScoredLocations` | internal/storage/elasticsearch.go:240-245 | One location per hit, in hit order. Each is the hit's `_source` with only `score` replaced by the hit's `_score`. |
| `Storage.ElasticsearchStorage.HitsToLocations` | internal/storage/elasticsearch.go:240-245 | The loop returns one fresh pointer per hit, no two of them equal, as Go takes the address of a new variable on each iteration. The values pointed to are exactly `ScoredLocations(hits)`. |
| `Storage.SearchOutcome` | internal/storage/elasticsearch.go:213-247 | A search succeeds exactly when the engine answers below 400 with a decodable body. The result is then `ScoredLocations` of the hits. |
| `Storage.ElasticsearchStorage.RecommendLocations` | internal/storage/elasticsearch.go:197-248 | Sends exactly one search, with size equal to the defaulted limit and the query `RecommendQuery` of the request. The limit write is visible to the caller. The result agrees with `SearchOutcome` of the engine's reply, as distinct fresh pointers to the scored locations. |
| `Storage.BulkLinesLayout` | internal/storage/elasticsearch.go:113-128 | The bulk body for n locations has 2n lines in input order. Line 2i is an index action with `_index` set to the storage index and `_id` to location i's id. Line 2i+1 is location i. |
| `Storage.ElasticsearchStorage.BulkBody` | internal/storage/elasticsearch.go:111-128 | The loop writes exactly `BulkLines` of the index and of the values behind the pointers. |
| `Storage.ElasticsearchStorage.BulkIndexLocations` | internal/storage/elasticsearch.go:110-150 | Sends the bulk body in exactly one request. A transport failure or any status of 400 or above fails the whole batch, with the source's message. Otherwise there is no error. |
| `Storage.GetOutcomeNotFound` | internal/storage/elasticsearch.go:163-191 | A lookup fails with "location not found" exactly when the engine answers 404, or answers below 400 with `found` false. It succeeds exactly on a decodable reply below 400 with `found` true, and then returns `_source`. No other failure carries the not-found message. |
| `Storage.ElasticsearchStorage.GetLocation` | internal/storage/elasticsearch.go:155-192 | Sends exactly one document lookup. Its error or its fresh pointer to the document agrees with `GetOutcome` of the reply. |
| `Storage.ElasticsearchStorage.CreateIndex` | internal/storage/elasticsearch.go:47-76 | Probes for the index. On a 200 it stops without error. On any other status it sends one create request with the mapping, and a status above 299 is an error. Transport failures give the source's messages. |
| `Storage.ElasticsearchStorage.IndexLocation` | internal/storage/elasticsearch.go:80-105 | Sends one index request keyed by the location's id, with refresh set. A transport failure or a status above 299 is an error. |
| `Storage.RankingSortOrder` | internal/storage/elasticsearch.go:309-325 | The emitted sort keys allow one hit before another exactly when the two are ordered by score descending, then traffic score descending, then competition density ascending. |
| `Handlers.RecommendReply` | internal/handlers/handlers.go:64-80 | Any search error gives 500. Success gives 200 with the locations in search order and a total equal to their number. |
| `Handlers.RecommendReplyFromEngine` | internal/handlers/handlers.go:64-80 | End to end: the response is 200 exactly on a decodable engine reply below 400, and 500 otherwise. A 200 lists one location per hit, in hit order, carrying the hit's score, and its total equals the number of hits. |
| `Handlers.RecommendationsHonourRequest` | internal/handlers/handlers.go:55-80 | If the engine honours the search sent for a valid request, then for a non-negative limit a 200 response holds at most the effective limit of locations. Whatever the limit, each location is in the requested region, in the city when one is given, and suited to the requested business type. They are in ranking order. |
| `Handlers.LocationReply` | internal/handlers/handlers.go:117-133 | 404 exactly for the error message "location not found". 500 for any other error. 200 with the location on success. |
| `Handlers.LocationReplyFromEngine` | internal/handlers/handlers.go:117-126 | End to end: 404 exactly when the engine says the document is missing. 200 exactly when it returns it. 500 on a transport failure, any other status of 400 or above, or an undecodable body. |
| `Handlers.Dereference` | internal/handlers/handlers.go:162-165 | The value slice filled index by index has the length of the pointer slice, and element i is `*ptrs[i]`. It is used for locations, business types and regions. |
| `Handlers.Handlers.RecommendLocations` | internal/handlers/handlers.go:43-88 | A non-POST gives 405, an undecodable body 400, and an empty region or business type 400, each without any engine request. A valid request sends exactly one search, with size equal to the limit defaulted from 0 to 20, and responds with `RecommendReply` of its outcome. |
| `Handlers.Handlers.GetLocation` | internal/handlers/handlers.go:103-134 | A non-GET gives 405 and an empty id 400, both without any engine request. Otherwise it sends exactly one lookup and responds with `LocationReply` of its outcome. |
| `Handlers.Handlers.GetBusinessTypes` | internal/handlers/handlers.go:148-173 | A non-GET gives 405 and a store error 500. Otherwise the response is 200 with the values behind the returned pointers, in store order. |
| `Handlers.Handlers.GetRegions` | internal/handlers/handlers.go:187-212 | A non-GET gives 405 and a store error 500. Otherwise the response is 200 with the values behind the returned pointers, in store order. |

## Left out

- JSON encoding and decoding are not modelled. A decoded request body is a
  `RecommendFields` value or `None`; a reply body is `ReplyJson`. Encoding a
  query, a bulk line or a location is assumed to succeed, so the
  "failed to encode"/"failed to marshal" paths are not modelled. The Go values
  involved hold no NaN or infinity.
- Failures while encoding a handler's response after the status has been
  chosen (`internal/handlers/handlers.go:82-87` and the similar blocks) are not
  modelled. Writing a header first makes them I/O behaviour.
- URL construction, the base URL, request headers and `http.NewRequestWithContext`
  failures are not modelled. Requests are typed `EngineCall` values. Of the URL
  query parameters, only the search `size` and the index request's `refresh`
  flag are kept. The id is not escaped in
  the document URL, so the model does not say which document an id containing
  `/` reaches.
- The engine's own filtering, scoring and sorting are not modelled. All the
  model knows of them is the reply function. `HonoursSearch` states what an
  honouring engine returns, and only `Handlers.RecommendationsHonourRequest`
  assumes it. Round trips through the index (write, then read back) are engine
  behaviour and are left out for the same reason.
- `Handlers.RecommendationsHonourRequest`: bounds the number of locations only
  for a non-negative limit. A negative limit is passed to the engine as a
  negative `size`. A real engine rejects such a request, but `HonoursSearch`
  does not model that rejection, so for negative sizes it places no bound on
  the hits.
- Floating point is modelled as `real`: scores, boosts and coordinates have no
  rounding. Go's 64-bit `int` (limit, status) is unbounded here; nothing
  computes with it.
- Contexts, cancellation, logging (`log.Printf`) and the `Content-Type`
  headers are not modelled.
- `HealthCheck` is not modelled. It writes a constant body.
- `hits.total.value` is decoded by the source but never used, so it is not
  modelled.
- `internal/storage/postgres.go` is not part of this model. Its two queries
  are the `ReferenceStore` oracle, and the ordering by name is done by SQL.
  Also not part of this model: `cmd/server/main.go` (routing, CORS, graceful
  shutdown), `cmd/indexer/main.go` (synthetic data) and
  `internal/config/config.go` (environment variables).
- The constructors `NewElasticsearchStorage`/`NewElasticsearchStorageWithURL`
  and `NewHandlers` become Dafny constructors, without the base URL and the
  HTTP client.
- The bulk reply's per-item results are not inspected, as in the source. Any
  status below 400 counts as success for the whole batch.
