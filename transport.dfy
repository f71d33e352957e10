/** The search engine as seen over the wire: the typed requests the storage
    client issues, the replies it may get, and the engine itself as an
    oracle that records every request it receives. */
module Transport {
  import opened Models

  datatype RangeOp = Gte | Lte

  datatype SortOrder = Asc | Desc

  /** One clause of a bool query. */
  datatype Clause =
    | Term(field: string, value: string)
    | Range(field: string, op: RangeOp, bound: real, boost: real)

  datatype SortKey = SortKey(field: string, order: SortOrder)

  datatype BoolQuery = BoolQuery(must: seq<Clause>, should: seq<Clause>, minimumShouldMatch: int)

  /** The body of a `_search` request. */
  datatype SearchQuery = SearchQuery(query: BoolQuery, sort: seq<SortKey>)

  /** One line of a `_bulk` NDJSON body. */
  datatype BulkLine =
    | IndexAction(index: string, id: string)
    | Source(doc: Location)

  /** The requests the storage client issues. */
  datatype EngineCall =
    | IndexExists(index: string)
    | CreateIndexCall(index: string, mapping: string)
    | IndexDocument(index: string, id: string, doc: Location, refresh: bool)
    | BulkCall(lines: seq<BulkLine>)
    | GetDocument(index: string, id: string)
    | SearchCall(index: string, size: int, query: SearchQuery)

  /** One entry of `hits.hits` in a search reply. */
  datatype Hit = Hit(source: Location, score: real)

  /** What decoding a reply body as JSON yields. Decoding into a Go struct
      only picks the fields it names, so one shape serves both the `_doc`
      reply (`found`, `_source`) and the `_search` reply (`hits.hits`). */
  datatype ReplyJson =
    | Malformed(reason: string)
    | Decoded(found: bool, source: Location, hits: seq<Hit>)

  datatype EngineReply =
    | TransportFailure(reason: string)
    | Reply(status: int, body: string, json: ReplyJson)

  /** The engine behind the HTTP client. Its reply to a request may depend
      on every request it received before. */
  class SearchEngine {
    const respond: (seq<EngineCall>, EngineCall) -> EngineReply
    var sent: seq<EngineCall>

    constructor (respond: (seq<EngineCall>, EngineCall) -> EngineReply)
      ensures this.respond == respond && sent == []
    {
      this.respond := respond;
      sent := [];
    }

    /** Sends one request and waits for its reply. */
    method Do(call: EngineCall) returns (reply: EngineReply)
      modifies this
      ensures sent == old(sent) + [call]
      ensures reply == respond(old(sent), call)
    {
      reply := respond(sent, call);
      sent := sent + [call];
    }
  }
}
