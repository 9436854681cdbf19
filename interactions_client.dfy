/** The interaction resource client: query parameters and the list request. */
module InteractionsClient {
  import opened JsValues
  import opened Pagination
  import opened InteractionRecord
  import opened Api

  const InteractionsPath := "/interactions"

  /** What the transport answers for a list request: the decoded page, or the failure. */
  datatype Response = Fetched(page: Page<Interaction>) | Rejected(error: ErrorValue)

  /** A GET through the HTTP client, given the path and the query parameters. */
  type Transport = (string, Query) -> Response

  /** A value is sent unless it is `undefined`, `null` or the empty string. */
  predicate Sendable(v: JsVal) {
    v != Undefined && v != Null && v != StrVal("")
  }

  /** The parameters that are sent for a query: its sendable properties, unchanged. */
  function Params(query: Query): (params: Query)
    ensures forall k :: k in params <==> k in query && Sendable(query[k])
    ensures forall k :: k in params ==> params[k] == query[k]
  {
    map k | k in query && Sendable(query[k]) :: query[k]
  }

  /** Builds the parameter object by visiting the query's entries one at a time. */
  method ToParams(query: Query) returns (params: Query)
    ensures forall k :: k in params <==> k in query && Sendable(query[k])
    ensures forall k :: k in params ==> params[k] == query[k]
    ensures params == Params(query)
  {
    params := map[];
    var pending := query.Keys;
    while pending != {}
      invariant pending <= query.Keys
      invariant forall k :: k in params <==> k in query && k !in pending && Sendable(query[k])
      invariant forall k :: k in params ==> params[k] == query[k]
      decreases pending
    {
      var key :| key in pending;
      var value := query[key];
      if value != Undefined && value != Null && value != StrVal("") {
        params := params[key := value];
      }
      pending := pending - {key};
    }
  }

  /** Requests the interactions collection with the query's parameters and returns the answer as is. */
  method FetchInteractions(query: Query, get: Transport) returns (r: Response)
    ensures r == get(InteractionsPath, Params(query))
  {
    var params := ToParams(query);
    r := get(InteractionsPath, params);
  }

  /** A query whose properties are all blank sends no parameters at all. */
  lemma BlankQuerySendsNothing(query: Query)
    requires forall k :: k in query ==> query[k] in {Undefined, Null, StrVal("")}
    ensures Params(query) == map[]
  {
  }

  /** Falsy but non-empty values, such as page 0, are sent. */
  lemma ZeroIsSent(query: Query, key: string)
    requires key in query && query[key] == NumVal(0)
    ensures key in Params(query) && Params(query)[key] == NumVal(0)
  {
  }

  /** Building parameters from parameters changes nothing. */
  lemma ParamsIdempotent(query: Query)
    ensures Params(Params(query)) == Params(query)
  {
  }
}
