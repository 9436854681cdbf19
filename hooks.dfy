/**
 * The paginated query hook: the current page of results, whether a request
 * is outstanding, the last error and the current query. Loads run one at a
 * time: a load begins, then completes with a page or with a failure.
 */
module Hooks {
  import opened Wrappers
  import opened JsValues
  import opened Pagination
  import opened InteractionRecord
  import opened Api
  import opened InteractionsClient

  /** The hook's four state fields as one value. */
  datatype HookState = HookState(
    data: Page<Interaction>,
    loading: bool,
    error: Option<string>,
    query: Query)

  /** The starting query: page 0 and the default size, overridden by any initial property. */
  function InitialQuery(initialQuery: Query): (q: Query)
    ensures q.Keys == initialQuery.Keys + {PageKey, SizeKey}
    ensures forall k :: k in initialQuery ==> q[k] == initialQuery[k]
    ensures PageKey !in initialQuery ==> q[PageKey] == NumVal(0)
    ensures SizeKey !in initialQuery ==> q[SizeKey] == NumVal(DefaultPageSize)
  {
    map[PageKey := NumVal(0), SizeKey := NumVal(DefaultPageSize)] + initialQuery
  }

  /** The query kept after a successful load: the requested one, with the page and size the server reports. */
  function Reconcile(requested: Query, page: Page<Interaction>): (q: Query)
    ensures q.Keys == requested.Keys + {PageKey, SizeKey}
    ensures q[PageKey] == NumVal(page.number) && q[SizeKey] == NumVal(page.size)
    ensures forall k :: k in requested && k != PageKey && k != SizeKey ==> q[k] == requested[k]
  {
    requested[PageKey := NumVal(page.number)][SizeKey := NumVal(page.size)]
  }

  /**
   * The query a search loads: the current query overlaid with every property
   * of the filters, the page reset to the filters' page or 0, and the size
   * taken from the filters, else from the current query, else the default.
   */
  function Normalize(query: Query, filters: Query): (q: Query)
    ensures q.Keys == query.Keys + filters.Keys + {PageKey, SizeKey}
    ensures q[PageKey] == Coalesce(Get(filters, PageKey), NumVal(0))
    ensures q[SizeKey] == Coalesce(Get(filters, SizeKey), Coalesce(Get(query, SizeKey), NumVal(DefaultPageSize)))
    ensures forall k :: k in filters && k != PageKey && k != SizeKey ==> q[k] == filters[k]
    ensures forall k :: k in query && k !in filters && k != PageKey && k != SizeKey ==> q[k] == query[k]
  {
    var overlaid := query + filters;
    overlaid[PageKey := Coalesce(Get(filters, PageKey), NumVal(0))]
            [SizeKey := Coalesce(Get(filters, SizeKey), Coalesce(Get(query, SizeKey), NumVal(DefaultPageSize)))]
  }

  /**
   * The state after a load of `requested` that began in `before` has settled
   * with `response`: never loading; on success the server's page, no error and
   * the reconciled query; on failure the mapped message beside the page and
   * query the load began with.
   */
  function Settle(before: HookState, requested: Query, response: Response): (after: HookState)
    ensures !after.loading
    ensures response.Fetched? ==>
      after.data == response.page && after.error.None? && after.query == Reconcile(requested, response.page)
    ensures response.Rejected? ==>
      && after.data == before.data && after.query == before.query
      && after.error == Some(GetErrorMessage(response.error))
  {
    match response
    case Fetched(page) => HookState(page, false, None, Reconcile(requested, page))
    case Rejected(e) => HookState(before.data, false, Some(GetErrorMessage(e)), before.query)
  }

  class InteractionsHook {
    var data: Page<Interaction>
    var loading: bool
    var error: Option<string>
    var query: Query

    function State(): HookState
      reads this
    {
      HookState(data, loading, error, query)
    }

    /** The hook as a view mounts it; the mount-time load is a call to Load with `query`. */
    constructor (initialQuery: Query := map[])
      ensures data == EmptyPage(DefaultPageSize)
      ensures !loading && error == None
      ensures query == InitialQuery(initialQuery)
    {
      data := EmptyPage(DefaultPageSize);
      loading := false;
      error := None;
      query := InitialQuery(initialQuery);
    }

    /** A load begins: a request is outstanding and the previous error is cleared. */
    method BeginLoad()
      modifies this
      ensures loading && error == None
      ensures data == old(data) && query == old(query)
    {
      loading := true;
      error := None;
    }

    /** The request for `requested` answered with `page`. */
    method CompleteSuccess(requested: Query, page: Page<Interaction>)
      modifies this
      ensures data == page && query == Reconcile(requested, page)
      ensures !loading && error == old(error)
    {
      data := page;
      query := Reconcile(requested, page);
      loading := false;
    }

    /** The request failed with `e`; the last page and query stay as they were. */
    method CompleteFailure(e: ErrorValue)
      modifies this
      ensures error == Some(GetErrorMessage(e))
      ensures data == old(data) && query == old(query) && !loading
    {
      error := Some(GetErrorMessage(e));
      loading := false;
    }

    /** Loads `nextQuery` through the transport `get`, from beginning to settling. */
    method Load(nextQuery: Query, get: Transport)
      modifies this
      ensures State() == Settle(old(State()), nextQuery, get(InteractionsPath, Params(nextQuery)))
    {
      BeginLoad();
      var response := FetchInteractions(nextQuery, get);
      match response {
        case Fetched(page) => CompleteSuccess(nextQuery, page);
        case Rejected(e) => CompleteFailure(e);
      }
    }

    /** Applies a partial filter update to the current query and loads the result. */
    method Search(filters: Query, get: Transport)
      modifies this
      ensures var requested := Normalize(old(query), filters);
        State() == Settle(old(State()), requested, get(InteractionsPath, Params(requested)))
    {
      var normalized := Normalize(query, filters);
      Load(normalized, get);
    }

    /** Jumps to page `page`, keeping every filter: a search with only a page. */
    method SetPage(page: int, get: Transport)
      modifies this
      ensures var requested := Normalize(old(query), map[PageKey := NumVal(page)]);
        State() == Settle(old(State()), requested, get(InteractionsPath, Params(requested)))
    {
      Search(map[PageKey := NumVal(page)], get);
    }

    /** Loads the current query again, unchanged. */
    method Refresh(get: Transport)
      modifies this
      ensures State() == Settle(old(State()), old(query), get(InteractionsPath, Params(old(query))))
    {
      Load(query, get);
    }
  }

  /** Whatever the answer, no request is outstanding once a load has settled. */
  lemma SettledIsNotLoading(before: HookState, requested: Query, response: Response)
    ensures !Settle(before, requested, response).loading
  {
  }

  /** A successful load shows the response and keeps the requested query with the server's page and size. */
  lemma SuccessReplacesDataAndQuery(before: HookState, requested: Query, page: Page<Interaction>)
    ensures var after := Settle(before, requested, Fetched(page));
      && after.data == page && after.error == None
      && after.query[PageKey] == NumVal(page.number) && after.query[SizeKey] == NumVal(page.size)
      && forall k :: k in requested && k != PageKey && k != SizeKey ==> after.query[k] == requested[k]
  {
  }

  /** A failed load keeps the last page and query and reports the mapped message. */
  lemma FailureKeepsDataAndQuery(before: HookState, requested: Query, e: ErrorValue)
    ensures var after := Settle(before, requested, Rejected(e));
      after.data == before.data && after.query == before.query && after.error == Some(GetErrorMessage(e))
  {
  }

  /**
   * A failed load does not always leave a non-empty error: a server body
   * whose `error` field is the empty string yields the empty message.
   */
  lemma FailureMessageMayBeEmpty(before: HookState, requested: Query)
    ensures Settle(before, requested, Rejected(HttpClientError("Request failed", Some(ErrorBody(Defined(""), Undefined))))).error == Some("")
  {
  }

  /** Changing page keeps every filter of the current query; only the page (and a missing size) changes. */
  lemma SetPageKeepsFilters(query: Query, page: int)
    ensures var q := Normalize(query, map[PageKey := NumVal(page)]);
      && q.Keys == query.Keys + {PageKey, SizeKey}
      && q[PageKey] == NumVal(page)
      && q[SizeKey] == Coalesce(Get(query, SizeKey), NumVal(DefaultPageSize))
      && forall k :: k in query && k != PageKey && k != SizeKey ==> q[k] == query[k]
  {
  }

  /** A search with no filters resets the page to 0 and keeps a set size. */
  lemma EmptySearchResetsPage(query: Query)
    requires SizeKey in query && !Nullish(query[SizeKey])
    ensures var q := Normalize(query, map[]);
      q[PageKey] == NumVal(0) && q[SizeKey] == query[SizeKey]
      && forall k :: k in query && k != PageKey ==> q[k] == query[k]
  {
  }
}
