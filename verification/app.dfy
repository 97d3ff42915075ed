/**
 * The dashboard's state and its reconciliation pass: the effect that runs after every change
 * of page, filters or sort and either resets the page to 1 or fetches a page, then records the
 * filters and sort it has just seen. The remote fetch is reduced to the query it sends and the
 * outcome that comes back.
 */
module App {
  import opened Wrappers
  import opened DashboardState
  import opened FilterBar
  import opened Pagination
  import opened QueryBuilder
  import opened UrlSync

  /** What one pass does: reset the page to 1 without fetching, or fetch one page. */
  datatype Action = ResetPage | Fetch(page: PageNo)

  /** What a pass reads: the current page, filters and sort, and the snapshot of the last pass. */
  datatype ReconcileState = ReconcileState(
    page: PageNo,
    filters: Filters,
    sortBy: SortBy,
    prevFilters: Filters,
    prevSortBy: SortBy)

  /**
   * The filters or the sort differ from the snapshot (their JSON renderings differ): exactly
   * when recording the snapshot, as a fetching pass does, would alter the state.
   */
  predicate Changed(r: ReconcileState): (b: bool)
    ensures b <==> After(r, Fetch(r.page)) != r
  {
    r.filters != r.prevFilters || r.sortBy != r.prevSortBy
  }

  /**
   * The decision of one pass. Under filters or sort not seen before it never fetches a page
   * other than 1; it resets only a page that is not 1 already; with nothing changed it fetches
   * the current page.
   */
  function Decide(r: ReconcileState): (a: Action)
    ensures a.Fetch? && Changed(r) ==> a.page == Num(1)
    ensures a == ResetPage ==> Changed(r) && r.page != Num(1)
    ensures !Changed(r) ==> a == Fetch(r.page)
  {
    if Changed(r) then
      if r.page != Num(1) then ResetPage else Fetch(Num(1))
    else
      Fetch(r.page)
  }

  /** The state after a pass took action `a`: the page reset if it was, the snapshot overwritten. */
  function After(r: ReconcileState, a: Action): (r': ReconcileState)
    ensures r'.prevFilters == r'.filters == r.filters && r'.prevSortBy == r'.sortBy == r.sortBy
  {
    ReconcileState(if a == ResetPage then Num(1) else r.page, r.filters, r.sortBy, r.filters, r.sortBy)
  }

  /**
   * The three cases of a pass: a change away from page 1 resets the page and fetches nothing;
   * a change on page 1 fetches page 1; no change fetches the current page. A pass never fetches
   * another page than 1 under filters or sort it has not seen before.
   */
  lemma DecideCases(r: ReconcileState)
    ensures Decide(r) == ResetPage <==> Changed(r) && r.page != Num(1)
    ensures Changed(r) && r.page == Num(1) ==> Decide(r) == Fetch(Num(1))
    ensures !Changed(r) ==> Decide(r) == Fetch(r.page)
    ensures Decide(r).Fetch? && Changed(r) ==> Decide(r).page == Num(1)
    ensures After(r, Decide(r)).page == (if Decide(r) == ResetPage then Num(1) else r.page)
  {
  }

  /**
   * The passes that follow one change: a pass runs, and when it reset the page, the page
   * change makes the effect run once more. The passes end in a fetch, after at most one reset.
   */
  function Run(r: ReconcileState): (trace: seq<Action>)
    ensures 1 <= |trace| <= 2 && trace[|trace| - 1].Fetch?
    ensures |trace| == 2 ==> trace[0] == ResetPage
    decreases if r.page == Num(1) then 0 else 1
  {
    var a := Decide(r);
    if a == ResetPage then [a] + Run(After(r, a)) else [a]
  }

  /** The pages fetched along a trace of passes. */
  function Fetched(trace: seq<Action>): seq<PageNo> {
    if trace == [] then []
    else (if trace[0].Fetch? then [trace[0].page] else []) + Fetched(trace[1..])
  }

  /** The page a change must end up fetching: page 1 after a filter or sort change. */
  function Target(r: ReconcileState): PageNo {
    if Changed(r) then Num(1) else r.page
  }

  /**
   * Every change yields exactly one fetch, and after a filter or sort change it is for page 1:
   * away from page 1 the passes are a reset followed by that fetch, never a fetch of the old
   * page under the new filters.
   */
  lemma {:induction false} ExactlyOneFetch(r: ReconcileState)
    ensures Fetched(Run(r)) == [Target(r)]
    ensures Run(r) == if Changed(r) && r.page != Num(1) then [ResetPage, Fetch(Num(1))] else [Fetch(Target(r))]
  {
    var a := Decide(r);
    if a == ResetPage {
      var r' := After(r, a);
      assert Run(r') == [Fetch(Num(1))];
      assert Run(r) == [ResetPage, Fetch(Num(1))];
      assert Fetched([Fetch(Num(1))]) == [Num(1)];
      assert Fetched(Run(r)) == [] + Fetched([Fetch(Num(1))]);
    } else {
      assert Fetched([a]) == [a.page] + Fetched([]);
    }
  }

  /**
   * A NaN page is not kept across a filter or sort change: `NaN !== 1`, so the pass resets the
   * page to 1 and the next pass fetches page 1.
   */
  lemma NaNPageResetOnChange(r: ReconcileState)
    requires Changed(r) && r.page == NaN
    ensures Run(r) == [ResetPage, Fetch(Num(1))]
  {
    ExactlyOneFetch(r);
  }

  /** A settled state: the snapshot equals the current filters and sort. */
  predicate Settled(r: ReconcileState) {
    !Changed(r)
  }

  /** Editing a filter field to a new value, on any page, ends in one fetch, of page 1. */
  lemma FilterEditFetchesFirstPage(r: ReconcileState, field: FilterField, value: string)
    requires Settled(r)
    requires value != Get(r.filters, field)
    ensures Fetched(Run(r.(filters := WithField(r.filters, field, value)))) == [Num(1)]
  {
    var r' := r.(filters := WithField(r.filters, field, value));
    assert Changed(r');
    ExactlyOneFetch(r');
  }

  /** Choosing a different sort, on any page, ends in one fetch, of page 1. */
  lemma SortChangeFetchesFirstPage(r: ReconcileState, v: string)
    requires Settled(r)
    requires ParseSortKey(v) != r.sortBy
    ensures Fetched(Run(r.(sortBy := ParseSortKey(v)))) == [Num(1)]
  {
    ExactlyOneFetch(r.(sortBy := ParseSortKey(v)));
  }

  /** Moving to another page with filters and sort unchanged fetches exactly that page. */
  lemma PageChangeFetchesThatPage(r: ReconcileState, p: PageNo)
    requires Settled(r)
    ensures Run(r.(page := p)) == [Fetch(p)]
  {
    ExactlyOneFetch(r.(page := p));
  }

  /** After "clear filters", from any state, exactly one fetch follows, of page 1. */
  lemma ClearFetchesOnce(r: ReconcileState)
    ensures Fetched(Run(r.(page := Num(1), filters := ClearedFilters, sortBy := DefaultSort))) == [Num(1)]
    ensures Build(ClearedFilters, DefaultSort, Num(1), PerPage) == Query([], "created_at", true, Rows(0, 9))
  {
    ExactlyOneFetch(r.(page := Num(1), filters := ClearedFilters, sortBy := DefaultSort));
  }

  /** The state the dashboard mounts with, read from the URL; the snapshot starts equal to it. */
  function Mounted(params: map<string, string>): (r: ReconcileState)
    ensures Settled(r)
  {
    var st := Decode(params);
    ReconcileState(st.page, st.filters, st.sortBy, st.filters, st.sortBy)
  }

  /** Mounting without URL parameters fetches page 1, oldest first, unfiltered, rows 0 to 9. */
  lemma InitialLoad()
    ensures Run(Mounted(map[])) == [Fetch(Num(1))]
    ensures Build(Mounted(map[]).filters, Mounted(map[]).sortBy, Num(1), PerPage) == Query([], "created_at", true, Rows(0, 9))
  {
    DecodeDefaults(map[]);
    ExactlyOneFetch(Mounted(map[]));
  }

  /**
   * Choosing "out of stock" on page 3 resets to page 1 and then fetches page 1 with the
   * stock_quantity = 0 predicate and rows 0 to 9.
   */
  lemma OutOfStockOnPageThree(r: ReconcileState)
    requires Settled(r) && r.page == Num(3) && r.filters == ClearedFilters
    ensures var r' := r.(filters := WithField(r.filters, StockStatus, "out_of_stock"));
      && Run(r') == [ResetPage, Fetch(Num(1))]
      && Build(r'.filters, r'.sortBy, Num(1), PerPage).predicates == [StockEq0]
      && Build(r'.filters, r'.sortBy, Num(1), PerPage).range == Rows(0, 9)
  {
    var r' := r.(filters := WithField(r.filters, StockStatus, "out_of_stock"));
    assert Changed(r');
    ExactlyOneFetch(r');
  }

  /** A product row as the remote service returns it; the dashboard only displays it. */
  datatype Product = Product(id: int, name: string, price: real, stockQuantity: int, categoryName: Option<string>)

  /** The outcome of the remote query: a page of rows with the exact total count, or an error. */
  datatype Outcome = Ok(rows: seq<Product>, count: nat) | Err(message: string)

  class Dashboard {
    var page: PageNo
    var filters: Filters
    var sortBy: SortBy
    var prevFilters: Filters
    var prevSortBy: SortBy
    var products: seq<Product>
    var totalProducts: nat
    var loading: bool
    var error: Option<string>
    /** The queries sent to the remote service so far, oldest first. */
    ghost var requests: seq<Query>

    function View(): ReconcileState
      reads this
    {
      ReconcileState(page, filters, sortBy, prevFilters, prevSortBy)
    }

    /** Mounting: state from the URL, snapshot equal to it, no products, loading, no error. */
    constructor (params: map<string, string>)
      ensures View() == Mounted(params)
      ensures products == [] && totalProducts == 0 && loading && error == None && requests == []
    {
      var st := Decode(params);
      page, filters, sortBy := st.page, st.filters, st.sortBy;
      prevFilters, prevSortBy := st.filters, st.sortBy;
      products, totalProducts, loading, error := [], 0, true, None;
      requests := [];
    }

    /** An input of the filter bar changed: only the named field takes the new value. */
    method ChangeFilter(field: FilterField, value: string)
      modifies this`filters
      ensures Get(filters, field) == value
      ensures forall g: FilterField :: g != field ==> Get(filters, g) == Get(old(filters), g)
    {
      filters := WithField(filters, field, value);
    }

    /** The sort control changed to `value`, of the form column_order. */
    method ChangeSort(value: string)
      modifies this`sortBy
      ensures sortBy == ParseSortKey(value)
    {
      sortBy := ParseSortKey(value);
    }

    /** "Clear filters": default filters, default sort and page 1, all in one change. */
    method ClearFilters()
      modifies this`filters, this`sortBy, this`page
      ensures filters == Filters("", "all", "", "", "all")
      ensures sortBy == SortBy("created_at", "asc")
      ensures page == Num(1)
    {
      filters := ClearedFilters;
      sortBy := DefaultSort;
      page := Num(1);
    }

    /** The "previous" button: fires unless disabled, and then steps back, never below 1. */
    method PressPrevious() returns (fired: bool)
      modifies this`page
      ensures fired <==> old(page) != Num(1)
      ensures page == if fired then Previous(old(page)) else old(page)
    {
      fired := !PreviousDisabled(page);
      if fired {
        page := Previous(page);
      }
    }

    /** The "next" button: fires unless the page is at or past the page count, then steps on. */
    method PressNext() returns (fired: bool)
      modifies this`page
      ensures fired <==> !NextDisabled(old(page), TotalPages(totalProducts, PerPage))
      ensures fired && old(page).Num? ==> page.Num? && page.n <= TotalPages(totalProducts, PerPage)
      ensures page == if fired then Next(old(page)) else old(page)
    {
      fired := !NextDisabled(page, TotalPages(totalProducts, PerPage));
      if fired {
        if page.Num? {
          NextStaysInRange(page, totalProducts, PerPage);
        }
        page := Next(page);
      }
    }

    /** The start of a fetch: loading on, error cleared, the query for page `p` sent. */
    method StartFetch(p: PageNo)
      modifies this`loading, this`error, this`requests
      ensures loading && error == None
      ensures requests == old(requests) + [Build(filters, sortBy, p, PerPage)]
    {
      loading := true;
      error := None;
      var q := BuildQuery(filters, sortBy, p, PerPage);
      requests := requests + [q];
    }

    /**
     * One reconciliation pass. It compares filters and sort with the snapshot, resets the page
     * or starts one fetch, and then overwrites the snapshot with what it has just seen.
     */
    method Settle() returns (a: Action)
      modifies this`page, this`prevFilters, this`prevSortBy, this`loading, this`error, this`requests
      ensures a == Decide(old(View())) && View() == After(old(View()), a)
      ensures prevFilters == filters && prevSortBy == sortBy
      ensures a.Fetch? ==> loading && error == None && requests == old(requests) + [Build(filters, sortBy, a.page, PerPage)]
      ensures a == ResetPage ==> loading == old(loading) && error == old(error) && requests == old(requests)
    {
      var filtersChanged := filters != prevFilters;
      var sortChanged := sortBy != prevSortBy;
      if filtersChanged || sortChanged {
        if page != Num(1) {
          page := Num(1);
          a := ResetPage;
        } else {
          a := Fetch(Num(1));
          StartFetch(Num(1));
        }
      } else {
        a := Fetch(page);
        StartFetch(page);
      }
      prevFilters := filters;
      prevSortBy := sortBy;
    }

    /**
     * The remote answer arrives. Rows and count replace the products and the total; an error
     * empties the products and records its message, leaving the total untouched. Either way
     * loading ends; page, filters and sort are never rolled back.
     */
    method Complete(outcome: Outcome)
      modifies this`products, this`totalProducts, this`loading, this`error
      ensures !loading
      ensures outcome.Ok? ==> products == outcome.rows && totalProducts == outcome.count && error == old(error)
      ensures outcome.Err? ==> products == [] && error == Some(outcome.message) && totalProducts == old(totalProducts)
    {
      match outcome {
        case Ok(rows, count) =>
          products := rows;
          totalProducts := count;
        case Err(message) =>
          error := Some(message);
          products := [];
      }
      loading := false;
    }

    /** The query parameters written after a change, one parameter at a time. */
    method SearchParams() returns (params: map<string, string>)
      ensures params == Encode(UrlState(page, filters, sortBy))
    {
      params := map[];
      params := params["page" := PageText(page)];
      if filters.name != "" {
        params := params["name" := filters.name];
      }
      if filters.category != "all" {
        params := params["category" := filters.category];
      }
      if filters.minPrice != "" {
        params := params["minPrice" := filters.minPrice];
      }
      if filters.maxPrice != "" {
        params := params["maxPrice" := filters.maxPrice];
      }
      if filters.stockStatus != "all" {
        params := params["stockStatus" := filters.stockStatus];
      }
      params := params["sortBy" := sortBy.column];
      params := params["order" := sortBy.order];
    }
  }
}
