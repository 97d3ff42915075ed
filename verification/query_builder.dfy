/**
 * The product query: the filter predicates, the ordering and the row range one fetch asks the
 * remote service for. The remote builder chain (select with an exact count, ilike, eq, gte,
 * lte, gt, order, range) is modelled as the descriptor it assembles.
 */
module QueryBuilder {
  import opened DashboardState

  /** The predicates the chain can add, with their operands as the filter holds them. */
  datatype Predicate =
    | Ilike(pattern: string)      // name ilike pattern
    | EqCategory(id: string)      // category_id = id
    | Gte(bound: string)          // price >= bound
    | Lte(bound: string)          // price <= bound
    | StockGt0                    // stock_quantity > 0
    | StockEq0                    // stock_quantity = 0

  /** The inclusive row range; a NaN page makes both ends NaN. */
  datatype RowRange = Rows(from: int, to: int) | NaNRows

  datatype Query = Query(predicates: seq<Predicate>, column: string, ascending: bool, range: RowRange)

  /** The rows of page `p` when a page holds `perPage` rows. */
  function PageRange(p: PageNo, perPage: nat): (r: RowRange)
    ensures p.Num? ==> r.Rows? && r.from == (p.n - 1) * perPage && r.to - r.from + 1 == perPage
    ensures p == NaN ==> r == NaNRows
  {
    match p
    case Num(n) =>
      var from := (n - 1) * perPage;
      Rows(from, from + perPage - 1)
    case NaN => NaNRows
  }

  function When(c: bool, q: Predicate): seq<Predicate> {
    if c then [q] else []
  }

  /** The stock predicate for a stock status: only the two named statuses add one. */
  function StockPredicates(status: string): seq<Predicate> {
    When(status == "in_stock", StockGt0) + When(status == "out_of_stock", StockEq0)
  }

  /**
   * The descriptor for a filter, a sort, a page and a page size: one optional predicate per
   * filter field, then the ordering, then the range.
   */
  function Build(f: Filters, s: SortBy, p: PageNo, perPage: nat): (q: Query)
    ensures q.column == s.column && (q.ascending <==> s.order == "asc")
    ensures q.range == PageRange(p, perPage)
  {
    Query(Predicates(f), s.column, s.order == "asc", PageRange(p, perPage))
  }

  /**
   * One optional predicate per filter field, in the order the fields are tested: at most five
   * (the two stock tests exclude each other), and none exactly when no field is set.
   */
  function Predicates(f: Filters): (ps: seq<Predicate>)
    ensures |ps| <= 5
    ensures ps == [] <==> (f.name == "" && f.category == "all" && f.minPrice == "" && f.maxPrice == ""
      && f.stockStatus != "in_stock" && f.stockStatus != "out_of_stock")
  {
    When(f.name != "", Ilike("%" + f.name + "%"))
      + When(f.category != "all", EqCategory(f.category))
      + When(f.minPrice != "", Gte(f.minPrice))
      + When(f.maxPrice != "", Lte(f.maxPrice))
      + StockPredicates(f.stockStatus)
  }

  /** Which predicate kind a predicate is, so that rules can speak of "some Gte". */
  function Kind(r: Predicate): nat {
    match r
    case Ilike(_) => 0
    case EqCategory(_) => 1
    case Gte(_) => 2
    case Lte(_) => 3
    case StockGt0 => 4
    case StockEq0 => 5
  }

  /** The predicate of kind `k` that the filter `f` would add. */
  function Expected(f: Filters, k: nat): Predicate
    requires k < 6
  {
    if k == 0 then Ilike("%" + f.name + "%")
    else if k == 1 then EqCategory(f.category)
    else if k == 2 then Gte(f.minPrice)
    else if k == 3 then Lte(f.maxPrice)
    else if k == 4 then StockGt0
    else StockEq0
  }

  function Bit(b: bool): nat {
    if b then 1 else 0
  }

  /**
   * The filtering rules: each predicate is present exactly when its filter field is set: name,
   * minimum and maximum price non-empty, category not "all", stock status "in_stock" for
   * stock_quantity > 0 and "out_of_stock" for stock_quantity = 0.
   */
  lemma QueryRules(f: Filters, s: SortBy, p: PageNo, perPage: nat)
    ensures var ps := Build(f, s, p, perPage).predicates;
      && (Ilike("%" + f.name + "%") in ps <==> f.name != "")
      && (EqCategory(f.category) in ps <==> f.category != "all")
      && (Gte(f.minPrice) in ps <==> f.minPrice != "")
      && (Lte(f.maxPrice) in ps <==> f.maxPrice != "")
      && (StockGt0 in ps <==> f.stockStatus == "in_stock")
      && (StockEq0 in ps <==> f.stockStatus == "out_of_stock")
  {
    FieldPredicates(f);
    StockRules(f);
  }

  lemma FieldPredicates(f: Filters)
    ensures Ilike("%" + f.name + "%") in Predicates(f) <==> f.name != ""
    ensures EqCategory(f.category) in Predicates(f) <==> f.category != "all"
    ensures Gte(f.minPrice) in Predicates(f) <==> f.minPrice != ""
    ensures Lte(f.maxPrice) in Predicates(f) <==> f.maxPrice != ""
  {
  }

  lemma StockRules(f: Filters)
    ensures StockGt0 in Predicates(f) <==> f.stockStatus == "in_stock"
    ensures StockEq0 in Predicates(f) <==> f.stockStatus == "out_of_stock"
  {
    var fields := When(f.name != "", Ilike("%" + f.name + "%"))
      + When(f.category != "all", EqCategory(f.category))
      + When(f.minPrice != "", Gte(f.minPrice))
      + When(f.maxPrice != "", Lte(f.maxPrice));
    var stock := StockPredicates(f.stockStatus);
    assert Predicates(f) == fields + stock;
    assert StockGt0 !in fields && StockEq0 !in fields;
    assert StockGt0 in stock <==> f.stockStatus == "in_stock";
    assert StockEq0 in stock <==> f.stockStatus == "out_of_stock";
  }

  /** Every predicate in the list carries its filter field's value, or the fixed stock test. */
  predicate AllExpected(f: Filters, ps: seq<Predicate>) {
    forall y :: y in ps ==> y == Expected(f, Kind(y))
  }

  lemma SlotExpected(f: Filters, c: bool, k: nat)
    requires k < 6
    ensures AllExpected(f, When(c, Expected(f, k)))
  {
  }

  lemma AppendExpected(f: Filters, a: seq<Predicate>, b: seq<Predicate>)
    requires AllExpected(f, a) && AllExpected(f, b)
    ensures AllExpected(f, a + b)
  {
  }

  /**
   * No predicate of the query carries anything but the filter's own value: the ilike is on the
   * name wrapped in % wildcards, the equality on the category, the bounds on the prices.
   */
  lemma QueryOperands(f: Filters, s: SortBy, p: PageNo, perPage: nat)
    ensures AllExpected(f, Build(f, s, p, perPage).predicates)
  {
    var w0 := When(f.name != "", Expected(f, 0));
    var w1 := When(f.category != "all", Expected(f, 1));
    var w2 := When(f.minPrice != "", Expected(f, 2));
    var w3 := When(f.maxPrice != "", Expected(f, 3));
    var w4 := When(f.stockStatus == "in_stock", Expected(f, 4));
    var w5 := When(f.stockStatus == "out_of_stock", Expected(f, 5));
    assert Predicates(f) == w0 + w1 + w2 + w3 + (w4 + w5);
    SlotExpected(f, f.name != "", 0);
    SlotExpected(f, f.category != "all", 1);
    SlotExpected(f, f.minPrice != "", 2);
    SlotExpected(f, f.maxPrice != "", 3);
    SlotExpected(f, f.stockStatus == "in_stock", 4);
    SlotExpected(f, f.stockStatus == "out_of_stock", 5);
    AppendExpected(f, w0, w1);
    AppendExpected(f, w0 + w1, w2);
    AppendExpected(f, w0 + w1 + w2, w3);
    AppendExpected(f, w4, w5);
    AppendExpected(f, w0 + w1 + w2 + w3, w4 + w5);
  }

  /**
   * The query holds exactly as many predicates as there are set filter fields, so together
   * with the presence rules each set field contributes one predicate and no more.
   */
  lemma QueryLength(f: Filters, s: SortBy, p: PageNo, perPage: nat)
    ensures |Build(f, s, p, perPage).predicates| ==
      Bit(f.name != "") + Bit(f.category != "all") + Bit(f.minPrice != "") + Bit(f.maxPrice != "")
        + Bit(f.stockStatus == "in_stock") + Bit(f.stockStatus == "out_of_stock")
  {
  }

  /** At most one stock predicate, and none unless the status is one of the two named ones. */
  lemma AtMostOneStockPredicate(f: Filters, s: SortBy, p: PageNo, perPage: nat)
    ensures !(StockGt0 in Build(f, s, p, perPage).predicates && StockEq0 in Build(f, s, p, perPage).predicates)
    ensures f.stockStatus != "in_stock" && f.stockStatus != "out_of_stock" ==>
      StockGt0 !in Build(f, s, p, perPage).predicates && StockEq0 !in Build(f, s, p, perPage).predicates
  {
    StockRules(f);
  }

  /** Consecutive pages are adjacent: no row is skipped and none is fetched twice. */
  lemma PagesTile(n: int, perPage: nat)
    ensures PageRange(Num(n + 1), perPage).from == PageRange(Num(n), perPage).to + 1
  {
    assert n * perPage == (n - 1) * perPage + perPage;
  }

  /** Page 1 with ten rows a page asks for rows 0 to 9. */
  lemma FirstPageRange()
    ensures PageRange(Num(1), 10) == Rows(0, 9)
  {
  }

  /**
   * The chain of conditional refinements: starting from the unfiltered select, each set filter
   * field adds its predicate in turn, then the ordering and the range are applied.
   */
  method BuildQuery(f: Filters, s: SortBy, p: PageNo, perPage: nat) returns (q: Query)
    ensures q == Build(f, s, p, perPage)
  {
    var predicates: seq<Predicate> := [];
    if f.name != "" {
      predicates := predicates + [Ilike("%" + f.name + "%")];
    }
    assert predicates == When(f.name != "", Ilike("%" + f.name + "%"));
    ghost var done := predicates;
    if f.category != "all" {
      predicates := predicates + [EqCategory(f.category)];
    }
    assert predicates == done + When(f.category != "all", EqCategory(f.category));
    done := predicates;
    if f.minPrice != "" {
      predicates := predicates + [Gte(f.minPrice)];
    }
    assert predicates == done + When(f.minPrice != "", Gte(f.minPrice));
    done := predicates;
    if f.maxPrice != "" {
      predicates := predicates + [Lte(f.maxPrice)];
    }
    assert predicates == done + When(f.maxPrice != "", Lte(f.maxPrice));
    done := predicates;
    if f.stockStatus == "in_stock" {
      predicates := predicates + [StockGt0];
    }
    if f.stockStatus == "out_of_stock" {
      predicates := predicates + [StockEq0];
    }
    assert predicates == done + StockPredicates(f.stockStatus);
    assert predicates == Predicates(f);
    var range := NaNRows;
    if p.Num? {
      var from := (p.n - 1) * perPage;
      var to := from + perPage - 1;
      range := Rows(from, to);
    }
    q := Query(predicates, s.column, s.order == "asc", range);
  }
}
