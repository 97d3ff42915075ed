/**
 * The URL synchroniser: the state written into the query string after every change, and the
 * initial state read back from it when the dashboard mounts. Query parameters are modelled
 * as a map from key to (already decoded) value.
 */
module UrlSync {
  import opened Wrappers
  import opened DashboardState
  import opened JsText

  datatype UrlState = UrlState(page: PageNo, filters: Filters, sortBy: SortBy)

  /**
   * `String(page)`: the decimal text of an integer page, "NaN" for NaN. A page from 0 on is
   * all digits, a negative page a minus sign and digits, and NaN has no digit at all.
   */
  function PageText(p: PageNo): (s: string)
    ensures s != []
    ensures p.Num? && p.n >= 0 ==> AllDigits(s)
    ensures p.Num? && p.n < 0 ==> s[0] == '-' && AllDigits(s[1..])
    ensures p == NaN ==> forall i :: 0 <= i < |s| ==> !IsDigit(s[i])
  {
    match p
    case Num(n) =>
      assert n < 0 ==> IntText(n)[1..] == NatDigits(-n);
      IntText(n)
    case NaN => "NaN"
  }

  /** `if (cond) params.set(key, value)`. */
  function SetIf(params: map<string, string>, cond: bool, key: string, value: string): (r: map<string, string>)
    ensures r.Keys == if cond then params.Keys + {key} else params.Keys
  {
    if cond then params[key := value] else params
  }

  /**
   * The parameters written for a state: page, sortBy and order always; name, minPrice and
   * maxPrice only when non-empty; category and stockStatus only when not "all".
   */
  function Encode(st: UrlState): (params: map<string, string>)
    ensures "page" in params && "sortBy" in params && "order" in params
  {
    var f := st.filters;
    var withPage := map["page" := PageText(st.page)];
    var withName := SetIf(withPage, f.name != "", "name", f.name);
    var withCategory := SetIf(withName, f.category != "all", "category", f.category);
    var withMin := SetIf(withCategory, f.minPrice != "", "minPrice", f.minPrice);
    var withMax := SetIf(withMin, f.maxPrice != "", "maxPrice", f.maxPrice);
    var withStock := SetIf(withMax, f.stockStatus != "all", "stockStatus", f.stockStatus);
    withStock["sortBy" := st.sortBy.column]["order" := st.sortBy.order]
  }

  /** The keys other than page, sortBy and order, with the field each one carries. */
  predicate Carries(params: map<string, string>, key: string, present: bool, value: string) {
    (key in params <==> present) && (key in params ==> params[key] == value)
  }

  /**
   * What the written parameters hold: the page's text, the sort column and order, and each
   * filter field under its own key exactly when it is set (non-empty, or not "all" for
   * category and stock status); no other key.
   */
  lemma EncodeRules(st: UrlState)
    ensures var params := Encode(st);
      && params["page"] == PageText(st.page)
      && params["sortBy"] == st.sortBy.column
      && params["order"] == st.sortBy.order
      && Carries(params, "name", st.filters.name != "", st.filters.name)
      && Carries(params, "category", st.filters.category != "all", st.filters.category)
      && Carries(params, "minPrice", st.filters.minPrice != "", st.filters.minPrice)
      && Carries(params, "maxPrice", st.filters.maxPrice != "", st.filters.maxPrice)
      && Carries(params, "stockStatus", st.filters.stockStatus != "all", st.filters.stockStatus)
      && params.Keys <= {"page", "name", "category", "minPrice", "maxPrice", "stockStatus", "sortBy", "order"}
  {
    EncodeFixed(st);
    EncodeNameCategory(st);
    EncodePrices(st);
    EncodeStock(st);
    EncodeKeys(st);
  }

  lemma EncodeFixed(st: UrlState)
    ensures Encode(st)["page"] == PageText(st.page)
    ensures Encode(st)["sortBy"] == st.sortBy.column && Encode(st)["order"] == st.sortBy.order
  {
  }

  lemma EncodeNameCategory(st: UrlState)
    ensures Carries(Encode(st), "name", st.filters.name != "", st.filters.name)
    ensures Carries(Encode(st), "category", st.filters.category != "all", st.filters.category)
  {
  }

  lemma EncodePrices(st: UrlState)
    ensures Carries(Encode(st), "minPrice", st.filters.minPrice != "", st.filters.minPrice)
    ensures Carries(Encode(st), "maxPrice", st.filters.maxPrice != "", st.filters.maxPrice)
  {
  }

  lemma EncodeStock(st: UrlState)
    ensures Carries(Encode(st), "stockStatus", st.filters.stockStatus != "all", st.filters.stockStatus)
  {
  }

  lemma EncodeKeys(st: UrlState)
    ensures Encode(st).Keys <= {"page", "name", "category", "minPrice", "maxPrice", "stockStatus", "sortBy", "order"}
  {
  }

  /** `searchParams.get(key) || fallback`: a missing or empty parameter gives the fallback. */
  function GetOr(params: map<string, string>, key: string, fallback: string): (v: string)
    ensures key !in params ==> v == fallback
    ensures key in params && params[key] == "" ==> v == fallback
    ensures key in params && params[key] != "" ==> v == params[key]
  {
    if key in params && params[key] != "" then params[key] else fallback
  }

  /**
   * `parseInt(get('page') || '1', 10)`: a missing or empty page is page 1, a page of digits is
   * their value, and a page without any digit is NaN.
   */
  function DecodePage(params: map<string, string>): (p: PageNo)
    ensures "page" !in params || params["page"] == "" ==> p == Num(1)
    ensures "page" in params && params["page"] != "" && AllDigits(params["page"]) ==> p == Num(Value(params["page"]))
    ensures "page" in params && (forall i :: 0 <= i < |params["page"]| ==> !IsDigit(params["page"][i])) && params["page"] != "" ==> p == NaN
  {
    ParseIntOne();
    match ParseInt(GetOr(params, "page", "1"))
    case Some(n) => Num(n)
    case None => NaN
  }

  /** The initial state read from the URL, with the defaults of the state initialisers. */
  function Decode(params: map<string, string>): (st: UrlState)
    ensures st.filters.category != "" && st.filters.stockStatus != ""
    ensures st.sortBy.column != "" && st.sortBy.order != ""
  {
    UrlState(
      DecodePage(params),
      Filters(
        GetOr(params, "name", ""),
        GetOr(params, "category", "all"),
        GetOr(params, "minPrice", ""),
        GetOr(params, "maxPrice", ""),
        GetOr(params, "stockStatus", "all")),
      SortBy(GetOr(params, "sortBy", "created_at"), GetOr(params, "order", "asc")))
  }

  /**
   * The states the URL can carry faithfully: the empty string cannot survive in the four
   * fields whose initialiser falls back to a non-empty default.
   */
  predicate Representable(st: UrlState) {
    st.filters.category != "" && st.filters.stockStatus != "" &&
    st.sortBy.column != "" && st.sortBy.order != ""
  }

  /** Every page, NaN included, survives being written into the URL and read back. */
  lemma PageRoundTrip(p: PageNo)
    ensures ParseInt(PageText(p)) == (if p.Num? then Some(p.n) else None)
  {
    match p
    case Num(n) => ParseIntText(n);
    case NaN => ParseIntNaN();
  }

  /** `parseInt("1", 10)`, the page of the fallback text, is 1. */
  lemma ParseIntOne()
    ensures ParseInt("1") == Some(1)
  {
    assert IsDigit("1"[0]) && "1"[..0] == [];
    assert Value("1") == 1;
  }

  /** `value || fallback` for a string value: the empty string gives the fallback. */
  function OrElse(value: string, fallback: string): string {
    if value != "" then value else fallback
  }

  /**
   * What reading back the written parameters gives for any state: the page and the name and
   * price filters unchanged, and an empty category, stock status, sort column or sort order
   * replaced by its default ("all", "all", "created_at", "asc").
   */
  lemma UrlReadBack(st: UrlState)
    ensures Decode(Encode(st)) == UrlState(
      st.page,
      Filters(st.filters.name, OrElse(st.filters.category, "all"), st.filters.minPrice,
        st.filters.maxPrice, OrElse(st.filters.stockStatus, "all")),
      SortBy(OrElse(st.sortBy.column, "created_at"), OrElse(st.sortBy.order, "asc")))
  {
    var params := Encode(st);
    EncodeRules(st);
    PageRoundTrip(st.page);
    assert DecodePage(params) == st.page;
  }

  /**
   * Round trip: reading back the written parameters reproduces the state exactly when the
   * state is representable.
   */
  lemma UrlRoundTrip(st: UrlState)
    ensures Decode(Encode(st)) == st <==> Representable(st)
  {
    UrlReadBack(st);
  }

  /** With no parameters at all the dashboard starts on page 1, unfiltered, oldest first. */
  lemma DecodeDefaults(params: map<string, string>)
    ensures "page" !in params ==> Decode(params).page == Num(1)
    ensures "sortBy" !in params && "order" !in params ==> Decode(params).sortBy == DefaultSort
    ensures Decode(map[]) == UrlState(Num(1), ClearedFilters, DefaultSort)
  {
  }

  /** A page parameter that does not start with a number gives a NaN page, not page 1. */
  lemma NonNumericPageIsNaN(params: map<string, string>)
    requires "page" in params && params["page"] != ""
    requires forall i :: 0 <= i < |params["page"]| ==> !IsDigit(params["page"][i])
    ensures Decode(params).page == NaN
  {
  }
}
