/**
 * The filter bar's two change handlers: replacing one filter field with the value of the
 * input that changed, and turning the sort control's value `column_order` back into a sort
 * record by splitting it at its last underscore.
 */
module FilterBar {
  import opened DashboardState
  import opened JsText

  /** `{ ...prev, [name]: value }`: the record with the named field replaced. */
  function WithField(f: Filters, field: FilterField, value: string): (r: Filters)
    ensures Get(r, field) == value
    ensures forall g: FilterField :: g != field ==> Get(r, g) == Get(f, g)
  {
    match field
    case Name => f.(name := value)
    case Category => f.(category := value)
    case MinPrice => f.(minPrice := value)
    case MaxPrice => f.(maxPrice := value)
    case StockStatus => f.(stockStatus := value)
  }

  /** Filter records are determined by their fields. */
  lemma FiltersExtensional(f: Filters, g: Filters)
    requires forall k: FilterField :: Get(f, k) == Get(g, k)
    ensures f == g
  {
    assert Get(f, Name) == Get(g, Name);
    assert Get(f, Category) == Get(g, Category);
    assert Get(f, MinPrice) == Get(g, MinPrice);
    assert Get(f, MaxPrice) == Get(g, MaxPrice);
    assert Get(f, StockStatus) == Get(g, StockStatus);
  }

  /** A second change of the same field overwrites the first entirely. */
  lemma WithFieldOverwrites(f: Filters, field: FilterField, v1: string, v2: string)
    ensures WithField(WithField(f, field, v1), field, v2) == WithField(f, field, v2)
  {
    var a := WithField(WithField(f, field, v1), field, v2);
    var b := WithField(f, field, v2);
    forall k: FilterField ensures Get(a, k) == Get(b, k) {
    }
    FiltersExtensional(a, b);
  }

  /** Changes to two different fields commute. */
  lemma WithFieldCommutes(f: Filters, k1: FilterField, v1: string, k2: FilterField, v2: string)
    requires k1 != k2
    ensures WithField(WithField(f, k1, v1), k2, v2) == WithField(WithField(f, k2, v2), k1, v1)
  {
    var a := WithField(WithField(f, k1, v1), k2, v2);
    var b := WithField(WithField(f, k2, v2), k1, v1);
    forall k: FilterField ensures Get(a, k) == Get(b, k) {
    }
    FiltersExtensional(a, b);
  }

  /** The value of the sort control: the column and the order joined by an underscore. */
  function SortKey(s: SortBy): (v: string)
    ensures |v| == |s.column| + 1 + |s.order| && v[|s.column|] == '_'
  {
    s.column + "_" + s.order
  }

  /**
   * The sort handler: the column is the text before the last underscore and the order the
   * text after it. Without an underscore, `lastIndexOf` gives -1, `substring(0, -1)` clamps
   * to the empty column and `substring(0)` is the whole value.
   */
  function ParseSortKey(v: string): (r: SortBy)
    ensures '_' in v ==> r.column + "_" + r.order == v && '_' !in r.order
    ensures '_' !in v ==> r == SortBy("", v)
  {
    var i := LastIndexOf(v, '_');
    var column := JsSubstring(v, 0, i);
    var order := JsSubstring(v, i + 1, |v|);
    assert 0 <= i ==> v == v[..i] + "_" + v[i + 1..];
    SortBy(column, order)
  }

  /** An underscore-free suffix fixes where a string splits at its last underscore. */
  lemma SplitUnique(c1: string, o1: string, c2: string, o2: string)
    requires c1 + "_" + o1 == c2 + "_" + o2
    requires '_' !in o1 && '_' !in o2
    ensures c1 == c2 && o1 == o2
  {
    var v := c1 + "_" + o1;
    if |o1| < |o2| {
      OrderCharAt(c2, o2, |v| - |o1| - 1);
      assert false;
    } else if |o2| < |o1| {
      OrderCharAt(c1, o1, |v| - |o2| - 1);
      assert false;
    }
    assert c1 == v[..|c1|] && c2 == v[..|c2|];
    assert o1 == v[|c1| + 1..] && o2 == v[|c2| + 1..];
  }

  lemma OrderCharAt(c: string, o: string, j: int)
    ensures |c| < j < |c| + 1 + |o| ==> (c + "_" + o)[j] == o[j - |c| - 1]
  {
  }

  /**
   * Round trip: reading back the control's value gives the sort record exactly when its
   * order has no underscore; columns that contain underscores, such as created_at, survive.
   */
  lemma SortKeyRoundTrip(s: SortBy)
    ensures ParseSortKey(SortKey(s)) == s <==> '_' !in s.order
  {
    var v := SortKey(s);
    assert '_' in v by { assert v[|s.column|] == '_'; }
    var r := ParseSortKey(v);
    if '_' !in s.order {
      SplitUnique(r.column, r.order, s.column, s.order);
    }
  }

  /** The values of the sort control's options. */
  const SortOptions: seq<string> :=
    ["created_at_desc", "price_asc", "price_desc", "name_asc", "name_desc", "stock_quantity_desc"]

  const SortColumns: set<string> := {"created_at", "price", "name", "stock_quantity"}

  const SortOrders: set<string> := {"asc", "desc"}

  /** Choosing any option yields one of the four columns and one of the two orders. */
  lemma SortOptionsParse()
    ensures forall v :: v in SortOptions ==>
      ParseSortKey(v).column in SortColumns && ParseSortKey(v).order in SortOrders
  {
    forall v | v in SortOptions
      ensures ParseSortKey(v).column in SortColumns && ParseSortKey(v).order in SortOrders
    {
      if v == "created_at_desc" {
        RoundTripOption(SortBy("created_at", "desc"), v);
      } else if v == "price_asc" {
        RoundTripOption(SortBy("price", "asc"), v);
      } else if v == "price_desc" {
        RoundTripOption(SortBy("price", "desc"), v);
      } else if v == "name_asc" {
        RoundTripOption(SortBy("name", "asc"), v);
      } else if v == "name_desc" {
        RoundTripOption(SortBy("name", "desc"), v);
      } else {
        RoundTripOption(SortBy("stock_quantity", "desc"), v);
      }
    }
  }

  lemma RoundTripOption(s: SortBy, v: string)
    requires SortKey(s) == v && '_' !in s.order
    ensures ParseSortKey(v) == s
  {
    SortKeyRoundTrip(s);
  }

  /**
   * The sort record `clearFilters` installs, and the default one, has the key
   * "created_at_asc", which none of the options carries.
   */
  lemma DefaultSortNotOffered()
    ensures SortKey(DefaultSort) !in SortOptions
  {
  }

  /** A value without an underscore gives an empty column and the whole value as the order. */
  lemma NoUnderscoreSplit(v: string)
    requires '_' !in v
    ensures ParseSortKey(v).column == "" && ParseSortKey(v).order == v
  {
  }
}
