/**
 * The pagination control: the page count, the "previous" and "next" page updaters and the
 * predicates that disable the two buttons.
 */
module Pagination {
  import opened DashboardState

  /**
   * `Math.ceil(totalProducts / productsPerPage)`, as natural-number ceiling division: the
   * fewest pages of `perPage` rows that hold every product.
   */
  function TotalPages(total: nat, perPage: nat): (r: nat)
    requires perPage > 0
    ensures total <= r * perPage
    ensures r > 0 ==> (r - 1) * perPage < total
    ensures r == 0 <==> total == 0
  {
    var r := (total + perPage - 1) / perPage;
    var m := (total + perPage - 1) % perPage;
    assert total + perPage - 1 == r * perPage + m;
    assert (r - 1) * perPage == r * perPage - perPage;
    r
  }

  /**
   * `p => Math.max(p - 1, 1)`; `Math.max` of NaN is NaN. A numbered page never goes below 1,
   * never moves forward from page 1 on, moves exactly one back from pages above 1, and sends
   * every page up to 1 (0 and negative pages included) to exactly 1.
   */
  function Previous(p: PageNo): (q: PageNo)
    ensures q.Num? <==> p.Num?
    ensures p.Num? ==> q.n >= 1
    ensures p.Num? && p.n >= 1 ==> q.n <= p.n
    ensures p.Num? && p.n > 1 ==> q.n == p.n - 1
    ensures p.Num? && p.n <= 1 ==> q == Num(1)
  {
    match p
    case Num(n) => Num(if n - 1 > 1 then n - 1 else 1)
    case NaN => NaN
  }

  /** `page === 1`: disabled only where "previous" would stay put, never above page 1. */
  predicate PreviousDisabled(p: PageNo): (b: bool)
    ensures b ==> p.Num? && Previous(p) == p
    ensures p.Num? && p.n > 1 ==> !b
  {
    p == Num(1)
  }

  /** `p => p + 1`; NaN plus one is NaN. A numbered page moves forward by exactly one page. */
  function Next(p: PageNo): (q: PageNo)
    ensures q.Num? <==> p.Num?
    ensures p.Num? ==> q.n == p.n + 1
  {
    match p
    case Num(n) => Num(n + 1)
    case NaN => NaN
  }

  /**
   * `page >= totalPages`; every comparison with NaN is false, so a NaN page never disables
   * "next". On a numbered page "next" is enabled below the page count and then leads to a page
   * within it.
   */
  predicate NextDisabled(p: PageNo, totalPages: nat): (b: bool)
    ensures b ==> p.Num?
    ensures p.Num? && p.n < totalPages ==> !b
    ensures !b && p.Num? ==> Next(p).n <= totalPages
  {
    match p
    case Num(n) => n >= totalPages
    case NaN => false
  }

  /** "Previous" is disabled on page 1 and nowhere else. */
  lemma PreviousDisabledExactly(p: PageNo)
    ensures PreviousDisabled(p) <==> p.Num? && p.n == 1
  {
  }

  /** Whenever "next" is enabled on a numbered page, the page it leads to exists. */
  lemma NextStaysInRange(p: PageNo, total: nat, perPage: nat)
    requires perPage > 0
    requires p.Num? && !NextDisabled(p, TotalPages(total, perPage))
    ensures Next(p).n <= TotalPages(total, perPage)
    ensures (Next(p).n - 1) * perPage < total
  {
    var t := TotalPages(total, perPage);
    assert (Next(p).n - 1) * perPage <= (t - 1) * perPage by {
      MulMonotone(Next(p).n - 1, t - 1, perPage);
    }
  }

  lemma MulMonotone(a: int, b: int, k: nat)
    requires a <= b
    ensures a * k <= b * k
  {
  }

  /** With no products both buttons are disabled on page 1: there are no pages at all. */
  lemma EmptyResultDisablesBoth(perPage: nat)
    requires perPage > 0
    ensures TotalPages(0, perPage) == 0
    ensures PreviousDisabled(Num(1)) && NextDisabled(Num(1), TotalPages(0, perPage))
  {
  }

  /**
   * On a NaN page (a non-numeric page parameter) both buttons are enabled and both leave the
   * page NaN.
   */
  lemma NaNPageButtonsInert(totalPages: nat)
    ensures !PreviousDisabled(NaN) && !NextDisabled(NaN, totalPages)
    ensures Previous(NaN) == NaN && Next(NaN) == NaN
  {
  }

  /** "Previous" undoes "next" from any page from 1 on. */
  lemma PreviousUndoesNext(n: int)
    requires n >= 1
    ensures Previous(Next(Num(n))) == Num(n)
  {
  }
}
