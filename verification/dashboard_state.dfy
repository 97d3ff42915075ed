/**
 * The state the dashboard keeps: the filter record, the sort record and the page number,
 * with their default and cleared values.
 */
module DashboardState {

  /**
   * The filter record. Unset is the empty string for the text fields and "all" for category
   * and stock status. The field order is the order of the object literals, which the spread
   * in the filter handler keeps, so comparing the JSON renderings of two records is comparing
   * them field by field.
   */
  datatype Filters = Filters(
    name: string,
    category: string,
    minPrice: string,
    maxPrice: string,
    stockStatus: string)

  /** The sort record: a column name and an order ("asc" or "desc" from the controls). */
  datatype SortBy = SortBy(column: string, order: string)

  /**
   * A page number as JavaScript holds it: an integer, or NaN when the URL's page parameter
   * has no digit after leading white space and an optional sign.
   */
  datatype PageNo = Num(n: int) | NaN

  /** The names of the filter inputs, which select the field the filter handler replaces. */
  datatype FilterField = Name | Category | MinPrice | MaxPrice | StockStatus

  function Get(f: Filters, field: FilterField): string {
    match field
    case Name => f.name
    case Category => f.category
    case MinPrice => f.minPrice
    case MaxPrice => f.maxPrice
    case StockStatus => f.stockStatus
  }

  /** The filter record `clearFilters` installs. */
  const ClearedFilters := Filters("", "all", "", "", "all")

  /** The sort record `clearFilters` installs, which is also the default when the URL has none. */
  const DefaultSort := SortBy("created_at", "asc")

  /** The page size: the page-size state is initialised to 10 and never set. */
  const PerPage: nat := 10
}
