/**
 * The category page (src/app/[locale]/directories/[category]/page.tsx): the
 * request it makes to `getBusinessesByCategory` from its query string.
 * As written, the page puts `verified`, `featured` and `min_rating` at the
 * top level of the request, where the repository never reads them, so
 * those three filters are lost; `Request` forwards them as `filters`
 * entries instead.
 */
module CategoryPage {
  import opened Js
  import opened UrlSearchParams
  import opened CategoryRepository

  /** The query-string values the page reads, each a single string when present. */
  datatype PageSearchParams = PageSearchParams(
    verified: Option<string>,
    featured: Option<string>,
    rating: Option<string>,
    sort: Option<string>,
    page: Option<string>,
    tag: Option<string>)

  /** `searchParams.x === 'true'`. */
  predicate Flag(value: Option<string>) {
    value == Some("true")
  }

  /** `searchParams.page ? parseInt(searchParams.page) : 1`; `parseInt` gives `None` for `NaN`. */
  function ParsedPage(page: Option<string>, parseInt: string -> Option<int>): Option<int> {
    if StringTruthy(page) then parseInt(page.value) else Some(1)
  }

  /** `searchParams.sort || 'rating'`. */
  function SortParam(sort: Option<string>): (s: string)
    ensures s != ""
  {
    if StringTruthy(sort) then sort.value else "rating"
  }

  /** `searchParams.tag ? [searchParams.tag] : undefined`. */
  function TagsParam(tag: Option<string>): Option<seq<string>> {
    if StringTruthy(tag) then Some([tag.value]) else None
  }

  /**
   * The request as the page writes it, seen by the repository: page, limit
   * 20, sort and tags arrive, and no `filters` field is set.
   */
  function RequestAsWritten(sp: PageSearchParams, parseInt: string -> Option<int>): (p: CategoryQueryParams)
    ensures p.filters.None? && p.limit == Some(20) && p.sort == Some(SortParam(sp.sort))
  {
    CategoryQueryParams(None, Some(SortParam(sp.sort)), ParsedPage(sp.page, parseInt), Some(20), TagsParam(sp.tag))
  }

  /** As written, the query never carries `verified`, `featured` or `min_rating`, whatever the page's URL says. */
  lemma AsWrittenDropsFilters(sp: PageSearchParams, parseInt: string -> Option<int>, name: string)
    requires name == "verified" || name == "featured" || name == "min_rating"
    ensures AllValues(CategoryQuery(RequestAsWritten(sp, parseInt)), name) == []
  {
    var values := AllValues(CategoryQuery(RequestAsWritten(sp, parseInt)), name);
    if values != [] {
      CategoryQueryFilters(RequestAsWritten(sp, parseInt), name, values[0]);
      assert false;
    }
  }

  /** `?verified=true`: the list view shows "verified" selected, yet the request does not ask for it. */
  lemma AsWrittenVerifiedIgnored(parseInt: string -> Option<int>)
    ensures var sp := PageSearchParams(Some("true"), None, None, None, None, None);
      Flag(sp.verified) && AllValues(CategoryQuery(RequestAsWritten(sp, parseInt)), "verified") == []
  {
    AsWrittenDropsFilters(PageSearchParams(Some("true"), None, None, None, None, None), parseInt, "verified");
  }

  /** The filter entries the page means to send, in the order it names them. */
  function FilterEntries(sp: PageSearchParams): seq<Pair> {
    (if Flag(sp.verified) then [("verified", "true")] else [])
    + (if Flag(sp.featured) then [("featured", "true")] else [])
    + (if StringTruthy(sp.rating) then [("min_rating", sp.rating.value)] else [])
  }

  /** The request with the three filters forwarded as `filters` entries. */
  function Request(sp: PageSearchParams, parseInt: string -> Option<int>): (p: CategoryQueryParams)
    ensures p.filters == Some(FilterEntries(sp))
    ensures p.(filters := None) == RequestAsWritten(sp, parseInt)
  {
    CategoryQueryParams(Some(FilterEntries(sp)), Some(SortParam(sp.sort)), ParsedPage(sp.page, parseInt), Some(20), TagsParam(sp.tag))
  }

  /**
   * The corrected request sends `verified=true` exactly when the page's URL
   * has `verified=true`, likewise `featured`, and `min_rating` with the
   * page's rating when one is given (unless it is `'all'`).
   */
  lemma RequestSendsFilters(sp: PageSearchParams, parseInt: string -> Option<int>, value: string)
    ensures var query := CategoryQuery(Request(sp, parseInt));
      && (value in AllValues(query, "verified") <==> Flag(sp.verified) && value == "true")
      && (value in AllValues(query, "featured") <==> Flag(sp.featured) && value == "true")
      && (value in AllValues(query, "min_rating")
          <==> StringTruthy(sp.rating) && value == sp.rating.value && value != "all")
  {
    var p := Request(sp, parseInt);
    FilterEntriesMember(sp, value);
    CategoryQueryFilters(p, "verified", value);
    CategoryQueryFilters(p, "featured", value);
    CategoryQueryFilters(p, "min_rating", value);
  }

  lemma FilterEntriesMember(sp: PageSearchParams, value: string)
    ensures ("verified", value) in FilterEntries(sp) <==> Flag(sp.verified) && value == "true"
    ensures ("featured", value) in FilterEntries(sp) <==> Flag(sp.featured) && value == "true"
    ensures ("min_rating", value) in FilterEntries(sp) <==> StringTruthy(sp.rating) && value == sp.rating.value
  {
  }
}
