/**
 * The "for sale" repository (src/infrastructure/repositories/ForSaleRepository.ts):
 * the listing query's defaults and the `||` fallbacks on the responses.
 * The HTTP calls are left out; the response's `data` object is an input
 * whose fields may be missing.
 */
module ForSaleRepository {
  import opened Js
  import opened JsString
  import opened UrlSearchParams
  import opened Entities

  const DefaultPage := 1
  const DefaultPageSize := 30

  /** The `params` argument of `getListings`, `{}` by default. */
  datatype ListingsRequest = ListingsRequest(page: Option<int>, page_size: Option<int>)

  /** The listing query: `page` and `page_size`, with `0` falling back like a missing value. */
  function ListingsQuery(request: ListingsRequest): (pairs: seq<Pair>)
    ensures |pairs| == 2 && pairs[0].0 == "page" && pairs[1].0 == "page_size"
    ensures ParseInt(pairs[0].1) == (if NumberTruthy(request.page) then request.page.value else DefaultPage)
    ensures ParseInt(pairs[1].1) == (if NumberTruthy(request.page_size) then request.page_size.value else DefaultPageSize)
  {
    var page := NumberOr(request.page, DefaultPage);
    var size := NumberOr(request.page_size, DefaultPageSize);
    [("page", IntToString(page)), ("page_size", IntToString(size))]
  }

  datatype ListingsData = ListingsData(
    listings: Option<seq<ForSaleListing>>,
    total: Option<int>,
    page: Option<int>,
    page_size: Option<int>)

  /**
   * `getListings`' result: missing listings become `[]` and a missing total
   * `0`; page and size come from the response, else the request, else the
   * defaults, so neither is ever `0`.
   */
  function ListingsOf(data: ListingsData, request: ListingsRequest): (r: ForSaleListingsResponse)
    ensures r.listings == ValueOr(data.listings, [])
    ensures r.total == (if NumberTruthy(data.total) then data.total.value else 0)
    ensures r.page == (if NumberTruthy(data.page) then data.page.value
                       else if NumberTruthy(request.page) then request.page.value else DefaultPage)
    ensures r.page_size == (if NumberTruthy(data.page_size) then data.page_size.value
                            else if NumberTruthy(request.page_size) then request.page_size.value else DefaultPageSize)
    ensures r.page != 0 && r.page_size != 0
  {
    ForSaleListingsResponse(
      ValueOr(data.listings, []),
      NumberOr(data.total, 0),
      NumberOr(data.page, NumberOr(request.page, DefaultPage)),
      NumberOr(data.page_size, NumberOr(request.page_size, DefaultPageSize)))
  }

  /**
   * When the response does not say its page or size, the result reports
   * what the query asked for.
   */
  lemma ListingsOfMatchesQuery(data: ListingsData, request: ListingsRequest)
    requires !NumberTruthy(data.page) && !NumberTruthy(data.page_size)
    ensures var query := ListingsQuery(request);
      var r := ListingsOf(data, request);
      ParseInt(query[0].1) == r.page && ParseInt(query[1].1) == r.page_size
  {
  }

  datatype ServicesData = ServicesData(services: Option<seq<ForSaleService>>, total: Option<int>)

  /** `getServices`' result: missing services become `[]` and a missing total `0`. */
  function ServicesOf(data: ServicesData): (r: ForSaleServicesResponse)
    ensures r.services == ValueOr(data.services, [])
    ensures r.total == (if NumberTruthy(data.total) then data.total.value else 0)
  {
    ForSaleServicesResponse(ValueOr(data.services, []), NumberOr(data.total, 0))
  }
}
