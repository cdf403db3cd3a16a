/**
 * The `page`/`limit` pair the repositories open their queries with:
 * `new URLSearchParams({page: String(page || 1), limit: String(limit || 20)})`.
 */
module Paging {
  import opened Js
  import opened JsString
  import opened UrlSearchParams

  const DefaultPage := 1
  const DefaultLimit := 20

  /** The two opening pairs, in this order. */
  function PageAndLimit(page: Option<int>, limit: Option<int>): seq<Pair> {
    [("page", IntToString(NumberOr(page, DefaultPage))), ("limit", IntToString(NumberOr(limit, DefaultLimit)))]
  }

  /**
   * The pairs are named `page` and `limit` and read back as the requested
   * numbers, with the defaults when a number is absent or `0`.
   */
  lemma PageAndLimitReadBack(page: Option<int>, limit: Option<int>)
    ensures var pairs := PageAndLimit(page, limit);
      && |pairs| == 2 && pairs[0].0 == "page" && pairs[1].0 == "limit"
      && ParseInt(pairs[0].1) == (if NumberTruthy(page) then page.value else DefaultPage)
      && ParseInt(pairs[1].1) == (if NumberTruthy(limit) then limit.value else DefaultLimit)
      && (page == Some(0) ==> pairs[0].1 == "1")
      && (limit == Some(0) ==> pairs[1].1 == "20")
  {
  }

  /** No other name than `page` and `limit` has a value among the two pairs. */
  lemma PageAndLimitNames(page: Option<int>, limit: Option<int>, name: string)
    requires name != "page" && name != "limit"
    ensures AllValues(PageAndLimit(page, limit), name) == []
  {
    var pairs := PageAndLimit(page, limit);
    assert pairs == [pairs[0]] + [pairs[1]];
    AllValuesConcat([pairs[0]], [pairs[1]], name);
  }
}
