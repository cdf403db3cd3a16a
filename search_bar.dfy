/**
 * The search bar's submit handler
 * (src/presentation/components/SearchBar/SearchBar.tsx): hand the query to
 * the `onSearch` callback, navigate to the search page, or do nothing.
 * The router and the callback are effects, returned here as a value.
 */
module SearchBar {
  import opened JsString

  datatype SearchAction = CallOnSearch(query: string) | Navigate(url: string) | DoNothing

  datatype SubmitOutcome = SubmitOutcome(preventDefault: bool, action: SearchAction)

  /** The search page's address; `encode` stands for `encodeURIComponent`. */
  function SearchUrl(locale: string, query: string, encode: string -> string): string {
    "/" + locale + "/directories?search=" + encode(query)
  }

  /**
   * `handleSubmit`: the default submission is always prevented; with a
   * callback it gets the raw query, blank or not; without one a query made
   * only of whitespace does nothing, and any other navigates with the
   * untrimmed query.
   */
  function HandleSubmit(locale: string, hasOnSearch: bool, query: string, encode: string -> string): (out: SubmitOutcome)
    ensures out.preventDefault
    ensures hasOnSearch ==> out.action == CallOnSearch(query)
    ensures !hasOnSearch && Blank(query) ==> out.action == DoNothing
    ensures !hasOnSearch && !Blank(query) ==> out.action == Navigate(SearchUrl(locale, query, encode))
  {
    TrimEmptyIffBlank(query);
    var action :=
      if hasOnSearch then CallOnSearch(query)
      else if Trim(query) != "" then Navigate("/" + locale + "/directories?search=" + encode(query))
      else DoNothing;
    SubmitOutcome(true, action)
  }
}
