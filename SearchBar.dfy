/** The patient search box, which keeps its text in the `search` query parameter. */
module SearchBar {
  import opened Text
  import opened UrlParams

  /** The text the box starts with: the `search` parameter, or empty. */
  function InitialQuery(query: map<string, string>): (r: string)
    ensures "search" in query ==> r == query["search"]
    ensures "search" !in query ==> r == ""
  {
    GetOr(query, "search", "")
  }

  /**
   * `updateSearchParams(query)`: a query with something besides whitespace is stored as
   * typed, untrimmed; a blank one removes `search`; every other parameter, `page`
   * included, stays.
   */
  method UpdateSearchParams(current: map<string, string>, query: string) returns (u: Url)
    ensures u.path == "/"
    ensures Trim(query) != "" ==> "search" in u.query && u.query["search"] == query
    ensures (forall i :: 0 <= i < |query| ==> IsWhitespace(query[i])) ==> "search" !in u.query
    ensures SameOutside(current, u.query, {"search"})
    ensures Trim(query) != "" ==> InitialQuery(u.query) == query
  {
    TrimEmpty(query);
    var params := new SearchParams(current);
    if Trim(query) != "" {
      params.Set("search", query);
    } else {
      params.Delete("search");
    }
    u := params.ToUrl("/");
  }
}
