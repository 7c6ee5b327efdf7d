/** The category selector of the patient list, which keeps its choice in the `categoria` query parameter. */
module CategoryFilter {
  import opened UrlParams

  /** The option that stands for every category. */
  const AllCategories := "todas"

  /** The value the selector shows: the `categoria` parameter, or `todas` when it is missing or empty. */
  function SelectedValue(query: map<string, string>): (r: string)
    ensures "categoria" !in query ==> r == AllCategories
    ensures "categoria" in query && query["categoria"] != "" ==> r == query["categoria"]
    ensures r != ""
  {
    var selectedCategory := GetOr(query, "categoria", "");
    if selectedCategory == "" then AllCategories else selectedCategory
  }

  /**
   * `handleCategoryChange(value)`: `todas` removes the category, any other value becomes
   * it; the page is reset by removing `page`; no other parameter changes.
   */
  method HandleCategoryChange(current: map<string, string>, value: string) returns (u: Url)
    ensures u.path == "/pacientes"
    ensures value == AllCategories ==> "categoria" !in u.query
    ensures value != AllCategories ==> "categoria" in u.query && u.query["categoria"] == value
    ensures "page" !in u.query
    ensures SameOutside(current, u.query, {"categoria", "page"})
    ensures value != "" ==> SelectedValue(u.query) == value
  {
    var params := new SearchParams(current);
    if value == AllCategories {
      params.Delete("categoria");
    } else {
      params.Set("categoria", value);
    }
    params.Delete("page");
    u := params.ToUrl("/pacientes");
  }
}
