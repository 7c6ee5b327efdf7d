/**
 * `URLSearchParams` as the filters use it: a copy of the current query that is edited with
 * `set` and `delete` and then turned into a navigation target. Each key holds one value.
 */
module UrlParams {
  import opened Optional

  /** A navigation target: a path and its query parameters. */
  datatype Url = Url(path: string, query: map<string, string>)

  class SearchParams {
    var entries: map<string, string>

    /** `new URLSearchParams(current)`: a copy of the current query. */
    constructor (init: map<string, string>)
      ensures entries == init
    {
      entries := init;
    }

    /** `params.get(key)`: the key's value, or `null`. */
    function Get(key: string): (r: Option<string>)
      reads this
      ensures r.Some? <==> key in entries
      ensures r.Some? ==> r.value == entries[key]
    {
      if key in entries then Some(entries[key]) else None
    }

    /** `params.set(key, value)` */
    method Set(key: string, value: string)
      modifies this
      ensures entries == old(entries)[key := value]
    {
      entries := entries[key := value];
    }

    /** `params.delete(key)` */
    method Delete(key: string)
      modifies this
      ensures entries == old(entries) - {key}
    {
      entries := entries - {key};
    }

    /** `${path}?${params.toString()}` */
    function ToUrl(path: string): Url
      reads this
    {
      Url(path, entries)
    }
  }

  /** `searchParams.get(key) || fallback`: a missing or empty value gives the fallback. */
  function GetOr(query: map<string, string>, key: string, fallback: string): (r: string)
    ensures key in query && query[key] != "" ==> r == query[key]
    ensures key !in query || query[key] == "" ==> r == fallback
  {
    if key in query && query[key] != "" then query[key] else fallback
  }

  /** The two queries agree on every key outside `keys`. */
  ghost predicate SameOutside(a: map<string, string>, b: map<string, string>, keys: set<string>) {
    forall k :: k !in keys ==> (k in a <==> k in b) && (k in a ==> a[k] == b[k])
  }

  /** Setting two different keys gives them their values and keeps every other key. */
  lemma SetTwo(m: map<string, string>, k1: string, v1: string, k2: string, v2: string)
    requires k1 != k2
    ensures var r := m[k1 := v1][k2 := v2];
      k1 in r && r[k1] == v1 && k2 in r && r[k2] == v2 && SameOutside(m, r, {k1, k2})
  {
  }

  /** Deleting two keys removes them and keeps every other key. */
  lemma DeleteTwo(m: map<string, string>, k1: string, k2: string)
    ensures var r := m - {k1} - {k2};
      k1 !in r && k2 !in r && SameOutside(m, r, {k1, k2})
  {
  }
}
