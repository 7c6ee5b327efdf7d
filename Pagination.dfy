/**
 * The pagination bar of the patient list: the window of page links with ellipses, the
 * guard on page changes, and the URL of a page, which only sets `page`.
 */
module Pagination {
  import opened Optional
  import opened Text
  import opened UrlParams

  /** An entry of the bar: a page link or an ellipsis. */
  datatype PageItem = Num(n: int) | Ellipsis

  const MaxVisiblePages := 5

  /** The links `lo, lo + 1, ..., hi` (none when `hi < lo`). */
  function Range(lo: int, hi: int): (r: seq<PageItem>)
    ensures |r| == if hi < lo then 0 else hi - lo + 1
    ensures forall i :: 0 <= i < |r| ==> r[i] == Num(lo + i)
    decreases hi - lo
  {
    if hi < lo then [] else Range(lo, hi - 1) + [Num(hi)]
  }

  /**
   * The bar for page `c` of `t`: every page when there are at most five; otherwise the
   * first four, the last four, or the current page with its neighbours, with ellipses
   * standing for the pages left out.
   */
  function Window(c: int, t: int): seq<PageItem> {
    if t <= MaxVisiblePages then Range(1, t)
    else if c <= 3 then Range(1, 4) + [Ellipsis, Num(t)]
    else if c >= t - 2 then [Num(1), Ellipsis] + Range(t - 3, t)
    else [Num(1), Ellipsis] + Range(c - 1, c + 1) + [Ellipsis, Num(t)]
  }

  /** `pageNumbers`: the bar built with the component's loops. */
  method PageNumbers(c: int, t: int) returns (pages: seq<PageItem>)
    ensures pages == Window(c, t)
  {
    pages := [];
    if t <= MaxVisiblePages {
      var i := 1;
      while i <= t
        invariant 1 <= i && (t < 1 ==> i == 1) && (t >= 1 ==> i <= t + 1)
        invariant pages == Range(1, i - 1)
      {
        pages := pages + [Num(i)];
        i := i + 1;
      }
    } else if c <= 3 {
      var i := 1;
      while i <= 4
        invariant 1 <= i <= 5
        invariant pages == Range(1, i - 1)
      {
        pages := pages + [Num(i)];
        i := i + 1;
      }
      pages := pages + [Ellipsis];
      pages := pages + [Num(t)];
    } else if c >= t - 2 {
      pages := pages + [Num(1)];
      pages := pages + [Ellipsis];
      var i := t - 3;
      while i <= t
        invariant t - 3 <= i <= t + 1
        invariant pages == [Num(1), Ellipsis] + Range(t - 3, i - 1)
      {
        pages := pages + [Num(i)];
        i := i + 1;
      }
    } else {
      pages := pages + [Num(1)];
      pages := pages + [Ellipsis];
      var i := c - 1;
      while i <= c + 1
        invariant c - 1 <= i <= c + 2
        invariant pages == [Num(1), Ellipsis] + Range(c - 1, i - 1)
      {
        pages := pages + [Num(i)];
        i := i + 1;
      }
      pages := pages + [Ellipsis];
      pages := pages + [Num(t)];
    }
  }

  /** The page numbers of the bar strictly increase from left to right. */
  predicate Increasing(ps: seq<PageItem>) {
    forall i, j :: 0 <= i < j < |ps| && ps[i].Num? && ps[j].Num? ==> ps[i].n < ps[j].n
  }

  /** Every page number of the bar is a page that exists. */
  predicate WithinPages(ps: seq<PageItem>, t: int) {
    forall i :: 0 <= i < |ps| && ps[i].Num? ==> 1 <= ps[i].n <= t
  }

  /** Every ellipsis stands between two page numbers, and at least one page is left out there. */
  predicate EllipsesSkip(ps: seq<PageItem>) {
    forall i :: 0 <= i < |ps| && ps[i].Ellipsis? ==>
      0 < i < |ps| - 1 && ps[i - 1].Num? && ps[i + 1].Num? && ps[i + 1].n - ps[i - 1].n >= 2
  }

  /** There is no ellipsis. */
  predicate NoEllipsis(ps: seq<PageItem>) {
    forall i :: 0 <= i < |ps| ==> ps[i].Num?
  }

  /** The numbers are increasing, within the pages, and the bar has at most seven entries, from 1 to `t`. */
  lemma WindowOrderedAndBounded(c: int, t: int)
    ensures Increasing(Window(c, t)) && WithinPages(Window(c, t), t)
    ensures |Window(c, t)| <= 7
    ensures t >= 1 ==> |Window(c, t)| > 0 && Window(c, t)[0] == Num(1) && Window(c, t)[|Window(c, t)| - 1] == Num(t)
  {
    var w := Window(c, t);
    if t > MaxVisiblePages && c > 3 && c < t - 2 {
      assert w[2] == Num(c - 1) && w[3] == Num(c) && w[4] == Num(c + 1);
    }
  }

  /** At most five pages give the plain list; more pages give ellipses that each leave out a page. */
  lemma WindowEllipses(c: int, t: int)
    ensures t <= MaxVisiblePages ==> NoEllipsis(Window(c, t)) && Window(c, t) == Range(1, t)
    ensures EllipsesSkip(Window(c, t))
    ensures t > MaxVisiblePages ==> !NoEllipsis(Window(c, t))
  {
    if t > MaxVisiblePages {
      if c <= 3 {
        FirstPagesEllipsis(t);
      } else if c >= t - 2 {
        LastPagesEllipsis(t);
      } else {
        MiddlePagesEllipses(c, t);
      }
    }
  }

  lemma FirstPagesEllipsis(t: int)
    requires t > MaxVisiblePages
    ensures var w := Range(1, 4) + [Ellipsis, Num(t)]; EllipsesSkip(w) && !NoEllipsis(w)
  {
    var w := Range(1, 4) + [Ellipsis, Num(t)];
    assert w == [Num(1), Num(2), Num(3), Num(4), Ellipsis, Num(t)];
    assert !w[4].Num?;
  }

  lemma LastPagesEllipsis(t: int)
    requires t > MaxVisiblePages
    ensures var w := [Num(1), Ellipsis] + Range(t - 3, t); EllipsesSkip(w) && !NoEllipsis(w)
  {
    var w := [Num(1), Ellipsis] + Range(t - 3, t);
    assert w == [Num(1), Ellipsis, Num(t - 3), Num(t - 2), Num(t - 1), Num(t)];
    assert !w[1].Num?;
  }

  lemma MiddlePagesEllipses(c: int, t: int)
    requires t > MaxVisiblePages && 3 < c < t - 2
    ensures var w := [Num(1), Ellipsis] + Range(c - 1, c + 1) + [Ellipsis, Num(t)]; EllipsesSkip(w) && !NoEllipsis(w)
  {
    var w := [Num(1), Ellipsis] + Range(c - 1, c + 1) + [Ellipsis, Num(t)];
    assert w == [Num(1), Ellipsis, Num(c - 1), Num(c), Num(c + 1), Ellipsis, Num(t)];
    assert !w[1].Num?;
  }

  /** The current page, when it exists, is always one of the links. */
  lemma WindowShowsCurrent(c: int, t: int)
    requires 1 <= c <= t
    ensures exists i :: 0 <= i < |Window(c, t)| && Window(c, t)[i] == Num(c)
  {
    var w := Window(c, t);
    if t <= MaxVisiblePages {
      assert w[c - 1] == Num(c);
    } else if c <= 3 {
      assert w[c - 1] == Num(c);
    } else if c >= t - 2 {
      assert w[2 + c - (t - 3)] == Num(c);
    } else {
      assert w[3] == Num(c);
    }
  }

  /** `createPageURL(p)`: the current query with `page` set to `p`. */
  method CreatePageURL(current: map<string, string>, p: int) returns (u: Url)
    ensures u.path == "/pacientes"
    ensures "page" in u.query && u.query["page"] == IntToString(p)
    ensures SameOutside(current, u.query, {"page"})
  {
    var params := new SearchParams(current);
    params.Set("page", IntToString(p));
    u := params.ToUrl("/pacientes");
  }

  /** `handlePageChange(p)`: navigate only to a page that exists. */
  method HandlePageChange(current: map<string, string>, p: int, t: int) returns (target: Option<Url>)
    ensures target.Some? <==> 1 <= p <= t
    ensures target.Some? ==> target.value.path == "/pacientes" && "page" in target.value.query
                             && target.value.query["page"] == IntToString(p)
                             && SameOutside(current, target.value.query, {"page"})
  {
    if p >= 1 && p <= t {
      var u := CreatePageURL(current, p);
      target := Some(u);
    } else {
      target := None;
    }
  }

  /** The page number written into the URL reads back, with `parseInt`, as the same page. */
  lemma PageParamRoundTrip(p: int)
    requires p >= 1
    ensures ParseInt(IntToString(p)) == Some(p)
  {
    ParseIntDigits(NatToString(p));
    DigitsRoundTrip(p);
  }

  /** The bar, or nothing when there is at most one page. */
  function Controls(c: int, t: int): (r: Option<seq<PageItem>>)
    ensures r.None? <==> t <= 1
    ensures r.Some? ==> |r.value| >= 2 && r.value[0] == Num(1) && r.value[|r.value| - 1] == Num(t)
  {
    WindowOrderedAndBounded(c, t);
    if t <= 1 then None else Some(Window(c, t))
  }
}
