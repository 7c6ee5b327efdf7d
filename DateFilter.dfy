/**
 * The date-range filter of the home page: two date pickers, whose selections are written
 * into the `startDate` and `endDate` query parameters as `yyyy-MM-dd`.
 */
module DateFilter {
  import opened Optional
  import opened Calendar
  import opened UrlParams

  /**
   * A day the calendar refuses: before the lower bound or after the upper bound, when
   * these are set.
   */
  predicate DayDisabled(d: Date, minDate: Option<Date>, maxDate: Option<Date>) {
    (minDate.Some? && !OnOrBefore(minDate.value, d)) || (maxDate.Some? && !OnOrBefore(d, maxDate.value))
  }

  class DateFilter {
    /** The query of the page the filter sits on. */
    const searchParams: map<string, string>
    var startDate: Option<Date>
    var endDate: Option<Date>

    /**
     * The pickers start from the parameters; `toDate` stands for `new Date(param)`, which
     * is not modelled.
     */
    constructor (searchParams: map<string, string>, toDate: string -> Date)
      ensures this.searchParams == searchParams
      ensures startDate == if GetOr(searchParams, "startDate", "") != "" then Some(toDate(searchParams["startDate"])) else None
      ensures endDate == if GetOr(searchParams, "endDate", "") != "" then Some(toDate(searchParams["endDate"])) else None
    {
      this.searchParams := searchParams;
      var startDateParam := GetOr(searchParams, "startDate", "");
      var endDateParam := GetOr(searchParams, "endDate", "");
      startDate := if startDateParam != "" then Some(toDate(startDateParam)) else None;
      endDate := if endDateParam != "" then Some(toDate(endDateParam)) else None;
    }

    /** The start picker's `onDateChange`. */
    method SetStartDate(d: Option<Date>)
      modifies this
      ensures startDate == d && endDate == old(endDate)
    {
      startDate := d;
    }

    /** The end picker's `onDateChange`. */
    method SetEndDate(d: Option<Date>)
      modifies this
      ensures endDate == d && startDate == old(startDate)
    {
      endDate := d;
    }

    /** A day the start picker refuses: its upper bound is the chosen end date. */
    predicate StartDayDisabled(d: Date)
      reads this
    {
      DayDisabled(d, None, endDate)
    }

    /** A day the end picker refuses: its lower bound is the chosen start date. */
    predicate EndDayDisabled(d: Date)
      reads this
    {
      DayDisabled(d, startDate, None)
    }

    /** Whatever either picker accepts keeps the range in order. */
    lemma PickersKeepOrder(d: Date)
      ensures endDate.Some? && !StartDayDisabled(d) ==> OnOrBefore(d, endDate.value)
      ensures startDate.Some? && !EndDayDisabled(d) ==> OnOrBefore(startDate.value, d)
      ensures startDate.None? && endDate.None? ==> !StartDayDisabled(d) && !EndDayDisabled(d)
    {
    }

    /**
     * `applyFilter`: nothing unless both dates are chosen; then both parameters are set as
     * `yyyy-MM-dd` and the others kept.
     */
    method ApplyFilter() returns (target: Option<Url>)
      ensures target.Some? <==> startDate.Some? && endDate.Some?
      ensures target.Some? <==> !ApplyDisabled(false)
      ensures target.Some? ==> target.value.path == "/"
      ensures target.Some? ==> "startDate" in target.value.query && target.value.query["startDate"] == FormatIso(startDate.value)
      ensures target.Some? ==> "endDate" in target.value.query && target.value.query["endDate"] == FormatIso(endDate.value)
      ensures target.Some? ==> SameOutside(searchParams, target.value.query, {"startDate", "endDate"})
    {
      assert !ApplyDisabled(false) <==> startDate.Some? && endDate.Some?;
      if startDate.Some? && endDate.Some? {
        var s, e := FormatIso(startDate.value), FormatIso(endDate.value);
        var params := new SearchParams(searchParams);
        params.Set("startDate", s);
        params.Set("endDate", e);
        SetTwo(searchParams, "startDate", s, "endDate", e);
        target := Some(params.ToUrl("/"));
      } else {
        target := None;
      }
    }

    /** `clearFilter`: both pickers are emptied and both parameters removed; the others stay. */
    method ClearFilter() returns (u: Url)
      modifies this
      ensures startDate.None? && endDate.None?
      ensures u.path == "/"
      ensures "startDate" !in u.query && "endDate" !in u.query
      ensures SameOutside(searchParams, u.query, {"startDate", "endDate"})
    {
      startDate := None;
      endDate := None;
      var params := new SearchParams(searchParams);
      params.Delete("startDate");
      params.Delete("endDate");
      DeleteTwo(searchParams, "startDate", "endDate");
      u := params.ToUrl("/");
    }

    /** The apply button is disabled until both dates are chosen, and while a navigation is pending. */
    predicate ApplyDisabled(isPending: bool)
      reads this
    {
      startDate.None? || endDate.None? || isPending
    }

    /** The clear button is disabled while pending and when neither parameter is present. */
    predicate ClearDisabled(isPending: bool)
      reads this
    {
      isPending || (GetOr(searchParams, "startDate", "") == "" && GetOr(searchParams, "endDate", "") == "")
    }

    /**
     * Outside a navigation, the clear button is enabled exactly when clearing removes a
     * non-empty date parameter: when it is disabled, every date parameter it would delete
     * is empty.
     */
    lemma ClearEnabledIff()
      ensures !ClearDisabled(false) <==>
                exists k :: k in {"startDate", "endDate"} && k in searchParams && searchParams[k] != ""
    {
      if !ClearDisabled(false) {
        if GetOr(searchParams, "startDate", "") != "" {
          assert "startDate" in {"startDate", "endDate"};
        } else {
          assert "endDate" in {"startDate", "endDate"};
        }
      }
    }
  }
}
