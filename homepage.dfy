/**
 * The campaign list page: the status shown for each campaign, the pagination state the
 * handlers update, and the arithmetic of the page-range text and the two buttons.
 */
module HomePage {
  import opened Wrappers
  import opened Js
  import SpentCalculator
  import Models
  import CampaignQuery
  import CampaignController

  datatype Status = Planned | Active | Completed

  /**
   * `getStatusByDate(startDate, endDate)` on the day `today`; a date that does not parse
   * (None) makes its comparison false.
   */
  function StatusByDate(today: int, start: Option<int>, end: Option<int>): (s: Status)
    ensures s == Planned <==> DateAfter(start, Some(today))
    ensures s == Completed <==> !DateAfter(start, Some(today)) && DateAfter(Some(today), end)
    ensures s == Active <==> !DateAfter(start, Some(today)) && !DateAfter(Some(today), end)
  {
    if DateAfter(start, Some(today)) then Planned
    else if DateAfter(Some(today), end) then Completed
    else Active
  }

  /** `status.text`. */
  function StatusText(s: Status): (t: string)
    ensures t in {"PLANNED", "ACTIVE", "COMPLETED"}
    ensures s == Planned <==> t == "PLANNED"
    ensures s == Active <==> t == "ACTIVE"
    ensures s == Completed <==> t == "COMPLETED"
  {
    match s
    case Planned => "PLANNED"
    case Active => "ACTIVE"
    case Completed => "COMPLETED"
  }

  /**
   * The page and the spend calculator classify a campaign alike: a planned campaign has
   * spent nothing, a completed one its whole budget, and an active one is in the branch
   * that spends in proportion to the days passed.
   */
  lemma StatusAgreesWithSpent(budget: real, start: int, end: int, today: int)
    requires start < end
    ensures StatusByDate(today, Some(start), Some(end)) == Planned ==>
      SpentCalculator.CalculateSpent(budget, start, end, today) == Some(0.0)
    ensures StatusByDate(today, Some(start), Some(end)) == Completed ==>
      SpentCalculator.CalculateSpent(budget, start, end, today) == Some(budget)
    ensures StatusByDate(today, Some(start), Some(end)) == Active <==> start <= today <= end
  {
    SpentCalculator.SpentCases(budget, start, end, today);
  }

  datatype Pagination = Pagination(page: int, limit: int, total: int, totalPages: int)

  /** `Math.ceil(total / limit)` for a positive limit. */
  function TotalPages(total: nat, limit: int): (n: nat)
    requires limit >= 1
    ensures (n - 1) * limit < total <= n * limit || (total == 0 && n == 0)
    ensures total > 0 ==> n >= 1
  {
    (total + limit - 1) / limit
  }

  /** The first entry number in "Showing a to b of total entries". */
  function ShowingFrom(p: Pagination): int
  {
    (p.page - 1) * p.limit + 1
  }

  /** The last entry number: `Math.min(page * limit, total)`. */
  function ShowingTo(p: Pagination): (r: int)
    ensures r <= p.total && r <= p.page * p.limit
    ensures r == p.total || r == p.page * p.limit
  {
    if p.page * p.limit < p.total then p.page * p.limit else p.total
  }

  predicate PreviousDisabled(p: Pagination)
  {
    p.page == 1
  }

  predicate NextDisabled(p: Pagination)
  {
    p.page == p.totalPages
  }

  /**
   * On a page from 1 to the last, an enabled Previous or Next button leads to a page that
   * exists, and Next is disabled exactly when the page shows the last entry.
   */
  lemma PageButtonsStayInRange(p: Pagination)
    requires p.limit >= 1 && p.total >= 0 && p.totalPages == TotalPages(p.total, p.limit)
    requires 1 <= p.page <= p.totalPages
    ensures !PreviousDisabled(p) ==> 1 <= p.page - 1
    ensures !NextDisabled(p) ==> p.page + 1 <= p.totalPages
    ensures NextDisabled(p) <==> ShowingTo(p) == p.total
  {
    if p.page < p.totalPages {
      MulLe(p.page, p.totalPages - 1, p.limit);
    } else {
      RangeWithinPages(p);
    }
  }

  lemma MulLe(a: int, b: int, c: int)
    requires a <= b && c >= 0
    ensures a * c <= b * c
  {
  }

  /**
   * On any page from 1 to the last, the range text is a non-empty stretch of at most `limit`
   * entries within the total; it is exactly `limit` long except on the last page, which ends
   * at the total.
   */
  lemma RangeWithinPages(p: Pagination)
    requires p.limit >= 1 && p.total >= 0 && p.totalPages == TotalPages(p.total, p.limit)
    requires 1 <= p.page <= p.totalPages
    ensures 1 <= ShowingFrom(p) <= ShowingTo(p) <= p.total
    ensures ShowingTo(p) - ShowingFrom(p) + 1 <= p.limit
    ensures p.page < p.totalPages ==> ShowingTo(p) - ShowingFrom(p) + 1 == p.limit
    ensures p.page == p.totalPages ==> ShowingTo(p) == p.total
  {
    var n := p.totalPages;
    MulLe(p.page - 1, n - 1, p.limit);
    MulLe(0, p.page - 1, p.limit);
    assert (p.page - 1) * p.limit < p.total;
    assert p.page * p.limit == (p.page - 1) * p.limit + p.limit;
    if p.page < n {
      MulLe(p.page, n - 1, p.limit);
    } else {
      assert p.total <= p.page * p.limit;
    }
  }

  /**
   * The range text counts exactly the campaigns the server returns for that page, whatever
   * order the store picked: with a non-empty page of the matches, the window holds
   * ShowingTo - ShowingFrom + 1 campaigns.
   */
  lemma RangeCountsListing(docs: seq<Models.Campaign>, q: CampaignQuery.Query, order: seq<Models.Campaign>,
                           page: int, limit: int, sortField: string, sortOrder: string, now: int)
    requires page >= 1 && limit >= 1
    requires CampaignQuery.StoreOrder(CampaignQuery.Select(docs, q), order, sortField, CampaignQuery.SortDirection(sortOrder))
    requires CampaignQuery.Skip(page, limit) < |CampaignQuery.Select(docs, q)|
    ensures var l := CampaignQuery.ListPage(order, |CampaignQuery.Select(docs, q)|, page, limit, now).value;
      var p := Pagination(page, limit, l.total, TotalPages(l.total, limit));
      |l.campaigns| == ShowingTo(p) - ShowingFrom(p) + 1
  {
    var matching := CampaignQuery.Select(docs, q);
    var skip := CampaignQuery.Skip(page, limit);
    CampaignQuery.OrderLength(matching, order, sortField, CampaignQuery.SortDirection(sortOrder));
    var w := CampaignQuery.Window(order, skip, limit);
    var l := CampaignQuery.ListPage(order, |matching|, page, limit, now).value;
    assert l.campaigns == CampaignQuery.WithSpent(w, now) && l.total == |matching|;
    ShowingCount(Pagination(page, limit, |matching|, TotalPages(|matching|, limit)), skip, |w|);
  }

  /** The arithmetic of RangeCountsListing: a window of `size` entries after `skip` of `total`. */
  lemma ShowingCount(p: Pagination, skip: int, size: int)
    requires p.page >= 1 && p.limit >= 1 && skip + p.limit == p.page * p.limit && 0 <= skip < p.total
    requires size == if skip + p.limit <= p.total then p.limit else p.total - skip
    ensures size == ShowingTo(p) - ShowingFrom(p) + 1
  {
    assert (p.page - 1) * p.limit == p.page * p.limit - p.limit;
  }

  /** The page's state: the campaigns shown, the three list controls and the pagination record. */
  class Dashboard {
    var campaigns: seq<CampaignQuery.CampaignWithSpent>
    var filter: string
    var sortField: string
    var sortOrder: string
    var pagination: Pagination

    /** The initial state; `perPage` is what was stored from an earlier visit, or 10. */
    constructor (perPage: int)
      ensures campaigns == [] && filter == "" && sortField == "startDate" && sortOrder == "asc"
      ensures pagination == Pagination(1, perPage, 0, 0)
    {
      campaigns := [];
      filter := "";
      sortField := "startDate";
      sortOrder := "asc";
      pagination := Pagination(1, perPage, 0, 0);
    }

    /** The query string `fetchCampaigns` sends. */
    function Request(): (q: CampaignController.ListRequest)
      reads this
      ensures q.page == Some(pagination.page) && q.limit == Some(pagination.limit)
      ensures q.filter == Some(filter) && q.sortField == Some(sortField) && q.sortOrder == Some(sortOrder)
    {
      CampaignController.ListRequest(Some(pagination.page), Some(pagination.limit), Some(filter),
                                     Some(sortField), Some(sortOrder))
    }

    /** `handlePerPageChange`: the new limit, back to page 1; the counts stay until the next fetch. */
    method HandlePerPageChange(newLimit: int)
      modifies this
      ensures pagination == Pagination(1, newLimit, old(pagination.total), old(pagination.totalPages))
      ensures campaigns == old(campaigns) && filter == old(filter)
      ensures sortField == old(sortField) && sortOrder == old(sortOrder)
    {
      pagination := pagination.(limit := newLimit, page := 1);
    }

    /** `handlePageChange`: only the page changes. */
    method HandlePageChange(newPage: int)
      modifies this
      ensures pagination == old(pagination).(page := newPage)
      ensures campaigns == old(campaigns) && filter == old(filter)
      ensures sortField == old(sortField) && sortOrder == old(sortOrder)
    {
      pagination := pagination.(page := newPage);
    }

    /** `handleFilterChange`: the new filter, back to page 1. */
    method HandleFilterChange(value: string)
      modifies this
      ensures filter == value && pagination == old(pagination).(page := 1)
      ensures campaigns == old(campaigns) && sortField == old(sortField) && sortOrder == old(sortOrder)
    {
      filter := value;
      pagination := pagination.(page := 1);
    }

    /** `handleSortChange`: the new sort field, back to page 1. */
    method HandleSortChange(value: string)
      modifies this
      ensures sortField == value && pagination == old(pagination).(page := 1)
      ensures campaigns == old(campaigns) && filter == old(filter) && sortOrder == old(sortOrder)
    {
      sortField := value;
      pagination := pagination.(page := 1);
    }

    /** The sort-order select: only the order changes, the page is kept. */
    method HandleSortOrderChange(value: string)
      modifies this
      ensures sortOrder == value && pagination == old(pagination)
      ensures campaigns == old(campaigns) && filter == old(filter) && sortField == old(sortField)
    {
      sortOrder := value;
    }

    /**
     * What `fetchCampaigns` does with a response: show its campaigns, and only when there are
     * any, take over its total and recompute the number of pages from the limit it echoes.
     */
    method ApplyFetch(response: CampaignQuery.Listing)
      requires response.limit >= 1
      modifies this
      ensures campaigns == response.campaigns
      ensures response.campaigns != [] ==>
        pagination == old(pagination).(total := response.total, totalPages := TotalPages(response.total, response.limit))
      ensures response.campaigns == [] ==> pagination == old(pagination)
      ensures filter == old(filter) && sortField == old(sortField) && sortOrder == old(sortOrder)
    {
      campaigns := response.campaigns;
      if |response.campaigns| > 0 {
        pagination := pagination.(total := response.total, totalPages := TotalPages(response.total, response.limit));
      }
    }
  }

  /**
   * A first fetch that finds nothing leaves `totalPages` at 0, so on page 1 the Next button
   * stays enabled although there is no second page.
   */
  method FirstFetchFindsNothing(perPage: int) returns (d: Dashboard)
    requires perPage >= 1
    ensures d.campaigns == [] && d.pagination == Pagination(1, perPage, 0, 0)
    ensures PreviousDisabled(d.pagination) && !NextDisabled(d.pagination)
  {
    d := new Dashboard(perPage);
    d.ApplyFetch(CampaignQuery.Listing([], 1, perPage, 0));
  }
}
