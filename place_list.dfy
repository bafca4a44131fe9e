/**
 * The paging state of the admin place list (src/components/Place/List.tsx):
 * the search text, the category and region selections and the zero-based
 * page, plus the total the last list query reported. Changing a filter goes
 * back to the first page; Previous and Next move one page within bounds.
 */
module AdminList {
  import opened Common
  import opened JsText
  import PlaceActions

  /** Rows per page, fixed by the view. */
  const PageSize: nat := 10

  /** `Math.ceil(total / PAGE_SIZE)`: the fewest pages that hold `total` rows. */
  function TotalPages(total: nat): (n: nat)
    ensures n * PageSize >= total
    ensures n > 0 ==> (n - 1) * PageSize < total
    ensures n == 0 <==> total == 0
  {
    (total + PageSize - 1) / PageSize
  }

  /** The page "Previous" moves to: `Math.max(0, p - 1)`. */
  function PreviousPage(p: int): int {
    if p - 1 > 0 then p - 1 else 0
  }

  /** The page "Next" moves to: `p + 1 < totalPages ? p + 1 : p`. */
  function NextPage(p: int, totalPages: nat): int {
    if p + 1 < totalPages then p + 1 else p
  }

  /** "Previous" is disabled on the first page, and while a query is loading. */
  predicate PreviousDisabled(page: int, loading: bool) {
    page == 0 || loading
  }

  /** "Next" is disabled on the last page (or when there is none), and while a query is loading. */
  predicate NextDisabled(page: int, totalPages: nat, loading: bool) {
    page + 1 >= totalPages || loading
  }

  /** The denominator of the `page + 1 / n` label: `Math.max(1, totalPages)`. */
  function LabelPages(totalPages: nat): (n: nat)
    ensures n >= 1 && n >= totalPages
    ensures totalPages > 0 ==> n == totalPages
  {
    if totalPages > 1 then totalPages else 1
  }

  /** Once loaded, "Previous" is disabled exactly when pressing it would change nothing. */
  lemma PreviousDisabledIffStays(page: nat)
    ensures PreviousDisabled(page, false) <==> PreviousPage(page) == page
    ensures PreviousPage(page) >= 0 && PreviousPage(page) <= page
  {
  }

  /** Once loaded, "Next" is disabled exactly when pressing it would change nothing. */
  lemma NextDisabledIffStays(page: nat, totalPages: nat)
    ensures NextDisabled(page, totalPages, false) <==> NextPage(page, totalPages) == page
    ensures page <= NextPage(page, totalPages) <= page + 1
  {
  }

  /** Both moves keep the page on the label's range `[0, max(1, totalPages))`. */
  lemma MovesStayInRange(page: int, totalPages: nat)
    requires 0 <= page < LabelPages(totalPages)
    ensures 0 <= PreviousPage(page) < LabelPages(totalPages)
    ensures 0 <= NextPage(page, totalPages) < LabelPages(totalPages)
  {
  }

  /** Pressing "Next" from the first page `k` times, with no page past the end, reaches page `min(k, totalPages - 1)`. */
  lemma {:induction false} NextReachesLastPage(k: nat, totalPages: nat)
    requires totalPages > 0
    ensures Iterate(k, totalPages) == if k < totalPages then k else totalPages - 1
  {
    if k > 0 {
      NextReachesLastPage(k - 1, totalPages);
    }
  }

  /** The page after pressing "Next" `k` times from the first page. */
  function Iterate(k: nat, totalPages: nat): int {
    if k == 0 then 0 else NextPage(Iterate(k - 1, totalPages), totalPages)
  }

  /** The list query's parameters as the view builds them: the search text is sent under `keyword`. */
  function ParamsAsWritten(keyword: string, category: string, region: string, page: int): map<string, PlaceActions.ParamValue> {
    map["keyword" := PlaceActions.Text(keyword), "category" := PlaceActions.Text(category),
        "region" := PlaceActions.Text(region), "page" := PlaceActions.Number(page),
        "pageSize" := PlaceActions.Number(PageSize)]
  }

  /** The parameters the list action reads: the search text under `q`. */
  function Params(keyword: string, category: string, region: string, page: int): map<string, PlaceActions.ParamValue> {
    map["q" := PlaceActions.Text(keyword), "category" := PlaceActions.Text(category),
        "region" := PlaceActions.Text(region), "page" := PlaceActions.Number(page),
        "pageSize" := PlaceActions.Number(PageSize)]
  }

  /** As written, the list action never sees the search text: its name filter is always off. */
  lemma KeywordNeverReachesQuery(keyword: string, category: string, region: string, page: int)
    ensures PlaceActions.TextParam(ParamsAsWritten(keyword, category, region, page), "q", "") == ""
    ensures PlaceActions.ListFilters(PlaceActions.TextParam(ParamsAsWritten(keyword, category, region, page), "q", ""), category, region)
            == PlaceActions.ListFilters("", category, region)
  {
  }

  /** Under `q`, the search text reaches the query as a name filter, and so do the selections and the page. */
  lemma KeywordReachesQuery(keyword: string, category: string, region: string, page: int)
    ensures var params := Params(keyword, category, region, page);
            && PlaceActions.TextParam(params, "q", "") == keyword
            && PlaceActions.TextParam(params, "category", "") == category
            && PlaceActions.TextParam(params, "region", "") == region
            && PlaceActions.NumberParam(params, "page", 0) == page
            && PlaceActions.NumberParam(params, "pageSize", 10) == PageSize
    ensures Trim(keyword) != "" ==>
              PlaceActions.ListFilters(PlaceActions.TextParam(Params(keyword, category, region, page), "q", ""), category, region)[0]
              == PlaceActions.NameContains("%" + Trim(keyword) + "%")
  {
  }

  class PlaceList {
    var keyword: string
    var category: string
    var region: string
    var page: int
    /** `data?.total ?? 0` of the last list reply. */
    var total: nat

    /** The page is never negative. */
    ghost predicate Valid()
      reads this
    {
      page >= 0
    }

    /** The page lies on the label's range. */
    predicate OnRange()
      reads this
    {
      0 <= page < LabelPages(TotalPages(total))
    }

    constructor ()
      ensures Valid() && OnRange()
      ensures keyword == "" && category == "" && region == "" && page == 0 && total == 0
    {
      keyword, category, region, page, total := "", "", "", 0, 0;
    }

    /**
     * The request the view hands to the list action: the search text travels
     * under `keyword`, so the action's `q` is always empty.
     */
    function QueryParams(): (params: map<string, PlaceActions.ParamValue>)
      reads this
      ensures PlaceActions.TextParam(params, "keyword", "") == keyword
      ensures PlaceActions.TextParam(params, "q", "") == ""
      ensures PlaceActions.TextParam(params, "category", "") == category
      ensures PlaceActions.TextParam(params, "region", "") == region
      ensures PlaceActions.NumberParam(params, "page", 0) == page
      ensures PlaceActions.NumberParam(params, "pageSize", 10) == PageSize
    {
      ParamsAsWritten(keyword, category, region, page)
    }

    method SetKeyword(v: string)
      modifies this
      ensures keyword == v && page == 0
      ensures category == old(category) && region == old(region) && total == old(total)
      ensures Valid() && OnRange()
    {
      keyword, page := v, 0;
    }

    method SetCategory(v: string)
      modifies this
      ensures category == v && page == 0
      ensures keyword == old(keyword) && region == old(region) && total == old(total)
      ensures Valid() && OnRange()
    {
      category, page := v, 0;
    }

    method SetRegion(v: string)
      modifies this
      ensures region == v && page == 0
      ensures keyword == old(keyword) && category == old(category) && total == old(total)
      ensures Valid() && OnRange()
    {
      region, page := v, 0;
    }

    /** A list reply arrived: `total` is its count, or 0 when it carries none. */
    method Loaded(reported: Option<nat>)
      modifies this
      ensures total == reported.GetOr(0)
      ensures keyword == old(keyword) && category == old(category) && region == old(region) && page == old(page)
    {
      total := reported.GetOr(0);
    }

    method Previous()
      requires Valid()
      modifies this
      ensures page == PreviousPage(old(page))
      ensures keyword == old(keyword) && category == old(category) && region == old(region) && total == old(total)
      ensures Valid() && (old(OnRange()) ==> OnRange())
    {
      page := if page - 1 > 0 then page - 1 else 0;
    }

    method Next()
      requires Valid()
      modifies this
      ensures page == NextPage(old(page), TotalPages(total))
      ensures keyword == old(keyword) && category == old(category) && region == old(region) && total == old(total)
      ensures Valid() && (old(OnRange()) ==> OnRange())
    {
      if page + 1 < TotalPages(total) {
        page := page + 1;
      }
    }
  }
}
