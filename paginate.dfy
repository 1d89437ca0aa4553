/**
 * The Paginator of paginate.go and helpers.go: per-request pagination state
 * derived from the request's `page` and `per_page` query parameters and a
 * total item count, with lazily memoised page number and page count, and the
 * four sibling links (first, previous, next, last).
 */
module Paginate {
  import opened Strconv
  import opened UrlValues
  import opened PageMath

  /** The query parameter that carries the page number, read and written. */
  const PageParam: string := "page"

  /** The query parameter that carries the page size. */
  const PerPageParam: string := "per_page"

  /**
   * What the paginator uses of an HTTP request: its URL without the query,
   * kept opaque, and the parsed query.
   */
  datatype Request = Request(base: string, query: Query)

  /**
   * A generated link: the request URL with a rewritten query. NoLink stands
   * for the empty string, which the paginator uses for "no such link".
   */
  datatype Link = NoLink | Url(base: string, query: Query)

  /** The `total` argument of SetTotal and NewPaginator, one case per branch it accepts. */
  datatype TotalSource =
    | Totaler(total: int)  // a value with a `Total() int` method
    | Number(n: int)       // an integer value, converted to int64
    | NotANumber           // anything the conversion rejects

  /** The item count SetTotal takes from its argument. */
  function ItemCount(nums: TotalSource): int {
    match nums
    case Totaler(t) => t
    case Number(n) => n
    case NotANumber => 0
  }

  /** The query of the link to `page` (helpers.go PageLink). */
  function PageQuery(q: Query, page: int): Query {
    if page == 1 then Del(q, PageParam) else Set(q, PageParam, Itoa(page))
  }

  /** The link to `page`: the request URL with its query rewritten by PageQuery. */
  function LinkTo(r: Request, page: int): Link {
    Url(r.base, PageQuery(r.query, page))
  }

  /** The link to page 1 carries no page parameter at all. */
  lemma PageQueryFirst(q: Query)
    ensures PageParam !in PageQuery(q, 1)
    ensures Get(PageQuery(q, 1), PageParam) == ""
  {
  }

  /**
   * The link to any other page carries exactly one page value, the canonical
   * decimal form of the page number (no leading zeros).
   */
  lemma PageQueryOther(q: Query, page: int)
    requires page != 1
    ensures PageParam in PageQuery(q, page)
    ensures PageQuery(q, page)[PageParam] == [Itoa(page)]
    ensures CanonicalInt(PageQuery(q, page)[PageParam][0])
  {
    ItoaCanonical(page);
  }

  /** Rewriting the page parameter keeps every other key with all its values. */
  lemma PageQueryKeepsOthers(q: Query, page: int)
    ensures PageQuery(q, page) - {PageParam} == q - {PageParam}
  {
  }

  /**
   * Round trip: reading the page parameter of the link to `page` back with
   * Atoi gives `page`, except for page 1, whose link has no parameter and so
   * reads as 0 (which Page() then raises to 1).
   */
  lemma PageQueryRoundTrip(q: Query, page: int)
    ensures AtoiOrZero(Get(PageQuery(q, page), PageParam)) == if page == 1 then 0 else page
  {
    if page != 1 {
      AtoiItoa(page);
    }
  }

  /**
   * Following a generated link lands on its page: a request for the link to
   * any page in range settles, through the clamping of Page(), on that page.
   */
  lemma FollowingLinkLandsOnPage(r: Request, page: int, pageNums: int)
    requires 1 <= page <= Max(1, pageNums)
    ensures LinkTo(r, page).Url?
    ensures ClampPage(AtoiOrZero(Get(LinkTo(r, page).query, PageParam)), pageNums) == page
  {
    PageQueryRoundTrip(r.query, page);
  }

  class Paginator {
    const request: Request
    var PerPage: int
    var LastPage: int

    var First: Link
    var Next: Link
    var Prev: Link
    var Last: Link

    var totalItems: int
    var pageNums: int  // memoised page count; 0 means not computed
    var page: int      // memoised current page; 0 means not computed

    /** A filled page cache lies in [1, max(1, pageNums)]. */
    ghost predicate CachesWellFormed()
      reads this
    {
      page != 0 ==> 1 <= page <= Max(1, pageNums)
    }

    /** The state every paginator has once its page size is set. */
    ghost predicate Valid()
      reads this
    {
      PerPage >= 1 && CachesWellFormed()
    }

    /** The value PageNums() returns in the current state. */
    function CurrentPageNums(): int
      reads this
      requires PerPage >= 1
    {
      if pageNums != 0 then pageNums else PageCount(totalItems, PerPage, LastPage)
    }

    /** The `page` query parameter as Atoi reads it; 0 when absent or malformed. */
    function RequestedPage(): int {
      AtoiOrZero(Get(request.query, PageParam))
    }

    /** The value Page() returns in the current state. */
    function CurrentPage(): int
      reads this
      requires PerPage >= 1
    {
      if page != 0 then page else ClampPage(RequestedPage(), CurrentPageNums())
    }

    /** The value the pageNums cache holds once Page() has run. */
    function PageNumsAfterPage(): int
      reads this
      requires PerPage >= 1
    {
      if page != 0 then pageNums else CurrentPageNums()
    }

    /** The links SetLinks writes are in place, and the caches it reads are filled. */
    ghost predicate LinksSettled()
      reads this
      requires PerPage >= 1
    {
      && page != 0
      && pageNums == CurrentPageNums()
      && (page > 1 ==> Prev == LinkTo(request, page - 1))
      && (page < pageNums ==> Next == LinkTo(request, page + 1))
      && (pageNums > 0 ==> First == LinkTo(request, 1) && Last == LinkTo(request, pageNums))
    }

    /** The zero value of the struct, holding only the request. */
    constructor (r: Request)
      ensures request == r
      ensures PerPage == 0 && LastPage == 0 && totalItems == 0
      ensures pageNums == 0 && page == 0
      ensures First == NoLink && Next == NoLink && Prev == NoLink && Last == NoLink
      ensures CachesWellFormed()
    {
      request := r;
      PerPage, LastPage, totalItems := 0, 0, 0;
      pageNums, page := 0, 0;
      First, Next, Prev, Last := NoLink, NoLink, NoLink, NoLink;
    }

    /**
     * The page size: `n` if positive, else the `per_page` parameter if that
     * parses to a positive number, else the default of 25.
     */
    method SetPerPage(n: int)
      modifies this`PerPage
      ensures PerPage >= 1
      ensures n > 0 ==> PerPage == n
      ensures n <= 0 && AtoiOrZero(Get(request.query, PerPageParam)) > 0 ==>
                PerPage == AtoiOrZero(Get(request.query, PerPageParam))
      ensures n <= 0 && AtoiOrZero(Get(request.query, PerPageParam)) <= 0 ==>
                PerPage == DefaultPerPage
    {
      PerPage := n;
      if PerPage > 0 {
        return;
      }
      PerPage := AtoiOrZero(Get(request.query, PerPageParam));
      if PerPage > 0 {
        return;
      }
      PerPage := DefaultPerPage;
    }

    /** Stores the item count and sets LastPage to the uncapped page count. */
    method SetTotal(nums: TotalSource)
      requires PerPage >= 1
      modifies this`totalItems, this`LastPage
      ensures totalItems == ItemCount(nums)
      ensures LastPage == CeilDiv(totalItems, PerPage)
    {
      match nums {
        case Totaler(t) =>
          totalItems := t;
        case Number(n) =>
          totalItems := n;
        case NotANumber =>
          totalItems := 0;
      }
      LastPage := CeilDiv(totalItems, PerPage);
    }

    /**
     * The page count, memoised: a non-zero cache is returned as it is;
     * otherwise the ceiling of totalItems / PerPage, capped at a positive
     * LastPage, is computed and cached.
     */
    method PageNums() returns (n: int)
      requires PerPage >= 1
      modifies this`pageNums
      ensures n == old(CurrentPageNums()) && pageNums == n
      ensures old(pageNums) != 0 ==> n == old(pageNums) && unchanged(this)
      ensures old(pageNums) == 0 ==> n == PageCount(totalItems, PerPage, LastPage)
      ensures old(CachesWellFormed()) ==> CachesWellFormed()
    {
      if pageNums != 0 {
        return pageNums;
      }
      var pages := CeilDiv(totalItems, PerPage);
      if LastPage > 0 {
        pages := Min(pages, LastPage);
      }
      pageNums := pages;
      return pageNums;
    }

    /** The total number of items, as SetTotal stored it. */
    function Nums(): (n: int)
      reads this
      ensures n == totalItems
    {
      totalItems
    }

    /**
     * The current page, memoised: a non-zero cache is returned as it is;
     * otherwise the `page` parameter is lowered to the page count when above
     * it and raised to 1 when not positive, and cached.
     */
    method Page() returns (r: int)
      requires Valid()
      modifies this`page, this`pageNums
      ensures Valid()
      ensures r == old(CurrentPage()) && page == r
      ensures pageNums == old(PageNumsAfterPage())
      ensures CurrentPageNums() == old(CurrentPageNums())
      ensures 1 <= r <= Max(1, CurrentPageNums())
      ensures old(page) != 0 ==> unchanged(this)
    {
      if page != 0 {
        return page;
      }
      page := RequestedPage();
      var pages := PageNums();
      if page > pages {
        page := PageNums();
      }
      if page <= 0 {
        page := 1;
      }
      return page;
    }

    /** The SQL OFFSET: the number of items on the pages before the current one. */
    method Offset() returns (r: int)
      requires Valid()
      modifies this`page, this`pageNums
      ensures Valid() && page == old(CurrentPage()) && pageNums == old(PageNumsAfterPage())
      ensures r == (page - 1) * PerPage
      ensures r >= 0
    {
      var p := Page();
      r := (p - 1) * PerPage;
    }

    /** The SQL LIMIT: the page size, which is positive on a valid paginator. */
    function Limit(): (r: int)
      reads this
      ensures r == PerPage
      ensures Valid() ==> r >= 1
    {
      PerPage
    }

    /** Whether there is more than one page. */
    method HasPages() returns (b: bool)
      requires Valid()
      modifies this`pageNums
      ensures Valid() && pageNums == old(CurrentPageNums())
      ensures CurrentPageNums() == old(CurrentPageNums())
      ensures b <==> CurrentPageNums() > 1
    {
      var pages := PageNums();
      b := pages > 1;
    }

    /** The request URL with the page parameter set to `n`, or removed for page 1. */
    method PageLink(n: int) returns (link: Link)
      ensures link == LinkTo(request, n)
    {
      var values := request.query;
      if n == 1 {
        values := Del(values, PageParam);
      } else {
        values := Set(values, PageParam, Itoa(n));
      }
      link := Url(request.base, values);
    }

    /** The link to the previous page, or NoLink on the first page. */
    method PageLinkPrev() returns (link: Link)
      requires Valid()
      modifies this`page, this`pageNums
      ensures Valid() && page == old(CurrentPage()) && pageNums == old(PageNumsAfterPage())
      ensures link == if page > 1 then LinkTo(request, page - 1) else NoLink
    {
      link := NoLink;
      var has := HasPrev();
      if has {
        var p := Page();
        link := PageLink(p - 1);
      }
    }

    /** The link to the next page, or NoLink on the last page. */
    method PageLinkNext() returns (link: Link)
      requires Valid()
      modifies this`page, this`pageNums
      ensures Valid() && page == old(CurrentPage()) && pageNums == old(CurrentPageNums())
      ensures link == if page < pageNums then LinkTo(request, page + 1) else NoLink
    {
      link := NoLink;
      var has := HasNext();
      if has {
        var p := Page();
        link := PageLink(p + 1);
      }
    }

    /** The link to the first page, which carries no page parameter. */
    method PageLinkFirst() returns (link: Link)
      ensures link == LinkTo(request, 1)
      ensures link.Url? && PageParam !in link.query
    {
      link := PageLink(1);
    }

    /** The link to the last page; it equals the first-page link when there is one page. */
    method PageLinkLast() returns (link: Link)
      requires Valid()
      modifies this`pageNums
      ensures Valid() && pageNums == old(CurrentPageNums())
      ensures link == LinkTo(request, pageNums)
      ensures pageNums == 1 ==> link == LinkTo(request, 1) && PageParam !in link.query
    {
      var pages := PageNums();
      link := PageLink(pages);
    }

    /** Whether the current page has a predecessor. */
    method HasPrev() returns (b: bool)
      requires Valid()
      modifies this`page, this`pageNums
      ensures Valid() && page == old(CurrentPage()) && pageNums == old(PageNumsAfterPage())
      ensures b <==> page > 1
    {
      var p := Page();
      b := p > 1;
    }

    /** Whether the current page has a successor. */
    method HasNext() returns (b: bool)
      requires Valid()
      modifies this`page, this`pageNums
      ensures Valid() && page == old(CurrentPage()) && pageNums == old(CurrentPageNums())
      ensures b <==> page < pageNums
    {
      var p := Page();
      var pages := PageNums();
      b := p < pages;
    }

    /** Whether `k` is the current page. */
    method IsActive(k: int) returns (b: bool)
      requires Valid()
      modifies this`page, this`pageNums
      ensures Valid() && page == old(CurrentPage()) && pageNums == old(PageNumsAfterPage())
      ensures b <==> page == k
    {
      var p := Page();
      b := p == k;
    }

    /**
     * Caches the sibling links: Prev only when there is a previous page, Next
     * only when there is a next page, First and Last only when there is at
     * least one page; a link not written keeps its value. Once the links are
     * settled, a further call changes nothing.
     */
    method SetLinks()
      requires Valid()
      modifies this`page, this`pageNums, this`Prev, this`Next, this`First, this`Last
      ensures Valid() && page == old(CurrentPage()) && pageNums == old(CurrentPageNums())
      ensures Prev == if page > 1 then LinkTo(request, page - 1) else old(Prev)
      ensures Next == if page < pageNums then LinkTo(request, page + 1) else old(Next)
      ensures First == if pageNums > 0 then LinkTo(request, 1) else old(First)
      ensures Last == if pageNums > 0 then LinkTo(request, pageNums) else old(Last)
      ensures LinksSettled()
      ensures old(LinksSettled()) ==> unchanged(this)
    {
      var hasPrev := HasPrev();
      if hasPrev {
        var link := PageLinkPrev();
        Prev := link;
      }
      var hasNext := HasNext();
      if hasNext {
        var link := PageLinkNext();
        Next := link;
      }
      var pages := PageNums();
      if pages > 0 {
        var first := PageLinkFirst();
        First := first;
        var last := PageLinkLast();
        Last := last;
      }
    }
  }

  /**
   * A paginator for the request: page size from `per_page` or the default,
   * item count from `total`, LastPage the uncapped page count, and the sibling
   * links set. The page count is then the plain ceiling of the item count over
   * the page size, and an empty collection gives page 1 of 0 with no links.
   */
  method NewPaginator(r: Request, total: TotalSource) returns (p: Paginator)
    ensures fresh(p) && p.Valid() && p.request == r
    ensures var perPage := AtoiOrZero(Get(r.query, PerPageParam));
            p.PerPage == if perPage > 0 then perPage else DefaultPerPage
    ensures p.totalItems == ItemCount(total)
    ensures p.LastPage == CeilDiv(p.totalItems, p.PerPage)
    ensures p.pageNums == p.LastPage && p.pageNums == p.CurrentPageNums()
    ensures p.page == ClampPage(p.RequestedPage(), p.pageNums)
    ensures p.Prev == if p.page > 1 then LinkTo(r, p.page - 1) else NoLink
    ensures p.Next == if p.page < p.pageNums then LinkTo(r, p.page + 1) else NoLink
    ensures p.First == if p.pageNums > 0 then LinkTo(r, 1) else NoLink
    ensures p.Last == if p.pageNums > 0 then LinkTo(r, p.pageNums) else NoLink
    ensures p.totalItems == 0 ==>
              && p.pageNums == 0 && p.page == 1
              && p.Prev == NoLink && p.Next == NoLink && p.First == NoLink && p.Last == NoLink
    ensures p.LinksSettled()
  {
    p := new Paginator(r);
    p.SetPerPage(0);
    p.SetTotal(total);
    PageCountSelfCapped(p.totalItems, p.PerPage);
    CeilDivSign(p.totalItems, p.PerPage);
    p.SetLinks();
  }

  /** Repeated calls of Page() agree, and so do repeated calls of PageNums(). */
  method RepeatedCallsAgree(p: Paginator) returns (page1: int, page2: int, pages1: int, pages2: int)
    requires p.Valid()
    modifies p
    ensures page1 == page2 && pages1 == pages2
  {
    page1 := p.Page();
    page2 := p.Page();
    pages1 := p.PageNums();
    pages2 := p.PageNums();
  }
}
