/**
 * Worked examples: requests and totals for which the verifier establishes
 * the full paginator state that NewPaginator produces.
 */
module PaginateScenarios {
  import opened UrlValues
  import opened Paginate

  /** `/items?tag=a` with 100 items: 4 pages of 25, on page 1. */
  method FirstPageOfFour() {
    var q: Query := map["tag" := ["a"]];
    var p := NewPaginator(Request("/items", q), Number(100));
    assert Get(q, PerPageParam) == "" && Get(q, PageParam) == "";
    assert p.PerPage == 25 && p.pageNums == 4 && p.page == 1;
    var offset := p.Offset();
    assert offset == 0 && p.Limit() == 25;
    assert p.First == Url("/items", q);
    assert p.Prev == NoLink;
    assert p.Next == Url("/items", q[PageParam := ["2"]]);
    assert p.Last == Url("/items", q[PageParam := ["4"]]);
  }

  /** `/items?page=3` with 100 items: page 3 of 4. */
  method MiddlePage() {
    var q: Query := map["page" := ["3"]];
    var p := NewPaginator(Request("/items", q), Number(100));
    assert Get(q, PageParam) == "3";
    assert p.pageNums == 4 && p.page == 3;
    var offset := p.Offset();
    assert offset == 50;
    assert p.Prev == Url("/items", map[PageParam := ["2"]]);
    assert p.Next == Url("/items", map[PageParam := ["4"]]);
    assert p.Last == Url("/items", map[PageParam := ["4"]]);
  }

  /** `/items?page=99` with 100 items: clamped to the last page, so no next link. */
  method PageBeyondTheEnd() {
    var q: Query := map["page" := ["99"]];
    var p := NewPaginator(Request("/items", q), Number(100));
    assert Get(q, PageParam) == "99";
    assert p.page == 4;
    assert p.Next == NoLink;
    assert p.Prev == Url("/items", map[PageParam := ["3"]]);
  }

  /** `/items?page=-5` with 10 items: one page, so first and last are the same link. */
  method NegativePageSinglePage() {
    var q: Query := map["page" := ["-5"]];
    var p := NewPaginator(Request("/items", q), Number(10));
    assert Get(q, PageParam) == "-5";
    assert p.page == 1 && p.pageNums == 1;
    var many := p.HasPages();
    assert !many;
    assert p.First == Url("/items", map[]) && p.Last == p.First;
    assert p.Next == NoLink && p.Prev == NoLink;
  }

  /** No items: page 1 of 0 and no links at all. */
  method EmptyCollection() {
    var q: Query := map["page" := ["2"]];
    var p := NewPaginator(Request("/items", q), NotANumber);
    assert p.pageNums == 0 && p.page == 1;
    assert p.First == NoLink && p.Prev == NoLink && p.Next == NoLink && p.Last == NoLink;
  }

  /**
   * `/items?page=2&per_page=abc` with a counter reporting 50: the malformed
   * page size falls back to 25, and the other parameter survives in the links.
   */
  method MalformedPerPage() {
    var q: Query := map["page" := ["2"], "per_page" := ["abc"]];
    var p := NewPaginator(Request("/items", q), Totaler(50));
    assert Get(q, PerPageParam) == "abc" && Get(q, PageParam) == "2";
    assert p.PerPage == 25 && p.pageNums == 2 && p.page == 2;
    assert p.Next == NoLink;
    assert p.Prev == Url("/items", map["per_page" := ["abc"]]);
  }

  /**
   * SetTotal after the page count has been cached: LastPage follows the new
   * total, but PageNums() keeps returning the cached count.
   */
  method SecondSetTotalLeavesCacheStale() {
    var q: Query := map[];
    var p := NewPaginator(Request("/items", q), Number(100));
    assert p.pageNums == 4;
    p.SetTotal(Number(10));
    assert p.LastPage == 1;
    var pages := p.PageNums();
    assert pages == 4;
  }
}
