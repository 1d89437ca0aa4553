/**
 * The integer arithmetic of the paginator (paginate.go): the page count as a
 * ceiling division capped by `LastPage`, and the clamping of the requested
 * page number into range.
 *
 * Go computes the ceiling as `math.Ceil(float64(total) / float64(perPage))`
 * and the cap with `math.Min` on float64; here both are exact integer
 * operations, which agree with the float computation whenever the operands
 * are below 2^53 in magnitude.
 */
module PageMath {

  /** The page size used when neither the caller nor the request gives a positive one. */
  const DefaultPerPage: int := 25

  function Max(a: int, b: int): int {
    if a >= b then a else b
  }

  function Min(a: int, b: int): int {
    if a <= b then a else b
  }

  /** The ceiling of a / b for a positive divisor and any dividend, negative ones included. */
  function CeilDiv(a: int, b: int): (q: int)
    requires b > 0
    ensures b * (q - 1) < a <= b * q
  {
    var q := (a + b - 1) / b;
    assert b * q <= a + b - 1 < b * q + b;
    q
  }

  /** A ceiling quotient is zero exactly for the dividends in (-b, 0], and positive for positive ones. */
  lemma CeilDivSign(a: int, b: int)
    requires b > 0
    ensures a > 0 ==> CeilDiv(a, b) >= 1
    ensures a >= 0 ==> CeilDiv(a, b) >= 0
    ensures CeilDiv(a, b) == 0 <==> -b < a <= 0
  {
  }

  /**
   * The number of pages (PageNums in paginate.go): enough pages of `perPage`
   * items to hold `total` items, capped at `lastPage` when that is positive.
   */
  function PageCount(total: int, perPage: int, lastPage: int): int
    requires perPage > 0
  {
    var pages := CeilDiv(total, perPage);
    if lastPage > 0 then Min(pages, lastPage) else pages
  }

  /**
   * The page count never exceeds a positive `lastPage`; without an effective
   * cap it is exactly the number of pages that hold all items with no empty
   * page at the end, and when the cap bites it is `lastPage`; an empty
   * collection has no pages.
   */
  lemma PageCountSpec(total: int, perPage: int, lastPage: int)
    requires perPage > 0
    ensures lastPage > 0 ==> PageCount(total, perPage, lastPage) <= lastPage
    ensures total >= 0 ==> PageCount(total, perPage, lastPage) >= 0
    ensures total == 0 ==> PageCount(total, perPage, lastPage) == 0
    ensures lastPage <= 0 || lastPage >= CeilDiv(total, perPage) ==>
              var n := PageCount(total, perPage, lastPage);
              perPage * (n - 1) < total <= perPage * n
    ensures 0 < lastPage < CeilDiv(total, perPage) ==> PageCount(total, perPage, lastPage) == lastPage
  {
  }

  /**
   * Setting `lastPage` to the uncapped page count, as SetTotal does, makes
   * the cap in PageCount a no-op.
   */
  lemma PageCountSelfCapped(total: int, perPage: int)
    requires perPage > 0
    ensures PageCount(total, perPage, CeilDiv(total, perPage)) == CeilDiv(total, perPage)
  {
  }

  /**
   * The page that Page() settles on: the requested number, lowered to the page
   * count when it is above it, and raised to 1 when the result is not positive.
   */
  function ClampPage(requested: int, pageNums: int): (p: int)
    ensures 1 <= p <= Max(1, pageNums)
    ensures 1 <= requested <= pageNums ==> p == requested
    ensures 1 <= pageNums < requested ==> p == pageNums
    ensures requested <= 0 || pageNums <= 0 ==> p == 1
  {
    var p := if requested > pageNums then pageNums else requested;
    if p <= 0 then 1 else p
  }
}
