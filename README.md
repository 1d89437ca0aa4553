# Paginator model

A Dafny model of the `paginate` Go package: the `Paginator` object that is
built once per HTTP request and derives pagination state from the request's
`page` and `per_page` query parameters and a total item count. The model
covers:

- the page size (`SetPerPage`)
- the item count and `LastPage` (`SetTotal`)
- the page count and current page. Both are memoised lazily, with 0 meaning
  "not computed" (`PageNums`, `Page`).
- the SQL offset and limit
- the navigation predicates `HasPrev`, `HasNext`, `IsActive` and `HasPages`
- link generation (`PageLink`, `PageLinkPrev`/`Next`/`First`/`Last`)
- the gated link cache (`SetLinks`)
- the construction sequence (`NewPaginator`)

Layout, one module per concern:

- `strconv.dfy` (`Strconv`): the decimal conversions the package uses. `Atoi`
  reads the parameters and `Itoa` writes page numbers into links. The model
  proves that each undoes the other on canonical strings.
- `urlvalues.dfy` (`UrlValues`): the parsed query as a map from key to its list
  of values, with the `Get`, `Del` and `Set` operations of `url.Values`.
- `pagemath.dfy` (`PageMath`): integer ceiling division, the `LastPage` cap and
  the clamping of the requested page.
- `paginate.dfy` (`Paginate`): the request and link values, the query rewrite
  behind `PageLink`, and the `Paginator` class with its fields, methods and
  constructor sequence.
- `scenarios.dfy` (`PaginateScenarios`): concrete requests for which the
  verifier derives the complete state, including a second `SetTotal` after the
  page count is cached.

A request is reduced to an opaque base URL and its parsed query
(`map<string, seq<string>>`). A link is the base URL with a rewritten query.
The Go empty string, which means "no such link", is the `NoLink` case.
`PageNums()` and `Page()` write their caches the way the Go methods do.
`CurrentPageNums()` and `CurrentPage()` give the value the next call returns.
`LinksSettled()` says that the links `SetLinks` writes are already in place.
Once that holds, `SetLinks` changes nothing, which is why it is idempotent.

Three behaviours of the code that the model keeps:

- A negative total from a `Totaler` or a number is accepted. The page count is
  then the ceiling exactly as paginate.go:59 computes it. It can be negative,
  and `Page()` still settles on 1.
- Page and page count are computed lazily on first use and then memoised
  (paginate.go:55-57, paginate.go:101-103).
- Calling `SetTotal` again after the page count was cached updates `LastPage`
  but leaves the cached page count in place (`SecondSetTotalLeavesCacheStale`).

## Model

| member | source | states |
|---|---|---|
| `PageMath.CeilDiv` | paginate.go:59 | the result q is the ceiling of a/b: b·(q−1) < a ≤ b·q, for every dividend including negative ones |
| `PageMath.CeilDivSign` | paginate.go:81 | the ceiling is ≥ 1 for a positive total, ≥ 0 for a non-negative one, and 0 exactly when −b < total ≤ 0 |
| `PageMath.PageCountSpec` | paginate.go:59-63 | the page count never exceeds a positive LastPage and equals it when the cap bites; it is ≥ 0 for a non-negative total and 0 for no items; when the cap does not bite, the pages hold all items with no empty last page |
| `PageMath.PageCountSelfCapped` | paginate.go:81-82 | with LastPage set to the uncapped ceiling, as SetTotal does, the cap leaves the page count equal to that ceiling |
| `PageMath.ClampPage` | paginate.go:105-111 | the settled page lies in [1, max(1, pageNums)]; it is the requested page when that is in range, pageNums when the request is above it, and 1 when either is not positive |
| `Strconv.NatToDecimalCanonical` | helpers.go:15 | the digits written for a natural number are canonical (no leading zero), start with '0' only for 0, and read back as the number |
| `Strconv.AtoiItoa` | helpers.go:15 | Atoi reads back exactly the number Itoa wrote, negative numbers included |
| `Strconv.ItoaCanonical` | helpers.go:15 | Itoa writes the canonical decimal form: no leading zeros, no '+', no "-0" |
| `Strconv.ItoaAtoi` | paginate.go:105 | a canonical decimal string parses, and Itoa of the parsed number gives the string back |
| `Paginate.PageQueryFirst` | helpers.go:12-13 | the link to page 1 has no page key, so reading the parameter yields "" |
| `Paginate.PageQueryOther` | helpers.go:14-15 | the link to any other page maps the page key to exactly one value, Itoa of the page, in canonical form |
| `Paginate.PageQueryKeepsOthers` | helpers.go:10-18 | every key other than the page key keeps all its values, and no key is added or removed |
| `Paginate.PageQueryRoundTrip` | helpers.go:11-16 | parsing the page parameter of the link to page k gives k, and 0 (absent) for k = 1 |
| `Paginate.FollowingLinkLandsOnPage` | helpers.go:9-19 | a request for the link to any page in [1, max(1, pageNums)] settles, through Page()'s clamping, on that page |
| `Paginate.Paginator.constructor` | paginate.go:137-139 | the zero struct holding only the request: all numbers 0, all links empty, caches unset |
| `Paginate.Paginator.SetPerPage` | paginate.go:86-97 | the page size becomes n if positive, else the per_page parameter if it parses positive, else 25; it is always ≥ 1 |
| `Paginate.Paginator.SetTotal` | paginate.go:73-83 | stores the count of the Totaler or number case (0 when conversion fails) and sets LastPage to the ceiling of count / PerPage |
| `Paginate.Paginator.PageNums` | paginate.go:54-65 | returns a non-zero cache unchanged and modifies nothing; otherwise computes the capped ceiling and caches it |
| `Paginate.Paginator.Nums` | paginate.go:68-70 | the item count SetTotal stored |
| `Paginate.Paginator.Page` | paginate.go:100-113 | returns a cached page unchanged and modifies nothing; otherwise caches the clamped page parameter and fills the page-count cache; the result lies in [1, max(1, PageNums())] |
| `Paginate.Paginator.Offset` | paginate.go:116-118 | the offset is (Page() − 1) · PerPage and is never negative |
| `Paginate.Paginator.Limit` | paginate.go:121-123 | the limit is whatever PerPage holds, with no precondition; on a valid paginator it is ≥ 1 |
| `Paginate.Paginator.HasPages` | paginate.go:126-128 | true exactly when the page count exceeds 1 |
| `Paginate.Paginator.PageLink` | helpers.go:9-19 | the link is the request URL with its query rewritten by PageQuery, so the PageQuery lemmas apply to it |
| `Paginate.Paginator.PageLinkPrev` | helpers.go:22-27 | the link to Page() − 1 when there is a previous page, otherwise the empty link |
| `Paginate.Paginator.PageLinkNext` | helpers.go:30-35 | the link to Page() + 1 when there is a next page, otherwise the empty link |
| `Paginate.Paginator.PageLinkFirst` | helpers.go:38-40 | the link to page 1, which carries no page key |
| `Paginate.Paginator.PageLinkLast` | helpers.go:43-45 | the link to page PageNums(); with a single page it equals the first-page link and carries no page key |
| `Paginate.Paginator.HasPrev` | helpers.go:48-50 | true exactly when Page() > 1 |
| `Paginate.Paginator.HasNext` | helpers.go:53-55 | true exactly when Page() < PageNums() |
| `Paginate.Paginator.IsActive` | helpers.go:58-60 | true exactly when Page() equals the given page |
| `Paginate.Paginator.SetLinks` | helpers.go:68-79 | writes Prev only if HasPrev, Next only if HasNext, and First and Last only if PageNums() > 0; the other links keep their values; afterwards the links are settled, and on settled links a second call changes nothing (idempotence) |
| `Paginate.NewPaginator` | paginate.go:136-144 | page size from per_page or 25; the item count from the source; the page count equals LastPage, the uncapped ceiling; the page is the clamped parameter; each link is set or empty by the SetLinks rules; no items gives page 1 of 0 and no links |
| `Paginate.RepeatedCallsAgree` | paginate.go:100-103 | two consecutive calls of Page() return the same value, and so do two consecutive calls of PageNums() |
| `PageMath.PageCount` | paginate.go:59-63 | the capped ceiling of PageNums; its properties are stated by `PageMath.PageCountSpec` and `PageMath.PageCountSelfCapped` |
| `Paginate.ItemCount` | paginate.go:74-79 | the count SetTotal takes from each case of the total source; tied to the state by `Paginate.Paginator.SetTotal` |
| `Paginate.PageQuery` | helpers.go:11-17 | the `Del`/`Set` rewrite of the query; pinned down by `Paginate.PageQueryFirst`, `PageQueryOther`, `PageQueryKeepsOthers` and `PageQueryRoundTrip` |
| `Paginate.LinkTo` | helpers.go:9-19 | the request URL with the query rewritten by PageQuery; what `Paginate.Paginator.PageLink` returns |
| `Paginate.Paginator.RequestedPage` | paginate.go:105 | `getParam` of the page parameter (helpers.go:63-66) read by Atoi; its clamping is stated by `PageMath.ClampPage` and `Paginate.FollowingLinkLandsOnPage` |
| `Strconv.Atoi` | paginate.go:105 | Go's base-10 Atoi syntax; its inverse relation to Itoa is stated by `Strconv.AtoiItoa` and `Strconv.ItoaAtoi` |
| `Strconv.AtoiOrZero` | paginate.go:91 | Atoi with the error dropped, so a syntax error reads as 0; stated by `Strconv.ItoaAtoi` and `Paginate.PageQueryRoundTrip` |
| `Strconv.Itoa` | helpers.go:15 | Go's Itoa; its canonical form and round trip are stated by `Strconv.ItoaCanonical` and `Strconv.AtoiItoa` |

## Left out

- `Paginate(query *gorm.DB)` and the `*gorm.DB` branch of `SetTotal` are left
  out. They hand the offset, limit and count to an ORM that does database I/O.
  A count obtained that way enters the model as the `Number` case.
- `toInt64` is not part of this model. A number's value is taken as the given
  integer. A value the conversion rejects is the `NotANumber` case and gives 0.
- The runtime type switch on `total` is replaced by the closed datatype
  `TotalSource`.
- URL handling is library code: parsing the request URI, percent-encoding,
  and the key order of `Values.Encode`. The base URL is opaque and the query
  is a map. The model assumes the request URL re-parses with
  `url.ParseRequestURI`. When it does not (a relative URL such as
  `items?page=2`), `link` is nil and `link.Query()` at helpers.go:11 panics.
  Through `PageLinkFirst` that panic reaches `SetLinks` and `NewPaginator`
  whenever `PageNums() > 0`. The model's `PageLink` always returns a `Url` and
  does not capture the panic.
- Go's `float64` arithmetic in `math.Ceil` and `math.Min` is replaced by exact
  integer ceiling division and minimum. The two agree while the total and the
  page size are below 2^53 in magnitude.
- 64-bit integer width is not modelled. This covers the saturation `Atoi`
  applies to out-of-range input, overflow in the offset multiplication, and
  the int64-to-float conversions. All integers are unbounded.
- The mutable package variables `PageParam` and `PerPageParam` are constants
  with their default values, `"page"` and `"per_page"`.
- The `Request()` accessor becomes the constant field `request`. `getParam`
  is `Get` applied to the request's query.
- The JSON struct tags and the unused `pageRange` field are left out.
- Concurrency is left out: the paginator is single-threaded.
- Paginate.Paginator.SetTotal: requires `PerPage >= 1`. `PerPage` is an exported
  field, and a caller may set it to 0 or below after `NewPaginator`. Go then
  divides by a float zero at paginate.go:81 and converts ±Inf or NaN to int.
  The model does not cover that state.
- Paginate.Paginator.PageNums: requires `PerPage >= 1`, for the same reason at
  paginate.go:59.
- Paginate.Paginator.Page, and likewise `Offset`, `HasPages`, `HasPrev`,
  `HasNext`, `IsActive`, `PageLinkPrev`, `PageLinkNext`, `PageLinkLast` and
  `SetLinks`: require `Valid()`, which includes `PerPage >= 1`. Each of them
  calls `Page()` or `PageNums()` and so reaches the same division. A
  non-positive `PerPage` set from outside is not modelled for them.
