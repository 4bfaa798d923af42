/**
 * The page/limit clamp the list endpoints share:
 * `page = max(1, parseInt(page || '1'))`,
 * `limit = min(100, max(1, parseInt(limit || '20')))`, `offset = (page - 1) * limit`.
 * A query value is `None` when it is missing or empty; only numeric values are modelled.
 */
module Pagination {
  import opened Common

  const DefaultLimit := 20
  const MaxLimit := 100

  datatype Page = Page(page: int, limit: int, offset: int)

  function Max(a: int, b: int): int { if a >= b then a else b }
  function Min(a: int, b: int): int { if a <= b then a else b }

  function ClampPage(page: Option<int>, limit: Option<int>): (r: Page)
    ensures r.page >= 1 && 1 <= r.limit <= MaxLimit
    ensures r.offset == (r.page - 1) * r.limit && r.offset >= 0
    ensures page.None? ==> r.page == 1
    ensures page.Some? && page.value >= 1 ==> r.page == page.value
    ensures page.Some? && page.value < 1 ==> r.page == 1
    ensures limit.None? ==> r.limit == DefaultLimit
    ensures limit.Some? && 1 <= limit.value <= MaxLimit ==> r.limit == limit.value
    ensures limit.Some? && limit.value < 1 ==> r.limit == 1
    ensures limit.Some? && limit.value > MaxLimit ==> r.limit == MaxLimit
  {
    var p := Max(1, page.GetOr(1));
    var l := Min(MaxLimit, Max(1, limit.GetOr(DefaultLimit)));
    Page(p, l, (p - 1) * l)
  }

  /** Consecutive pages do not overlap and leave no gap: page p+1 starts where page p ends. */
  lemma PagesTile(p: int, limit: Option<int>)
    requires p >= 1
    ensures var a := ClampPage(Some(p), limit);
      var b := ClampPage(Some(p + 1), limit);
      b.offset == a.offset + a.limit && a.limit == b.limit
  {
  }
}
