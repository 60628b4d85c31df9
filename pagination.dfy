/**
 * The page/limit clamp copied into every list handler, the variant without
 * `|| default` used by `myFavorites`, and the `{ page, limit, total, pages,
 * hasMore }` envelope.
 */
module Pagination {
  import opened Wrappers
  import opened Strings

  /** `n || d` on a `parseInt` result: `NaN` (here `None`) and 0 are falsy. */
  function OrDefault(n: Option<int>, d: int): int {
    if n.None? || n.value == 0 then d else n.value
  }

  function Max(a: int, b: int): int { if a < b then b else a }
  function Min(a: int, b: int): int { if a < b then a else b }

  /** The default page and limit strings parse to 1 and 20. */
  lemma DefaultsParse()
    ensures ParseInt("1") == Some(1) && ParseInt("20") == Some(20)
  {
    ParseIntOfIntToString(1);
    assert IntToString(1) == "1";
    ParseIntOfIntToString(20);
    assert IntToString(20) == "20";
  }

  /** `Math.max(parseInt(page ?? "1", 10) || 1, 1)`. */
  function PageOf(raw: Option<string>): (p: int)
    ensures p >= 1
    ensures raw.None? ==> p == 1
    ensures raw.Some? && ParseInt(raw.value).None? ==> p == 1
  {
    Max(OrDefault(ParseInt(raw.GetOr("1")), 1), 1)
  }

  /** `Math.min(Math.max(parseInt(limit ?? "20", 10) || 20, 1), 100)`. */
  function LimitOf(raw: Option<string>): (l: int)
    ensures 1 <= l <= 100
    ensures raw.None? ==> l == 20
    ensures raw.Some? && ParseInt(raw.value).None? ==> l == 20
  {
    DefaultsParse();
    Min(Max(OrDefault(ParseInt(raw.GetOr("20")), 20), 1), 100)
  }

  /** `(page - 1) * limit`: the number of documents on the earlier pages. */
  function SkipOf(page: int, limit: int): (s: int)
    requires page >= 1 && limit >= 1
    ensures s >= 0
    ensures page == 1 <==> s == 0
  {
    MulNonNegative(page - 1, limit);
    (page - 1) * limit
  }

  lemma MulNonNegative(a: int, b: int)
    requires a >= 0 && b >= 0
    ensures a * b >= 0
  {
  }

  /** How a page number written in decimal is read: kept when at least 1, else 1. */
  lemma PageOfPrinted(n: int)
    ensures PageOf(Some(IntToString(n))) == if n >= 1 then n else 1
  {
    ParseIntOfIntToString(n);
  }

  /**
   * How a limit written in decimal is read: 0 falls back to 20 (because
   * `0 || 20`), a negative limit becomes 1, one above 100 becomes 100, and
   * every limit in [1, 100] is kept.
   */
  lemma LimitOfPrinted(n: int)
    ensures LimitOf(Some(IntToString(n))) == if n == 0 then 20 else if n < 0 then 1 else if n > 100 then 100 else n
  {
    ParseIntOfIntToString(n);
  }

  // ---- the clamp of `myFavorites`, which has no `|| default` ----

  /** `raw || d` on a query string: `undefined` and "" are falsy. */
  function StringOr(raw: Option<string>, d: string): string {
    if raw.None? || raw.value == "" then d else raw.value
  }

  /** `Math.max(parseInt(page || "1", 10), 1)`: `NaN` (here `None`) survives `Math.max`. */
  function PageNoFallback(raw: Option<string>): (p: Option<int>)
    ensures p.Some? ==> p.value >= 1
  {
    match ParseInt(StringOr(raw, "1"))
    case None => None
    case Some(n) => Some(Max(n, 1))
  }

  /** `Math.min(Math.max(parseInt(limit || "20", 10), 1), 100)`. */
  function LimitNoFallback(raw: Option<string>): (l: Option<int>)
    ensures l.Some? ==> 1 <= l.value <= 100
  {
    match ParseInt(StringOr(raw, "20"))
    case None => None
    case Some(n) => Some(Min(Max(n, 1), 100))
  }

  /**
   * The two clamps agree except on a limit that reads as 0 (the plain clamp
   * gives 20, `myFavorites` gives 1) or as `NaN` (20 against `NaN`).
   */
  lemma LimitClampsAgree(raw: Option<string>)
    ensures LimitNoFallback(raw) == Some(LimitOf(raw))
        <==> !(raw.Some? && raw.value != "" && (ParseInt(raw.value).None? || ParseInt(raw.value) == Some(0)))
  {
    if raw.None? || raw.value == "" {
      DefaultsParse();
      assert StringOr(raw, "20") == "20";
      assert raw.Some? ==> ParseInt(raw.value).None?;
    } else {
      assert StringOr(raw, "20") == raw.value;
    }
  }

  /** The same for the page: they differ exactly on a page that reads as `NaN`. */
  lemma PageClampsAgree(raw: Option<string>)
    ensures PageNoFallback(raw) == Some(PageOf(raw))
        <==> !(raw.Some? && raw.value != "" && ParseInt(raw.value).None?)
  {
    if raw.None? || raw.value == "" {
      DefaultsParse();
      assert StringOr(raw, "1") == "1";
      assert raw.Some? ==> ParseInt(raw.value).None?;
    } else {
      assert StringOr(raw, "1") == raw.value;
    }
  }

  // ---- the response envelope ----

  datatype Envelope = Envelope(page: int, limit: int, total: nat, pages: nat, hasMore: bool)

  /** `Math.ceil(total / limit)` on integers. */
  function CeilDiv(total: nat, limit: nat): (q: nat)
    requires limit >= 1
    ensures q * limit >= total
    ensures q == 0 || (q - 1) * limit < total
  {
    var q := (total + limit - 1) / limit;
    var r := (total + limit - 1) % limit;
    assert total + limit - 1 == q * limit + r && 0 <= r < limit;
    q
  }

  /** `{ page, limit, total, pages: Math.ceil(total / limit), hasMore: page * limit < total }`. */
  function Paged(page: int, limit: int, total: nat): (e: Envelope)
    requires page >= 1 && limit >= 1
    ensures e.page == page && e.limit == limit && e.total == total
  {
    Envelope(page, limit, total, CeilDiv(total, limit), page * limit < total)
  }

  lemma MulMonotone(a: int, b: int, c: int)
    requires a <= b && c >= 0
    ensures a * c <= b * c
  {
    assert (b - a) * c >= 0 by { MulNonNegative(b - a, c); }
  }

  /** `hasMore` holds exactly when the current page is not the last one. */
  lemma HasMoreIffNotLastPage(page: int, limit: int, total: nat)
    requires page >= 1 && limit >= 1
    ensures Paged(page, limit, total).hasMore <==> page < Paged(page, limit, total).pages
  {
    var q := CeilDiv(total, limit);
    if page < q {
      MulMonotone(page, q - 1, limit);
    } else {
      MulMonotone(q, page, limit);
    }
  }

  /** The part of an ordered result that `.skip(skip).limit(limit)` returns. */
  function PageWindow<T>(items: seq<T>, skip: nat, limit: nat): (w: seq<T>)
    ensures |w| <= limit
    ensures |w| == Min(limit, Max(|items| - skip, 0))
    ensures forall i :: 0 <= i < |w| ==> w[i] == items[skip + i]
  {
    if skip >= |items| then [] else items[skip..Min(skip + limit, |items|)]
  }

  /**
   * `hasMore` holds exactly when documents remain after the page returned:
   * `page * limit < total` says that the window ends before the last document.
   */
  lemma HasMoreIffBeyondWindow<T>(items: seq<T>, page: int, limit: int)
    requires page >= 1 && limit >= 1
    ensures var skip := SkipOf(page, limit);
            Paged(page, limit, |items|).hasMore <==> skip + |PageWindow(items, skip, limit)| < |items|
  {
    var skip := SkipOf(page, limit);
    assert page * limit == skip + limit;
  }
}
