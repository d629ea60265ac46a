/**
 * The list pagination shared by the staff pages: page numbers start at 1,
 * the displayed rows are `list.slice((page - 1) * per, page * per)`,
 * `totalPages = Math.ceil(n / per)`, Prev is `Math.max(page - 1, 1)` and
 * Next is `Math.min(page + 1, totalPages)`.
 */
module Paging {
  import opened Js

  /** `Math.ceil(n / per)`. */
  function TotalPages(n: nat, per: nat): (t: nat)
    requires per > 0
    ensures (t - 1) * per < n <= t * per || (n == 0 && t == 0)
  {
    (n + per - 1) / per
  }

  /** The rows shown on a page. */
  function PageSlice<T>(s: seq<T>, page: int, per: nat): (r: seq<T>)
    ensures |r| <= per
  {
    SliceWidth(s, (page - 1) * per, per);
    Slice(s, (page - 1) * per, page * per)
  }

  /** Prev: `Math.max(page - 1, 1)`. */
  function Prev(page: int): (p: int)
    ensures p >= 1
    ensures page > 1 ==> p == page - 1
    ensures page <= 1 ==> p == 1
  {
    if page - 1 > 1 then page - 1 else 1
  }

  /** Next exactly as the pages write it: `Math.min(page + 1, totalPages)`. */
  function NextAsWritten(page: int, total: nat): (p: int)
    ensures p <= total
    ensures p == page + 1 || p == total
  {
    if page + 1 < total then page + 1 else total
  }

  /** Next, kept on a page that exists: never below page 1. */
  function Next(page: int, total: nat): (p: int)
    ensures 1 <= p
    ensures total >= 1 ==> p <= total
    ensures 1 <= page < total ==> p == page + 1
    ensures page >= total ==> p == if total >= 1 then total else 1
  {
    var q := NextAsWritten(page, total);
    if q < 1 then 1 else q
  }

  /** From a real page, Next as written and the corrected Next differ exactly when there are no pages. */
  lemma NextDiffersOnlyWithoutPages(page: int, total: nat)
    requires page >= 1
    ensures NextAsWritten(page, total) != Next(page, total) <==> total == 0
  {
  }

  /** With no rows there are no pages, and Next as written moves from page 1 to page 0. */
  lemma NextAsWrittenOnEmptyList(per: nat)
    requires per > 0
    ensures TotalPages(0, per) == 0
    ensures NextAsWritten(1, TotalPages(0, per)) == 0
  {
  }

  /** Page 0 shows nothing, however many rows there are. */
  lemma PageZeroIsEmpty<T>(s: seq<T>, per: nat)
    requires per > 0
    ensures PageSlice(s, 0, per) == []
  {
    assert RelIndex(0, |s|) == 0;
  }

  /** Page p (from 1) holds the rows (p-1)*per .. p*per of the list, cut at its end. */
  lemma PageContents<T>(s: seq<T>, page: int, per: nat)
    requires per > 0 && page >= 1 && (page - 1) * per <= |s|
    ensures PageSlice(s, page, per) == s[(page - 1) * per..if page * per < |s| then page * per else |s|]
  {
  }

  /** The pages 1.. count, laid end to end. */
  function Pages<T>(s: seq<T>, per: nat, count: nat): seq<T>
  {
    if count == 0 then [] else Pages(s, per, count - 1) + PageSlice(s, count, per)
  }

  /** Pages 1..totalPages, laid end to end, give back the whole list: no row is lost or shown twice. */
  lemma {:induction false} PagesPartition<T>(s: seq<T>, per: nat)
    requires per > 0
    ensures Pages(s, per, TotalPages(|s|, per)) == s
  {
    var t := TotalPages(|s|, per);
    PagesPrefix(s, per, t);
    if t > 0 {
      assert t * per >= |s|;
    } else {
      assert |s| == 0;
    }
  }

  lemma {:induction false} PagesPrefix<T>(s: seq<T>, per: nat, count: nat)
    requires per > 0
    ensures Pages(s, per, count) == s[..if count * per < |s| then count * per else |s|]
  {
    if count > 0 {
      PagesPrefix(s, per, count - 1);
      var lo := if (count - 1) * per < |s| then (count - 1) * per else |s|;
      var hi := if count * per < |s| then count * per else |s|;
      assert (count - 1) * per == count * per - per;
      if (count - 1) * per <= |s| {
        PageContents(s, count, per);
      } else {
        assert PageSlice(s, count, per) == [];
      }
      assert s[..lo] + s[lo..hi] == s[..hi];
    }
  }
}
