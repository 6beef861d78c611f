/**
 * Client-side paging shared by the groups and roles pages (and the offset rule of the users page):
 * page numbers start at 1, a page is a `slice` of the loaded list.
 */
module Paging {
  import Seqs

  /** `(activePage - 1) * limit`, the list offset of a page chosen in the pagination control. */
  function PageOffset(activePage: int, limit: int): (offset: int)
    ensures activePage == 1 ==> offset == 0
    ensures limit > 0 ==> offset % limit == 0 && offset / limit == activePage - 1
  {
    assert limit > 0 ==> ((activePage - 1) * limit) / limit == activePage - 1 by {
      if limit > 0 { DivMulExact(activePage - 1, limit); }
    }
    (activePage - 1) * limit
  }

  lemma DivMulExact(q: int, limit: int)
    requires limit > 0
    ensures (q * limit) / limit == q && (q * limit) % limit == 0
  {
    var n := q * limit;
    var m, r := n / limit, n % limit;
    assert n == m * limit + r && 0 <= r < limit;
    assert (q - m) * limit == r;
    if q - m >= 1 {
      MulMonotone(q - m, limit);
    } else if q - m <= -1 {
      MulMonotone(m - q, limit);
    }
  }

  lemma MulMonotone(a: int, b: int)
    requires a >= 1 && b > 0
    ensures a * b >= b
  {
    assert a * b == (a - 1) * b + b;
  }

  /** `list.slice(offset, limit + offset)`, the visible page. */
  function Page<T>(list: seq<T>, offset: int, limit: int): (page: seq<T>)
    ensures 0 <= offset && 0 <= limit ==> |page| <= limit
    ensures 0 <= offset && 0 <= limit && offset < |list| ==>
      page == list[offset..if offset + limit <= |list| then offset + limit else |list|]
    ensures 0 <= |list| <= offset ==> page == []
  {
    Seqs.Slice(list, offset, limit + offset)
  }

  /** `Math.ceil(length / limit)` for a positive page size: the fewest pages that hold `length` items. */
  function TotalPages(length: nat, limit: nat): (pages: nat)
    requires limit > 0
    ensures length <= pages * limit
    ensures pages == 0 || (pages - 1) * limit < length
  {
    var pages := (length + limit - 1) / limit;
    assert pages * limit + (length + limit - 1) % limit == length + limit - 1;
    assert (pages - 1) * limit == pages * limit - limit;
    pages
  }

  /** Pages 1 to `count`, one after the other. */
  function PagesUpTo<T>(list: seq<T>, limit: nat, count: nat): seq<T>
  {
    if count == 0 then [] else PagesUpTo(list, limit, count - 1) + Page(list, PageOffset(count, limit), limit)
  }

  function Clamp(i: int, n: nat): nat
  {
    if i < 0 then 0 else if i <= n then i else n
  }

  lemma {:induction false} PagesUpToPrefix<T>(list: seq<T>, limit: nat, count: nat)
    ensures PagesUpTo(list, limit, count) == list[..Clamp(count * limit, |list|)]
  {
    if count > 0 {
      PagesUpToPrefix(list, limit, count - 1);
      var offset := PageOffset(count, limit);
      var end := count * limit;
      assert offset == (count - 1) * limit;
      assert offset + limit == end by { SuccessorProduct(count - 1, limit); }
      assert 0 <= offset;
      var before, after := Clamp(offset, |list|), Clamp(end, |list|);
      assert Page(list, offset, limit) == list[before..after];
      assert list[..after] == list[..before] + list[before..after];
    }
  }

  lemma SuccessorProduct(a: nat, b: nat)
    ensures a * b + b == (a + 1) * b
  {
  }

  /** Walking through every page shows each item of the list exactly once, in order. */
  lemma PagesCoverList<T>(list: seq<T>, limit: nat)
    requires limit > 0
    ensures PagesUpTo(list, limit, TotalPages(|list|, limit)) == list
  {
    PagesUpToPrefix(list, limit, TotalPages(|list|, limit));
  }
}
