/** Page arithmetic shared by the two admin list views. */
module Paging {

  /** `Math.ceil(total / perPage)`: the fewest pages of `perPage` items that hold `total` items. */
  function PageCount(total: nat, perPage: nat): (r: nat)
    requires perPage > 0
    ensures r * perPage >= total
    ensures r > 0 ==> (r - 1) * perPage < total
    ensures r == 0 <==> total == 0
  {
    (total + perPage - 1) / perPage
  }

  /** `Array.from({ length: n }, (_, i) => i + 1)` */
  function PageNumbers(n: nat): (r: seq<int>)
    ensures |r| == n
  {
    seq(n, i requires 0 <= i < n => i + 1)
  }

  /** The page links offered are exactly the pages `onPageChange` accepts. */
  lemma PageNumbersAreValidPages(n: nat, page: int)
    ensures page in PageNumbers(n) <==> 1 <= page <= n
  {
    if 1 <= page <= n {
      assert PageNumbers(n)[page - 1] == page;
    }
  }

  /** The page links are `1, 2, ..., n` in ascending order. */
  lemma PageNumbersAscending(n: nat)
    ensures forall i, j :: 0 <= i < j < n ==> PageNumbers(n)[i] < PageNumbers(n)[j]
    ensures n > 0 ==> PageNumbers(n)[0] == 1 && PageNumbers(n)[n - 1] == n
  {
  }

  /** `s.slice(start, end)` for non-negative bounds: both are clamped to the length. */
  function Slice<T>(s: seq<T>, start: nat, end: nat): (r: seq<T>)
    ensures |r| <= if start <= end then end - start else 0
    ensures forall j :: 0 <= j < |r| ==> start + j < |s| && r[j] == s[start + j]
    ensures start <= end ==> |r| == if start >= |s| then 0 else (if end <= |s| then end else |s|) - start
  {
    var lo := if start <= |s| then start else |s|;
    var hi := if end <= |s| then end else |s|;
    if lo >= hi then [] else s[lo..hi]
  }

  /** Page `page` (counting from 1) of `s`: `slice((page - 1) * perPage, (page - 1) * perPage + perPage)`. */
  function Page<T>(s: seq<T>, page: nat, perPage: nat): seq<T>
    requires page >= 1
  {
    Slice(s, (page - 1) * perPage, (page - 1) * perPage + perPage)
  }

  /** A page holds at most `perPage` items, taken contiguously from its offset. */
  lemma PageContents<T>(s: seq<T>, page: nat, perPage: nat)
    requires page >= 1
    ensures |Page(s, page, perPage)| <= perPage
    ensures forall j :: 0 <= j < |Page(s, page, perPage)| ==> Page(s, page, perPage)[j] == s[(page - 1) * perPage + j]
  {
  }

  /** Every page that the page count admits shows at least one item. */
  lemma ValidPageNotEmpty<T>(s: seq<T>, page: nat, perPage: nat)
    requires perPage > 0 && 1 <= page <= PageCount(|s|, perPage)
    ensures Page(s, page, perPage) != []
  {
    var r := PageCount(|s|, perPage);
    assert (page - 1) * perPage <= (r - 1) * perPage by {
      MulMonotone(page - 1, r - 1, perPage);
    }
  }

  lemma MulMonotone(a: nat, b: nat, k: nat)
    requires a <= b
    ensures a * k <= b * k
  {
  }

  /** Each item is on page `i / perPage + 1`, at position `i % perPage`. */
  lemma ItemOnItsPage<T>(s: seq<T>, i: nat, perPage: nat)
    requires i < |s| && perPage > 0
    ensures var p := Page(s, i / perPage + 1, perPage); i % perPage < |p| && p[i % perPage] == s[i]
  {
    var q, m := i / perPage, i % perPage;
    assert q * perPage + m == i;
  }
}
