/** The three top-level views of the portfolio, their tab order, and the
    index arithmetic the keyboard handler uses to cycle through them. */
module Pages {

  /** One of the three views a visitor can select. */
  datatype Page = About | Projects | Contact

  /** The ordered tab list; its order defines adjacency for keyboard cycling. */
  const Order: seq<Page> := [About, Projects, Contact]

  /** Array `indexOf`: the position of the first occurrence of `x` in `s`,
      or -1 when `x` does not occur. */
  function IndexOf<T(==)>(s: seq<T>, x: T): (r: int)
    ensures -1 <= r < |s|
    ensures r == -1 <==> x !in s
    ensures 0 <= r ==> s[r] == x && x !in s[..r]
  {
    if s == [] then -1
    else if s[0] == x then 0
    else
      var k := IndexOf(s[1..], x);
      assert 0 <= k ==> s[..k + 1] == [s[0]] + s[1..][..k];
      if k == -1 then -1 else k + 1
  }

  /** Every value of `Page` is on the tab list. */
  lemma InOrder(p: Page)
    ensures p in Order
  {
  }

  /** The position of a page on the tab list. */
  function Index(p: Page): (i: nat)
    ensures i < 3
  {
    match p
    case About => 0
    case Projects => 1
    case Contact => 2
  }

  /** The tab list has one entry per page. */
  lemma OrderLength()
    ensures |Order| == 3
  {
  }

  /** `pages.indexOf(p)` is never -1: it is the page's position, and the
      list holds that page there. */
  lemma IndexOfPage(p: Page)
    ensures IndexOf(Order, p) == Index(p)
    ensures Order[Index(p)] == p
  {
  }

  /** The page at a position on the tab list has that position. */
  lemma PageAt(k: int)
    requires 0 <= k < |Order|
    ensures Index(Order[k]) == k
  {
  }

  /** The positions of the three pages. */
  lemma IndexValues()
    ensures Index(About) == 0 && Index(Projects) == 1 && Index(Contact) == 2
  {
  }

  /** The index is a bijection between pages and 0..2: distinct pages have
      distinct positions. */
  lemma IndexInjective(p: Page, q: Page)
    ensures Index(p) == Index(q) <==> p == q
  {
  }

  /** Cyclic successor `(i + 1) % pages.length`: the next index, wrapping
      from the last page to the first. */
  function Next(i: int): (j: nat)
    requires 0 <= i < |Order|
    ensures j < |Order|
    ensures if i == |Order| - 1 then j == 0 else j == i + 1
  {
    (i + 1) % |Order|
  }

  /** Cyclic predecessor `(i - 1 + pages.length) % pages.length`: the
      previous index, wrapping from the first page to the last. */
  function Prev(i: int): (j: nat)
    requires 0 <= i < |Order|
    ensures j < |Order|
    ensures if i == 0 then j == |Order| - 1 else j == i - 1
  {
    (i - 1 + |Order|) % |Order|
  }

  /** Stepping back undoes stepping forward, and vice versa. */
  lemma PrevNext(i: int)
    requires 0 <= i < |Order|
    ensures Prev(Next(i)) == i && Next(Prev(i)) == i
  {
  }

  /** Three forward steps (or three backward steps) return to the start. */
  lemma NextPeriod(i: int)
    requires 0 <= i < |Order|
    ensures Next(Next(Next(i))) == i
    ensures Prev(Prev(Prev(i))) == i
  {
  }
}
