/** The tab and page navigator: which page is current and the sign of the
    most recent move, the selection operation `go`, and the keydown handler. */
module Navigator {
  import opened Pages

  /** The two state cells of the component: `page` and `dir`. */
  datatype NavState = NavState(page: Page, dir: int)

  /** The direction is always a sign: 1 for forward, -1 for backward. */
  predicate Valid(s: NavState) {
    s.dir == 1 || s.dir == -1
  }

  /** The state the component starts in: the first tab, moving forward. */
  function Initial(): (s: NavState)
    ensures Valid(s) && Index(s.page) == 0 && s.dir > 0
  {
    NavState(About, 1)
  }

  /** The first tab is About, and the direction starts at 1. */
  lemma InitialValid()
    ensures Valid(Initial()) && Initial().page == About && Initial().dir == 1
  {
  }

  /** `j > i ? 1 : -1`: forward only when the target is strictly later. */
  function Direction(i: int, j: int): (d: int)
    ensures d == 1 || d == -1
    ensures d == 1 <==> j > i
  {
    if j > i then 1 else -1
  }

  /** `go(next)`: the new page is `next`, whatever the old page was, and the
      direction compares the two pages' positions on the tab list. */
  function Select(s: NavState, next: Page): (t: NavState)
    ensures t.page == next
    ensures Valid(t)
    ensures t.dir == 1 <==> Index(next) > Index(s.page)
    ensures t.dir == -1 <==> Index(next) <= Index(s.page)
  {
    NavState(next, Direction(Index(s.page), Index(next)))
  }

  /** Re-selecting the current page sets the direction to -1; it does not
      leave the old direction in place. */
  lemma ReselectGoesBackward(s: NavState)
    ensures Select(s, s.page) == NavState(s.page, -1)
  {
  }

  /** All nine (from, to) pairs: the selection always succeeds, and the
      direction is forward exactly for the three pairs with `to` later. */
  lemma SelectAllPairs()
    ensures forall from: Page, d: int, to: Page ::
      Select(NavState(from, d), to).page == to
    ensures forall d: int ::
      Select(NavState(About, d), Projects).dir == 1 &&
      Select(NavState(About, d), Contact).dir == 1 &&
      Select(NavState(Projects, d), Contact).dir == 1
    ensures forall d: int ::
      Select(NavState(About, d), About).dir == -1 &&
      Select(NavState(Projects, d), About).dir == -1 &&
      Select(NavState(Projects, d), Projects).dir == -1 &&
      Select(NavState(Contact, d), About).dir == -1 &&
      Select(NavState(Contact, d), Projects).dir == -1 &&
      Select(NavState(Contact, d), Contact).dir == -1
  {
  }

  /** The page one step forward on the tab list, wrapping at the end. */
  function Successor(p: Page): (q: Page)
    ensures Index(q) == Next(Index(p))
  {
    OrderLength();
    PageAt(Next(Index(p)));
    Order[Next(Index(p))]
  }

  /** The page one step backward on the tab list, wrapping at the start. */
  function Predecessor(p: Page): (q: Page)
    ensures Index(q) == Prev(Index(p))
  {
    OrderLength();
    PageAt(Prev(Index(p)));
    Order[Prev(Index(p))]
  }

  /** The keys the handler distinguishes. */
  datatype Key = ArrowRight | ArrowLeft | OtherKey

  /** The handler's two tests on the event's key name. */
  function Classify(name: string): (k: Key)
    ensures k == ArrowRight <==> name == "ArrowRight"
    ensures k == ArrowLeft <==> name == "ArrowLeft"
  {
    if name == "ArrowRight" then ArrowRight
    else if name == "ArrowLeft" then ArrowLeft
    else OtherKey
  }

  /** The keydown handler: ArrowRight selects the successor, ArrowLeft the
      predecessor, and any other key changes nothing. */
  function KeyDown(s: NavState, k: Key): (t: NavState)
    ensures Valid(s) ==> Valid(t)
    ensures k != OtherKey ==> Valid(t)
    ensures k == ArrowRight ==> Index(t.page) == Next(Index(s.page))
    ensures k == ArrowLeft ==> Index(t.page) == Prev(Index(s.page))
    ensures k != OtherKey ==> (t.dir == 1 <==> Index(t.page) > Index(s.page))
    ensures k == OtherKey ==> t == s
  {
    match k
    case ArrowRight => Select(s, Successor(s.page))
    case ArrowLeft => Select(s, Predecessor(s.page))
    case OtherKey => s
  }

  /** Wrapping forward from Contact lands on About with direction -1, because
      the direction follows the tab order and not the key. */
  lemma RightWraps(d: int)
    ensures KeyDown(NavState(Contact, d), ArrowRight) == NavState(About, -1)
  {
  }

  /** Wrapping backward from About lands on Contact with direction 1. */
  lemma LeftWraps(d: int)
    ensures KeyDown(NavState(About, d), ArrowLeft) == NavState(Contact, 1)
  {
  }

  /** Without wrap-around, ArrowRight moves one step forward with direction 1
      and ArrowLeft one step backward with direction -1; with wrap-around the
      signs are the other way round. */
  lemma KeyDirection(s: NavState)
    ensures KeyDown(s, ArrowRight).dir == (if s.page != Contact then 1 else -1)
    ensures KeyDown(s, ArrowLeft).dir == (if s.page != About then -1 else 1)
  {
  }

  /** ArrowLeft undoes ArrowRight and ArrowRight undoes ArrowLeft, as far as
      the page is concerned. */
  lemma LeftUndoesRight(s: NavState)
    ensures KeyDown(KeyDown(s, ArrowRight), ArrowLeft).page == s.page
    ensures KeyDown(KeyDown(s, ArrowLeft), ArrowRight).page == s.page
  {
  }

  /** From About, three ArrowRight presses visit Projects, Contact and About. */
  lemma ThreeRightsFromAbout()
    ensures KeyDown(Initial(), ArrowRight) == NavState(Projects, 1)
    ensures KeyDown(KeyDown(Initial(), ArrowRight), ArrowRight) == NavState(Contact, 1)
    ensures KeyDown(KeyDown(KeyDown(Initial(), ArrowRight), ArrowRight), ArrowRight)
            == NavState(About, -1)
  {
  }

  /** The component: its two state cells as fields, `go` and the keydown
      handler as methods that update them. */
  class Portfolio {
    var page: Page
    var dir: int

    function State(): NavState
      reads this
    {
      NavState(page, dir)
    }

    constructor ()
      ensures State() == Initial() && Valid(State())
    {
      page := About;
      dir := 1;
    }

    /** `go(next)`, also what a click on a tab calls. */
    method Go(next: Page)
      modifies this
      ensures State() == Select(old(State()), next)
      ensures page == next && Valid(State())
    {
      var i := IndexOf(Order, page);
      var j := IndexOf(Order, next);
      IndexOfPage(page);
      IndexOfPage(next);
      dir := if j > i then 1 else -1;
      page := next;
    }

    /** The keydown handler. It reads the page current when it was
        registered; both tests run, but at most one key name matches. */
    method OnKey(key: string)
      modifies this
      ensures State() == KeyDown(old(State()), Classify(key))
      ensures Valid(old(State())) ==> Valid(State())
    {
      var current := page;
      IndexOfPage(current);
      OrderLength();
      if key == "ArrowRight" {
        var i := IndexOf(Order, current);
        Go(Order[(i + 1) % |Order|]);
      }
      if key == "ArrowLeft" {
        var i := IndexOf(Order, current);
        Go(Order[(i - 1 + |Order|) % |Order|]);
      }
    }
  }

  /** A fresh component after three ArrowRight presses is back on About,
      with direction -1 from the last, wrapping, press. */
  method KeyboardTour() returns (p: Page, d: int)
    ensures p == About && d == -1
  {
    var c := new Portfolio();
    c.OnKey("ArrowRight");
    c.OnKey("ArrowRight");
    c.OnKey("ArrowRight");
    ThreeRightsFromAbout();
    p, d := c.page, c.dir;
  }
}
