/** A session as the event loop delivers it: one input event at a time,
    each a tab click or a keydown, applied to the navigator in order. */
module Session {
  import opened Pages
  import opened Navigator

  /** An input the navigator reacts to: a click on a tab, or a keydown whose
      key name has been classified. */
  datatype Event = Click(tab: Page) | Press(key: Key)

  /** One event: a click selects its tab, a key goes to the keydown handler. */
  function Apply(s: NavState, e: Event): (t: NavState)
    ensures Valid(s) ==> Valid(t)
    ensures e.Click? ==> t.page == e.tab && Valid(t)
  {
    match e
    case Click(p) => Select(s, p)
    case Press(k) => KeyDown(s, k)
  }

  /** The state after a sequence of events, applied first to last, as the
      event loop delivers them one at a time. The last tab clicked is the
      current page unless a key press came after it. */
  function Run(s: NavState, events: seq<Event>): (r: NavState)
    ensures events != [] && events[|events| - 1].Click? ==> r.page == events[|events| - 1].tab
    decreases |events|
  {
    if events == [] then s else Run(Apply(s, events[0]), events[1..])
  }

  /** `n` presses of the same key. */
  function Presses(key: Key, n: nat): (evs: seq<Event>)
    ensures |evs| == n
  {
    if n == 0 then [] else [Press(key)] + Presses(key, n - 1)
  }

  /** No sequence of events leaves the direction outside {1, -1}. */
  lemma {:induction false} RunKeepsValid(s: NavState, events: seq<Event>)
    requires Valid(s)
    ensures Valid(Run(s, events))
    decreases |events|
  {
    if events != [] {
      RunKeepsValid(Apply(s, events[0]), events[1..]);
    }
  }

  /** Every state reachable from the initial one has a sign as direction and
      a page whose index lies in 0..2. */
  lemma Reachable(events: seq<Event>)
    ensures Valid(Run(Initial(), events))
    ensures 0 <= IndexOf(Order, Run(Initial(), events).page) < |Order|
  {
    InitialValid();
    RunKeepsValid(Initial(), events);
    IndexOfPage(Run(Initial(), events).page);
  }

  /** Running two sequences back to back is running their concatenation. */
  lemma {:induction false} RunAppend(s: NavState, a: seq<Event>, b: seq<Event>)
    ensures Run(s, a + b) == Run(Run(s, a), b)
    decreases |a|
  {
    if a != [] {
      assert (a + b)[0] == a[0];
      assert (a + b)[1..] == a[1..] + b;
      RunAppend(Apply(s, a[0]), a[1..], b);
    } else {
      assert a + b == b;
    }
  }

  /** Running `n` presses is one press followed by the other `n - 1`. */
  lemma RunPresses(s: NavState, key: Key, n: nat)
    requires n > 0
    ensures Run(s, Presses(key, n)) == Run(KeyDown(s, key), Presses(key, n - 1))
  {
  }

  /** Two moves of `a` and then `b`, each reduced modulo 3, add up to one move of `a + b`. */
  lemma ComposeMoves(i: int, j: int, k: int, a: int, b: int)
    requires j == (i + a) % 3 && k == (j + b) % 3
    ensures k == (i + a + b) % 3
  {
  }

  /** One press of either arrow moves the index by one, modulo 3 (the length of the tab list). */
  lemma OnePress(s: NavState)
    ensures Index(KeyDown(s, ArrowRight).page) == (Index(s.page) + 1) % 3
    ensures Index(KeyDown(s, ArrowLeft).page) == (Index(s.page) - 1) % 3
  {
  }

  /** The state after pressing `key` `n` times, one keydown after another. */
  function Repeat(s: NavState, key: Key, n: nat): NavState
    decreases n
  {
    if n == 0 then s else Repeat(KeyDown(s, key), key, n - 1)
  }

  /** Replaying `n` presses as events is repeating the keydown handler `n` times. */
  lemma {:induction false} RunPressesIsRepeat(s: NavState, key: Key, n: nat)
    ensures Run(s, Presses(key, n)) == Repeat(s, key, n)
    decreases n
  {
    if n > 0 {
      RunPresses(s, key, n);
      RunPressesIsRepeat(KeyDown(s, key), key, n - 1);
    }
  }

  /** Repeating ArrowRight `n` times advances the page index by `n`, modulo 3. */
  lemma {:induction false} RepeatRight(s: NavState, n: nat)
    ensures Index(Repeat(s, ArrowRight, n).page) == (Index(s.page) + n) % 3
    decreases n
  {
    if n > 0 {
      var t := KeyDown(s, ArrowRight);
      RepeatRight(t, n - 1);
      OnePress(s);
      ComposeMoves(Index(s.page), Index(t.page), Index(Repeat(t, ArrowRight, n - 1).page), 1, n - 1);
    }
  }

  /** Repeating ArrowLeft `n` times moves the page index back by `n`, modulo 3. */
  lemma {:induction false} RepeatLeft(s: NavState, n: nat)
    ensures Index(Repeat(s, ArrowLeft, n).page) == (Index(s.page) - n) % 3
    decreases n
  {
    if n > 0 {
      var t := KeyDown(s, ArrowLeft);
      RepeatLeft(t, n - 1);
      OnePress(s);
      ComposeMoves(Index(s.page), Index(t.page), Index(Repeat(t, ArrowLeft, n - 1).page), -1, 1 - n);
    }
  }

  /** After `n` ArrowRight presses the page index has advanced by `n`, modulo 3
      (the length of the tab list). */
  lemma RightPresses(s: NavState, n: nat)
    ensures Index(Run(s, Presses(ArrowRight, n)).page) == (Index(s.page) + n) % 3
  {
    RunPressesIsRepeat(s, ArrowRight, n);
    RepeatRight(s, n);
  }

  /** After `n` ArrowLeft presses the page index has gone back by `n`, modulo 3. */
  lemma LeftPresses(s: NavState, n: nat)
    ensures Index(Run(s, Presses(ArrowLeft, n)).page) == (Index(s.page) - n) % 3
  {
    RunPressesIsRepeat(s, ArrowLeft, n);
    RepeatLeft(s, n);
  }

  /** Three ArrowRight presses, or three ArrowLeft presses, return to the
      page they started from. */
  lemma ThreePressesReturn(s: NavState)
    ensures Run(s, Presses(ArrowRight, 3)).page == s.page
    ensures Run(s, Presses(ArrowLeft, 3)).page == s.page
  {
  }

  /** Moving the index forward by `n` and then back by `n`, modulo 3,
      restores the page. */
  lemma ForwardBack(s: NavState, mid: NavState, fin: NavState, n: nat)
    requires Index(mid.page) == (Index(s.page) + n) % 3
    requires Index(fin.page) == (Index(mid.page) - n) % 3
    ensures fin.page == s.page
  {
  }

  /** Moving the index back by `n` and then forward by `n`, modulo 3,
      restores the page. */
  lemma BackForward(s: NavState, mid: NavState, fin: NavState, n: nat)
    requires Index(mid.page) == (Index(s.page) - n) % 3
    requires Index(fin.page) == (Index(mid.page) + n) % 3
    ensures fin.page == s.page
  {
  }

  /** `n` ArrowRight presses followed by `n` ArrowLeft presses restore the
      original page. */
  lemma RightsThenLeftsCancel(s: NavState, n: nat)
    ensures Run(s, Presses(ArrowRight, n) + Presses(ArrowLeft, n)).page == s.page
  {
    var r, l := Presses(ArrowRight, n), Presses(ArrowLeft, n);
    RunAppend(s, r, l);
    var mid := Run(s, r);
    RightPresses(s, n);
    LeftPresses(mid, n);
    ForwardBack(s, mid, Run(mid, l), n);
  }

  /** `n` ArrowLeft presses followed by `n` ArrowRight presses restore the
      original page. */
  lemma LeftsThenRightsCancel(s: NavState, n: nat)
    ensures Run(s, Presses(ArrowLeft, n) + Presses(ArrowRight, n)).page == s.page
  {
    var r, l := Presses(ArrowRight, n), Presses(ArrowLeft, n);
    RunAppend(s, l, r);
    var mid := Run(s, l);
    LeftPresses(s, n);
    RightPresses(mid, n);
    BackForward(s, mid, Run(mid, r), n);
  }

  /** A click on any tab, from any state, shows that tab: every page
      is reachable from every other in one event. */
  lemma ClickReachesAnyPage(s: NavState, p: Page)
    ensures Run(s, [Click(p)]).page == p
  {
  }
}
