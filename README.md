# Portfolio page navigator, modelled in Dafny

The portfolio is a single client-rendered page with three tabs, About,
Projects and Contact. It shows one section at a time and slides sections in
and out when the tab changes. The only logic is its navigator. The navigator
keeps two state cells: the current `page` (initially About) and a direction
sign `dir` (initially 1).
- `go(next)` sets `dir` to 1 when `next` comes later on the tab list than the
  current page, and to -1 otherwise. It then makes `next` current.
- A keydown handler calls `go` on the cyclic successor for `ArrowRight` and
  on the cyclic predecessor for `ArrowLeft`.
- The slide animation uses only the sign of `dir`: sections enter and exit
  at an x-offset of +12 or -12.

This project models that navigator and proves what it promises.

- `pages.dfy` (module `Pages`): the `Page` enumeration and the ordered tab
  list `Order`. Also array `indexOf` as a generic function, the page position
  `Index`, and the cyclic successor and predecessor indices.
- `swipe.dfy` (module `Swipe`): the enter and exit x-offsets.
- `navigator.dfy` (module `Navigator`):
  - the state `NavState` and its invariant `Valid` (the direction is 1 or -1);
  - `Select` (what `go` does) and `KeyDown` (what the keydown handler does), as
    functions over values;
  - the class `Portfolio`, whose fields are the two state cells and whose
    methods `Go` and `OnKey` update them. Each method is proved equal to its
    function.
- `render.dfy` (module `Render`): whether a tab is marked current, and
  whether a section is shown.
- `session.dfy` (module `Session`): sequences of input events (tab clicks and
  classified key presses) applied one at a time, as the browser's event loop
  delivers them. Lemmas by induction cover any number of presses.

Two facts of the code are easy to miss:
- Selecting the page that is already current sets `dir` to -1. It does not
  leave the direction unchanged.
- The direction after an arrow key comes from comparing the two indices, not
  from the key. So `ArrowRight` from Contact wraps to About with `dir == -1`,
  and `ArrowLeft` from About wraps to Contact with `dir == 1`.

The component has no dark/light theme: its header comment
(src/components/Portfolio.tsx:9) says the toggle was removed.

## Model

| member | source | states |
|---|---|---|
| `Pages.IndexOf` | src/components/Portfolio.tsx:70-71 | `indexOf` returns -1 exactly when the element is absent. Otherwise it returns an in-range position that holds the element, with no earlier occurrence. |
| `Pages.InOrder` | src/components/Portfolio.tsx:21-22 | Every `Page` value is on the tab list. |
| `Pages.IndexOfPage` | src/components/Portfolio.tsx:70-71 | `pages.indexOf(p)` for a page is never -1. It equals the page's position, and the list holds `p` at that position. |
| `Pages.Index` | src/components/Portfolio.tsx:21-22 | A page's position is one of 0, 1, 2. |
| `Pages.PageAt` | src/components/Portfolio.tsx:21-22 | The page stored at position k has position k, so position and page are inverse. |
| `Pages.IndexInjective` | src/components/Portfolio.tsx:21-22 | Two pages have the same position only if they are the same page. |
| `Pages.Next` | src/components/Portfolio.tsx:80 | `(i + 1) % pages.length` is the next index, except that the last index wraps to 0. |
| `Pages.Prev` | src/components/Portfolio.tsx:84 | `(i - 1 + pages.length) % pages.length` is the previous index, except that index 0 wraps to the last. |
| `Pages.PrevNext` | src/components/Portfolio.tsx:78-85 | The predecessor undoes the successor, and the successor undoes the predecessor. |
| `Pages.NextPeriod` | src/components/Portfolio.tsx:78-85 | Three successor steps, or three predecessor steps, return to the starting index. |
| `Swipe.EnterX` | src/components/Portfolio.tsx:25 | The enter offset is ±12. It is positive exactly when the direction is positive. |
| `Swipe.ExitX` | src/components/Portfolio.tsx:27 | The exit offset is ±12. It is positive exactly when the direction is negative. |
| `Swipe.ExitMirrorsEnter` | src/components/Portfolio.tsx:24-28 | For d in {1, -1}, the exit offset is the negation of the enter offset: +12/-12 for 1 and -12/+12 for -1. |
| `Swipe.ZeroIsNotMirrored` | src/components/Portfolio.tsx:24-28 | At d = 0 both offsets are -12. The mirror property needs the direction invariant. |
| `Navigator.Initial` | src/components/Portfolio.tsx:66-67 | `useState("About")` and `useState(1)`: the component starts on the first tab (index 0), moving forward, with a valid direction. |
| `Navigator.InitialValid` | src/components/Portfolio.tsx:66-67 | The initial state is About with direction 1. It satisfies the invariant, and its page has index 0. |
| `Navigator.Direction` | src/components/Portfolio.tsx:72 | The direction is 1 or -1, and it is 1 exactly when the target index is strictly greater. |
| `Navigator.Select` | src/components/Portfolio.tsx:69-74 | `go(next)` always makes `next` current and never rejects. The new direction is 1 if and only if `next` comes later than the old page, and -1 otherwise. |
| `Navigator.ReselectGoesBackward` | src/components/Portfolio.tsx:70-72 | Selecting the current page keeps the page and sets the direction to -1, whatever it was before. |
| `Navigator.SelectAllPairs` | src/components/Portfolio.tsx:69-74 | For all nine (from, to) pairs, the new page is `to`. Direction 1 results exactly for About→Projects, About→Contact and Projects→Contact. |
| `Navigator.Successor` | src/components/Portfolio.tsx:79-80 | The page `ArrowRight` targets has the cyclic successor index of the current page. |
| `Navigator.Predecessor` | src/components/Portfolio.tsx:83-84 | The page `ArrowLeft` targets has the cyclic predecessor index of the current page. |
| `Navigator.Classify` | src/components/Portfolio.tsx:78-82 | A key name is treated as ArrowRight exactly when it equals `"ArrowRight"`, and as ArrowLeft exactly when it equals `"ArrowLeft"`. |
| `Navigator.KeyDown` | src/components/Portfolio.tsx:77-86 | ArrowRight moves to the successor index and ArrowLeft to the predecessor index. After either, the direction is 1 exactly when the new index is greater. Any other key leaves page and direction unchanged. The direction invariant is kept. |
| `Navigator.RightWraps` | src/components/Portfolio.tsx:78-81 | `ArrowRight` from Contact gives About with direction -1, whatever the previous direction. |
| `Navigator.LeftWraps` | src/components/Portfolio.tsx:82-85 | `ArrowLeft` from About gives Contact with direction 1. |
| `Navigator.KeyDirection` | src/components/Portfolio.tsx:72-85 | `ArrowRight` gives direction 1 except from Contact, where it gives -1. `ArrowLeft` gives -1 except from About, where it gives 1. |
| `Navigator.LeftUndoesRight` | src/components/Portfolio.tsx:77-86 | `ArrowRight` then `ArrowLeft`, or the reverse, restores the original page. |
| `Navigator.ThreeRightsFromAbout` | src/components/Portfolio.tsx:78-81 | From the initial state, three `ArrowRight` presses visit Projects (dir 1), Contact (dir 1) and About (dir -1). |
| `Navigator.Portfolio.constructor` | src/components/Portfolio.tsx:66-67 | The component starts on About with direction 1. |
| `Navigator.Portfolio.Go` | src/components/Portfolio.tsx:69-74 | The method computes both `indexOf` values and updates `dir` and `page`, ending in exactly the state `Select` gives. |
| `Navigator.Portfolio.OnKey` | src/components/Portfolio.tsx:77-86 | The handler, with its two separate key tests and its `%` arithmetic over the list length, ends in exactly the state `KeyDown` of the classified key gives. It keeps the direction invariant. |
| `Navigator.KeyboardTour` | src/components/Portfolio.tsx:78-81 | A new component given three `ArrowRight` keydowns ends on About with direction -1. |
| `Render.TabMarked` | src/components/Portfolio.tsx:116-118 | `p === page`: a tab is styled current and given `aria-current` exactly when it has the current page's index. |
| `Render.TabMarks` | src/components/Portfolio.tsx:116-118 | Tab k is styled and `aria-current` exactly when the page at position k is the current page. |
| `Render.ExactlyOneTabMarked` | src/components/Portfolio.tsx:111-118 | Exactly one tab is marked current: the one at the current page's index. |
| `Render.Shown` | src/components/Portfolio.tsx:130-216 | The three `page === "…"` conditions: a section is rendered exactly when it is the section of the current page. |
| `Render.SectionsShown` | src/components/Portfolio.tsx:130-216 | In render order, entry k says whether section k is on screen. It is true exactly at the current page's index. |
| `Render.ExactlyOneSectionShown` | src/components/Portfolio.tsx:130-216 | Of the three conditionally rendered sections, exactly one is shown: the current page's. |
| `Session.Apply` | src/components/Portfolio.tsx:114 | A tab click makes that tab current. Every event keeps the direction invariant. |
| `Session.Run` | src/components/Portfolio.tsx:77-114 | Handling input events one at a time, in delivery order. When the last event is a tab click, that tab is the current page. |
| `Session.RunKeepsValid` | src/components/Portfolio.tsx:66-74 | No sequence of clicks and keys moves the direction outside {1, -1}. |
| `Session.Reachable` | src/components/Portfolio.tsx:66-74 | Every state reached from the initial one has direction 1 or -1, and its page's `indexOf` lies in 0..2, never -1. |
| `Session.RunAppend` | src/components/Portfolio.tsx:77-86 | Handling two event sequences one after the other is the same as handling their concatenation. |
| `Session.RightPresses` | src/components/Portfolio.tsx:78-81 | After n `ArrowRight` presses, the page index is (i + n) mod 3. |
| `Session.LeftPresses` | src/components/Portfolio.tsx:82-85 | After n `ArrowLeft` presses, the page index is (i - n) mod 3. |
| `Session.ThreePressesReturn` | src/components/Portfolio.tsx:78-85 | Three presses of the same arrow return to the starting page. |
| `Session.RightsThenLeftsCancel` | src/components/Portfolio.tsx:77-86 | n `ArrowRight` presses followed by n `ArrowLeft` presses restore the page. |
| `Session.LeftsThenRightsCancel` | src/components/Portfolio.tsx:77-86 | n `ArrowLeft` presses followed by n `ArrowRight` presses restore the page. |
| `Session.ClickReachesAnyPage` | src/components/Portfolio.tsx:114 | From any state, one click reaches any page: the three states are fully connected. |

## Left out

- JSX markup, CSS classes, icons and the map embed (src/components/Portfolio.tsx:91-315) are presentational. Only the two conditions that depend on the navigator are modelled: tab marking and which section is shown.
- Framer-motion spring parameters and opacity values are floating-point animation inside a library outside this model. Only the integer ±12 sign rule of `swipe` is kept.
- Registering and removing the keydown listener, and `useEffect` re-registering it when `page` changes (src/components/Portfolio.tsx:76, 87-89), are browser and framework plumbing. Because the listener is re-registered on every page change, the handler always sees the current page. `OnKey` models this by reading the object's current `page`.
- React batches `setDir` and `setPage` and applies both before the next render. The model applies them immediately. No code reads the state between the two calls, so the result is the same.
- JavaScript's `%` truncates toward zero and Dafny's `%` is Euclidean. The two agree here, because both operands are never negative (`i + 1` and `i - 1 + 3` with `i` in 0..2).
- Key events are modelled by their key name. `Session` works on already classified keys, and `Navigator.Classify` performs the handler's two string comparisons.
- The static content tables (links, experience, projects) are inert data, and so is the footer's current year: a clock read.
- The component has no theme persistence: its header comment (src/components/Portfolio.tsx:9) says the toggle was removed. In addition, `src/app/layout.tsx` and `next.config.mjs` have no behaviour.
