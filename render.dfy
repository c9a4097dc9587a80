/** The two rendering conditions that depend on the navigator: which tab is
    marked current, and which content section is shown. */
module Render {
  import opened Pages

  /** `p === page`: the tab gets the current-tab style and `aria-current`. */
  predicate TabMarked(p: Page, current: Page)
    ensures TabMarked(p, current) <==> Index(p) == Index(current)
  {
    p == current
  }

  /** The three content sections, each rendered under its own condition. */
  datatype Section = AboutSection | ProjectsSection | ContactSection

  /** The section each page renders (its `key`). */
  function SectionOf(p: Page): Section {
    match p
    case About => AboutSection
    case Projects => ProjectsSection
    case Contact => ContactSection
  }

  /** `page === "About"`, `page === "Projects"`, `page === "Contact"`: a
      section is on screen exactly when it belongs to the current page. */
  predicate Shown(sec: Section, current: Page)
    ensures Shown(sec, current) <==> sec == SectionOf(current)
  {
    match sec
    case AboutSection => current == About
    case ProjectsSection => current == Projects
    case ContactSection => current == Contact
  }

  /** The marks of the tab strip, in tab order. */
  function TabMarks(current: Page): (m: seq<bool>)
    ensures |m| == |Order|
    ensures forall k :: 0 <= k < |m| ==> (m[k] <==> Order[k] == current)
  {
    seq(|Order|, k requires 0 <= k < |Order| => TabMarked(Order[k], current))
  }

  /** Whether each section is on screen, in render order. */
  function SectionsShown(current: Page): (m: seq<bool>)
    ensures |m| == |Order|
    ensures forall k :: 0 <= k < |m| ==> (m[k] <==> k == Index(current))
  {
    [Shown(AboutSection, current), Shown(ProjectsSection, current), Shown(ContactSection, current)]
  }

  /** The number of `true` entries. */
  function CountTrue(m: seq<bool>): (n: nat)
    ensures n <= |m|
  {
    if m == [] then 0 else (if m[0] then 1 else 0) + CountTrue(m[1..])
  }

  /** A three-entry sequence has exactly one `true` iff exactly one of its
      entries is `true`. */
  lemma CountTrueOfThree(m: seq<bool>)
    requires |m| == 3
    ensures CountTrue(m) == 1 <==>
      (m[0] && !m[1] && !m[2]) || (!m[0] && m[1] && !m[2]) || (!m[0] && !m[1] && m[2])
  {
    var tail1, tail2 := m[1..], m[2..];
    assert tail1[1..] == tail2 && tail2[1..] == [];
    assert CountTrue(tail2) == (if m[2] then 1 else 0);
    assert CountTrue(tail1) == (if m[1] then 1 else 0) + CountTrue(tail2);
  }

  /** Exactly one tab is marked, and it is the one at the current page's index. */
  lemma ExactlyOneTabMarked(current: Page)
    ensures CountTrue(TabMarks(current)) == 1
    ensures TabMarks(current)[Index(current)]
  {
    IndexValues();
    CountTrueOfThree(TabMarks(current));
  }

  /** Exactly one section is shown, and it is the current page's section. */
  lemma ExactlyOneSectionShown(current: Page)
    ensures CountTrue(SectionsShown(current)) == 1
    ensures SectionsShown(current)[Index(current)]
  {
  }
}
