/** The header's scroll reaction (`handleScroll`): the header gets `hidden`
    once the page is scrolled more than 35 px down, and `scrolled` once it is
    scrolled past the bottom of the main section less 100 px. The second rule
    applies only when the page has both a `main` element and a
    `.box-content`; otherwise `scrolled` is left as it is. The handler runs
    once when the page is ready and again on every scroll event. Whether the
    two elements exist is settled once, when the page is ready; the main
    section's geometry is read afresh on every call. */
module HeaderScroll {
  /** Scroll offset beyond which the header hides. */
  const HideAfter: int := 35

  /** How far before the bottom of the main section `scrolled` turns on. */
  const ScrolledMargin: int := 100

  /** The main section's layout box, in CSS pixels, as `handleScroll` reads
      it on one call. */
  datatype Geometry = Geometry(offsetTop: int, offsetHeight: int)

  /** Which of the elements looked up once, when the page is ready, exist:
      `main` and `.box-content`. */
  datatype Layout = Layout(hasMain: bool, hasBoxContent: bool)

  /** One call of `handleScroll`: `window.scrollY` and the main section's
      geometry at that moment (ignored when the page has no `main`). */
  datatype Scroll = Scroll(y: int, main: Geometry)

  /** The header's two classes the handler manages. */
  datatype Classes = Classes(hidden: bool, scrolled: bool)

  function MainBottom(g: Geometry): int
  {
    g.offsetTop + g.offsetHeight
  }

  /** Whether the `scrolled` rule applies to this page. */
  predicate Tracked(l: Layout)
  {
    l.hasMain && l.hasBoxContent
  }

  /** One run of `handleScroll`. */
  function React(h: Classes, s: Scroll, l: Layout): (r: Classes)
    ensures r.hidden <==> s.y > HideAfter
    ensures Tracked(l) ==> (r.scrolled <==> s.y > MainBottom(s.main) - ScrolledMargin)
    ensures !Tracked(l) ==> r.scrolled == h.scrolled
  {
    Classes(s.y > HideAfter, if Tracked(l) then s.y > MainBottom(s.main) - ScrolledMargin else h.scrolled)
  }

  /** The handler run at each call of `ss` in turn. */
  function Replay(h: Classes, ss: seq<Scroll>, l: Layout): (r: Classes)
    ensures ss != [] ==> (r.hidden <==> ss[|ss| - 1].y > HideAfter)
    ensures !Tracked(l) ==> r.scrolled == h.scrolled
    decreases |ss|
  {
    if ss == [] then h else Replay(React(h, ss[0], l), ss[1..], l)
  }

  /** Running the handler again at the same offset changes nothing. */
  lemma ReactIdempotent(h: Classes, s: Scroll, l: Layout)
    ensures React(React(h, s, l), s, l) == React(h, s, l)
  {
  }

  /** After any run of scroll events the header shows exactly what the last
      call calls for, with the offset and geometry of that call: earlier
      calls leave no trace, and on a page without the main section or
      `.box-content`, `scrolled` is never touched. */
  lemma {:induction false} LastScrollWins(h: Classes, ss: seq<Scroll>, l: Layout)
    requires ss != []
    ensures Replay(h, ss, l) == React(h, ss[|ss| - 1], l)
    decreases |ss|
  {
    if |ss| > 1 {
      LastScrollWins(React(h, ss[0], l), ss[1..], l);
      assert ss[1..][|ss[1..]| - 1] == ss[|ss| - 1];
    }
  }

  /** Without a main section and a `.box-content`, `scrolled` keeps its value
      through any scroll events. */
  lemma {:induction false} UntrackedKeepsScrolled(h: Classes, ss: seq<Scroll>, l: Layout)
    requires !Tracked(l)
    ensures Replay(h, ss, l).scrolled == h.scrolled
    decreases |ss|
  {
    if ss != [] {
      UntrackedKeepsScrolled(React(h, ss[0], l), ss[1..], l);
    }
  }

  lemma {:induction false} ReplaySnoc(h: Classes, ss: seq<Scroll>, s: Scroll, l: Layout)
    ensures Replay(h, ss + [s], l) == React(Replay(h, ss, l), s, l)
    decreases |ss|
  {
    if ss == [] {
      assert [s][1..] == [];
    } else {
      assert (ss + [s])[1..] == ss[1..] + [s];
      ReplaySnoc(React(h, ss[0], l), ss[1..], s, l);
    }
  }

  /** The `header` element, as far as the handler sees it. */
  class Header {
    var hidden: bool
    var scrolled: bool

    function Current(): Classes
      reads this
    {
      Classes(hidden, scrolled)
    }

    /** The header as the markup delivers it. */
    constructor (initial: Classes)
      ensures Current() == initial
    {
      hidden := initial.hidden;
      scrolled := initial.scrolled;
    }

    /** `handleScroll` with offset `s.y` and the geometry `s.main` read on
        this call. */
    method HandleScroll(s: Scroll, l: Layout)
      modifies this
      ensures Current() == React(old(Current()), s, l)
    {
      if s.y > HideAfter {
        hidden := true;
      } else {
        hidden := false;
      }
      if l.hasMain && l.hasBoxContent {
        var mainBottom := s.main.offsetTop + s.main.offsetHeight;
        if s.y > mainBottom - ScrolledMargin {
          scrolled := true;
        } else {
          scrolled := false;
        }
      }
    }

    /** The initial check `s0` when the page is ready, then one run per
        scroll event, `ss`. */
    method Attach(s0: Scroll, ss: seq<Scroll>, l: Layout)
      modifies this
      ensures Current() == Replay(old(Current()), [s0] + ss, l)
      ensures Current() == React(old(Current()), if ss == [] then s0 else ss[|ss| - 1], l)
    {
      ghost var start := Current();
      HandleScroll(s0, l);
      for i := 0 to |ss|
        invariant Current() == Replay(start, [s0] + ss[..i], l)
      {
        ReplaySnoc(start, [s0] + ss[..i], ss[i], l);
        assert [s0] + ss[..i] + [ss[i]] == [s0] + ss[..i + 1];
        HandleScroll(ss[i], l);
      }
      assert ss[..|ss|] == ss;
      LastScrollWins(start, [s0] + ss, l);
    }
  }
}
