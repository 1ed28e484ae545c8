/** The scroll-reveal animations: ten IntersectionObserver callbacks and the
    `initialize*` functions that register elements with them.

    Each observed element goes through the same steps. When its observer
    reports it intersecting and it has neither `is-visible` nor (except for
    section titles) `animation-completed`, the callback stops observing it and
    queues an animation-frame callback. That callback adds `is-visible` and,
    except for section titles, starts a timer whose expiry adds
    `animation-completed`. The timer's delay depends on the observer.

    The browser hands the callback the entries of the elements it observes
    when it takes the batch; stopping observation inside the callback does
    not remove the later entries of the same batch, and the callback's guard
    does not ask whether the element is still observed. Two intersecting
    entries for one element in one batch therefore queue two reveals.

    Elements are records in a sequence, numbered in registration order.
    Pending animation-frame callbacks and timers are kept per element, as a
    count and a list of due times, so that a second reveal shows up as a
    second callback rather than vanish. Time is an integer number of
    milliseconds. */
module RevealTracker {
  import opened Wrappers

  /** The ten observers, one per element kind. */
  datatype Category =
    | SectionTitle | RecommendItem | AboutImage | IphoneItem | EviItem
    | AdPanel | MobileAdPanel | StepItem | TestimonialCard | QaItem

  /** The order in which the load handler calls the `initialize*` functions. */
  const LoadOrder: seq<Category> :=
    [SectionTitle, RecommendItem, AboutImage, IphoneItem, EviItem,
     AdPanel, MobileAdPanel, StepItem, TestimonialCard, QaItem]

  /** The selector each `initialize*` function queries. */
  function Selector(c: Category): string
  {
    match c
    case SectionTitle => ".section-title"
    case RecommendItem => ".recommend-item"
    case AboutImage => ".about"
    case IphoneItem => ".iphone-item"
    case EviItem => ".evi-item"
    case AdPanel => ".ad-panel"
    case MobileAdPanel => ".mobile-ad-panel"
    case StepItem => ".step-item"
    case TestimonialCard => ".testimonial-card"
    case QaItem => ".qa-item"
  }

  /** The delay of the timer that adds `animation-completed`, in ms; section
      titles start no such timer. */
  function CompletionDelay(c: Category): (d: Option<nat>)
    ensures d.None? <==> c == SectionTitle
    ensures d.Some? ==> d.value > 0
  {
    match c
    case SectionTitle => None
    case RecommendItem => Some(1200)
    case AboutImage => Some(1500)
    case IphoneItem => Some(1200)
    case EviItem => Some(1500)
    case AdPanel => Some(1500)
    case MobileAdPanel => Some(1500)
    case StepItem => Some(1500)
    case TestimonialCard => Some(1200)
    case QaItem => Some(1200)
  }

  /** Whether the observer's guard also tests `animation-completed`: every
      observer but the section-title one does. */
  predicate GuardsCompleted(c: Category)
  {
    c != SectionTitle
  }

  /** Whether the `initialize*` function first writes `visibility: hidden`,
      `opacity: 0` and a translate into the element's inline style. */
  predicate PresetsHidden(c: Category)
  {
    c in {RecommendItem, IphoneItem, EviItem, TestimonialCard, QaItem}
  }

  /** One registered element. `visible` and `completed` are the classes
      `is-visible` and `animation-completed`; `framesPending` counts its queued
      animation-frame callbacks and `timers` holds the due times of its
      pending completion timers; `revealCount` counts the callbacks that have
      added `is-visible`; `shownAt` and `doneAt` record when each class was
      first added. */
  datatype Item = Item(
    category: Category,
    styledHidden: bool,
    observed: bool,
    visible: bool,
    completed: bool,
    framesPending: nat,
    timers: seq<int>,
    revealCount: nat,
    shownAt: Option<int>,
    doneAt: Option<int>)

  /** One IntersectionObserver entry: the element it is about and its
      `isIntersecting`. */
  datatype Entry = Entry(target: nat, isIntersecting: bool)

  /** All registered elements and the current time. */
  datatype Tracker = Tracker(items: seq<Item>, now: int)

  /** What happens on the page: an element registered by an `initialize*`
      function, a batch of observer entries, an animation frame, or time
      passing. */
  datatype Event =
    | Register(category: Category)
    | Intersections(entries: seq<Entry>)
    | AnimationFrame
    | Elapse(ms: nat)

  /** Nothing registered, at time 0. */
  function Initial(): Tracker
  {
    Tracker([], 0)
  }

  /** An element just passed to `observe`. */
  function Registered(c: Category): Item
  {
    Item(c, PresetsHidden(c), true, false, false, 0, [], 0, None, None)
  }

  /** The callback's guard, apart from `isIntersecting`. */
  predicate Untouched(it: Item)
  {
    !it.visible && (GuardsCompleted(it.category) ==> !it.completed)
  }

  /** The callback on one entry for `it`: when the entry intersects and the
      element is untouched, one more reveal is queued and observation
      stops. Whether the element is still observed is not tested. */
  function OnEntry(it: Item, isIntersecting: bool): (r: Item)
    ensures r.framesPending == it.framesPending + (if isIntersecting && Untouched(it) then 1 else 0)
    ensures r.observed <==> it.observed && !(isIntersecting && Untouched(it))
    ensures r.(observed := it.observed, framesPending := it.framesPending) == it
  {
    if isIntersecting && Untouched(it) then
      it.(observed := false, framesPending := it.framesPending + 1)
    else
      it
  }

  function Deliver(items: seq<Item>, e: Entry): (r: seq<Item>)
    ensures |r| == |items|
  {
    if e.target < |items| then items[e.target := OnEntry(items[e.target], e.isIntersecting)]
    else items
  }

  /** `entries.forEach(...)`: the callback on each entry of a batch, in order. */
  function DeliverAll(items: seq<Item>, entries: seq<Entry>): (r: seq<Item>)
    ensures |r| == |items|
    ensures forall i :: 0 <= i < |items| ==>
      && r[i].(observed := items[i].observed, framesPending := items[i].framesPending) == items[i]
      && r[i].framesPending >= items[i].framesPending
    decreases |entries|
  {
    if entries == [] then items
    else DeliverAll(Deliver(items, entries[0]), entries[1..])
  }

  /** The batch the browser hands the callback: the entries, in order, about
      elements observed when the batch is taken. */
  function Batch(items: seq<Item>, entries: seq<Entry>): (r: seq<Entry>)
    ensures forall e :: e in r <==> e in entries && e.target < |items| && items[e.target].observed
    decreases |entries|
  {
    if entries == [] then []
    else
      (if entries[0].target < |items| && items[entries[0].target].observed then [entries[0]] else [])
      + Batch(items, entries[1..])
  }

  /** The queued animation-frame callbacks of `it`, run at time `now`: each
      adds `is-visible` and starts the completion timer. */
  function RunFrames(it: Item, now: int): (r: Item)
    ensures r.revealCount == it.revealCount + it.framesPending && r.framesPending == 0
    ensures r.visible <==> it.visible || it.framesPending > 0
    ensures r.completed == it.completed && r.doneAt == it.doneAt && r.observed == it.observed
    ensures r.shownAt == if it.shownAt.None? && it.framesPending > 0 then Some(now) else it.shownAt
    ensures CompletionDelay(it.category).Some? ==>
      r.timers == it.timers + seq(it.framesPending, _ => now + CompletionDelay(it.category).value)
    ensures CompletionDelay(it.category).None? ==> r.timers == it.timers
  {
    if it.framesPending == 0 then it
    else
      var n := it.framesPending;
      it.(visible := true,
          framesPending := 0,
          revealCount := it.revealCount + n,
          shownAt := if it.shownAt.Some? then it.shownAt else Some(now),
          timers := match CompletionDelay(it.category)
                    case None => it.timers
                    case Some(d) => it.timers + seq(n, _ => now + d))
  }

  /** The due times among `ts` that have been reached at time `at`. */
  function Due(ts: seq<int>, at: int): (r: seq<int>)
    ensures forall x :: x in r ==> x in ts && x <= at
  {
    if ts == [] then []
    else (if ts[0] <= at then [ts[0]] else []) + Due(ts[1..], at)
  }

  /** The due times among `ts` still in the future at time `at`. */
  function Later(ts: seq<int>, at: int): (r: seq<int>)
    ensures forall x :: x in r ==> x in ts && x > at
  {
    if ts == [] then []
    else (if ts[0] > at then [ts[0]] else []) + Later(ts[1..], at)
  }

  /** The completion timers of `it` that expire by time `at`: each adds
      `animation-completed`. */
  function FireDue(it: Item, at: int): (r: Item)
    ensures r.completed <==> it.completed || exists x :: x in it.timers && x <= at
    ensures forall x :: x in r.timers ==> x in it.timers && x > at
    ensures it.doneAt.Some? ==> r.doneAt == it.doneAt
    ensures r.(completed := it.completed, timers := it.timers, doneAt := it.doneAt) == it
  {
    var due := Due(it.timers, at);
    DueComplete(it.timers, at);
    if due == [] then it
    else
      it.(completed := true,
          timers := Later(it.timers, at),
          doneAt := if it.doneAt.Some? then it.doneAt else Some(due[0]))
  }

  lemma {:induction false} DueComplete(ts: seq<int>, at: int)
    ensures Due(ts, at) == [] <==> forall x :: x in ts ==> x > at
  {
    if ts != [] {
      DueComplete(ts[1..], at);
      assert ts == [ts[0]] + ts[1..];
      if ts[0] <= at {
        assert Due(ts, at)[0] == ts[0] && ts[0] in ts;
      } else {
        assert Due(ts, at) == Due(ts[1..], at);
        assert forall x :: x in ts <==> x == ts[0] || x in ts[1..];
      }
    }
  }

  function Step(t: Tracker, e: Event): (r: Tracker)
    ensures |r.items| == |t.items| + (if e.Register? then 1 else 0)
    ensures r.now == t.now + (if e.Elapse? then e.ms else 0)
    ensures e.Register? ==> r.items == t.items + [Registered(e.category)]
  {
    match e
    case Register(c) => t.(items := t.items + [Registered(c)])
    case Intersections(entries) => t.(items := DeliverAll(t.items, Batch(t.items, entries)))
    case AnimationFrame =>
      t.(items := seq(|t.items|, i requires 0 <= i < |t.items| => RunFrames(t.items[i], t.now)))
    case Elapse(ms) =>
      var at := t.now + ms;
      Tracker(seq(|t.items|, i requires 0 <= i < |t.items| => FireDue(t.items[i], at)), at)
  }

  function Run(t: Tracker, es: seq<Event>): Tracker
    decreases |es|
  {
    if es == [] then t else Run(Step(t, es[0]), es[1..])
  }

  /** `n` completion timers all due at `x`. */
  function Pending(n: nat, x: int): seq<int>
  {
    seq(n, _ => x)
  }

  lemma {:induction false} DueSame(n: nat, x: int, at: int)
    ensures Due(Pending(n, x), at) == if x <= at then Pending(n, x) else []
    ensures Later(Pending(n, x), at) == if x <= at then [] else Pending(n, x)
  {
    if n > 0 {
      DueSame(n - 1, x, at);
      assert Pending(n, x)[1..] == Pending(n - 1, x);
      assert Pending(n, x) == [x] + Pending(n - 1, x);
    }
  }

  // ---------------------------------------------------------------------------
  // The invariant every reachable state keeps

  /** What holds of each element at time `now`: an observed element has no
      reveal, run or queued; an unobserved one has at least one; reveals are
      queued only before the first one runs, so they all run in the same
      frame; `animation-completed` only follows `is-visible`, and exactly
      the category's delay later; section titles never complete; the
      pending completion timers are the ones started with `is-visible`, one
      per reveal, all due at the same time. */
  ghost predicate ItemOk(it: Item, now: int)
  {
    && (it.observed ==> it.revealCount == 0 && it.framesPending == 0)
    && (!it.observed ==> it.revealCount + it.framesPending >= 1)
    && (it.revealCount > 0 ==> it.framesPending == 0)
    && (it.visible <==> it.revealCount > 0)
    && (it.visible <==> it.shownAt.Some?)
    && (it.shownAt.Some? ==> it.shownAt.value <= now)
    && (it.completed ==> it.visible)
    && (it.completed <==> it.doneAt.Some?)
    && (it.styledHidden <==> PresetsHidden(it.category))
    && match CompletionDelay(it.category)
       case None => !it.completed && it.timers == []
       case Some(d) =>
         && (!it.visible ==> it.timers == [])
         && (it.visible && !it.completed ==>
               it.timers == Pending(it.revealCount, it.shownAt.value + d) && it.shownAt.value + d > now)
         && (it.completed ==> it.timers == [] && it.doneAt == Some(it.shownAt.value + d))
  }

  ghost predicate Inv(t: Tracker)
  {
    forall i :: 0 <= i < |t.items| ==> ItemOk(t.items[i], t.now)
  }

  lemma InitialOk()
    ensures Inv(Initial())
  {
  }

  lemma RegisteredOk(c: Category, now: int)
    ensures ItemOk(Registered(c), now)
  {
  }

  lemma OnEntryOk(it: Item, hit: bool, now: int)
    requires ItemOk(it, now)
    ensures ItemOk(OnEntry(it, hit), now)
  {
  }

  lemma {:induction false} DeliverAllOk(items: seq<Item>, entries: seq<Entry>, now: int)
    requires forall i :: 0 <= i < |items| ==> ItemOk(items[i], now)
    ensures var r := DeliverAll(items, entries);
      forall i :: 0 <= i < |r| ==> ItemOk(r[i], now)
    decreases |entries|
  {
    if entries != [] {
      var e := entries[0];
      var next := Deliver(items, e);
      if e.target < |items| {
        OnEntryOk(items[e.target], e.isIntersecting, now);
      }
      assert forall i :: 0 <= i < |next| ==> ItemOk(next[i], now);
      DeliverAllOk(next, entries[1..], now);
      assert DeliverAll(items, entries) == DeliverAll(next, entries[1..]);
    }
  }

  lemma RunFramesOk(it: Item, now: int)
    requires ItemOk(it, now)
    ensures ItemOk(RunFrames(it, now), now)
  {
    if it.framesPending > 0 {
      var n := it.framesPending;
      assert it.revealCount == 0 && !it.visible && it.timers == [];
      if d :| CompletionDelay(it.category) == Some(d) {
        assert [] + seq(n, _ => now + d) == Pending(n, now + d);
      }
    }
  }

  lemma FireDueOk(it: Item, now: int, at: int)
    requires ItemOk(it, now) && now <= at
    ensures ItemOk(FireDue(it, at), at)
  {
    if d :| CompletionDelay(it.category) == Some(d) {
      if it.visible && !it.completed {
        var x := it.shownAt.value + d;
        DueSame(it.revealCount, x, at);
        if x <= at {
          assert Due(it.timers, at)[0] == x;
        }
      }
    }
  }

  lemma RegisterOk(t: Tracker, c: Category)
    requires Inv(t)
    ensures Inv(Step(t, Register(c)))
  {
    RegisteredOk(c, t.now);
  }

  lemma IntersectionsOk(t: Tracker, entries: seq<Entry>)
    requires Inv(t)
    ensures Inv(Step(t, Intersections(entries)))
  {
    var r := Step(t, Intersections(entries));
    var batch := Batch(t.items, entries);
    assert r.items == DeliverAll(t.items, batch) && r.now == t.now;
    DeliverAllOk(t.items, batch, t.now);
    forall i | 0 <= i < |r.items| ensures ItemOk(r.items[i], r.now) {
      assert r.items[i] == DeliverAll(t.items, batch)[i];
    }
  }

  lemma AnimationFrameOk(t: Tracker)
    requires Inv(t)
    ensures Inv(Step(t, AnimationFrame))
  {
    var r := Step(t, AnimationFrame);
    forall i | 0 <= i < |r.items| ensures ItemOk(r.items[i], r.now) {
      RunFramesOk(t.items[i], t.now);
    }
  }

  lemma ElapseOk(t: Tracker, ms: nat)
    requires Inv(t)
    ensures Inv(Step(t, Elapse(ms)))
  {
    var r := Step(t, Elapse(ms));
    forall i | 0 <= i < |r.items| ensures ItemOk(r.items[i], r.now) {
      FireDueOk(t.items[i], t.now, t.now + ms);
    }
  }

  /** Every kind of event keeps the invariant. */
  lemma StepOk(t: Tracker, e: Event)
    requires Inv(t)
    ensures Inv(Step(t, e))
  {
    match e
    case Register(c) => RegisterOk(t, c);
    case Intersections(entries) => IntersectionsOk(t, entries);
    case AnimationFrame => AnimationFrameOk(t);
    case Elapse(ms) => ElapseOk(t, ms);
  }

  lemma {:induction false} RunOk(t: Tracker, es: seq<Event>)
    requires Inv(t)
    ensures Inv(Run(t, es))
    decreases |es|
  {
    if es != [] {
      StepOk(t, es[0]);
      RunOk(Step(t, es[0]), es[1..]);
    }
  }

  // ---------------------------------------------------------------------------
  // What follows for every run of the page

  /** For any sequence of events from page load, every element: is visible
      exactly when some reveal has run; gets `animation-completed` only
      after `is-visible`, exactly its observer's delay later, however many
      reveals ran; and, if a section title, never gets
      `animation-completed`. */
  lemma RevealOrdering(es: seq<Event>, i: nat)
    requires i < |Run(Initial(), es).items|
    ensures var it := Run(Initial(), es).items[i];
      && (it.visible <==> it.revealCount > 0)
      && (it.completed ==> it.visible)
      && (it.completed ==>
            && it.shownAt.Some? && CompletionDelay(it.category).Some?
            && it.doneAt == Some(it.shownAt.value + CompletionDelay(it.category).value))
      && (it.category == SectionTitle ==> !it.completed)
  {
    InitialOk();
    RunOk(Initial(), es);
  }

  /** Classes are never removed and observation never resumes: every step is
      monotone on each element that already exists. */
  lemma StepMonotone(t: Tracker, e: Event, i: nat)
    requires Inv(t) && i < |t.items|
    ensures var a, b := t.items[i], Step(t, e).items[i];
      && a.category == b.category
      && (a.visible ==> b.visible) && (a.completed ==> b.completed)
      && (!a.observed ==> !b.observed)
      && (a.shownAt.Some? ==> b.shownAt == a.shownAt)
      && (a.doneAt.Some? ==> b.doneAt == a.doneAt)
  {
    match e
    case Register(c) =>
    case Intersections(entries) =>
      DeliverAllMonotone(t.items, Batch(t.items, entries), i);
    case AnimationFrame =>
    case Elapse(ms) =>
  }

  lemma {:induction false} DeliverAllMonotone(items: seq<Item>, entries: seq<Entry>, i: nat)
    requires i < |items|
    ensures var a, b := items[i], DeliverAll(items, entries)[i];
      && a.category == b.category && a.visible == b.visible && a.completed == b.completed
      && (!a.observed ==> !b.observed)
      && a.shownAt == b.shownAt && a.doneAt == b.doneAt
    decreases |entries|
  {
    if entries != [] {
      DeliverAllMonotone(Deliver(items, entries[0]), entries[1..], i);
    }
  }

  /** A batch with one entry queues a reveal exactly when the element is
      observed (otherwise the browser delivers no entry for it), the entry
      intersects, and the element is untouched; otherwise the element is
      unchanged. */
  lemma EntryGuard(t: Tracker, e: Entry)
    requires Inv(t) && e.target < |t.items|
    ensures var a, b := t.items[e.target], Step(t, Intersections([e])).items[e.target];
      (b.framesPending > a.framesPending) <==> (a.observed && e.isIntersecting && Untouched(a))
    ensures var a, b := t.items[e.target], Step(t, Intersections([e])).items[e.target];
      !(a.observed && e.isIntersecting && Untouched(a)) ==> b == a
  {
    var batch := Batch(t.items, [e]);
    assert [e][1..] == [];
    assert Batch(t.items, [e][1..]) == [];
    if t.items[e.target].observed {
      assert batch == [e];
      assert DeliverAll(t.items, [e]) == DeliverAll(Deliver(t.items, e), []);
    } else {
      assert batch == [];
    }
  }

  /** A revealed element that has not completed gets `animation-completed`
      when, and only when, the elapsed time reaches its timers, all of
      which are due at its reveal time plus its delay. */
  lemma CompletionTiming(t: Tracker, i: nat, ms: nat)
    requires Inv(t) && i < |t.items|
    requires t.items[i].visible && !t.items[i].completed
    requires t.items[i].category != SectionTitle
    ensures var d := CompletionDelay(t.items[i].category).value;
      Step(t, Elapse(ms)).items[i].completed <==> t.now + ms >= t.items[i].shownAt.value + d
  {
    var it := t.items[i];
    var at := t.now + ms;
    assert ItemOk(it, t.now);
    var d := CompletionDelay(it.category).value;
    var x := it.shownAt.value + d;
    assert it.timers == Pending(it.revealCount, x);
    assert Step(t, Elapse(ms)).items[i] == FireDue(it, at);
    DueSame(it.revealCount, x, at);
    if x <= at {
      assert Due(it.timers, at) != [];
    } else {
      assert Due(it.timers, at) == [];
    }
  }

  /** The callback's guard does not ask whether the element is still
      observed, and stopping observation does not drop the later entries of
      the batch: an element reported intersecting twice in one batch is
      revealed twice by the next frame, which sets two completion timers,
      both due at the same time. Reported once, it is revealed once. */
  lemma EnterAndLeave(c: Category, second: bool)
    ensures var t := Run(Initial(), [Register(c), Intersections([Entry(0, true), Entry(0, second)]), AnimationFrame]);
      var n := if second then 2 else 1;
      && |t.items| == 1 && t.items[0].visible && !t.items[0].observed
      && t.items[0].revealCount == n && t.items[0].shownAt == Some(0)
      && (c != SectionTitle ==> t.items[0].timers == Pending(n, CompletionDelay(c).value))
  {
    var batch := [Entry(0, true), Entry(0, second)];
    var es := [Register(c), Intersections(batch), AnimationFrame];
    var n := if second then 2 else 1;
    var t0 := Tracker([Registered(c)], 0);
    assert Step(Initial(), Register(c)) == t0;
    var x := Registered(c).(observed := false, framesPending := n);
    BatchTwice(c, second);
    var t1 := Tracker([x], 0);
    assert Step(t0, Intersections(batch)) == t1;
    FrameOfOne(x, 0);
    RunThree(Initial(), es);
    if c != SectionTitle {
      assert [] + seq(n, _ => 0 + CompletionDelay(c).value) == Pending(n, CompletionDelay(c).value);
    }
  }

  lemma FrameOfOne(x: Item, now: int)
    ensures Step(Tracker([x], now), AnimationFrame) == Tracker([RunFrames(x, now)], now)
  {
    var r := Step(Tracker([x], now), AnimationFrame);
    assert r.items[0] == RunFrames(x, now);
  }

  lemma RunThree(t: Tracker, es: seq<Event>)
    requires |es| == 3
    ensures Run(t, es) == Step(Step(Step(t, es[0]), es[1]), es[2])
  {
    var t1 := Step(t, es[0]);
    var t2 := Step(t1, es[1]);
    assert es[1..][0] == es[1] && es[1..][1..] == es[2..];
    assert es[2..][0] == es[2] && es[2..][1..] == [];
    assert Run(t, es) == Run(t1, es[1..]);
    assert Run(t1, es[1..]) == Run(t2, es[2..]);
  }

  /** The batch of `EnterAndLeave`: both entries are delivered, and each
      intersecting one queues a reveal. */
  lemma BatchTwice(c: Category, second: bool)
    ensures var batch := [Entry(0, true), Entry(0, second)];
      Step(Tracker([Registered(c)], 0), Intersections(batch)).items
        == [Registered(c).(observed := false, framesPending := if second then 2 else 1)]
  {
    var items := [Registered(c)];
    var batch := [Entry(0, true), Entry(0, second)];
    assert Batch(items, batch) == batch by {
      assert batch[1..][1..] == [];
      assert Batch(items, batch[1..][1..]) == [];
      assert Batch(items, batch[1..]) == [batch[1]];
    }
    var d1 := Deliver(items, Entry(0, true));
    var d2 := Deliver(d1, Entry(0, second));
    assert DeliverAll(items, batch) == DeliverAll(d1, batch[1..]);
    assert DeliverAll(d1, batch[1..]) == DeliverAll(d2, []);
  }

  // ---------------------------------------------------------------------------
  // The guard as evidently intended

  /** The guard with the test the code leaves out: an entry reveals the
      element only while it is still observed, so a later entry of the same
      batch cannot queue a second reveal. */
  function OnEntryOnce(it: Item, isIntersecting: bool): (r: Item)
    ensures !it.observed ==> r == it
    ensures it.observed ==> r == OnEntry(it, isIntersecting)
  {
    if it.observed then OnEntry(it, isIntersecting) else it
  }

  function DeliverAllOnce(items: seq<Item>, entries: seq<Entry>): (r: seq<Item>)
    ensures |r| == |items|
    decreases |entries|
  {
    if entries == [] then items
    else
      var e := entries[0];
      var next := if e.target < |items| then items[e.target := OnEntryOnce(items[e.target], e.isIntersecting)] else items;
      DeliverAllOnce(next, entries[1..])
  }

  /** With that guard, a batch, however many entries it has for an element,
      queues at most one reveal for it, and none for an element already
      unobserved. */
  lemma {:induction false} OnceQueuesOnce(items: seq<Item>, entries: seq<Entry>, i: nat)
    requires i < |items|
    requires items[i].observed ==> items[i].framesPending == 0
    ensures var a, b := items[i], DeliverAllOnce(items, entries)[i];
      b.framesPending <= a.framesPending + (if a.observed then 1 else 0)
      && (b.observed ==> b.framesPending == 0)
    decreases |entries|
  {
    if entries != [] {
      var e := entries[0];
      var next := if e.target < |items| then items[e.target := OnEntryOnce(items[e.target], e.isIntersecting)] else items;
      OnceQueuesOnce(next, entries[1..], i);
    }
  }

  /** With that guard, the batch of `EnterAndLeave` queues one reveal
      whether or not the element is reported twice. */
  lemma EnterAndLeaveOnce(c: Category, second: bool)
    ensures DeliverAllOnce([Registered(c)], [Entry(0, true), Entry(0, second)])
         == [Registered(c).(observed := false, framesPending := 1)]
  {
    var batch := [Entry(0, true), Entry(0, second)];
    var d1 := [OnEntryOnce(Registered(c), true)];
    assert [Registered(c)][0 := OnEntryOnce(Registered(c), true)] == d1;
    assert DeliverAllOnce([Registered(c)], batch) == DeliverAllOnce(d1, batch[1..]);
    assert d1[0 := OnEntryOnce(d1[0], second)] == d1;
    assert DeliverAllOnce(d1, batch[1..]) == DeliverAllOnce(d1, []);
  }

  // ---------------------------------------------------------------------------
  // The DOM side: the observers and the page's elements

  class Observers {
    var items: seq<Item>
    var now: int

    function State(): Tracker
      reads this
    {
      Tracker(items, now)
    }

    ghost predicate Valid()
      reads this
    {
      Inv(State())
    }

    constructor ()
      ensures Valid() && State() == Initial()
    {
      items := [];
      now := 0;
    }

    /** One `initialize*` function: every element its selector matches
        (`count` of them, in document order) is registered. */
    method Initialize(c: Category, count: nat)
      requires Valid()
      modifies this
      ensures Valid()
      ensures items == old(items) + seq(count, _ => Registered(c)) && now == old(now)
    {
      var i := 0;
      while i < count
        invariant 0 <= i <= count
        invariant Valid() && now == old(now)
        invariant items == old(items) + seq(i, _ => Registered(c))
      {
        StepOk(State(), Register(c));
        items := items + [Registered(c)];
        i := i + 1;
        assert seq(i, _ => Registered(c)) == seq(i - 1, _ => Registered(c)) + [Registered(c)];
      }
    }

    /** The load handler: the ten `initialize*` functions in source order,
        on a page where `matches` gives how many elements each selector
        matches. */
    method InitializeAll(matches: map<string, nat>)
      requires Valid()
      modifies this
      ensures Valid() && now == old(now)
      ensures items == old(items) + Registrations(matches, LoadOrder)
    {
      var j := 0;
      while j < |LoadOrder|
        invariant 0 <= j <= |LoadOrder|
        invariant Valid() && now == old(now)
        invariant items == old(items) + Registrations(matches, LoadOrder[..j])
      {
        Initialize(LoadOrder[j], MatchCount(matches, LoadOrder[j]));
        RegistrationsSnoc(matches, LoadOrder, j);
        j := j + 1;
      }
      assert LoadOrder[..j] == LoadOrder;
    }

    /** An observer callback with the batch the browser takes from
        `entries`, processed in order. */
    method Callback(entries: seq<Entry>)
      requires Valid()
      modifies this
      ensures Valid()
      ensures State() == Step(old(State()), Intersections(entries))
    {
      StepOk(State(), Intersections(entries));
      var batch := Batch(items, entries);
      var i := 0;
      while i < |batch|
        invariant 0 <= i <= |batch| && now == old(now)
        invariant DeliverAll(items, batch[i..]) == DeliverAll(old(items), batch)
      {
        ghost var before := items;
        Offer(batch[i]);
        DeliverAllCons(before, batch, i);
        i := i + 1;
      }
      assert batch[i..] == [];
    }

    /** One entry of a callback batch. */
    method Offer(e: Entry)
      modifies this
      ensures items == Deliver(old(items), e) && now == old(now)
    {
      if e.target < |items| {
        var it := items[e.target];
        if e.isIntersecting && Untouched(it) {
          items := items[e.target := it.(observed := false, framesPending := it.framesPending + 1)];
        }
      }
    }

    /** An animation frame: every queued callback runs. */
    method AnimationFrame()
      requires Valid()
      modifies this
      ensures Valid()
      ensures State() == Step(old(State()), Event.AnimationFrame)
    {
      StepOk(State(), Event.AnimationFrame);
      var before := items;
      var i := 0;
      while i < |items|
        invariant 0 <= i <= |items| == |before| && now == old(now)
        invariant forall j :: 0 <= j < i ==> items[j] == RunFrames(before[j], now)
        invariant forall j :: i <= j < |items| ==> items[j] == before[j]
      {
        items := items[i := RunFrames(items[i], now)];
        i := i + 1;
      }
      var at := now;
      assert items == seq(|before|, j requires 0 <= j < |before| => RunFrames(before[j], at));
    }

    /** `ms` milliseconds pass; every completion timer that expires fires. */
    method Elapse(ms: nat)
      requires Valid()
      modifies this
      ensures Valid()
      ensures State() == Step(old(State()), Event.Elapse(ms))
    {
      ghost var next := Step(State(), Event.Elapse(ms));
      StepOk(State(), Event.Elapse(ms));
      var before := items;
      now := now + ms;
      var i := 0;
      while i < |items|
        invariant 0 <= i <= |items| == |before| && now == old(now) + ms
        invariant forall j :: 0 <= j < i ==> items[j] == FireDue(before[j], now)
        invariant forall j :: i <= j < |items| ==> items[j] == before[j]
      {
        items := items[i := FireDue(items[i], now)];
        i := i + 1;
      }
      var at := now;
      assert items == seq(|before|, j requires 0 <= j < |before| => FireDue(before[j], at));
      assert State() == next;
    }
  }

  lemma DeliverAllCons(items: seq<Item>, entries: seq<Entry>, i: nat)
    requires i < |entries|
    ensures DeliverAll(items, entries[i..]) == DeliverAll(Deliver(items, entries[i]), entries[i + 1..])
  {
    assert entries[i..][1..] == entries[i + 1..];
  }

  /** How many elements the page has for a category's selector. */
  function MatchCount(matches: map<string, nat>, c: Category): nat
  {
    if Selector(c) in matches then matches[Selector(c)] else 0
  }

  /** The elements the `initialize*` functions of `cs` register, in order:
      for each category, one fresh observed element per match of its
      selector. */
  function Registrations(matches: map<string, nat>, cs: seq<Category>): (r: seq<Item>)
    ensures forall k :: 0 <= k < |r| ==> r[k].category in cs && r[k] == Registered(r[k].category)
  {
    if cs == [] then []
    else
      var c := cs[|cs| - 1];
      Registrations(matches, cs[..|cs| - 1]) + seq(MatchCount(matches, c), _ => Registered(c))
  }

  lemma RegistrationsSnoc(matches: map<string, nat>, cs: seq<Category>, j: nat)
    requires j < |cs|
    ensures Registrations(matches, cs[..j + 1])
         == Registrations(matches, cs[..j]) + seq(MatchCount(matches, cs[j]), _ => Registered(cs[j]))
  {
    assert cs[..j + 1][..j] == cs[..j];
  }
}
