/** The one-shot intro animation started half a second after
    DOMContentLoaded: `startAnimation` and the timers it sets.

    Timers are an explicit queue. A timer set at time `now` with delay `d`
    is due at `now + d`; the earliest due timer fires next, and timers due at
    the same time fire in the order they were set. Firing a callback adds
    classes, which are logged with the time, and may set further timers.
    `Timeline` is the schedule the code is meant to produce, written out
    as a table; `LoadRunsTimeline` shows the queue produces exactly it. */
module IntroSchedule {

  /** Which of the queried elements the page has. */
  datatype Page = Page(
    coinAnimation: bool,
    smartphone1: bool,
    smartphone2: bool,
    priceTags: nat,
    coins: nat)

  datatype Target = CoinAnimation | Smartphone1 | Smartphone2 | PriceTag(tag: nat) | Coin(coin: nat)

  /** What a callback does to the page: add a class, or start the counter
      animation of one price tag. */
  datatype Effect = AddClass(target: Target, name: ClassName) | StartCounter(tag: nat)

  /** The classes the intro adds. */
  datatype ClassName = Animate | SlideAnimate | Started

  /** An effect and the time it happens, in ms after DOMContentLoaded. */
  datatype Stage = Stage(at: int, effect: Effect)

  /** The callbacks the intro passes to `setTimeout`. */
  datatype Callback = StartAnimation | Slide1 | Slide2 | ShowPrices | CountFrom(tag: nat) | StartCoins

  datatype Timer = Timer(due: int, callback: Callback)

  /** The clock, the pending timers in the order they will fire (by due
      time, then by the order they were set), and the timers fired so far,
      in firing order. */
  datatype Clock = Clock(now: int, queue: seq<Timer>, fired: seq<Timer>)

  /** The delay of `setTimeout(startAnimation, ...)`. */
  const StartDelay: nat := 500

  // ---------------------------------------------------------------------------
  // The reference schedule

  /** The intro's effects: which class each element gets. */
  predicate IntroEffect(e: Effect)
  {
    match e
    case AddClass(CoinAnimation, c) => c == Animate
    case AddClass(Smartphone1, c) => c == SlideAnimate
    case AddClass(Smartphone2, c) => c == SlideAnimate
    case AddClass(PriceTag(_), c) => c == Animate
    case AddClass(Coin(_), c) => c == Started
    case StartCounter(_) => true
  }

  /** When each effect is meant to happen, in ms after DOMContentLoaded. */
  function TimeOf(e: Effect): int
  {
    match e
    case AddClass(CoinAnimation, _) => 500
    case AddClass(Smartphone1, _) => 600
    case AddClass(Smartphone2, _) => 800
    case AddClass(PriceTag(_), _) => 1800
    case StartCounter(_) => 2000
    case AddClass(Coin(_), _) => 3500
  }

  /** The element an effect is about; a counter is about its price tag. */
  function EffectTarget(e: Effect): Target
  {
    match e
    case AddClass(t, _) => t
    case StartCounter(i) => PriceTag(i)
  }

  /** Whether the page has an element. */
  predicate Present(p: Page, t: Target)
  {
    match t
    case CoinAnimation => p.coinAnimation
    case Smartphone1 => p.smartphone1
    case Smartphone2 => p.smartphone2
    case PriceTag(i) => i < p.priceTags
    case Coin(i) => i < p.coins
  }

  /** The per-element effects done in a `forEach`. */
  datatype Kind = PriceKind | CounterKind | CoinKind

  function Make(k: Kind, i: nat): Effect
  {
    match k
    case PriceKind => AddClass(PriceTag(i), Animate)
    case CounterKind => StartCounter(i)
    case CoinKind => AddClass(Coin(i), Started)
  }

  /** The effect of kind `k` on elements 0 to `n - 1`, in order. */
  function Effects(k: Kind, n: nat): (r: seq<Effect>)
    ensures |r| == n
  {
    seq(n, j requires 0 <= j => Make(k, j))
  }

  /** Effects that all happen at `at`. */
  function Stamp(at: int, es: seq<Effect>): (r: seq<Stage>)
    ensures |r| == |es|
  {
    seq(|es|, j requires 0 <= j < |es| => Stage(at, es[j]))
  }

  function Opt(b: bool, e: Effect): seq<Effect>
  {
    if b then [e] else []
  }

  /** The intro's schedule: the coin container, the two smartphones, every
      price tag, every counter and every coin. */
  function Timeline(p: Page): (r: seq<Stage>)
    ensures |r| == (if p.coinAnimation then 1 else 0) + (if p.smartphone1 then 1 else 0)
      + (if p.smartphone2 then 1 else 0) + 2 * p.priceTags + p.coins
  {
    Stamp(500, Opt(p.coinAnimation, AddClass(CoinAnimation, Animate)))
    + Stamp(600, Opt(p.smartphone1, AddClass(Smartphone1, SlideAnimate)))
    + Stamp(800, Opt(p.smartphone2, AddClass(Smartphone2, SlideAnimate)))
    + Finale(p)
  }

  /** The stages after the smartphones: price tags, counters and coins. */
  function Finale(p: Page): seq<Stage>
  {
    Stamp(1800, Effects(PriceKind, p.priceTags))
    + Stamp(2000, Effects(CounterKind, p.priceTags))
    + Stamp(3500, Effects(CoinKind, p.coins))
  }

  /** Every stage is an intro effect, at its listed time, on an element the
      page has. */
  ghost predicate Listed(p: Page, ss: seq<Stage>)
  {
    forall k :: 0 <= k < |ss| ==>
      IntroEffect(ss[k].effect) && ss[k].at == TimeOf(ss[k].effect) && Present(p, EffectTarget(ss[k].effect))
  }

  ghost predicate Sorted(ss: seq<Stage>)
  {
    forall j, k :: 0 <= j < k < |ss| ==> ss[j].at <= ss[k].at
  }

  ghost predicate Within(ss: seq<Stage>, lo: int, hi: int)
  {
    forall k :: 0 <= k < |ss| ==> lo <= ss[k].at <= hi
  }

  lemma Join(p: Page, a: seq<Stage>, b: seq<Stage>, lo: int, mid: int, hi: int)
    requires Listed(p, a) && Listed(p, b) && Sorted(a) && Sorted(b)
    requires lo <= mid <= hi && Within(a, lo, mid) && Within(b, mid, hi)
    ensures Listed(p, a + b) && Sorted(a + b) && Within(a + b, lo, hi)
  {
    var ab := a + b;
    assert forall k :: |a| <= k < |ab| ==> ab[k] == b[k - |a|];
    forall j, k | 0 <= j < k < |ab| ensures ab[j].at <= ab[k].at {
      if k < |a| {
      } else if j >= |a| {
        assert ab[j] == b[j - |a|] && ab[k] == b[k - |a|];
      } else {
        assert ab[k] == b[k - |a|];
      }
    }
  }

  lemma StampListed(p: Page, at: int, es: seq<Effect>)
    requires forall j :: 0 <= j < |es| ==>
      IntroEffect(es[j]) && TimeOf(es[j]) == at && Present(p, EffectTarget(es[j]))
    ensures Listed(p, Stamp(at, es)) && Sorted(Stamp(at, es)) && Within(Stamp(at, es), at, at)
  {
  }

  lemma EffectsListed(p: Page, k: Kind, n: nat, at: int)
    requires n == (if k == CoinKind then p.coins else p.priceTags)
    requires at == TimeOf(Make(k, 0))
    ensures var ss := Stamp(at, Effects(k, n));
      Listed(p, ss) && Sorted(ss) && Within(ss, at, at)
  {
    StampListed(p, at, Effects(k, n));
  }

  /** The price tags, counters and coins, in order, from 1800 to 3500 ms. */
  lemma FinaleListed(p: Page)
    ensures Listed(p, Finale(p)) && Sorted(Finale(p)) && Within(Finale(p), 1800, 3500)
  {
    var b := Stamp(1800, Effects(PriceKind, p.priceTags));
    var c := Stamp(2000, Effects(CounterKind, p.priceTags));
    var d := Stamp(3500, Effects(CoinKind, p.coins));
    EffectsListed(p, PriceKind, p.priceTags, 1800);
    EffectsListed(p, CounterKind, p.priceTags, 2000);
    EffectsListed(p, CoinKind, p.coins, 3500);
    Join(p, b, c, 1800, 1800, 2000);
    Join(p, b + c, d, 1800, 2000, 3500);
  }

  /** The coin container and the smartphones, in order, from 500 to 800 ms. */
  lemma OpeningListed(p: Page)
    ensures var a := Stamp(500, Opt(p.coinAnimation, AddClass(CoinAnimation, Animate)))
      + Stamp(600, Opt(p.smartphone1, AddClass(Smartphone1, SlideAnimate)))
      + Stamp(800, Opt(p.smartphone2, AddClass(Smartphone2, SlideAnimate)));
      Listed(p, a) && Sorted(a) && Within(a, 500, 800)
  {
    var a0 := Stamp(500, Opt(p.coinAnimation, AddClass(CoinAnimation, Animate)));
    var a1 := Stamp(600, Opt(p.smartphone1, AddClass(Smartphone1, SlideAnimate)));
    var a2 := Stamp(800, Opt(p.smartphone2, AddClass(Smartphone2, SlideAnimate)));
    StampListed(p, 500, Opt(p.coinAnimation, AddClass(CoinAnimation, Animate)));
    StampListed(p, 600, Opt(p.smartphone1, AddClass(Smartphone1, SlideAnimate)));
    StampListed(p, 800, Opt(p.smartphone2, AddClass(Smartphone2, SlideAnimate)));
    Join(p, a0, a1, 500, 500, 600);
    Join(p, a0 + a1, a2, 500, 600, 800);
  }

  /** Every stage happens at its listed time, on an element the page has,
      and the stages come in order of time. */
  lemma TimelineOrdered(p: Page)
    ensures Listed(p, Timeline(p)) && Sorted(Timeline(p))
  {
    OpeningListed(p);
    FinaleListed(p);
    Join(p, Stamp(500, Opt(p.coinAnimation, AddClass(CoinAnimation, Animate)))
      + Stamp(600, Opt(p.smartphone1, AddClass(Smartphone1, SlideAnimate)))
      + Stamp(800, Opt(p.smartphone2, AddClass(Smartphone2, SlideAnimate))), Finale(p), 500, 800, 3500);
  }

  /** Conversely, every intro effect on an element the page has is in the
      schedule. */
  lemma TimelineComplete(p: Page, e: Effect)
    requires IntroEffect(e) && Present(p, EffectTarget(e))
    ensures Stage(TimeOf(e), e) in Timeline(p)
  {
    var a0 := Stamp(500, Opt(p.coinAnimation, AddClass(CoinAnimation, Animate)));
    var a1 := Stamp(600, Opt(p.smartphone1, AddClass(Smartphone1, SlideAnimate)));
    var a2 := Stamp(800, Opt(p.smartphone2, AddClass(Smartphone2, SlideAnimate)));
    var b := Stamp(1800, Effects(PriceKind, p.priceTags));
    var c := Stamp(2000, Effects(CounterKind, p.priceTags));
    var d := Stamp(3500, Effects(CoinKind, p.coins));
    assert Timeline(p) == a0 + a1 + a2 + (b + c + d);
    match e
    case AddClass(CoinAnimation, _) => assert a0[0] == Stage(TimeOf(e), e);
    case AddClass(Smartphone1, _) => assert a1[0] == Stage(TimeOf(e), e);
    case AddClass(Smartphone2, _) => assert a2[0] == Stage(TimeOf(e), e);
    case AddClass(PriceTag(i), _) =>
      assert b[i] == Stage(TimeOf(e), e);
    case StartCounter(i) =>
      assert c[i] == Stage(TimeOf(e), e);
    case AddClass(Coin(i), _) =>
      assert d[i] == Stage(TimeOf(e), e);
  }

  /** `ss` without the stages about `t`. */
  function RemoveTarget(ss: seq<Stage>, t: Target): seq<Stage>
  {
    if ss == [] then []
    else (if EffectTarget(ss[0].effect) == t then [] else [ss[0]]) + RemoveTarget(ss[1..], t)
  }

  /** Removing an element's stages keeps exactly the stages about the other
      elements. */
  lemma {:induction false} RemoveMembers(ss: seq<Stage>, t: Target)
    ensures forall s :: s in RemoveTarget(ss, t) <==> s in ss && EffectTarget(s.effect) != t
  {
    if ss != [] {
      RemoveMembers(ss[1..], t);
      assert ss == [ss[0]] + ss[1..];
    }
  }

  lemma {:induction false} RemoveConcat(a: seq<Stage>, b: seq<Stage>, t: Target)
    ensures RemoveTarget(a + b, t) == RemoveTarget(a, t) + RemoveTarget(b, t)
  {
    if a != [] {
      assert (a + b)[1..] == a[1..] + b;
      RemoveConcat(a[1..], b, t);
    } else {
      assert a + b == b;
    }
  }

  lemma {:induction false} RemoveAbsent(ss: seq<Stage>, t: Target)
    requires forall k :: 0 <= k < |ss| ==> EffectTarget(ss[k].effect) != t
    ensures RemoveTarget(ss, t) == ss
  {
    if ss != [] {
      RemoveAbsent(ss[1..], t);
      assert ss == [ss[0]] + ss[1..];
    }
  }

  /** No stage after the smartphones is about a smartphone. */
  lemma FinaleKeeps(p: Page, t: Target)
    requires t == Smartphone1 || t == Smartphone2
    ensures RemoveTarget(Finale(p), t) == Finale(p)
  {
    var b := Finale(p);
    FinaleListed(p);
    assert forall k :: 0 <= k < |b| ==> EffectTarget(b[k].effect) != t;
    RemoveAbsent(b, t);
  }

  lemma RemoveFour(w: seq<Stage>, x: seq<Stage>, y: seq<Stage>, z: seq<Stage>, t: Target)
    ensures RemoveTarget(w + x + y + z, t)
         == RemoveTarget(w, t) + RemoveTarget(x, t) + RemoveTarget(y, t) + RemoveTarget(z, t)
  {
    RemoveConcat(w + x + y, z, t);
    RemoveConcat(w + x, y, t);
    RemoveConcat(w, x, t);
  }

  /** Removing a target from an optional stage. */
  lemma RemoveOpt(at: int, b: bool, e: Effect, t: Target)
    ensures RemoveTarget(Stamp(at, Opt(b, e)), t) == if EffectTarget(e) == t then [] else Stamp(at, Opt(b, e))
  {
    if b {
      assert Stamp(at, Opt(b, e)) == [Stage(at, e)];
      assert [Stage(at, e)][1..] == [];
    }
  }

  /** A first smartphone the page lacks removes its own stage and nothing
      else. */
  lemma MissingSmartphone1(p: Page)
    ensures Timeline(p.(smartphone1 := false)) == RemoveTarget(Timeline(p), Smartphone1)
  {
    var a0 := Stamp(500, Opt(p.coinAnimation, AddClass(CoinAnimation, Animate)));
    var a1 := Stamp(600, Opt(p.smartphone1, AddClass(Smartphone1, SlideAnimate)));
    var a2 := Stamp(800, Opt(p.smartphone2, AddClass(Smartphone2, SlideAnimate)));
    var b := Finale(p);
    calc {
      RemoveTarget(Timeline(p), Smartphone1);
    == { RemoveFour(a0, a1, a2, b, Smartphone1); }
      RemoveTarget(a0, Smartphone1) + RemoveTarget(a1, Smartphone1) + RemoveTarget(a2, Smartphone1)
      + RemoveTarget(b, Smartphone1);
    == { RemoveOpt(500, p.coinAnimation, AddClass(CoinAnimation, Animate), Smartphone1);
         RemoveOpt(600, p.smartphone1, AddClass(Smartphone1, SlideAnimate), Smartphone1);
         RemoveOpt(800, p.smartphone2, AddClass(Smartphone2, SlideAnimate), Smartphone1);
         FinaleKeeps(p, Smartphone1); }
      a0 + [] + a2 + b;
    ==
      Timeline(p.(smartphone1 := false));
    }
  }

  /** Likewise for the second smartphone. */
  lemma MissingSmartphone2(p: Page)
    ensures Timeline(p.(smartphone2 := false)) == RemoveTarget(Timeline(p), Smartphone2)
  {
    var a0 := Stamp(500, Opt(p.coinAnimation, AddClass(CoinAnimation, Animate)));
    var a1 := Stamp(600, Opt(p.smartphone1, AddClass(Smartphone1, SlideAnimate)));
    var a2 := Stamp(800, Opt(p.smartphone2, AddClass(Smartphone2, SlideAnimate)));
    var b := Finale(p);
    calc {
      RemoveTarget(Timeline(p), Smartphone2);
    == { RemoveFour(a0, a1, a2, b, Smartphone2); }
      RemoveTarget(a0, Smartphone2) + RemoveTarget(a1, Smartphone2) + RemoveTarget(a2, Smartphone2)
      + RemoveTarget(b, Smartphone2);
    == { RemoveOpt(500, p.coinAnimation, AddClass(CoinAnimation, Animate), Smartphone2);
         RemoveOpt(600, p.smartphone1, AddClass(Smartphone1, SlideAnimate), Smartphone2);
         RemoveOpt(800, p.smartphone2, AddClass(Smartphone2, SlideAnimate), Smartphone2);
         FinaleKeeps(p, Smartphone2); }
      a0 + a1 + [] + b;
    ==
      Timeline(p.(smartphone2 := false));
    }
  }

  // ---------------------------------------------------------------------------
  // The timer queue

  /** Timers whose due times never decrease along the queue. */
  ghost predicate Ordered(q: seq<Timer>)
  {
    forall i, j :: 0 <= i < j < |q| ==> q[i].due <= q[j].due
  }

  /** Where `setTimeout` puts a new timer: behind every pending timer due
      no later than it. */
  function Slot(q: seq<Timer>, t: Timer): (k: nat)
    ensures k <= |q|
  {
    if q == [] || t.due < q[0].due then 0 else 1 + Slot(q[1..], t)
  }

  /** `setTimeout`: queue a timer so that timers fire by due time and, when
      due together, in the order they were set. */
  function Insert(q: seq<Timer>, t: Timer): (r: seq<Timer>)
    ensures |r| == |q| + 1
  {
    if q == [] || t.due < q[0].due then [t] + q
    else [q[0]] + Insert(q[1..], t)
  }

  /** Queue several timers, in the order they are set. */
  function InsertAll(q: seq<Timer>, ts: seq<Timer>): (r: seq<Timer>)
    ensures |r| == |q| + |ts|
    decreases |ts|
  {
    if ts == [] then q else InsertAll(Insert(q, ts[0]), ts[1..])
  }

  /** The new timer lands at its slot: every timer before it is due no later,
      the one after it (if any) strictly later, and the rest keep their
      order. */
  lemma {:induction false} InsertAt(q: seq<Timer>, t: Timer)
    ensures Insert(q, t) == q[..Slot(q, t)] + [t] + q[Slot(q, t)..]
    ensures forall j :: 0 <= j < Slot(q, t) ==> q[j].due <= t.due
    ensures Slot(q, t) < |q| ==> t.due < q[Slot(q, t)].due
  {
    if q == [] || t.due < q[0].due {
    } else {
      InsertAt(q[1..], t);
      var k := Slot(q[1..], t);
      assert q[..k + 1] == [q[0]] + q[1..][..k];
      assert q[k + 1..] == q[1..][k..];
      forall j | 1 <= j < k + 1 ensures q[j].due <= t.due {
        assert q[j] == q[1..][j - 1];
      }
    }
  }

  /** A timer placed between the timers due no later than it and those
      due after it keeps the queue ordered. */
  lemma Splice(a: seq<Timer>, b: seq<Timer>, t: Timer)
    requires Ordered(a + b)
    requires forall j :: 0 <= j < |a| ==> a[j].due <= t.due
    requires b != [] ==> t.due < b[0].due
    ensures Ordered(a + [t] + b)
  {
    var ab := a + b;
    var r := a + [t] + b;
    forall i, j | 0 <= i < j < |r| ensures r[i].due <= r[j].due {
      if j < |a| {
        assert r[i] == ab[i] && r[j] == ab[j];
      } else if j == |a| {
        assert r[i] == a[i];
      } else if i < |a| {
        assert r[i] == a[i] == ab[i] && r[j] == ab[j - 1];
      } else if i == |a| {
        assert r[j] == ab[j - 1] && b[0] == ab[|a|];
      } else {
        assert r[i] == ab[i - 1] && r[j] == ab[j - 1];
      }
    }
  }

  /** Inserting keeps an ordered queue ordered. */
  lemma InsertOrdered(q: seq<Timer>, t: Timer)
    requires Ordered(q)
    ensures Ordered(Insert(q, t))
    ensures forall x :: x in Insert(q, t) <==> x in q || x == t
  {
    InsertAt(q, t);
    var k := Slot(q, t);
    assert q == q[..k] + q[k..];
    Splice(q[..k], q[k..], t);
  }

  /** Queuing several timers keeps an ordered queue ordered and loses none. */
  lemma {:induction false} InsertAllOrdered(q: seq<Timer>, ts: seq<Timer>)
    requires Ordered(q)
    ensures Ordered(InsertAll(q, ts))
    ensures forall x :: x in InsertAll(q, ts) <==> x in q || x in ts
    decreases |ts|
  {
    if ts != [] {
      InsertOrdered(q, ts[0]);
      InsertAllOrdered(Insert(q, ts[0]), ts[1..]);
      assert ts == [ts[0]] + ts[1..];
    }
  }

  /** A timer due no earlier than every pending one goes last. */
  lemma InsertLast(q: seq<Timer>, t: Timer)
    requires forall j :: 0 <= j < |q| ==> q[j].due <= t.due
    ensures Insert(q, t) == q + [t]
  {
    InsertAt(q, t);
    assert q[..|q|] == q;
  }

  /** Timers set in due order behind a queue due no later than all of them
      are simply appended. */
  lemma {:induction false} InsertAllAppend(q: seq<Timer>, ts: seq<Timer>)
    requires Ordered(q + ts)
    ensures InsertAll(q, ts) == q + ts
    decreases |ts|
  {
    if ts != [] {
      assert forall j :: 0 <= j < |q| ==> q[j] == (q + ts)[j];
      assert ts[0] == (q + ts)[|q|];
      InsertLast(q, ts[0]);
      assert (q + [ts[0]]) + ts[1..] == q + ts;
      InsertAllAppend(q + [ts[0]], ts[1..]);
    }
  }

  /** Timers set in due order, all before a last timer `z`, go in front of it. */
  lemma {:induction false} InsertAllBefore(q: seq<Timer>, ts: seq<Timer>, z: Timer)
    requires Ordered(q + ts)
    requires forall j :: 0 <= j < |ts| ==> ts[j].due < z.due
    ensures InsertAll(q + [z], ts) == q + ts + [z]
    decreases |ts|
  {
    if ts != [] {
      var t := ts[0];
      assert forall j :: 0 <= j < |q| ==> q[j] == (q + ts)[j];
      assert t == (q + ts)[|q|];
      InsertAt(q + [z], t);
      assert Slot(q + [z], t) == |q| by {
        SlotPast(q, z, t);
      }
      assert (q + [z])[..|q|] == q;
      assert (q + [z])[|q|..] == [z];
      assert (q + [t]) + ts[1..] == q + ts;
      InsertAllBefore(q + [t], ts[1..], z);
      assert q + [t] + ts[1..] + [z] == q + ts + [z];
    }
  }

  lemma {:induction false} SlotPast(q: seq<Timer>, z: Timer, t: Timer)
    requires forall j :: 0 <= j < |q| ==> q[j].due <= t.due
    requires t.due < z.due
    ensures Slot(q + [z], t) == |q|
  {
    if q != [] {
      assert (q + [z])[1..] == q[1..] + [z];
      SlotPast(q[1..], z, t);
    }
  }

  /** The counter timers `ShowPrices` sets, one per price tag. */
  function Counters(n: nat, at: int): (r: seq<Timer>)
    ensures |r| == n
  {
    seq(n, j requires 0 <= j => Timer(at, CountFrom(j)))
  }

  /** What a callback does to the page when it fires, in program order. */
  function EffectsOf(p: Page, cb: Callback): (r: seq<Effect>)
    ensures forall k :: 0 <= k < |r| ==> IntroEffect(r[k])
    ensures cb.StartAnimation? || cb.ShowPrices? || cb.StartCoins? ==>
      forall k :: 0 <= k < |r| ==> Present(p, EffectTarget(r[k]))
  {
    match cb
    case StartAnimation => Opt(p.coinAnimation, AddClass(CoinAnimation, Animate))
    case Slide1 => [AddClass(Smartphone1, SlideAnimate)]
    case Slide2 => [AddClass(Smartphone2, SlideAnimate)]
    case ShowPrices => Effects(PriceKind, p.priceTags)
    case CountFrom(i) => [StartCounter(i)]
    case StartCoins => Effects(CoinKind, p.coins)
  }

  /** The timers a callback sets when it fires at `now`, in the order it
      sets them. */
  function TimersOf(p: Page, cb: Callback, now: int): (r: seq<Timer>)
    ensures forall k :: 0 <= k < |r| ==> now < r[k].due
    ensures !(cb.StartAnimation? || cb.ShowPrices?) ==> r == []
    ensures cb.ShowPrices? ==> |r| == p.priceTags
  {
    match cb
    case StartAnimation =>
      (if p.smartphone1 then [Timer(now + 100, Slide1)] else [])
      + (if p.smartphone2 then [Timer(now + 300, Slide2)] else [])
      + [Timer(now + 1300, ShowPrices), Timer(now + 3000, StartCoins)]
    case ShowPrices => Counters(p.priceTags, now + 200)
    case _ => []
  }

  /** Fire the first pending timer, if any, and queue the timers its
      callback sets. */
  function Tick(p: Page, c: Clock): (r: Clock)
    ensures c.queue == [] ==> r == c
    ensures c.queue != [] ==>
      && r.now == c.queue[0].due && r.fired == c.fired + [c.queue[0]]
      && |r.queue| == |c.queue| - 1 + |TimersOf(p, c.queue[0].callback, c.queue[0].due)|
  {
    if c.queue == [] then c
    else
      var t := c.queue[0];
      Clock(t.due, InsertAll(c.queue[1..], TimersOf(p, t.callback, t.due)), c.fired + [t])
  }

  /** The clock is consistent: the queue is ordered and nothing in it is
      overdue. */
  ghost predicate Pending(c: Clock)
  {
    Ordered(c.queue) && forall j :: 0 <= j < |c.queue| ==> c.now <= c.queue[j].due
  }

  /** A tick fires a timer due no later than every other pending one, time
      never runs backwards, and the clock stays consistent. */
  lemma TickKeepsPending(p: Page, c: Clock)
    requires Pending(c)
    ensures c.queue != [] ==> forall j :: 0 <= j < |c.queue| ==> Tick(p, c).now <= c.queue[j].due
    ensures c.now <= Tick(p, c).now
    ensures Pending(Tick(p, c))
  {
    if c.queue != [] {
      var t := c.queue[0];
      var rest := c.queue[1..];
      assert Ordered(rest) by {
        forall i, j | 0 <= i < j < |rest| ensures rest[i].due <= rest[j].due {
          assert rest[i] == c.queue[i + 1] && rest[j] == c.queue[j + 1];
        }
      }
      InsertAllOrdered(rest, TimersOf(p, t.callback, t.due));
      var q := Tick(p, c).queue;
      forall j | 0 <= j < |q| ensures t.due <= q[j].due {
        assert q[j] in q;
        if q[j] in rest {
          var i :| 0 <= i < |rest| && rest[i] == q[j];
          assert c.queue[i + 1] == q[j];
        }
      }
    }
  }

  /** Apply `step` up to `steps` times, stopping early once no timer is
      pending. */
  function Iterate(step: Clock -> Clock, c: Clock, steps: nat): Clock
    decreases steps
  {
    if steps == 0 || c.queue == [] then c else Iterate(step, step(c), steps - 1)
  }

  /** Fire up to `steps` timers. */
  function Run(p: Page, c: Clock, steps: nat): Clock
  {
    Iterate(c' => Tick(p, c'), c, steps)
  }

  /** The effects of the fired timers, each at the time it fired. */
  function Log(p: Page, fired: seq<Timer>): seq<Stage>
  {
    if fired == [] then []
    else Stamp(fired[0].due, EffectsOf(p, fired[0].callback)) + Log(p, fired[1..])
  }

  /** DOMContentLoaded: `setTimeout(startAnimation, 500)`. */
  function Load(): (r: Clock)
    ensures r.now == 0 && r.fired == [] && r.queue == [Timer(StartDelay, StartAnimation)]
    ensures Pending(r)
  {
    Clock(0, [Timer(StartDelay, StartAnimation)], [])
  }

  /** How many timers the intro sets in all. */
  function TimerCount(p: Page): nat
  {
    1 + (if p.smartphone1 then 1 else 0) + (if p.smartphone2 then 1 else 0) + 1 + p.priceTags + 1
  }

  lemma {:induction false} IterateAdd(step: Clock -> Clock, c: Clock, a: nat, b: nat)
    ensures Iterate(step, c, a + b) == Iterate(step, Iterate(step, c, a), b)
    decreases a
  {
    if a > 0 && c.queue != [] {
      IterateAdd(step, step(c), a - 1, b);
    }
  }

  lemma RunAdd(p: Page, c: Clock, a: nat, b: nat)
    ensures Run(p, c, a + b) == Run(p, Run(p, c, a), b)
  {
    IterateAdd(c' => Tick(p, c'), c, a, b);
  }

  // `Run` is `Iterate` over a lambda, whose unfolding the solver does not
  // take by itself inside the larger phase lemmas; these three name the
  // unfolding steps those lemmas need, so each is a single call there.

  lemma RunStep(p: Page, c: Clock, k: nat)
    requires c.queue != []
    ensures Run(p, c, k + 1) == Run(p, Tick(p, c), k)
  {
  }

  lemma RunZero(p: Page, c: Clock)
    ensures Run(p, c, 0) == c
  {
  }

  lemma RunIdle(p: Page, c: Clock, k: nat)
    requires c.queue == []
    ensures Run(p, c, k) == c
  {
  }

  /** Callbacks that set no further timers. */
  predicate Quiet(cb: Callback)
  {
    !cb.StartAnimation? && !cb.ShowPrices?
  }

  /** When the first `k` pending timers set nothing, `k` ticks fire exactly
      them, in queue order. */
  lemma {:induction false} DrainQuiet(p: Page, c: Clock, k: nat)
    requires k <= |c.queue|
    requires forall j :: 0 <= j < k ==> Quiet(c.queue[j].callback)
    ensures Run(p, c, k) == Clock(if k == 0 then c.now else c.queue[k - 1].due, c.queue[k..], c.fired + c.queue[..k])
    decreases k
  {
    var q := c.queue;
    if k == 0 {
      RunZero(p, c);
      assert q[0..] == q && c.fired + q[..0] == c.fired;
    } else {
      var d := Clock(q[0].due, q[1..], c.fired + [q[0]]);
      assert Tick(p, c) == d by {
        assert TimersOf(p, q[0].callback, q[0].due) == [];
      }
      RunStep(p, c, k - 1);
      DrainQuiet(p, d, k - 1);
      assert k - 1 > 0 ==> q[1..][k - 2] == q[k - 1];
      assert q[1..][k - 1..] == q[k..];
      assert d.fired + q[1..][..k - 1] == c.fired + q[..k];
    }
  }

  /** The smartphone timers `startAnimation` sets, for the elements present. */
  function Phones(p: Page): seq<Timer>
  {
    (if p.smartphone1 then [Timer(600, Slide1)] else [])
    + (if p.smartphone2 then [Timer(800, Slide2)] else [])
  }

  /** The timers left once every smartphone timer has fired:
      `ShowPrices` at 1800 ms and `StartCoins` at 3500 ms. */
  function Late(): seq<Timer>
  {
    [Timer(1800, ShowPrices), Timer(3500, StartCoins)]
  }

  /** The timers that fire from 1800 ms on, in the order they fire. */
  function Closing(p: Page): seq<Timer>
  {
    [Timer(1800, ShowPrices)] + Counters(p.priceTags, 2000) + [Timer(3500, StartCoins)]
  }

  /** The timers the intro sets, in the order they fire. */
  function Fired(p: Page): seq<Timer>
  {
    [Timer(500, StartAnimation)] + Phones(p) + Closing(p)
  }

  /** At 500 ms `startAnimation` fires and sets the other intro timers,
      already in due order. */
  lemma LoadStarts(p: Page)
    ensures Run(p, Load(), 1) == Clock(500, Phones(p) + Late(), [Timer(500, StartAnimation)])
  {
    var q := Phones(p) + Late();
    var c1 := Clock(500, q, [Timer(500, StartAnimation)]);
    assert TimersOf(p, StartAnimation, 500) == q;
    assert Ordered([] + q) by {
      assert [] + q == q;
      PhonesOrdered(p);
    }
    InsertAllAppend([], q);
    assert Load().queue[1..] == [];
    assert Tick(p, Load()) == c1;
    RunStep(p, Load(), 0);
    RunZero(p, c1);
  }

  lemma PhonesOrdered(p: Page)
    ensures Ordered(Phones(p) + Late())
  {
    var q := Phones(p) + Late();
    assert forall k :: 0 <= k < |q| ==> 600 <= q[k].due && (k < |Phones(p)| ==> q[k].due <= 800);
    assert forall k :: |Phones(p)| <= k < |q| ==> q[k] == Late()[k - |Phones(p)|];
  }


  /** Then the smartphone timers fire. */
  lemma PhonesFire(p: Page, fired: seq<Timer>)
    ensures var c := Run(p, Clock(500, Phones(p) + Late(), fired), |Phones(p)|);
      c.queue == Late() && c.fired == fired + Phones(p)
  {
    var q := Phones(p) + Late();
    var n := |Phones(p)|;
    assert forall j :: 0 <= j < n ==> q[j] == Phones(p)[j];
    DrainQuiet(p, Clock(500, q, fired), n);
    assert q[n..] == Late();
    assert q[..n] == Phones(p);
  }

  /** At 1800 ms `showPrices` fires and sets the counter timers, which go
      ahead of the coin timer. */
  lemma PricesShow(p: Page, c: Clock)
    requires c.queue == Late()
    ensures Run(p, c, 1)
         == Clock(1800, Counters(p.priceTags, 2000) + [Timer(3500, StartCoins)], c.fired + [Timer(1800, ShowPrices)])
  {
    var d := Clock(1800, Counters(p.priceTags, 2000) + [Timer(3500, StartCoins)], c.fired + [Timer(1800, ShowPrices)]);
    assert c.queue[1..] == [] + [Timer(3500, StartCoins)];
    InsertAllBefore([], Counters(p.priceTags, 2000), Timer(3500, StartCoins));
    assert Tick(p, c) == d;
    RunStep(p, c, 0);
    RunZero(p, d);
  }

  /** The counters start one by one at 2000 ms, then the coins at 3500 ms. */
  lemma CountersStart(p: Page, now: int, fired: seq<Timer>)
    ensures var q := Counters(p.priceTags, 2000) + [Timer(3500, StartCoins)];
      Run(p, Clock(now, q, fired), |q|) == Clock(3500, [], fired + q)
  {
    var cs := Counters(p.priceTags, 2000);
    var q := cs + [Timer(3500, StartCoins)];
    forall j | 0 <= j < |q| ensures Quiet(q[j].callback) {
      if j < |cs| {
        assert q[j] == cs[j];
      }
    }
    DrainQuiet(p, Clock(now, q, fired), |q|);
    assert q[|q|..] == [];
    assert q[..|q|] == q;
  }

  /** Two runs, one after the other. */
  lemma RunThen(p: Page, c0: Clock, c1: Clock, c2: Clock, a: nat, b: nat)
    requires Run(p, c0, a) == c1 && Run(p, c1, b) == c2
    ensures Run(p, c0, a + b) == c2
  {
    RunAdd(p, c0, a, b);
  }

  /** From 1800 ms on: the price callback, the counters, then the coins. */
  lemma FromPrices(p: Page, c: Clock)
    requires c.queue == Late()
    ensures Run(p, c, 1 + (p.priceTags + 1)) == Clock(3500, [], c.fired + Closing(p))
  {
    var q := Counters(p.priceTags, 2000) + [Timer(3500, StartCoins)];
    var d := Clock(1800, q, c.fired + [Timer(1800, ShowPrices)]);
    PricesShow(p, c);
    CountersStart(p, 1800, d.fired);
    assert d.fired + q == c.fired + Closing(p);
    RunThen(p, c, d, Clock(3500, [], c.fired + Closing(p)), 1, |q|);
  }

  /** From 500 ms on, once `startAnimation` has fired. */
  lemma FromPhones(p: Page)
    ensures var c := Clock(500, Phones(p) + Late(), [Timer(500, StartAnimation)]);
      Run(p, c, |Phones(p)| + (1 + (p.priceTags + 1))) == Clock(3500, [], Fired(p))
  {
    var sa := [Timer(500, StartAnimation)];
    var c := Clock(500, Phones(p) + Late(), sa);
    var d := Run(p, c, |Phones(p)|);
    PhonesFire(p, sa);
    FromPrices(p, d);
    RunThen(p, c, d, Clock(3500, [], Fired(p)), |Phones(p)|, 1 + (p.priceTags + 1));
  }

  /** The queue, started at DOMContentLoaded, fires every timer the intro
      sets, and nothing else, in the order `Fired` lists, ending at 3500 ms
      with nothing pending. */
  lemma LoadFiresAll(p: Page)
    ensures Run(p, Load(), TimerCount(p)) == Clock(3500, [], Fired(p))
  {
    var c := Clock(500, Phones(p) + Late(), [Timer(500, StartAnimation)]);
    LoadStarts(p);
    FromPhones(p);
    assert TimerCount(p) == 1 + (|Phones(p)| + (1 + (p.priceTags + 1)));
    RunThen(p, Load(), c, Clock(3500, [], Fired(p)), 1, |Phones(p)| + (1 + (p.priceTags + 1)));
  }

  lemma {:induction false} LogConcat(p: Page, a: seq<Timer>, b: seq<Timer>)
    ensures Log(p, a + b) == Log(p, a) + Log(p, b)
  {
    if a != [] {
      assert (a + b)[1..] == a[1..] + b;
      LogConcat(p, a[1..], b);
    } else {
      assert a + b == b;
    }
  }

  lemma LogOne(p: Page, t: Timer)
    ensures Log(p, [t]) == Stamp(t.due, EffectsOf(p, t.callback))
  {
    assert [t][1..] == [];
  }

  lemma {:induction false} LogCounters(p: Page, from: nat)
    requires from <= p.priceTags
    ensures Log(p, Counters(p.priceTags, 2000)[from..]) == Stamp(2000, Effects(CounterKind, p.priceTags)[from..])
    decreases p.priceTags - from
  {
    var cs := Counters(p.priceTags, 2000);
    var es := Effects(CounterKind, p.priceTags);
    if from < p.priceTags {
      LogCounters(p, from + 1);
      assert cs[from..][1..] == cs[from + 1..];
      assert es[from..] == [StartCounter(from)] + es[from + 1..];
      StampCons(2000, StartCounter(from), es[from + 1..]);
    } else {
      assert cs[from..] == [];
    }
  }

  lemma StampCons(at: int, e: Effect, es: seq<Effect>)
    ensures Stamp(at, [e] + es) == [Stage(at, e)] + Stamp(at, es)
  {
    assert ([e] + es)[1..] == es;
  }


  lemma LogPhones(p: Page)
    ensures Log(p, Phones(p))
         == Stamp(600, Opt(p.smartphone1, AddClass(Smartphone1, SlideAnimate)))
            + Stamp(800, Opt(p.smartphone2, AddClass(Smartphone2, SlideAnimate)))
  {
    var s1: seq<Timer> := if p.smartphone1 then [Timer(600, Slide1)] else [];
    var s2: seq<Timer> := if p.smartphone2 then [Timer(800, Slide2)] else [];
    LogConcat(p, s1, s2);
    if p.smartphone1 { LogOne(p, Timer(600, Slide1)); }
    if p.smartphone2 { LogOne(p, Timer(800, Slide2)); }
  }

  lemma LogClosing(p: Page)
    ensures Log(p, Closing(p)) == Finale(p)
  {
    var cs := Counters(p.priceTags, 2000);
    LogConcat(p, [Timer(1800, ShowPrices)] + cs, [Timer(3500, StartCoins)]);
    LogConcat(p, [Timer(1800, ShowPrices)], cs);
    LogOne(p, Timer(1800, ShowPrices));
    LogOne(p, Timer(3500, StartCoins));
    LogCounters(p, 0);
    assert cs[0..] == cs;
    assert Effects(CounterKind, p.priceTags)[0..] == Effects(CounterKind, p.priceTags);
  }

  /** The effects of the timers the intro fires are exactly the reference
      schedule. */
  lemma FiredLogIsTimeline(p: Page)
    ensures Log(p, Fired(p)) == Timeline(p)
  {
    var first := [Timer(500, StartAnimation)];
    calc {
      Log(p, Fired(p));
    == { LogConcat(p, first + Phones(p), Closing(p)); }
      Log(p, first + Phones(p)) + Log(p, Closing(p));
    == { LogConcat(p, first, Phones(p)); }
      Log(p, first) + Log(p, Phones(p)) + Log(p, Closing(p));
    == { LogOne(p, Timer(500, StartAnimation)); LogPhones(p); LogClosing(p); }
      Timeline(p);
    }
  }

  /** Started at DOMContentLoaded, the queue produces exactly the reference
      schedule and then stops: more steps change nothing. */
  lemma LoadRunsTimeline(p: Page, extra: nat)
    ensures var c := Run(p, Load(), TimerCount(p) + extra);
      c.now == 3500 && c.queue == [] && Log(p, c.fired) == Timeline(p)
  {
    LoadFiresAll(p);
    RunAdd(p, Load(), TimerCount(p), extra);
    RunIdle(p, Clock(3500, [], Fired(p)), extra);
    FiredLogIsTimeline(p);
  }
}
