/** The rolling price counter (`startCounterAnimation`). Each `.digit-container`
    of a price tag is refilled with a strip of 20 glyphs showing 0-9 twice; a
    timer later moves every glyph so that the first copy of the target digit
    at index 10 or above sits in the container's window, and a second timer,
    800 ms on, makes every other glyph transparent. Containers start right to
    left, 200 ms apart.

    Lengths are in slots: one slot is the 1.2em height of a glyph, so the
    glyph at index `i` has `top` = `i` slots and `translateY(x * 1.2em)` is a
    shift of `x` slots. The container shows the slot at offset 0. */
module DigitRoller {
  import opened Wrappers

  /** Glyphs generated per container. */
  const StripLength: nat := 20
  /** The first index the target search accepts. */
  const SearchFrom: nat := 10
  /** Length of the transform transition, and the wait before hiding. */
  const RollMs: nat := 800
  /** Start delay of the rightmost container, and the gap between neighbours. */
  const StaggerMs: nat := 200

  /** One generated `.digit` element: the number it shows, its `top` in
      slots, its `translateY` in slots once one is set, and whether its
      opacity has been set to "0". */
  datatype Glyph = Glyph(value: int, top: int, shift: Option<int>, transparent: bool)

  /** Glyph `i` as the generating loop creates it: it shows `i % 10` at `top`
      `i` slots, with no transform and full opacity. */
  function Fresh(i: nat): Glyph
  {
    Glyph(i % 10, i, None, false)
  }

  /** The strip a container holds after being refilled. */
  function Strip(): (s: seq<Glyph>)
    ensures |s| == StripLength
  {
    seq(StripLength, i requires 0 <= i => Fresh(i))
  }

  /** Where a glyph rests once its transform has applied, in slots from the
      top of the window. */
  function Resting(g: Glyph): int
  {
    g.top + match g.shift { case None => 0 case Some(s) => s }
  }

  /** The predicate given to `findIndex`: the glyph's number equals the
      parsed target (never true for NaN, written None) and its index is at
      least 10. */
  predicate Hit(gs: seq<Glyph>, target: Option<int>, i: int)
  {
    0 <= i < |gs| && target == Some(gs[i].value) && i >= SearchFrom
  }

  /** `k` is what `findIndex` returns: the first index the predicate accepts,
      or -1 when it accepts none. */
  predicate IsFirstHit(gs: seq<Glyph>, target: Option<int>, k: int)
  {
    && (k == -1 || Hit(gs, target, k))
    && forall i :: 0 <= i < |gs| && (k == -1 || i < k) ==> !Hit(gs, target, i)
  }

  /** The shift, in slots, the roll gives glyph `i` when the target is at
      `k`: `translateY + (i - targetIndex) * 1.2` with `translateY` =
      `-(targetIndex * 1.2)`. */
  function Shift(i: int, k: int): (r: int)
    ensures i + r == 2 * (i - k)
    ensures i + r == 0 <==> i == k
  {
    -k + (i - k)
  }

  /** Every glyph after the roll: each gets its own shift. */
  function Rolled(gs: seq<Glyph>, k: int): (r: seq<Glyph>)
    ensures |r| == |gs|
    ensures forall i :: 0 <= i < |gs| ==>
      && r[i].value == gs[i].value && r[i].top == gs[i].top && r[i].transparent == gs[i].transparent
      && r[i].shift == Some(Shift(i, k))
  {
    seq(|gs|, i requires 0 <= i < |gs| => gs[i].(shift := Some(Shift(i, k))))
  }

  /** Every glyph after the hiding timer: all but index `k` transparent. */
  function Faded(gs: seq<Glyph>, k: int): (r: seq<Glyph>)
    ensures |r| == |gs|
    ensures forall i :: 0 <= i < |gs| ==>
      && r[i].value == gs[i].value && r[i].top == gs[i].top && r[i].shift == gs[i].shift
      && (r[i].transparent <==> gs[i].transparent || i != k)
    ensures 0 <= k < |gs| ==> r[k] == gs[k]
  {
    seq(|gs|, i requires 0 <= i < |gs| => if i == k then gs[i] else gs[i].(transparent := true))
  }

  /** Where the target digit is found in a freshly generated strip: at
      `10 + target` for a target in 0..9, and nowhere (-1) for NaN or any
      other number. */
  function TargetIndex(target: Option<int>): (k: int)
    ensures k == -1 <==> !(target.Some? && 0 <= target.value <= 9)
    ensures k != -1 ==> SearchFrom <= k < StripLength && Strip()[k].value == target.value
  {
    if target.Some? && 0 <= target.value <= 9 then SearchFrom + target.value else -1
  }

  /** The start delay of the roll of container `index` out of `count`:
      `200 + (count - 1 - index) * 200` ms after the call. */
  function RollDelay(index: nat, count: nat): (r: int)
    ensures index < count ==> r == (count - index) * StaggerMs && r >= StaggerMs
  {
    StaggerMs + (count - 1 - index) * StaggerMs
  }

  // ---------------------------------------------------------------------------
  // Properties

  lemma StripAt(i: nat)
    requires i < StripLength
    ensures Strip()[i] == Glyph(i % 10, i, None, false)
  {
  }

  /** `findIndex` has one answer. */
  lemma FirstHitUnique(gs: seq<Glyph>, target: Option<int>, k1: int, k2: int)
    requires IsFirstHit(gs, target, k1) && IsFirstHit(gs, target, k2)
    ensures k1 == k2
  {
  }

  /** On a freshly generated strip, `findIndex` returns exactly
      `TargetIndex(target)`: `10 + target` for a digit, -1 otherwise. */
  lemma SearchOnStrip(target: Option<int>, k: int)
    ensures IsFirstHit(Strip(), target, k) <==> k == TargetIndex(target)
  {
    var s := Strip();
    var t := TargetIndex(target);
    assert IsFirstHit(s, target, t) by {
      forall i | 0 <= i < |s| && (t == -1 || i < t) ensures !Hit(s, target, i) {
        StripAt(i);
      }
    }
    if IsFirstHit(s, target, k) {
      FirstHitUnique(s, target, k, t);
    }
  }

  /** The roll parks glyph `k` at offset 0, and moves glyph `i` to twice its
      distance from `k`: the strip is not shifted rigidly, but no other glyph
      lands in the window. */
  lemma RollAlignsTarget(gs: seq<Glyph>, k: int, i: nat)
    requires i < |gs| && gs[i].top == i
    ensures Resting(Rolled(gs, k)[i]) == 2 * (i - k)
    ensures Resting(Rolled(gs, k)[i]) == 0 <==> i == k
  {
  }

  /** The end state of a container whose target is a digit: the glyph at
      `10 + target` shows the target, rests at offset 0 and stays opaque,
      every other glyph is transparent and rests elsewhere. */
  lemma SettledView(target: int)
    requires 0 <= target <= 9
    ensures var k := TargetIndex(Some(target));
      var s := Faded(Rolled(Strip(), k), k);
      && k == SearchFrom + target
      && s[k].value == target && Resting(s[k]) == 0 && !s[k].transparent
      && forall i :: 0 <= i < |s| && i != k ==> s[i].transparent && Resting(s[i]) != 0
  {
    var k := TargetIndex(Some(target));
    var s := Faded(Rolled(Strip(), k), k);
    forall i | 0 <= i < |s|
      ensures s[i].value == i % 10 && s[i].top == i && (i != k <==> s[i].transparent)
      ensures Resting(s[i]) == 0 <==> i == k
    {
      StripAt(i);
      RollAlignsTarget(Strip(), k, i);
    }
  }

  /** The rightmost container starts first, after 200 ms, and each container
      starts 200 ms after its right-hand neighbour. */
  lemma Stagger(index: nat, count: nat)
    requires index < count
    ensures RollDelay(count - 1, count) == StaggerMs
    ensures index + 1 < count ==> RollDelay(index, count) == RollDelay(index + 1, count) + StaggerMs
    ensures RollDelay(index, count) >= StaggerMs
  {
  }

  // ---------------------------------------------------------------------------
  // The DOM side

  /** A `.digit-container` element: its parsed `data-target` (None for NaN)
      and its children. */
  class DigitContainer {
    const target: Option<int>
    var glyphs: seq<Glyph>

    constructor (target: Option<int>, children: seq<Glyph>)
      ensures this.target == target && glyphs == children
    {
      this.target := target;
      glyphs := children;
    }

    /** Clearing `innerHTML` and appending the 20 generated glyphs. */
    method Refill()
      modifies this
      ensures glyphs == Strip()
    {
      glyphs := [];
      for i := 0 to StripLength
        invariant glyphs == Strip()[..i]
      {
        glyphs := glyphs + [Fresh(i)];
      }
    }

    /** The search of the roll timer's callback: `findIndex` over the
        children. */
    method FindTarget() returns (k: int)
      ensures IsFirstHit(glyphs, target, k)
    {
      k := -1;
      var i := 0;
      while i < |glyphs|
        invariant 0 <= i <= |glyphs|
        invariant forall j :: 0 <= j < i ==> !Hit(glyphs, target, j)
      {
        if target == Some(glyphs[i].value) && i >= SearchFrom {
          k := i;
          return;
        }
        i := i + 1;
      }
    }

    /** The roll timer's callback: when the target is found, every child
        gets its shift; otherwise nothing changes. Returns the index the
        hiding timer is for, or -1, and the delay of the hiding timer it
        sets: 800 ms when the target is found, none otherwise. */
    method OnRollTimer() returns (k: int, hideDelay: Option<nat>)
      modifies this
      ensures IsFirstHit(old(glyphs), target, k)
      ensures glyphs == if k == -1 then old(glyphs) else Rolled(old(glyphs), k)
      ensures hideDelay == if k == -1 then None else Some(RollMs)
    {
      k := FindTarget();
      hideDelay := None;
      if k != -1 {
        hideDelay := Some(RollMs);
        var before := glyphs;
        var i := 0;
        while i < |glyphs|
          invariant 0 <= i <= |glyphs| == |before|
          invariant glyphs[..i] == Rolled(before, k)[..i]
          invariant glyphs[i..] == before[i..]
        {
          glyphs := glyphs[i := glyphs[i].(shift := Some(Shift(i, k)))];
          i := i + 1;
        }
        assert glyphs == glyphs[..i];
      }
    }

    /** The hiding timer's callback, 800 ms after the roll: opacity "0" for
        every child except index `k`. */
    method OnHideTimer(k: int)
      modifies this
      ensures glyphs == Faded(old(glyphs), k)
    {
      var before := glyphs;
      var i := 0;
      while i < |glyphs|
        invariant 0 <= i <= |glyphs| == |before|
        invariant glyphs[..i] == Faded(before, k)[..i]
        invariant glyphs[i..] == before[i..]
      {
        if i != k {
          glyphs := glyphs[i := glyphs[i].(transparent := true)];
        }
        i := i + 1;
      }
      assert glyphs == glyphs[..i];
    }

    /** One container through its three steps in the order their timers
        fire: refill, roll at time `rollAt`, hide. A digit target ends in
        the settled view of `SettledView`, hidden at `rollAt + 800`; any other
        target leaves the fresh strip untouched and sets no hiding timer. */
    method Animate(rollAt: int) returns (hideAt: Option<int>)
      modifies this
      ensures target.Some? && 0 <= target.value <= 9 ==>
        glyphs == Faded(Rolled(Strip(), TargetIndex(target)), TargetIndex(target))
        && hideAt == Some(rollAt + RollMs)
      ensures !(target.Some? && 0 <= target.value <= 9) ==> glyphs == Strip() && hideAt == None
    {
      Refill();
      var k, hideDelay := OnRollTimer();
      SearchOnStrip(target, k);
      hideAt := None;
      if k != -1 {
        hideAt := Some(rollAt + hideDelay.value);
        OnHideTimer(k);
      }
    }
  }

  /** `startCounterAnimation(priceTag)`: refills every container of the tag
      at once and returns, per container, the delay of its roll timer. */
  method StartCounterAnimation(containers: seq<DigitContainer>) returns (delays: seq<int>)
    modifies set c | c in containers
    ensures forall c :: c in containers ==> c.glyphs == Strip()
    ensures |delays| == |containers|
    ensures forall i :: 0 <= i < |containers| ==> delays[i] == RollDelay(i, |containers|)
  {
    delays := [];
    for i := 0 to |containers|
      invariant forall j :: 0 <= j < i ==> containers[j].glyphs == Strip()
      invariant |delays| == i
      invariant forall j :: 0 <= j < i ==> delays[j] == RollDelay(j, |containers|)
    {
      containers[i].Refill();
      delays := delays + [RollDelay(i, |containers|)];
    }
  }
}
