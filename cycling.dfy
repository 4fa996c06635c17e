/**
 * The cyclic donut attributes of `component.rs`: `Base`, `Glazing` and `Sprinkles` each hold
 * an index into a fixed block of sprites of the donut atlas. The three Rust types share one
 * shape, so they are one class here, `Attribute`, parameterised by its sprite `Range`.
 */
module Cycling {

  /** A block of `count` consecutive atlas sprites starting at atlas index `start`. */
  datatype Range = Range(start: nat, count: nat)

  /** `Base`: three donut bases at atlas indices 0, 1, 2. */
  const BASE: Range := Range(0, 3)
  /** `Glazing`: ten glazings at atlas indices 3 to 12. */
  const GLAZING: Range := Range(3, 10)
  /** `Sprinkles`: nine sprinkles/stripes variants at atlas indices 13 to 21 (five sprinkles, then four stripes). */
  const SPRINKLES: Range := Range(13, 9)
  /** Number of sub-textures in the donut atlas. */
  const ATLAS_SIZE: nat := 22

  datatype Part = BasePart | GlazingPart | SprinklesPart

  function RangeOf(p: Part): Range {
    match p
    case BasePart => BASE
    case GlazingPart => GLAZING
    case SprinklesPart => SPRINKLES
  }

  // ---------------------------------------------------------------------------------------
  // Arithmetic of the cycle

  /** `v` moved `k` steps around a cycle of length `n` (Euclidean remainder). */
  function Shift(v: int, k: int, n: nat): (r: nat)
    requires 0 < n
    ensures r < n
  {
    (v + k) % n
  }

  /** The value `cycle_right` stores: `(v + N + 1) % N`. */
  function NextValue(v: nat, n: nat): (r: nat)
    requires 0 < n
    ensures r < n
  {
    (v + n + 1) % n
  }

  /** The value `cycle_left` stores: `(v + N - 1) % N`. */
  function PrevValue(v: nat, n: nat): (r: nat)
    requires 0 < n
    ensures r < n
  {
    (v + n - 1) % n
  }

  /** A positive multiple of a positive `n` is at least `n`. */
  lemma {:induction false} MulAtLeast(n: int, k: int)
    requires 0 < n && 1 <= k
    ensures n * k >= n
  {
    if k > 1 {
      MulAtLeast(n, k - 1);
      assert n * k == n * (k - 1) + n;
    }
  }

  /** The remainder is the unique `r` in `[0, n)` with `a == n * q + r`. */
  lemma ModUnique(a: int, n: int, q: int, r: int)
    requires 0 < n && 0 <= r < n && a == n * q + r
    ensures a % n == r
  {
    var q0, r0 := a / n, a % n;
    assert a == n * q0 + r0;
    if q > q0 {
      assert n * (q - q0) == r0 - r;
      MulAtLeast(n, q - q0);
    } else if q < q0 {
      assert n * (q0 - q) == r - r0;
      MulAtLeast(n, q0 - q);
    }
  }

  /** Adding a whole number of turns does not change the position on the cycle. */
  lemma ModAddTurns(a: int, q: int, n: int)
    requires 0 < n
    ensures (a + n * q) % n == a % n
  {
    var r := a % n;
    assert a == n * (a / n) + r;
    assert a + n * q == n * (a / n + q) + r;
    ModUnique(a + n * q, n, a / n + q, r);
  }

  /** Taking the remainder before adding more steps makes no difference. */
  lemma ModThenAdd(a: int, b: int, n: int)
    requires 0 < n
    ensures (a % n + b) % n == (a + b) % n
  {
    assert a % n + b == (a + b) + n * (-(a / n));
    ModAddTurns(a + b, -(a / n), n);
  }

  lemma {:induction false} ShiftZero(v: nat, n: nat)
    requires v < n
    ensures Shift(v, 0, n) == v
  {
    ModUnique(v, n, 0, v);
  }

  /** Two moves around the cycle compose into one. */
  lemma {:induction false} ShiftShift(v: int, a: int, b: int, n: nat)
    requires 0 < n
    ensures Shift(Shift(v, a, n), b, n) == Shift(v, a + b, n)
  {
    ModThenAdd(v + a, b, n);
  }

  lemma {:induction false} NextIsShift(v: nat, n: nat)
    requires 0 < n
    ensures NextValue(v, n) == Shift(v, 1, n)
  {
    ModAddTurns(v + 1, 1, n);
  }

  lemma {:induction false} PrevIsShift(v: nat, n: nat)
    requires 0 < n
    ensures PrevValue(v, n) == Shift(v, -1, n)
  {
    ModAddTurns(v - 1, 1, n);
  }

  /** On an in-range value, `cycle_right` is the successor, wrapping from `N - 1` to `0`. */
  lemma {:induction false} NextValueStep(v: nat, n: nat)
    requires v < n
    ensures NextValue(v, n) == if v + 1 == n then 0 else v + 1
  {
    if v + 1 == n {
      ModUnique(v + n + 1, n, 2, 0);
    } else {
      ModUnique(v + n + 1, n, 1, v + 1);
    }
  }

  /** On an in-range value, `cycle_left` is the predecessor, wrapping from `0` to `N - 1`. */
  lemma {:induction false} PrevValueStep(v: nat, n: nat)
    requires v < n
    ensures PrevValue(v, n) == if v == 0 then n - 1 else v - 1
  {
    if v == 0 {
      ModUnique(v + n - 1, n, 0, n - 1);
    } else {
      ModUnique(v + n - 1, n, 1, v - 1);
    }
  }

  /** `cycle_left` and `cycle_right` undo each other on every in-range value. */
  lemma {:induction false} NextPrevInverse(v: nat, n: nat)
    requires v < n
    ensures NextValue(PrevValue(v, n), n) == v
    ensures PrevValue(NextValue(v, n), n) == v
  {
    NextValueStep(v, n);
    PrevValueStep(v, n);
    NextValueStep(PrevValue(v, n), n);
    PrevValueStep(NextValue(v, n), n);
  }

  /** The unit test of `Base`: from 0, left gives 2, left 1, right 2, right 0. */
  lemma BaseCyclingSequence()
    ensures PrevValue(0, BASE.count) == 2
    ensures PrevValue(2, BASE.count) == 1
    ensures NextValue(1, BASE.count) == 2
    ensures NextValue(2, BASE.count) == 0
  {
  }

  // ---------------------------------------------------------------------------------------
  // Sprite indices

  /** `to_sprite_index`: `START_SPRITE_INDEX + v`, a sprite inside the attribute's own block. */
  function SpriteIndex(r: Range, v: nat): (k: nat)
    requires v < r.count
    ensures r.start <= k < r.start + r.count
    ensures k - r.start == v
  {
    r.start + v
  }

  /** Every in-range donut part maps to a sprite of the 22-entry donut atlas. */
  lemma SpriteIndexInAtlas(p: Part, v: nat)
    requires v < RangeOf(p).count
    ensures SpriteIndex(RangeOf(p), v) < ATLAS_SIZE
  {
  }

  /** Different parts or values never share a sprite: the three blocks are disjoint. */
  lemma SpriteIndexInjective(p: Part, v: nat, q: Part, w: nat)
    requires v < RangeOf(p).count && w < RangeOf(q).count
    requires SpriteIndex(RangeOf(p), v) == SpriteIndex(RangeOf(q), w)
    ensures p == q && v == w
  {
  }

  /** The owner of an atlas sprite: the three blocks together tile `[0, 22)`. */
  function SpriteOwner(k: nat): (pv: (Part, nat))
    requires k < ATLAS_SIZE
    ensures pv.1 < RangeOf(pv.0).count
    ensures SpriteIndex(RangeOf(pv.0), pv.1) == k
  {
    if k < GLAZING.start then (BasePart, k)
    else if k < SPRINKLES.start then (GlazingPart, k - GLAZING.start)
    else (SprinklesPart, k - SPRINKLES.start)
  }

  // ---------------------------------------------------------------------------------------
  // The attribute component

  /** One donut attribute component (`Base`, `Glazing` or `Sprinkles`), updated in place. */
  class Attribute {
    const range: Range
    var value: nat

    ghost predicate Valid()
      reads this
    {
      0 < range.count && value < range.count
    }

    constructor (range: Range, value: nat)
      requires value < range.count
      ensures Valid()
      ensures this.range == range && this.value == value
    {
      this.range := range;
      this.value := value;
    }

    /** `cycle_right`: the value moves one step forward around its block; returns itself. */
    method CycleRight() returns (self: Attribute)
      requires Valid()
      modifies this
      ensures Valid() && self == this
      ensures value == NextValue(old(value), range.count)
    {
      value := (value + range.count + 1) % range.count;
      self := this;
    }

    /** `cycle_left`: the value moves one step backward around its block; returns itself. */
    method CycleLeft() returns (self: Attribute)
      requires Valid()
      modifies this
      ensures Valid() && self == this
      ensures value == PrevValue(old(value), range.count)
    {
      value := (value + range.count - 1) % range.count;
      self := this;
    }

    function ToSpriteIndex(): (k: nat)
      reads this
      requires Valid()
      ensures k == SpriteIndex(range, value)
    {
      range.start + value
    }
  }

  /**
   * The `test_base_cycling` unit test replayed on the class: the value left by each of the
   * four calls is collected, and the ensures fixes them.
   */
  method BaseCyclingTest() returns (values: seq<nat>)
    ensures values == [2, 1, 2, 0]
  {
    BaseCyclingSequence();
    var base := new Attribute(BASE, 0);
    var b := base.CycleLeft();
    assert b == base;
    values := [b.value];
    b := base.CycleLeft();
    values := values + [b.value];
    b := base.CycleRight();
    values := values + [b.value];
    b := base.CycleRight();
    values := values + [b.value];
  }
}
