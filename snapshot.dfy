/**
 * The earlier `components.rs` snapshot: the same cyclic attributes, plus `Stripes`, but over
 * `i32` values. Rust's `%` truncates toward zero; `TruncRem` writes that operator out. A value
 * a little below the range comes back into it (cycling right from `-(N + 1)` on, left from
 * `1 - N` on); further below, the result is zero or negative.
 */
module Snapshot {
  import opened MachineInt
  import Cycling

  const BASE: Cycling.Range := Cycling.Range(0, 3)
  const GLAZING: Cycling.Range := Cycling.Range(3, 10)
  const SPRINKLES: Cycling.Range := Cycling.Range(13, 9)
  const STRIPES: Cycling.Range := Cycling.Range(15, 4)

  /** Rust's `a % n` on signed integers: the remainder takes the sign of `a`. */
  function TruncRem(a: int, n: int): (r: int)
    requires 0 < n
    ensures -n < r < n
    ensures 0 <= a ==> r == a % n
    ensures a < 0 ==> r <= 0 && (r == a % n || r == a % n - n)
  {
    if 0 <= a then a % n
    else
      var m := (-a) % n;
      assert -a == n * ((-a) / n) + m;
      if m == 0 then
        Cycling.ModUnique(a, n, -((-a) / n), 0);
        0
      else
        Cycling.ModUnique(a, n, -((-a) / n) - 1, n - m);
        -m
  }

  /** On an in-range value the `i32` `cycle_right` agrees with the `usize` one of `component.rs`. */
  lemma {:induction false} RightAgreesInRange(v: int, n: nat)
    requires 0 <= v < n
    ensures TruncRem(v + n + 1, n) == Cycling.NextValue(v, n)
  {
  }

  /** On an in-range value the `i32` `cycle_left` agrees with the `usize` one of `component.rs`. */
  lemma {:induction false} LeftAgreesInRange(v: int, n: nat)
    requires 0 <= v < n
    ensures TruncRem(v + n - 1, n) == Cycling.PrevValue(v, n)
  {
  }

  /** For `0 <= v < N` both cycle operations stay in `[0, N)` and undo each other. */
  lemma {:induction false} CyclesInverseInRange(v: int, n: nat)
    requires 0 <= v < n
    ensures 0 <= TruncRem(v + n + 1, n) < n && 0 <= TruncRem(v + n - 1, n) < n
    ensures TruncRem(TruncRem(v + n + 1, n) + n - 1, n) == v
    ensures TruncRem(TruncRem(v + n - 1, n) + n + 1, n) == v
  {
    RightAgreesInRange(v, n);
    LeftAgreesInRange(v, n);
    Cycling.NextPrevInverse(v, n);
    RightAgreesInRange(TruncRem(v + n - 1, n), n);
    LeftAgreesInRange(TruncRem(v + n + 1, n), n);
  }

  /**
   * Slightly below the range both cycles land back in `[0, N)`: the sums they take the
   * remainder of are not negative. `Base(-1)` cycles right to `Base(0)` and left to `Base(1)`.
   */
  lemma SmallNegativesReturn(v: int, n: nat)
    requires 0 < n && -(n + 1) <= v < 0
    ensures 0 <= TruncRem(v + n + 1, n) < n
    ensures 1 - n <= v ==> 0 <= TruncRem(v + n - 1, n) < n
  {
  }

  /** `Base(-1)` returns into range whichever way it cycles. */
  lemma BaseMinusOneReturns()
    ensures TruncRem(-1 + BASE.count + 1, BASE.count) == 0
    ensures TruncRem(-1 + BASE.count - 1, BASE.count) == 1
  {
  }

  /** Further below, the truncating remainder keeps a value negative: `Base(-5)` cycles right to `Base(-1)`. */
  lemma NegativeBaseStaysNegative()
    ensures TruncRem(-5 + BASE.count + 1, BASE.count) == -1
  {
  }

  /** The unit test of `Base`: from 0, left gives 2, left 1, right 2, right 0. */
  lemma BaseCyclingSequence()
    ensures TruncRem(0 + BASE.count - 1, BASE.count) == 2
    ensures TruncRem(2 + BASE.count - 1, BASE.count) == 1
    ensures TruncRem(1 + BASE.count + 1, BASE.count) == 2
    ensures TruncRem(2 + BASE.count + 1, BASE.count) == 0
  {
  }

  /**
   * `START_SPRITE_INDEX + (v as usize)` with `usize` wrap-around (a release build; a debug
   * build panics where the sum wraps). For `-START <= v < 0` it wraps back to `START + v`.
   */
  function SpriteIndex(r: Cycling.Range, v: int): (k: nat)
    requires IsI32(v)
    ensures k < USIZE_MODULUS && (k - (r.start + v)) % USIZE_MODULUS == 0
    ensures 0 <= r.start + v < USIZE_MODULUS ==> k == r.start + v
    ensures r.start + v < 0 ==> k > I32_MAX
  {
    (r.start + AsUsize(v)) % USIZE_MODULUS
  }

  /** `Glazing(-1)` wraps to sprite 2, the third base sprite: a glazing showing a base. */
  lemma GlazingMinusOneShowsBaseSprite()
    ensures SpriteIndex(GLAZING, -1) == 2 == Cycling.SpriteIndex(BASE, 2)
  {
  }

  /**
   * In this snapshot the `Sprinkles` block `[13, 22)` and the `Stripes` block `[15, 19)`
   * overlap: `Sprinkles(2)` and `Stripes(0)` both show atlas sprite 15.
   */
  lemma SprinklesOverlapStripes()
    ensures SpriteIndex(SPRINKLES, 2) == SpriteIndex(STRIPES, 0) == 15
  {
  }

  /** One `i32` attribute component of the snapshot, updated in place. */
  class SignedAttribute {
    const range: Cycling.Range
    var value: int

    ghost predicate Valid()
      reads this
    {
      0 < range.count <= I32_MAX && IsI32(value)
    }

    constructor (range: Cycling.Range, value: int)
      requires 0 < range.count <= I32_MAX && IsI32(value)
      ensures Valid() && this.range == range && this.value == value
    {
      this.range := range;
      this.value := value;
    }

    /** `cycle_right`; the sum `v + N + 1` must not overflow `i32`. */
    method CycleRight() returns (self: SignedAttribute)
      requires Valid() && value + range.count + 1 <= I32_MAX
      modifies this
      ensures Valid() && self == this
      ensures value == TruncRem(old(value) + range.count + 1, range.count)
    {
      value := TruncRem(value + range.count + 1, range.count);
      self := this;
    }

    /** `cycle_left`; the partial sum `v + N` must not overflow `i32`. */
    method CycleLeft() returns (self: SignedAttribute)
      requires Valid() && value + range.count <= I32_MAX
      modifies this
      ensures Valid() && self == this
      ensures value == TruncRem(old(value) + range.count - 1, range.count)
    {
      value := TruncRem(value + range.count - 1, range.count);
      self := this;
    }

    function ToSpriteIndex(): (k: nat)
      reads this
      requires Valid()
      ensures k == SpriteIndex(range, value)
    {
      (range.start + AsUsize(value)) % USIZE_MODULUS
    }
  }
}
