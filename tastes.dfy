/**
 * Customer taste and donut ranking of `component.rs`: a `Taste` holds one rating per sprite
 * variant of each attribute, and a donut's rank is the truncating average of the three
 * ratings its parts pick out.
 */
module Tastes {
  import opened Cycling

  /** `DonutBundle`: the three attribute values of one donut. */
  datatype DonutParts = DonutParts(base: nat, glazing: nat, sprinkles: nat) {
    /** Every part indexes an existing variant (and so a rating slot of any `Taste`). */
    predicate InRange() {
      base < BASE.count && glazing < GLAZING.count && sprinkles < SPRINKLES.count
    }
  }

  /** `Taste`: rating arrays of the fixed sizes `3`, `10` and `9`. */
  datatype Taste = Taste(bases: seq<nat>, glazing: seq<nat>, sprinkles: seq<nat>) {
    predicate WellSized() {
      |bases| == BASE.count && |glazing| == GLAZING.count && |sprinkles| == SPRINKLES.count
    }

    /** Every rating in every slot lies in `[lo, hi]`. */
    predicate RatingsWithin(lo: nat, hi: nat) {
      && (forall i :: 0 <= i < |bases| ==> lo <= bases[i] <= hi)
      && (forall i :: 0 <= i < |glazing| ==> lo <= glazing[i] <= hi)
      && (forall i :: 0 <= i < |sprinkles| ==> lo <= sprinkles[i] <= hi)
    }
  }

  function Zeros(n: nat): (s: seq<nat>)
    ensures |s| == n && forall i :: 0 <= i < n ==> s[i] == 0
  {
    seq(n, _ => 0)
  }

  /** `Taste::default()`: every rating is zero. */
  function DefaultTaste(): (t: Taste)
    ensures t.WellSized() && t.RatingsWithin(0, 0)
  {
    Taste(Zeros(BASE.count), Zeros(GLAZING.count), Zeros(SPRINKLES.count))
  }

  /** The truncating `usize` average of three ratings. */
  function AverageOf3(b: nat, g: nat, s: nat): (r: nat)
    ensures 3 * r <= b + g + s < 3 * r + 3
  {
    (b + g + s) / 3
  }

  /** `Taste::rank`: the average of the ratings of the donut's base, glazing and sprinkles. */
  function Rank(t: Taste, d: DonutParts): (r: nat)
    requires t.WellSized() && d.InRange()
    ensures 3 * r <= t.bases[d.base] + t.glazing[d.glazing] + t.sprinkles[d.sprinkles] < 3 * r + 3
  {
    AverageOf3(t.bases[d.base], t.glazing[d.glazing], t.sprinkles[d.sprinkles])
  }

  /** The average never leaves the range of the ratings it averages. */
  lemma AverageWithin(b: nat, g: nat, s: nat, lo: nat, hi: nat)
    requires lo <= b <= hi && lo <= g <= hi && lo <= s <= hi
    ensures lo <= AverageOf3(b, g, s) <= hi
  {
  }

  /** Raising any of the three ratings never lowers the average. */
  lemma AverageMonotone(b: nat, g: nat, s: nat, b': nat, g': nat, s': nat)
    requires b <= b' && g <= g' && s <= s'
    ensures AverageOf3(b, g, s) <= AverageOf3(b', g', s')
  {
  }

  /** If a taste rates everything within `[lo, hi]`, it ranks every donut within `[lo, hi]`. */
  lemma RankWithin(t: Taste, d: DonutParts, lo: nat, hi: nat)
    requires t.WellSized() && d.InRange() && t.RatingsWithin(lo, hi)
    ensures lo <= Rank(t, d) <= hi
  {
    AverageWithin(t.bases[d.base], t.glazing[d.glazing], t.sprinkles[d.sprinkles], lo, hi);
  }

  /** A taste that likes each chosen part at least as much as another taste ranks the donut at least as high. */
  lemma RankMonotone(t: Taste, t': Taste, d: DonutParts)
    requires t.WellSized() && t'.WellSized() && d.InRange()
    requires t.bases[d.base] <= t'.bases[d.base]
    requires t.glazing[d.glazing] <= t'.glazing[d.glazing]
    requires t.sprinkles[d.sprinkles] <= t'.sprinkles[d.sprinkles]
    ensures Rank(t, d) <= Rank(t', d)
  {
    AverageMonotone(t.bases[d.base], t.glazing[d.glazing], t.sprinkles[d.sprinkles],
                    t'.bases[d.base], t'.glazing[d.glazing], t'.sprinkles[d.sprinkles]);
  }

  /** Unit test: the default taste ranks the donut `(0, 0, 0)` at 0. */
  lemma DefaultTasteRanksZero(d: DonutParts)
    requires d.InRange()
    ensures Rank(DefaultTaste(), d) == 0
  {
    RankWithin(DefaultTaste(), d, 0, 0);
  }

  /** Unit test: a taste that rates the donut's three parts 5 ranks it 5. */
  lemma ExactTasteRanksFive(t: Taste, d: DonutParts)
    requires t.WellSized() && d.InRange()
    requires t.bases[d.base] == 5 && t.glazing[d.glazing] == 5 && t.sprinkles[d.sprinkles] == 5
    ensures Rank(t, d) == 5
  {
  }

  /** `[0; n].map(|_| rng.gen_range(1..5))`: `n` ratings, each chosen freely in `[1, 4]`. */
  method RandomRatings(n: nat) returns (ratings: seq<nat>)
    ensures |ratings| == n
    ensures forall i :: 0 <= i < n ==> 1 <= ratings[i] <= 4
  {
    ratings := [];
    while |ratings| < n
      invariant |ratings| <= n
      invariant forall i :: 0 <= i < |ratings| ==> 1 <= ratings[i] <= 4
    {
      var rating: nat :| 1 <= rating < 5;
      ratings := ratings + [rating];
    }
  }

  /** `Taste::random`: a well-sized taste whose every rating lies in `[1, 4]`. */
  method RandomTaste() returns (t: Taste)
    ensures t.WellSized() && t.RatingsWithin(1, 4)
  {
    var bases := RandomRatings(BASE.count);
    var glazing := RandomRatings(GLAZING.count);
    var sprinkles := RandomRatings(SPRINKLES.count);
    t := Taste(bases, glazing, sprinkles);
  }

  /** Under a random taste every donut ranks between 1 and 4. */
  lemma RandomTasteRank(t: Taste, d: DonutParts)
    requires t.WellSized() && d.InRange() && t.RatingsWithin(1, 4)
    ensures 1 <= Rank(t, d) <= 4
  {
    RankWithin(t, d, 1, 4);
  }
}
