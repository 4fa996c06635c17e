/**
 * The game systems of `system.rs` that carry logic: the key dispatch of
 * `change_cooking_donut`, the child-sprite synchronisation of `update_donut_sprites`, and the
 * guard and rank-to-emotion mapping of `offer_cooked_donut`. Engine queries become sequences
 * of objects (or of values, where nothing is updated).
 */
module Systems {
  import opened Wrappers
  import opened Input
  import opened Cycling
  import opened Tastes

  // ---------------------------------------------------------------------------------------
  // Key dispatch

  datatype Direction = Forward | Backward

  /** One call of `cycle_right` (`Forward`) or `cycle_left` (`Backward`) on one part. */
  datatype Op = Cycle(part: Part, dir: Direction)

  function IfPressed(keys: set<Key>, k: Key, op: Op): seq<Op> {
    if k in keys then [op] else []
  }

  /** The cycle calls `change_cooking_donut` makes for the keys of one frame, in program order. */
  function Dispatch(keys: set<Key>): (ops: seq<Op>)
    ensures |ops| == Pressed(keys, Right) + Pressed(keys, Left) + Pressed(keys, W) + Pressed(keys, Q)
                   + Pressed(keys, S) + Pressed(keys, A) + Pressed(keys, X) + Pressed(keys, Z)
  {
    IfPressed(keys, Right, Cycle(BasePart, Forward))
    + IfPressed(keys, Left, Cycle(BasePart, Backward))
    + IfPressed(keys, W, Cycle(BasePart, Forward))
    + IfPressed(keys, Q, Cycle(BasePart, Backward))
    + IfPressed(keys, S, Cycle(GlazingPart, Forward))
    + IfPressed(keys, A, Cycle(GlazingPart, Backward))
    + IfPressed(keys, X, Cycle(SprinklesPart, Forward))
    + IfPressed(keys, Z, Cycle(SprinklesPart, Backward))
  }

  function Get(d: DonutParts, p: Part): nat {
    match p
    case BasePart => d.base
    case GlazingPart => d.glazing
    case SprinklesPart => d.sprinkles
  }

  /** One cycle call on a donut's values. */
  function Step(d: DonutParts, op: Op): (e: DonutParts)
    requires d.InRange()
    ensures e.InRange()
    ensures Get(e, op.part) == Shift(Get(d, op.part), if op.dir == Forward then 1 else -1, RangeOf(op.part).count)
    ensures op.part != BasePart ==> e.base == d.base
    ensures op.part != GlazingPart ==> e.glazing == d.glazing
    ensures op.part != SprinklesPart ==> e.sprinkles == d.sprinkles
  {
    var n := RangeOf(op.part).count;
    var v := Get(d, op.part);
    NextIsShift(v, n);
    PrevIsShift(v, n);
    var v' := if op.dir == Forward then NextValue(v, n) else PrevValue(v, n);
    match op.part
    case BasePart => d.(base := v')
    case GlazingPart => d.(glazing := v')
    case SprinklesPart => d.(sprinkles := v')
  }

  /** A sequence of cycle calls, applied first to last. */
  function Run(d: DonutParts, ops: seq<Op>): (e: DonutParts)
    requires d.InRange()
    ensures e.InRange()
    decreases |ops|
  {
    if ops == [] then d else Step(Run(d, ops[..|ops| - 1]), ops[|ops| - 1])
  }

  /** How one cycle call moves part `p`: +1, -1, or not at all. */
  function Contribution(op: Op, p: Part): int {
    if op.part != p then 0 else if op.dir == Forward then 1 else -1
  }

  /** Net number of steps `ops` moves part `p`: forward calls minus backward calls. */
  function NetSteps(ops: seq<Op>, p: Part): int
    decreases |ops|
  {
    if ops == [] then 0
    else
      var op := ops[|ops| - 1];
      NetSteps(ops[..|ops| - 1], p) + Contribution(op, p)
  }

  function Pressed(keys: set<Key>, k: Key): int {
    if k in keys then 1 else 0
  }

  /** Net steps the keys of one frame ask of part `p`, counted from the key bindings alone. */
  function KeyNet(keys: set<Key>, p: Part): int {
    match p
    case BasePart => Pressed(keys, Right) + Pressed(keys, W) - Pressed(keys, Left) - Pressed(keys, Q)
    case GlazingPart => Pressed(keys, S) - Pressed(keys, A)
    case SprinklesPart => Pressed(keys, X) - Pressed(keys, Z)
  }

  lemma {:induction false} NetStepsAppend(a: seq<Op>, b: seq<Op>, p: Part)
    ensures NetSteps(a + b, p) == NetSteps(a, p) + NetSteps(b, p)
    decreases |b|
  {
    if b != [] {
      assert (a + b)[..|a + b| - 1] == a + b[..|b| - 1];
      NetStepsAppend(a, b[..|b| - 1], p);
    } else {
      assert a + b == a;
    }
  }

  lemma NetStepsIfPressed(keys: set<Key>, k: Key, op: Op, p: Part)
    ensures NetSteps(IfPressed(keys, k, op), p) == if k in keys then Contribution(op, p) else 0
  {
    if k in keys {
      assert [op][..0] == [];
    }
  }

  /** The dispatch moves each part by exactly the net count of its own keys. */
  lemma {:induction false} DispatchNet(keys: set<Key>, p: Part)
    ensures NetSteps(Dispatch(keys), p) == KeyNet(keys, p)
  {
    var o1 := IfPressed(keys, Right, Cycle(BasePart, Forward));
    var o2 := IfPressed(keys, Left, Cycle(BasePart, Backward));
    var o3 := IfPressed(keys, W, Cycle(BasePart, Forward));
    var o4 := IfPressed(keys, Q, Cycle(BasePart, Backward));
    var o5 := IfPressed(keys, S, Cycle(GlazingPart, Forward));
    var o6 := IfPressed(keys, A, Cycle(GlazingPart, Backward));
    var o7 := IfPressed(keys, X, Cycle(SprinklesPart, Forward));
    var o8 := IfPressed(keys, Z, Cycle(SprinklesPart, Backward));
    NetStepsIfPressed(keys, Right, Cycle(BasePart, Forward), p);
    NetStepsIfPressed(keys, Left, Cycle(BasePart, Backward), p);
    NetStepsIfPressed(keys, W, Cycle(BasePart, Forward), p);
    NetStepsIfPressed(keys, Q, Cycle(BasePart, Backward), p);
    NetStepsIfPressed(keys, S, Cycle(GlazingPart, Forward), p);
    NetStepsIfPressed(keys, A, Cycle(GlazingPart, Backward), p);
    NetStepsIfPressed(keys, X, Cycle(SprinklesPart, Forward), p);
    NetStepsIfPressed(keys, Z, Cycle(SprinklesPart, Backward), p);
    var s2 := o1 + o2;
    NetStepsAppend(o1, o2, p);
    var s3 := s2 + o3;
    NetStepsAppend(s2, o3, p);
    var s4 := s3 + o4;
    NetStepsAppend(s3, o4, p);
    var s5 := s4 + o5;
    NetStepsAppend(s4, o5, p);
    var s6 := s5 + o6;
    NetStepsAppend(s5, o6, p);
    var s7 := s6 + o7;
    NetStepsAppend(s6, o7, p);
    var s8 := s7 + o8;
    NetStepsAppend(s7, o8, p);
    assert Dispatch(keys) == s8;
  }

  /** Running cycle calls moves every part around its own cycle by its net step count. */
  lemma {:induction false} RunShifts(d: DonutParts, ops: seq<Op>)
    requires d.InRange()
    ensures Run(d, ops) == DonutParts(
      Shift(d.base, NetSteps(ops, BasePart), BASE.count),
      Shift(d.glazing, NetSteps(ops, GlazingPart), GLAZING.count),
      Shift(d.sprinkles, NetSteps(ops, SprinklesPart), SPRINKLES.count))
    decreases |ops|
  {
    if ops == [] {
      ShiftZero(d.base, BASE.count);
      ShiftZero(d.glazing, GLAZING.count);
      ShiftZero(d.sprinkles, SPRINKLES.count);
    } else {
      var init, op := ops[..|ops| - 1], ops[|ops| - 1];
      RunShifts(d, init);
      var p := op.part;
      var n := RangeOf(p).count;
      var v := Get(Run(d, init), p);
      NextIsShift(v, n);
      PrevIsShift(v, n);
      ShiftShift(Get(d, p), NetSteps(init, p), 1, n);
      ShiftShift(Get(d, p), NetSteps(init, p), -1, n);
    }
  }

  /** What a frame does to a donut: each part moves by the net count of its own keys and no other. */
  lemma DispatchEffect(d: DonutParts, keys: set<Key>)
    requires d.InRange()
    ensures Run(d, Dispatch(keys)) == DonutParts(
      Shift(d.base, KeyNet(keys, BasePart), BASE.count),
      Shift(d.glazing, KeyNet(keys, GlazingPart), GLAZING.count),
      Shift(d.sprinkles, KeyNet(keys, SprinklesPart), SPRINKLES.count))
  {
    RunShifts(d, Dispatch(keys));
    DispatchNet(keys, BasePart);
    DispatchNet(keys, GlazingPart);
    DispatchNet(keys, SprinklesPart);
  }

  /** A part none of whose keys is pressed keeps its value. */
  lemma UnpressedPartsUnchanged(d: DonutParts, keys: set<Key>)
    requires d.InRange()
    ensures Right !in keys && Left !in keys && W !in keys && Q !in keys ==>
      Run(d, Dispatch(keys)).base == d.base
    ensures S !in keys && A !in keys ==> Run(d, Dispatch(keys)).glazing == d.glazing
    ensures X !in keys && Z !in keys ==> Run(d, Dispatch(keys)).sprinkles == d.sprinkles
  {
    DispatchEffect(d, keys);
    ShiftZero(d.base, BASE.count);
    ShiftZero(d.glazing, GLAZING.count);
    ShiftZero(d.sprinkles, SPRINKLES.count);
  }

  /** Right and W in the same frame (and neither Left nor Q) cycle the base right twice. */
  lemma RightAndWCycleTwice(d: DonutParts, keys: set<Key>)
    requires d.InRange()
    requires Right in keys && W in keys && Left !in keys && Q !in keys
    ensures Run(d, Dispatch(keys)).base == NextValue(NextValue(d.base, BASE.count), BASE.count)
  {
    DispatchEffect(d, keys);
    NextIsShift(d.base, BASE.count);
    NextIsShift(NextValue(d.base, BASE.count), BASE.count);
    ShiftShift(d.base, 1, 1, BASE.count);
  }

  /** Right and Left together cancel (so do W and Q): the base keeps its value. */
  lemma OppositeKeysCancel(d: DonutParts, keys: set<Key>)
    requires d.InRange()
    requires (Right in keys <==> Left in keys) && (W in keys <==> Q in keys)
    ensures Run(d, Dispatch(keys)).base == d.base
  {
    DispatchEffect(d, keys);
    ShiftZero(d.base, BASE.count);
  }

  /** The cooking donut entity: three attribute components, each its own object. */
  class Donut {
    const base: Attribute
    const glazing: Attribute
    const sprinkles: Attribute

    ghost function Repr(): set<object> {
      {base, glazing, sprinkles}
    }

    ghost predicate Valid()
      reads Repr()
    {
      && base != glazing && base != sprinkles && glazing != sprinkles
      && base.range == BASE && glazing.range == GLAZING && sprinkles.range == SPRINKLES
      && base.Valid() && glazing.Valid() && sprinkles.Valid()
    }

    function Parts(): (d: DonutParts)
      reads Repr()
      requires Valid()
      ensures d.InRange()
    {
      DonutParts(base.value, glazing.value, sprinkles.value)
    }

    constructor (parts: DonutParts)
      requires parts.InRange()
      ensures Valid() && fresh(Repr()) && Parts() == parts
    {
      base := new Attribute(BASE, parts.base);
      glazing := new Attribute(GLAZING, parts.glazing);
      sprinkles := new Attribute(SPRINKLES, parts.sprinkles);
    }
  }

  lemma {:induction false} RunAppend(d: DonutParts, a: seq<Op>, b: seq<Op>)
    requires d.InRange()
    ensures Run(d, a + b) == Run(Run(d, a), b)
    decreases |b|
  {
    if b == [] {
      assert a + b == a;
    } else {
      assert (a + b)[..|a + b| - 1] == a + b[..|b| - 1];
      RunAppend(d, a, b[..|b| - 1]);
    }
  }

  /** One `if keys.just_pressed(k) { part.cycle_...(); }` of `change_cooking_donut`. */
  method PressIf(keys: set<Key>, k: Key, d: Donut, op: Op)
    requires d.Valid()
    modifies d.Repr()
    ensures d.Valid()
    ensures d.Parts() == Run(old(d.Parts()), IfPressed(keys, k, op))
  {
    if k in keys {
      assert [op][..0] == [];
      var self: Attribute;
      match op {
        case Cycle(BasePart, Forward) => self := d.base.CycleRight();
        case Cycle(BasePart, Backward) => self := d.base.CycleLeft();
        case Cycle(GlazingPart, Forward) => self := d.glazing.CycleRight();
        case Cycle(GlazingPart, Backward) => self := d.glazing.CycleLeft();
        case Cycle(SprinklesPart, Forward) => self := d.sprinkles.CycleRight();
        case Cycle(SprinklesPart, Backward) => self := d.sprinkles.CycleLeft();
      }
    }
  }

  /** The body of `change_cooking_donut`'s loop for one donut: eight key tests in order. */
  method ApplyKeys(keys: set<Key>, d: Donut)
    requires d.Valid()
    modifies d.Repr()
    ensures d.Valid()
    ensures d.Parts() == Run(old(d.Parts()), Dispatch(keys))
  {
    ghost var start := d.Parts();
    var o1 := Cycle(BasePart, Forward);
    var o2 := Cycle(BasePart, Backward);
    var o3 := Cycle(BasePart, Forward);
    var o4 := Cycle(BasePart, Backward);
    var o5 := Cycle(GlazingPart, Forward);
    var o6 := Cycle(GlazingPart, Backward);
    var o7 := Cycle(SprinklesPart, Forward);
    var o8 := Cycle(SprinklesPart, Backward);
    PressIf(keys, Right, d, o1);
    ghost var ops := IfPressed(keys, Right, o1);
    PressIf(keys, Left, d, o2);
    RunAppend(start, ops, IfPressed(keys, Left, o2));
    ops := ops + IfPressed(keys, Left, o2);
    PressIf(keys, W, d, o3);
    RunAppend(start, ops, IfPressed(keys, W, o3));
    ops := ops + IfPressed(keys, W, o3);
    PressIf(keys, Q, d, o4);
    RunAppend(start, ops, IfPressed(keys, Q, o4));
    ops := ops + IfPressed(keys, Q, o4);
    PressIf(keys, S, d, o5);
    RunAppend(start, ops, IfPressed(keys, S, o5));
    ops := ops + IfPressed(keys, S, o5);
    PressIf(keys, A, d, o6);
    RunAppend(start, ops, IfPressed(keys, A, o6));
    ops := ops + IfPressed(keys, A, o6);
    PressIf(keys, X, d, o7);
    RunAppend(start, ops, IfPressed(keys, X, o7));
    ops := ops + IfPressed(keys, X, o7);
    PressIf(keys, Z, d, o8);
    RunAppend(start, ops, IfPressed(keys, Z, o8));
    ops := ops + IfPressed(keys, Z, o8);
    assert ops == Dispatch(keys);
  }

  /** Pairwise distinct donut entities whose components are all distinct objects. */
  ghost predicate Disjoint(donuts: seq<Donut>)
    reads set i, o | 0 <= i < |donuts| && o in donuts[i].Repr() :: o
  {
    && (forall i :: 0 <= i < |donuts| ==> donuts[i].Valid())
    && (forall i, j :: 0 <= i < j < |donuts| ==> donuts[i].Repr() !! donuts[j].Repr())
  }

  /** `change_cooking_donut`: every cooking donut takes the frame's cycle calls. */
  method ChangeCookingDonut(keys: set<Key>, donuts: seq<Donut>)
    requires Disjoint(donuts)
    modifies set i, o | 0 <= i < |donuts| && o in donuts[i].Repr() :: o
    ensures Disjoint(donuts)
    ensures forall i :: 0 <= i < |donuts| ==>
      donuts[i].Parts() == Run(old(donuts[i].Parts()), Dispatch(keys))
  {
    for i := 0 to |donuts|
      invariant forall j :: 0 <= j < |donuts| ==> donuts[j].Valid()
      invariant forall j :: 0 <= j < i ==>
        donuts[j].Parts() == Run(old(donuts[j].Parts()), Dispatch(keys))
      invariant forall j :: i <= j < |donuts| ==> donuts[j].Parts() == old(donuts[j].Parts())
    {
      ApplyKeys(keys, donuts[i]);
    }
  }

  // ---------------------------------------------------------------------------------------
  // Child sprites

  /** What a child sprite entity of a donut carries: any of the three parts, and its sprite index. */
  datatype ChildState = ChildState(base: Option<nat>, glazing: Option<nat>, sprinkles: Option<nat>, index: nat)

  /** The child-loop body of `update_donut_sprites`: copy each part the child has, then re-point its sprite. */
  function Sync(c: ChildState, p: DonutParts): (c': ChildState)
    requires p.InRange()
    ensures InSync(c', p)
    ensures c'.base.Some? == c.base.Some? && c'.glazing.Some? == c.glazing.Some?
    ensures c'.sprinkles.Some? == c.sprinkles.Some?
    ensures c.base.None? && c.glazing.None? && c.sprinkles.None? ==> c' == c
  {
    var c1 := if c.base.Some? then c.(base := Some(p.base), index := SpriteIndex(BASE, p.base)) else c;
    var c2 := if c1.glazing.Some? then c1.(glazing := Some(p.glazing), index := SpriteIndex(GLAZING, p.glazing)) else c1;
    if c2.sprinkles.Some? then c2.(sprinkles := Some(p.sprinkles), index := SpriteIndex(SPRINKLES, p.sprinkles)) else c2
  }

  /** A child carrying exactly one part agrees with its parent donut and shows that part's sprite. */
  ghost predicate InSync(c: ChildState, p: DonutParts)
    requires p.InRange()
  {
    && (c.base.Some? ==> c.base.value == p.base)
    && (c.glazing.Some? ==> c.glazing.value == p.glazing)
    && (c.sprinkles.Some? ==> c.sprinkles.value == p.sprinkles)
    && (c.base.Some? && c.glazing.None? && c.sprinkles.None? ==> c.index == SpriteIndex(BASE, p.base))
    && (c.glazing.Some? && c.base.None? && c.sprinkles.None? ==> c.index == SpriteIndex(GLAZING, p.glazing))
    && (c.sprinkles.Some? && c.base.None? && c.glazing.None? ==> c.index == SpriteIndex(SPRINKLES, p.sprinkles))
  }

  /** Syncing twice against the same parent changes nothing more. */
  lemma SyncIdempotent(c: ChildState, p: DonutParts)
    requires p.InRange()
    ensures Sync(Sync(c, p), p) == Sync(c, p)
  {
  }

  /** A child sprite entity: the optional part components and its atlas sprite. */
  class ChildSprite {
    var base: Option<nat>
    var glazing: Option<nat>
    var sprinkles: Option<nat>
    var index: nat

    function State(): ChildState
      reads this
    {
      ChildState(base, glazing, sprinkles, index)
    }
  }

  /** `update_donut_sprites` for one changed donut and its children. */
  method UpdateDonutSprites(parent: DonutParts, children: seq<ChildSprite>)
    requires parent.InRange()
    requires forall i, j :: 0 <= i < j < |children| ==> children[i] != children[j]
    modifies set c | c in children
    ensures forall i :: 0 <= i < |children| ==> children[i].State() == Sync(old(children[i].State()), parent)
  {
    for i := 0 to |children|
      invariant forall j :: 0 <= j < i ==> children[j].State() == Sync(old(children[j].State()), parent)
      invariant forall j :: i <= j < |children| ==> children[j].State() == old(children[j].State())
    {
      var child := children[i];
      if child.base.Some? {
        child.base := Some(parent.base);
        child.index := SpriteIndex(BASE, parent.base);
      }
      if child.glazing.Some? {
        child.glazing := Some(parent.glazing);
        child.index := SpriteIndex(GLAZING, parent.glazing);
      }
      if child.sprinkles.Some? {
        child.sprinkles := Some(parent.sprinkles);
        child.index := SpriteIndex(SPRINKLES, parent.sprinkles);
      }
    }
  }

  // ---------------------------------------------------------------------------------------
  // Offering the donut

  datatype Emo = Love | Happy | Sad | Angry | Heartbroken

  /** The `match` on the donut's rank in `offer_cooked_donut`. */
  function EmotionFor(rank: nat): (e: Emo)
    ensures e == Love <==> rank == 5
    ensures e == Happy <==> rank == 4
    ensures e == Sad <==> rank == 3
    ensures e == Angry <==> rank == 2
    ensures e == Heartbroken <==> rank !in {2, 3, 4, 5}
  {
    if rank == 5 then Love
    else if rank == 4 then Happy
    else if rank == 3 then Sad
    else if rank == 2 then Angry
    else Heartbroken
  }

  /** How pleased each emotion is, from Heartbroken (0) to Love (4). */
  function Warmth(e: Emo): nat {
    match e
    case Heartbroken => 0
    case Angry => 1
    case Sad => 2
    case Happy => 3
    case Love => 4
  }

  /** Over the star range `[0, 5]` a better rank never gives a less pleased emotion. */
  lemma EmotionMonotone(a: nat, b: nat)
    requires a <= b <= 5
    ensures Warmth(EmotionFor(a)) <= Warmth(EmotionFor(b))
  {
  }

  /** A customer with a `Taste::random` taste is never in love: such tastes rank at most 4. */
  lemma RandomCustomerNeverInLove(t: Taste, d: DonutParts)
    requires t.WellSized() && d.InRange() && t.RatingsWithin(1, 4)
    ensures EmotionFor(Rank(t, d)) != Love
  {
    RandomTasteRank(t, d);
  }

  /** What an offer produces: the rank (the number of stars printed) and the emotion shown. */
  datatype Offer = Offer(rank: nat, emotion: Emo)

  /**
   * `offer_cooked_donut`: on Return, and only when there is exactly one current customer and
   * exactly one cooking donut, rank the donut and show the matching emotion. `rank` stands for
   * the three-argument `Taste::rank` the system calls.
   */
  function OfferCookedDonut<T>(keys: set<Key>, customers: seq<T>, cooking: seq<DonutParts>,
                               rank: (T, DonutParts) -> nat): (r: Option<Offer>)
    ensures r.Some? <==> Return in keys && |customers| == 1 && |cooking| == 1
    ensures r.Some? ==> r.value.rank == rank(customers[0], cooking[0])
    ensures r.Some? ==> r.value.emotion == EmotionFor(r.value.rank)
  {
    if Return in keys && |customers| == 1 && |cooking| == 1 then
      var stars := rank(customers[0], cooking[0]);
      Some(Offer(stars, EmotionFor(stars)))
    else
      None
  }
}
