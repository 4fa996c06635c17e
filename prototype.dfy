/**
 * The first prototype, `main.rs`: a single unbounded `Base` counter moved by the arrow keys,
 * its sprite index, and the donut atlas built from a hard-coded table of 22 sub-textures.
 */
module Prototype {
  import opened Input
  import opened MachineInt
  import opened Atlas
  import Cycling

  /** `ATLAS_DATA`: the donut sheet's sub-textures, in atlas order. */
  const ATLAS_DATA: seq<SubTexture> := [
    SubTexture("donut_1.png", 0, 0, 264, 264),
    SubTexture("donut_2.png", 0, 528, 264, 264),
    SubTexture("donut_3.png", 0, 264, 264, 264),
    SubTexture("glazing_1.png", 226, 1668, 226, 226),
    SubTexture("glazing_2.png", 229, 1244, 226, 226),
    SubTexture("glazing_3.png", 229, 792, 226, 226),
    SubTexture("glazing_4.png", 264, 226, 226, 226),
    SubTexture("glazing_5.png", 229, 1018, 226, 226),
    SubTexture("glazing_6.png", 264, 452, 226, 226),
    SubTexture("glazing_zigzag_1.png", 0, 1230, 229, 219),
    SubTexture("glazing_zigzag_2.png", 0, 1011, 229, 219),
    SubTexture("glazing_zigzag_3.png", 0, 1449, 229, 219),
    SubTexture("glazing_zigzag_4.png", 0, 792, 229, 219),
    SubTexture("sprinkles_1.png", 455, 888, 195, 210),
    SubTexture("sprinkles_2.png", 455, 678, 195, 210),
    SubTexture("sprinkles_3.png", 452, 1664, 202, 221),
    SubTexture("sprinkles_4.png", 455, 1098, 195, 210),
    SubTexture("sprinkles_5.png", 490, 0, 195, 210),
    SubTexture("stripes_1.png", 435, 1470, 206, 194),
    SubTexture("stripes_2.png", 229, 1470, 206, 194),
    SubTexture("stripes_3.png", 264, 0, 226, 226),
    SubTexture("stripes_4.png", 0, 1668, 226, 226)
  ]

  /** The table has one entry per atlas sprite, and every rectangle fits `i32`. */
  lemma AtlasDataShape()
    ensures |ATLAS_DATA| == Cycling.ATLAS_SIZE
    ensures AllFit(ATLAS_DATA)
  {
  }

  /** `Base::to_sprite_index`: `0 + (v as usize)`; a negative base wraps to a huge index. */
  function BaseSpriteIndex(v: int): (k: nat)
    requires IsI32(v)
    ensures 0 <= v ==> k == v
    ensures v < 0 ==> k > I32_MAX
  {
    0 + AsUsize(v)
  }

  /** The change `change_base` makes to a base in one frame: +1 for Right, -1 for Left. */
  function BaseDelta(keys: set<Key>): (delta: int)
    ensures -1 <= delta <= 1
    ensures delta == 0 <==> (Right in keys <==> Left in keys)
    ensures delta == 1 <==> Right in keys && Left !in keys
    ensures delta == -1 <==> Left in keys && Right !in keys
  {
    (if Right in keys then 1 else 0) - (if Left in keys then 1 else 0)
  }

  /** A `Base` component of the prototype: an `i32` with no wrap-around. */
  class Base {
    var value: int

    constructor (value: int)
      requires IsI32(value)
      ensures this.value == value
    {
      this.value := value;
    }
  }

  /** Neither `+= 1` nor the following `-= 1` overflows `i32` (the original panics if one does). */
  predicate NoOverflow(keys: set<Key>, v: int) {
    && IsI32(v)
    && (Right in keys ==> v < I32_MAX)
    && (Left in keys ==> v + (if Right in keys then 1 else 0) > I32_MIN)
  }

  /** `change_base`: every base moves up one on Right and down one on Left. */
  method ChangeBase(keys: set<Key>, bases: seq<Base>)
    requires forall i, j :: 0 <= i < j < |bases| ==> bases[i] != bases[j]
    requires forall i :: 0 <= i < |bases| ==> NoOverflow(keys, bases[i].value)
    modifies set b | b in bases
    ensures forall i :: 0 <= i < |bases| ==> bases[i].value == old(bases[i].value) + BaseDelta(keys)
  {
    for i := 0 to |bases|
      invariant forall j :: 0 <= j < i ==> bases[j].value == old(bases[j].value) + BaseDelta(keys)
      invariant forall j :: i <= j < |bases| ==> bases[j].value == old(bases[j].value)
    {
      var base := bases[i];
      if Right in keys {
        base.value := base.value + 1;
      }
      if Left in keys {
        base.value := base.value - 1;
      }
    }
  }

  /** One Left press from `Base(0)` points the base sprite far outside the 22-sprite atlas. */
  lemma LeftFromZeroLeavesAtlas()
    ensures 0 + BaseDelta({Left}) == -1
    ensures BaseSpriteIndex(-1) == USIZE_MODULUS - 1
    ensures BaseSpriteIndex(-1) >= Cycling.ATLAS_SIZE
  {
  }

  /** The atlas-building loop of `load_assets`: one rectangle per table entry, in table order. */
  method LoadAssets() returns (atlas: TextureAtlas)
    ensures fresh(atlas)
    ensures atlas.width == 1024 && atlas.height == 2048
    ensures |atlas.textures| == |ATLAS_DATA|
    ensures forall i :: 0 <= i < |ATLAS_DATA| ==> atlas.textures[i] == RectOf(ATLAS_DATA[i])
  {
    AtlasDataShape();
    atlas := new TextureAtlas.NewEmpty(1024, 2048);
    for i := 0 to |ATLAS_DATA|
      invariant atlas.width == 1024 && atlas.height == 2048
      invariant |atlas.textures| == i
      invariant forall j :: 0 <= j < i ==> atlas.textures[j] == RectOf(ATLAS_DATA[j])
    {
      var index := atlas.AddTexture(RectOf(ATLAS_DATA[i]));
    }
  }
}
