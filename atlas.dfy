/**
 * Sprite-atlas metadata of `assets.rs`: sub-texture records read from the atlas description
 * (numeric fields arrive as decimal strings), the rectangles they add to a texture atlas, and
 * the positions of the face sprites.
 */
module Atlas {
  import opened Wrappers
  import opened MachineInt

  /** One named region of a sprite sheet. */
  datatype SubTexture = SubTexture(name: string, x: int, y: int, width: int, height: int)

  /** The same record as the atlas description spells it: every field a string. */
  datatype SubTextureRaw = SubTextureRaw(name: string, x: string, y: string, width: string, height: string)

  /** The parsed description of one atlas: its sub-textures in file order. */
  datatype TextureAtlasData = TextureAtlasData(subTextures: seq<SubTexture>)

  /** An atlas rectangle, from its `min` corner to its `max` corner (integer coordinates). */
  datatype Rect = Rect(minX: int, minY: int, maxX: int, maxY: int)

  /** The `i32` sums `x + width` and `y + height` do not overflow. */
  predicate Fits(st: SubTexture) {
    IsI32(st.x) && IsI32(st.y) && IsI32(st.width) && IsI32(st.height)
    && IsI32(st.x + st.width) && IsI32(st.y + st.height)
  }

  predicate AllFit(sts: seq<SubTexture>) {
    forall i :: 0 <= i < |sts| ==> Fits(sts[i])
  }

  /** The rectangle a sub-texture adds: min `(x, y)`, max `(x + width, y + height)`. */
  function RectOf(st: SubTexture): (r: Rect)
    requires Fits(st)
    ensures r.minX == st.x && r.minY == st.y
    ensures r.maxX - r.minX == st.width && r.maxY - r.minY == st.height
  {
    Rect(st.x, st.y, st.x + st.width, st.y + st.height)
  }

  /** The rectangles of a list of sub-textures, one each, in order. */
  function Rects(sts: seq<SubTexture>): (rs: seq<Rect>)
    requires AllFit(sts)
    ensures |rs| == |sts|
    ensures forall i :: 0 <= i < |sts| ==> rs[i] == RectOf(sts[i])
    decreases |sts|
  {
    if sts == [] then [] else Rects(sts[..|sts| - 1]) + [RectOf(sts[|sts| - 1])]
  }

  // ---------------------------------------------------------------------------------------
  // The texture atlas

  /** A texture atlas under construction: the sheet's size and the rectangles added so far. */
  class TextureAtlas {
    const width: int
    const height: int
    var textures: seq<Rect>

    /** `TextureAtlas::new_empty`. */
    constructor NewEmpty(width: int, height: int)
      ensures this.width == width && this.height == height && textures == []
    {
      this.width := width;
      this.height := height;
      textures := [];
    }

    /** `add_texture`: appends one rectangle and returns its index. */
    method AddTexture(r: Rect) returns (index: nat)
      modifies this
      ensures textures == old(textures) + [r]
      ensures index == |old(textures)|
    {
      index := |textures|;
      textures := textures + [r];
    }

    /** `fill_textures`: with data, one rectangle per sub-texture in order; without, nothing. */
    method FillTextures(data: Option<TextureAtlasData>)
      requires data.Some? ==> AllFit(data.value.subTextures)
      modifies this
      ensures data.None? ==> textures == old(textures)
      ensures data.Some? ==> textures == old(textures) + Rects(data.value.subTextures)
    {
      if data.Some? {
        var sts := data.value.subTextures;
        for i := 0 to |sts|
          invariant textures == old(textures) + Rects(sts[..i])
        {
          assert sts[..i + 1][..i] == sts[..i];
          var index := AddTexture(RectOf(sts[i]));
        }
        assert sts[..|sts|] == sts;
      }
    }
  }

  // ---------------------------------------------------------------------------------------
  // Face sprites

  /** `starts_with("face")`: the name's first four characters are `face`. */
  predicate IsFace(name: string): (b: bool)
    ensures b <==> |name| >= 4 && name[0] == 'f' && name[1] == 'a' && name[2] == 'c' && name[3] == 'e'
  {
    "face" <= name
  }

  /** Positions `from, from + 1, ...` whose sub-texture is a face, in increasing order. */
  function FaceIndexesFrom(sts: seq<SubTexture>, from: nat): (r: seq<nat>)
    requires from <= |sts|
    ensures forall k :: k in r <==> from <= k < |sts| && IsFace(sts[k].name)
    ensures forall i :: 0 <= i < |r| ==> from <= r[i] < |sts|
    ensures forall i, j :: 0 <= i < j < |r| ==> r[i] < r[j]
    decreases |sts| - from
  {
    if from == |sts| then []
    else
      var rest := FaceIndexesFrom(sts, from + 1);
      if IsFace(sts[from].name) then [from] + rest else rest
  }

  /** `face_indexes` of `init`: the positions of the face sprites, or none without data. */
  function FaceIndexes(data: Option<TextureAtlasData>): (r: seq<nat>)
    ensures data.None? ==> r == []
    ensures data.Some? ==> forall k: nat ::
      k in r <==> k < |data.value.subTextures| && IsFace(data.value.subTextures[k].name)
    ensures data.Some? ==> forall i, j :: 0 <= i < j < |r| ==> r[i] < r[j]
  {
    if data.Some? then FaceIndexesFrom(data.value.subTextures, 0) else []
  }

  // ---------------------------------------------------------------------------------------
  // Decimal fields

  predicate IsDigit(c: char) {
    '0' <= c <= '9'
  }

  predicate AllDigits(s: string) {
    forall i :: 0 <= i < |s| ==> IsDigit(s[i])
  }

  /** The number a string of decimal digits spells. */
  function DigitsValue(s: string): nat
    requires AllDigits(s)
    decreases |s|
  {
    if s == [] then 0 else DigitsValue(s[..|s| - 1]) * 10 + (s[|s| - 1] - '0') as nat
  }

  /**
   * `str::parse::<i32>`: an optional `+` or `-`, then one or more ASCII digits, and a value
   * that fits `i32`. Anything else is an error.
   */
  function ParseI32(s: string): (r: Option<int>)
    ensures r.Some? ==> IsI32(r.value)
    ensures r.Some? ==> |s| > 0 && (IsDigit(s[0]) || s[0] == '+' || s[0] == '-')
    ensures r.Some? ==> forall i :: 0 < i < |s| ==> IsDigit(s[i])
    ensures r.Some? ==> IsDigit(s[|s| - 1])
    ensures r.Some? && |s| > 0 && s[0] == '-' ==> r.value <= 0
  {
    if |s| == 0 then None
    else
      var signed := s[0] == '+' || s[0] == '-';
      var digits := if signed then s[1..] else s;
      if |digits| == 0 || !AllDigits(digits) then None
      else
        var v: int := if s[0] == '-' then -(DigitsValue(digits) as int) else DigitsValue(digits);
        if IsI32(v) then Some(v) else None
  }

  /**
   * Every well-formed spelling parses: an optional sign, then one or more digits (leading
   * zeros allowed), gives the signed value of the digits whenever it fits `i32`.
   */
  lemma ParseWellFormed(sign: string, ds: string)
    requires sign == "" || sign == "+" || sign == "-"
    requires |ds| > 0 && AllDigits(ds)
    ensures var v := if sign == "-" then -(DigitsValue(ds) as int) else DigitsValue(ds) as int;
      ParseI32(sign + ds) == if IsI32(v) then Some(v) else None
  {
    var s := sign + ds;
    if sign == "" {
      assert s == ds;
      assert IsDigit(ds[0]);
    } else {
      assert s[0] == sign[0];
      assert s[1..] == ds;
    }
  }

  function DigitChar(d: nat): (c: char)
    requires d < 10
    ensures IsDigit(c)
  {
    ('0' as int + d) as char
  }

  /** The shortest decimal spelling of a natural number. */
  function Decimal(n: nat): (s: string)
    ensures |s| > 0 && AllDigits(s)
  {
    if n < 10 then [DigitChar(n)] else Decimal(n / 10) + [DigitChar(n % 10)]
  }

  /** How the atlas description writes a number: a `-` for negatives, then its digits. */
  function Render(v: int): (s: string) {
    if v < 0 then "-" + Decimal(-v) else Decimal(v)
  }

  lemma {:induction false} DecimalValue(n: nat)
    ensures DigitsValue(Decimal(n)) == n
  {
    if n >= 10 {
      var s := Decimal(n);
      assert s[..|s| - 1] == Decimal(n / 10);
      DecimalValue(n / 10);
    }
  }

  /** Parsing undoes rendering for every `i32`. */
  lemma ParseRender(v: int)
    requires IsI32(v)
    ensures ParseI32(Render(v)) == Some(v)
  {
    DecimalValue(if v < 0 then -v else v);
    if v < 0 {
      assert Render(v)[1..] == Decimal(-v);
    }
  }

  datatype Field = FieldX | FieldY | FieldWidth | FieldHeight

  /**
   * The custom `Deserialize` for `SubTexture`: keep the name, parse `x`, `y`, `width` and
   * `height` in that order. The first field that does not parse is the failure (the
   * original unwraps, so it panics there).
   */
  function DecodeSubTexture(raw: SubTextureRaw): (r: Result<SubTexture, Field>)
    ensures r.Success? <==>
      ParseI32(raw.x).Some? && ParseI32(raw.y).Some? && ParseI32(raw.width).Some? && ParseI32(raw.height).Some?
    ensures r.Success? ==> (
      && r.value.name == raw.name
      && Some(r.value.x) == ParseI32(raw.x) && Some(r.value.y) == ParseI32(raw.y)
      && Some(r.value.width) == ParseI32(raw.width) && Some(r.value.height) == ParseI32(raw.height))
    ensures r == Failure(FieldX) <==> ParseI32(raw.x).None?
    ensures r == Failure(FieldY) <==> ParseI32(raw.x).Some? && ParseI32(raw.y).None?
    ensures r == Failure(FieldWidth) <==>
      ParseI32(raw.x).Some? && ParseI32(raw.y).Some? && ParseI32(raw.width).None?
    ensures r == Failure(FieldHeight) <==>
      ParseI32(raw.x).Some? && ParseI32(raw.y).Some? && ParseI32(raw.width).Some? && ParseI32(raw.height).None?
  {
    var x := ParseI32(raw.x);
    var y := ParseI32(raw.y);
    var width := ParseI32(raw.width);
    var height := ParseI32(raw.height);
    if x.None? then Failure(FieldX)
    else if y.None? then Failure(FieldY)
    else if width.None? then Failure(FieldWidth)
    else if height.None? then Failure(FieldHeight)
    else Success(SubTexture(raw.name, x.value, y.value, width.value, height.value))
  }

  /** The record as the atlas description would write it. */
  function EncodeSubTexture(st: SubTexture): SubTextureRaw {
    SubTextureRaw(st.name, Render(st.x), Render(st.y), Render(st.width), Render(st.height))
  }

  /** Decoding what encoding wrote gives the record back. */
  lemma DecodeEncode(st: SubTexture)
    requires IsI32(st.x) && IsI32(st.y) && IsI32(st.width) && IsI32(st.height)
    ensures DecodeSubTexture(EncodeSubTexture(st)) == Success(st)
  {
    ParseRender(st.x);
    ParseRender(st.y);
    ParseRender(st.width);
    ParseRender(st.height);
  }

  // ---------------------------------------------------------------------------------------
  // Start-up

  /** The five atlases `init` registers. */
  datatype Atlases = Atlases(donuts: TextureAtlas, emotes: TextureAtlas, face: TextureAtlas,
                             hair: TextureAtlas, skin: TextureAtlas)

  predicate Fillable(data: Option<TextureAtlasData>) {
    data.Some? ==> AllFit(data.value.subTextures)
  }

  function FilledRects(data: Option<TextureAtlasData>): seq<Rect>
    requires Fillable(data)
  {
    if data.Some? then Rects(data.value.subTextures) else []
  }

  /** `init`: build each atlas from its sheet size and its (possibly missing) description. */
  method Init(donuts: Option<TextureAtlasData>, emotes: Option<TextureAtlasData>,
              face: Option<TextureAtlasData>, hair: Option<TextureAtlasData>,
              skin: Option<TextureAtlasData>)
    returns (atlases: Atlases, faceIndexes: seq<nat>)
    requires Fillable(donuts) && Fillable(emotes) && Fillable(face) && Fillable(hair) && Fillable(skin)
    ensures fresh(atlases.donuts) && fresh(atlases.emotes) && fresh(atlases.face)
    ensures fresh(atlases.hair) && fresh(atlases.skin)
    ensures atlases.donuts.width == 1024 && atlases.donuts.height == 2048
    ensures atlases.emotes.width == 1024 && atlases.emotes.height == 2048
    ensures atlases.face.width == 256 && atlases.face.height == 512
    ensures atlases.hair.width == 2048 && atlases.hair.height == 2048
    ensures atlases.skin.width == 1024 && atlases.skin.height == 1024
    ensures atlases.donuts.textures == FilledRects(donuts)
    ensures atlases.emotes.textures == FilledRects(emotes)
    ensures atlases.face.textures == FilledRects(face)
    ensures atlases.hair.textures == FilledRects(hair)
    ensures atlases.skin.textures == FilledRects(skin)
    ensures faceIndexes == FaceIndexes(face)
  {
    var donutsAtlas := new TextureAtlas.NewEmpty(1024, 2048);
    donutsAtlas.FillTextures(donuts);
    var emotesAtlas := new TextureAtlas.NewEmpty(1024, 2048);
    emotesAtlas.FillTextures(emotes);
    var faceAtlas := new TextureAtlas.NewEmpty(256, 512);
    faceAtlas.FillTextures(face);
    faceIndexes := FaceIndexes(face);
    var hairAtlas := new TextureAtlas.NewEmpty(2048, 2048);
    hairAtlas.FillTextures(hair);
    var skinAtlas := new TextureAtlas.NewEmpty(1024, 1024);
    skinAtlas.FillTextures(skin);
    atlases := Atlases(donutsAtlas, emotesAtlas, faceAtlas, hairAtlas, skinAtlas);
  }
}
