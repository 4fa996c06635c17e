# Donut Tell Me! — a Dafny model of the donut customisation core

"Donut Tell Me!" is a small game prototype in Rust on the Bevy engine. The player builds a
donut from a base, a glazing and sprinkles, offers it to a customer, and the customer's
hidden taste decides how much they like it. This project models the original logic of the
game in Dafny and proves properties of it. The engine plumbing around it is not modelled.

- **Cyclic attributes** (`src/component.rs`, module `Cycling`). `Base`, `Glazing` and
  `Sprinkles` each hold an index into a block of the donut atlas: 3 sprites from 0, 10
  from 3 and 9 from 13. `cycle_right` and `cycle_left` update the index in place with
  `(v + N ± 1) % N`. The three Rust types are one class, `Attribute`, with a constant
  `Range` (start, count) and a mutable `value`. The model proves that the two cycle
  operations are mutual inverses, that each is the wrapping successor or predecessor, and
  that the three sprite blocks are disjoint and tile the 22 atlas indices.
- **Tastes and ranks** (`src/component.rs`, module `Tastes`). A `Taste` has one rating per
  sprite variant. `rank` is the truncating average `(b + g + s) / 3`. `Taste::random` fills
  every slot with a free choice in `[1, 4]`, because `gen_range(1..5)` excludes 5.
- **The `i32` snapshot** (`src/components.rs`, module `Snapshot`). This is the same
  attribute design over `i32`, with a fourth attribute, `Stripes`. Rust's `%` truncates
  toward zero, and `TruncRem` writes that out. For in-range values the snapshot agrees
  with the `usize` version. A value a little below the range comes back into it (cycling
  right from `-(N + 1)` on, cycling left from `1 - N` on); further below, the result stays at
  zero or below.
- **Systems** (`src/system.rs`, module `Systems`). `change_cooking_donut` turns the keys
  pressed in one frame into a sequence of cycle calls. The model proves that every part
  moves by the net count of its own keys and that no other part changes.
  `update_donut_sprites` copies the parent donut's parts into its child sprites and
  re-points their sprite indices. `offer_cooked_donut` acts only when there is exactly one
  customer and exactly one cooking donut, and maps the rank to an emotion.
- **Atlas metadata** (`src/assets.rs`, module `Atlas`). This covers decimal-string fields
  parsed as `i32` (a malformed field is an error), one rectangle per sub-texture appended to
  an atlas, and the positions of the sub-textures whose name starts with `"face"`.
- **The first prototype** (`src/main.rs`, module `Prototype`). An unbounded `Base`
  counter moves by ±1 per frame, and the donut atlas is built from a hard-coded 22-entry
  table.

Supporting modules: `Wrappers` (Option, Result), `MachineInt` (`i32` bounds, `as usize`),
`Input` (the keys).

Engine queries become sequences of objects. The set of keys just pressed in a frame is a
`set<Key>`. Random choice is a nondeterministic `:|`. Rectangle coordinates are integers.

Later versions of the game differ from the modelled code, and this model follows the code:

- Later versions use a weighted, rounding rank formula, under which (4, 5, 5) ranks 5. The
  modelled `component.rs` computes the plain truncating average, which gives 4 for that
  triple. The model proves facts about the plain average.
- Later versions rate from 1 to 5. `Taste::random` only produces 1 to 4, so with
  `component.rs`'s truncating rank no donut under a random taste ranks 5, and so none earns
  `Love` (`RandomCustomerNeverInLove`). The rank that `offer_cooked_donut` calls is not
  defined in the modelled files, so this is not a claim about that system.

## Model

| member | source | states |
|---|---|---|
| Cycling.Attribute.CycleRight | src/component.rs:26-29 | stores `(v + N + 1) % N` in place, stays in `[0, N)`, returns the same object |
| Cycling.Attribute.CycleLeft | src/component.rs:31-34 | stores `(v + N - 1) % N` in place, stays in `[0, N)`, returns the same object |
| Cycling.NextValueStep | src/component.rs:58-61 | on `v < N`, cycling right gives `v + 1`, and wraps `N - 1` to `0` |
| Cycling.PrevValueStep | src/component.rs:63-66 | on `v < N`, cycling left gives `v - 1`, and wraps `0` to `N - 1` |
| Cycling.NextPrevInverse | src/component.rs:80-88 | for `v < N`, left then right and right then left both restore `v` |
| Cycling.ShiftShift | src/component.rs:27 | two moves around a cycle of length `N` compose into one move by the sum |
| Cycling.NextValue | src/component.rs:27 | the value `cycle_right` stores is below `N` |
| Cycling.PrevValue | src/component.rs:32 | the value `cycle_left` stores is below `N` |
| Cycling.BaseCyclingSequence | src/component.rs:37-45 | the unit test: from `Base(0)`, left 2, left 1, right 2, right 0 |
| Cycling.BaseCyclingTest | src/component.rs:37-45 | the unit test replayed on the class: the four calls leave the values 2, 1, 2, 0 |
| Cycling.SpriteIndex | src/component.rs:22-24 | `to_sprite_index` lands inside the attribute's own block, at offset `v` |
| Cycling.Attribute.ToSpriteIndex | src/component.rs:54-56 | the component's sprite index is the block index of its value |
| Cycling.SpriteIndexInAtlas | src/component.rs:76-77 | every in-range part maps below 22, the size of the donut atlas |
| Cycling.SpriteIndexInjective | src/component.rs:19-20 | blocks `[0,3)`, `[3,13)`, `[13,22)` are disjoint: no two parts or values share a sprite |
| Cycling.SpriteOwner | src/component.rs:73-74 | every atlas index below 22 belongs to exactly one part and value (the blocks tile the atlas) |
| Tastes.DefaultTaste | src/component.rs:100-105 | `Taste::default()` has the three array sizes and only zero ratings |
| Tastes.AverageOf3 | src/component.rs:114 | the truncating average `r` satisfies `3r <= b + g + s < 3r + 3` |
| Tastes.Rank | src/component.rs:108-116 | the rank is the truncating average of the three ratings the donut's parts select |
| Tastes.RankWithin | src/component.rs:108-116 | if all ratings lie in `[lo, hi]`, every donut ranks in `[lo, hi]` |
| Tastes.RankMonotone | src/component.rs:109-114 | raising any selected rating never lowers the rank |
| Tastes.DefaultTasteRanksZero | src/component.rs:143-144 | unit test: the default taste ranks the donut 0 |
| Tastes.ExactTasteRanksFive | src/component.rs:146-150 | unit test: rating the three chosen parts 5 ranks the donut 5 |
| Tastes.RandomRatings | src/component.rs:123-125 | `[0; N].map(gen_range(1..5))` gives `N` ratings, each in `[1, 4]` |
| Tastes.RandomTaste | src/component.rs:118-132 | `Taste::random` is well sized with every rating in `[1, 4]` |
| Tastes.RandomTasteRank | src/component.rs:118-132 | under a random taste every donut ranks in `[1, 4]` |
| Snapshot.TruncRem | src/components.rs:27 | Rust's `%`: result in `(-N, N)`, equal to the Euclidean remainder for `a >= 0`, non-positive and congruent for `a < 0` |
| Snapshot.SignedAttribute.CycleRight | src/components.rs:26-29 | stores the truncating `(v + N + 1) % N` in place when the `i32` sum does not overflow |
| Snapshot.SignedAttribute.CycleLeft | src/components.rs:31-34 | stores the truncating `(v + N - 1) % N` in place when `v + N` does not overflow |
| Snapshot.RightAgreesInRange | src/components.rs:80-83 | on `0 <= v < N` the `i32` cycle right equals the `usize` one |
| Snapshot.LeftAgreesInRange | src/components.rs:85-88 | on `0 <= v < N` the `i32` cycle left equals the `usize` one |
| Snapshot.CyclesInverseInRange | src/components.rs:102-110 | for `0 <= v < N` both cycles stay in `[0, N)` and undo each other |
| Snapshot.SmallNegativesReturn | src/components.rs:26-34 | cycling right from `v >= -(N + 1)` and cycling left from `v >= 1 - N` land in `[0, N)` |
| Snapshot.BaseMinusOneReturns | src/components.rs:26-34 | `Base(-1)` cycles right to `Base(0)` and left to `Base(1)` |
| Snapshot.NegativeBaseStaysNegative | src/components.rs:26-29 | truncating remainder: `Base(-5)` cycles right to `Base(-1)`, not into `[0, 3)` |
| Snapshot.BaseCyclingSequence | src/components.rs:37-45 | the unit test: from `Base(0)`, left 2, left 1, right 2, right 0 |
| Snapshot.SpriteIndex | src/components.rs:22-24 | `START + (v as usize)` wraps modulo 2^64: it is `START + v` when that is non-negative, and beyond every `i32` when `v < -START` |
| Snapshot.GlazingMinusOneShowsBaseSprite | src/components.rs:55 | `Glazing(-1)` wraps to sprite 2, which is the third base sprite |
| Snapshot.SignedAttribute.ToSpriteIndex | src/components.rs:98-100 | the component's sprite index is the snapshot's `START + (v as usize)` |
| Snapshot.SprinklesOverlapStripes | src/components.rs:95-96 | the Stripes block starts at 15 inside the Sprinkles block: `Sprinkles(2)` and `Stripes(0)` share sprite 15 |
| Systems.Dispatch | src/system.rs:142-167 | one cycle call per key pressed among the eight bound keys |
| Systems.Step | src/system.rs:143 | one cycle call moves its part one place forward or back around its cycle and leaves the other parts alone |
| Systems.Run | src/system.rs:141-168 | a sequence of cycle calls keeps every part in range; its net effect per part is stated by `Systems.RunShifts` |
| Systems.DispatchNet | src/system.rs:141-168 | the frame's cycle calls move each part by its own forward keys minus its backward keys |
| Systems.RunShifts | src/system.rs:141-168 | any sequence of cycle calls moves each part around its cycle by its net call count |
| Systems.DispatchEffect | src/system.rs:141-168 | a frame's keys move base by Right+W−Left−Q, glazing by S−A, sprinkles by X−Z, each mod its count |
| Systems.UnpressedPartsUnchanged | src/system.rs:155-167 | a part none of whose keys is pressed keeps its value |
| Systems.RightAndWCycleTwice | src/system.rs:142-150 | Right and W in one frame cycle the base right twice |
| Systems.OppositeKeysCancel | src/system.rs:142-153 | Right with Left (and W with Q) cancel, and the base keeps its value |
| Systems.PressIf | src/system.rs:142-144 | one key test calls the part's cycle method exactly when the key is pressed |
| Systems.ApplyKeys | src/system.rs:141-168 | the eight key tests on one donut's components give the dispatched calls in program order |
| Systems.ChangeCookingDonut | src/system.rs:134-169 | every cooking donut takes the frame's cycle calls; distinct donuts do not interfere |
| Systems.Sync | src/system.rs:230-244 | after the sync each child part equals the parent's, part kinds are kept, a one-part child shows that part's sprite index, and a child with no part is untouched |
| Systems.SyncIdempotent | src/system.rs:229-245 | syncing twice against the same parent changes nothing more |
| Systems.UpdateDonutSprites | src/system.rs:229-246 | every child of the donut is synced in place with the parent's parts |
| Systems.EmotionFor | src/system.rs:331-337 | 5 is Love, 4 Happy, 3 Sad, 2 Angry, every other rank Heartbroken, in both directions |
| Systems.EmotionMonotone | src/system.rs:331-337 | over ranks 0 to 5 a better rank never gives a less pleased emotion |
| Systems.RandomCustomerNeverInLove | src/component.rs:118-132 | with `component.rs`'s truncating rank, a taste rated within `[1, 4]` never maps to Love |
| Systems.OfferCookedDonut | src/system.rs:326-337 | an offer happens exactly on Return with one customer and one cooking donut; it carries the rank and its emotion |
| Atlas.RectOf | src/assets.rs:195-198 | a sub-texture's rectangle has min `(x, y)` and size `(width, height)` |
| Atlas.Rects | src/assets.rs:187-199 | one rectangle per sub-texture, in order |
| Atlas.TextureAtlas.AddTexture | src/assets.rs:195 | appends one rectangle and returns its index |
| Atlas.TextureAtlas.FillTextures | src/assets.rs:185-199 | with `None` the atlas is unchanged; with data, one rectangle per sub-texture is appended in order |
| Atlas.IsFace | src/assets.rs:86 | a name is a face exactly when its first four characters are `face` |
| Atlas.FaceIndexesFrom | src/assets.rs:80-92 | exactly the positions from `from` on whose name starts with "face", strictly increasing |
| Atlas.FaceIndexes | src/assets.rs:76-94 | exactly the face positions, strictly increasing and below the count; empty without data |
| Atlas.ParseI32 | src/assets.rs:166-169 | success means an optional sign, then one or more digits (a lone sign fails), and an `i32` value |
| Atlas.ParseWellFormed | src/assets.rs:166-169 | every optional sign followed by one or more digits (leading zeros allowed) parses to its signed value when that fits `i32`, and fails otherwise |
| Atlas.DecimalValue | src/assets.rs:166 | the decimal spelling of `n` reads back as `n` |
| Atlas.ParseRender | src/assets.rs:166-169 | parsing the decimal rendering of any `i32` gives it back |
| Atlas.DecodeSubTexture | src/assets.rs:159-178 | decoding succeeds exactly when all four fields parse; the name is kept; the first of `x`, `y`, `width`, `height` that does not parse is reported |
| Atlas.DecodeEncode | src/assets.rs:159-178 | decoding an encoded sub-texture gives it back |
| Atlas.Init | src/assets.rs:58-115 | the five atlases have their sheet sizes and one rectangle per sub-texture; face indexes come from the face data |
| MachineInt.AsUsize | src/main.rs:26 | `v as usize` is below 2^64, congruent to `v`, equal to `v` when `v >= 0`, beyond `i32` when negative |
| Prototype.AtlasDataShape | src/main.rs:135 | `ATLAS_DATA` has 22 entries and no rectangle overflows `i32` |
| Prototype.BaseSpriteIndex | src/main.rs:22-28 | `0 + (v as usize)`: `v` for a non-negative base, beyond every `i32` for a negative one |
| Prototype.BaseDelta | src/main.rs:116-126 | one frame changes the base by +1 on Right alone, −1 on Left alone, 0 on both or neither |
| Prototype.ChangeBase | src/main.rs:116-126 | every base moves by the frame's delta, with no wrap-around |
| Prototype.LeftFromZeroLeavesAtlas | src/main.rs:122-124 | one Left from `Base(0)` makes the base's sprite index 2^64 − 1, outside the atlas |
| Prototype.LoadAssets | src/main.rs:63-76 | the atlas holds exactly one rectangle per `ATLAS_DATA` entry, in table order |

## Left out

- Bevy scheduling and queries (`Commands`, `Query`, `get_single`, entity spawning and despawning) are engine code. Each query becomes a sequence of objects or values.
- Change detection (`Changed<…>`, `Added<…>`) is engine code. `Systems.UpdateDonutSprites` models the work done for one changed donut and its children. The outer loop over changed donuts is not modelled.
- `add_donut_sprites`, `cook_another_donut`, `log_transaction`, `setup_game`, the photo camera and image set-up in `offer_cooked_donut`, and the `println!` of stars are engine calls or output, with no checkable logic.
- `mouse_scroll` (floating-point UI scrolling) and `disappearing` (a wall-clock timer) are left out.
- `update_base_sprite` in `src/main.rs` is engine change-detection glue. Its one computation is `Prototype.BaseSpriteIndex`.
- The default `to_sprite_index` of the `ToSpriteIndex` trait, which returns `START_SPRITE_INDEX`, is left out. Every type in the modelled files overrides it.
- The `f32` casts of rectangle coordinates and sheet sizes are left out. Rectangles and sizes are integers.
- The random number generator's distribution and the random face choice of `setup_game` are left out. Random choice is nondeterministic within the source's bounds.
- The customer queue, regular customers, the win condition and the weighted rank formula do not appear in the modelled files.
- `Emo`, `Donut`, `Photo` and the three-argument `Taste::rank` that `src/system.rs` uses are not defined in the modelled files. The rank is a function parameter of `Systems.OfferCookedDonut`. The sprite index `emotion as usize` is not modelled, because it depends on `Emo`'s declaration.
- Cycling.Attribute.CycleRight: the class keeps its value in `[0, N)`, so `usize` overflow of `v + N + 1` cannot occur and is not modelled. Values outside the range are not modelled. Nothing in the modelled code builds one, and `Taste::rank` would panic on one.
- Snapshot.SignedAttribute.CycleRight: an `i32` overflow is a precondition, as in a debug build, where it panics. Release-build wrap-around is not modelled. The same holds for `Snapshot.SignedAttribute.CycleLeft` and `Prototype.ChangeBase`.
- Atlas.RectOf: the `i32` sums `x + width` and `y + height` are a precondition, as in a debug build, where an overflow panics. Release-build wrap-around is not modelled. The same holds for `Atlas.Rects`, `Atlas.TextureAtlas.FillTextures` and `Atlas.Init`.
- MachineInt.AsUsize: the model takes `usize` to be 64 bits wide. A 32-bit target such as wasm32 is not modelled. The `2^64 - 1` of `Prototype.LeftFromZeroLeavesAtlas` rests on the same assumption.
- Snapshot.SpriteIndex: models the release-build wrap-around of `START + (v as usize)`. A debug build panics instead for `v` in `[-START, -1]`. That panic is not modelled. The same holds for `Snapshot.SignedAttribute.ToSpriteIndex`.
- Atlas.ParseI32: the error is a plain `None`. The kinds of `ParseIntError` (empty, invalid digit, overflow) are not distinguished, because the caller unwraps every error into a panic.
- Asset loading (`MyAssets`, `bevy_asset_loader`) and the JSON/serde plumbing around the sub-texture records are left out. Only the field parsing is modelled.
- The entities that `load_assets` spawns in `src/main.rs` (camera and sprites) are left out. Only its atlas-building loop is modelled.
