/**
 * AssetStudio/Metas/TextureMeta.cs: the records a Unity `.meta` file for a sprite texture is made
 * of, and the constructors that fill them from a decoded sprite or a packing atlas.
 *
 * C# objects whose fields are assigned once, in their constructor, are datatypes here; each
 * constructor that works through loops is a method proved equal to a specification function, and
 * the promises of those constructors are lemmas about the functions.  A thrown exception is an
 * `Err` value.  GUIDs (`Guid.NewGuid()`) are parameters.
 */
module Metas {
  import opened Wrappers
  import opened Geometry
  import opened Assets
  import Editor
  import VectorExtensions
  import SpriteExtensions

  // ----- Records -----

  /** `MCBone`: a skeleton bone in pixel units. */
  datatype MCBone = MCBone(name: string, position: Vector3, rotation: Vector4, length: real, parentId: int)

  /**
   * `MCRect`: a rect with `serializedVersion` 2.  The constructor stores whatever `GetRect`
   * returned, which is null for a sprite whose atlas lacks its render-data key.
   */
  datatype MCRect = MCRect(serializedVersion: nat, rect: Option<Rectf>)

  /** `MCSprite`: one sprite of a sprite sheet. */
  datatype MCSprite = MCSprite(
    serializedVersion: nat,
    name: string,
    rect: MCRect,
    alignment: int,
    pivot: Vector2,
    border: Vector4,
    internalId: nat,
    bones: seq<MCBone>,
    outline: seq<seq<Vector2>>,
    physicsShape: seq<seq<Vector2>>)

  /** Errors of the sheet and importer constructors. */
  datatype MetaError =
    | Decode(cause: SpriteExtensions.DecodeError)   // `GetTriangles` threw
    | KeyNotFound(key: string)                      // `internalIDDict[sprite.m_Name]` with no such name

  // ----- Unit-to-pixel conversion -----

  /**
   * `UnitValueToPixel`: shift a value in world units by the pivot's share of a band, then scale by
   * pixels-per-unit.  Over the reals this is the linear map `u * k + p * L`.
   */
  function UnitValueToPixel(unitValue: real, pivotValue: real, pixelsToUnits: real, bandLength: real): (r: real)
    requires pixelsToUnits != 0.0
    ensures r == unitValue * pixelsToUnits + pivotValue * bandLength
  {
    var offset := pivotValue * bandLength / pixelsToUnits;
    (unitValue + offset) * pixelsToUnits
  }

  /** The conversion is undone by subtracting the band offset and dividing by pixels-per-unit. */
  lemma UnitValueToPixelInverse(unitValue: real, pivotValue: real, pixelsToUnits: real, bandLength: real)
    requires pixelsToUnits != 0.0
    ensures (UnitValueToPixel(unitValue, pivotValue, pixelsToUnits, bandLength) - pivotValue * bandLength)
              / pixelsToUnits == unitValue
  {
    var r := UnitValueToPixel(unitValue, pivotValue, pixelsToUnits, bandLength);
    assert r - pivotValue * bandLength == unitValue * pixelsToUnits;
  }

  /** `BoneLengthUnitToPixel`: no pivot, no band. */
  function BoneLengthUnitToPixel(unitLength: real, pixelsToUnits: real): (r: real)
    requires pixelsToUnits != 0.0
    ensures r == unitLength * pixelsToUnits
    ensures unitLength == 0.0 ==> r == 0.0
  {
    UnitValueToPixel(unitLength, 0.0, pixelsToUnits, 0.0)
  }

  /**
   * `BonePosUnitToPixel`: the band is the sprite rect's extent for a root bone and 0 otherwise, so
   * only a root bone is shifted by the pivot; Z is dropped.  The source dereferences the rect only
   * for a root bone, which is why only a root bone needs one.
   */
  function BonePosUnitToPixel(unitPos: Vector3, unitPivot: Vector2, isRoot: bool, rect: Option<Rectf>,
                              pixelsToUnits: real): (r: Vector3)
    requires pixelsToUnits != 0.0
    requires isRoot ==> rect.Some?
    ensures r.z == 0.0
    ensures !isRoot ==> r == Vector3(unitPos.x * pixelsToUnits, unitPos.y * pixelsToUnits, 0.0)
    ensures isRoot ==> r == Vector3(unitPos.x * pixelsToUnits + unitPivot.x * rect.value.width,
                                    unitPos.y * pixelsToUnits + unitPivot.y * rect.value.height, 0.0)
  {
    var x := UnitValueToPixel(unitPos.x, unitPivot.x, pixelsToUnits, if isRoot then rect.value.width else 0.0);
    var y := UnitValueToPixel(unitPos.y, unitPivot.y, pixelsToUnits, if isRoot then rect.value.height else 0.0);
    Vector3(x, y, 0.0)
  }

  // ----- The MCSprite constructor -----

  /** A bone whose `parentId` is -1 is a root of the skeleton. */
  predicate IsRoot(b: SpriteBone) {
    b.parentId == -1
  }

  predicate HasRootBone(s: Sprite) {
    exists i :: 0 <= i < |s.bones| && IsRoot(s.bones[i])
  }

  /**
   * What the constructor needs of a sprite to complete without a float division by zero or a null
   * dereference: pixels-per-unit is nonzero when there are bones to convert, and a root bone has a
   * rect to read its extent from.
   */
  predicate Convertible(c: Container, s: Sprite) {
    && (|s.bones| > 0 ==> s.pixelsToUnits != 0.0)
    && (HasRootBone(s) ==> SpriteExtensions.GetRect(c, s).Some?)
  }

  /** One iteration of the bone loop. */
  function ConvertBone(b: SpriteBone, pivot: Vector2, rect: Option<Rectf>, pixelsToUnits: real): MCBone
    requires pixelsToUnits != 0.0
    requires IsRoot(b) ==> rect.Some?
  {
    MCBone(b.name, BonePosUnitToPixel(b.position, pivot, IsRoot(b), rect, pixelsToUnits),
           Vector4(b.rotation.x, b.rotation.y, b.rotation.z, b.rotation.w),
           BoneLengthUnitToPixel(b.length, pixelsToUnits), b.parentId)
  }

  /** The bone loop: one converted bone per sprite bone, in order. */
  function SpriteBones(c: Container, s: Sprite): seq<MCBone>
    requires Convertible(c, s)
  {
    seq(|s.bones|, i requires 0 <= i < |s.bones| =>
      ConvertBone(s.bones[i], s.pivot, SpriteExtensions.GetRect(c, s), s.pixelsToUnits))
  }

  /** `(m_Pivot - (0.5, 0.5)) * (m_Rect.width, m_Rect.height)`: the nominal rect, not the atlas rect. */
  function PivotPixelsOffset(s: Sprite): Vector2 {
    s.pivot.Minus(Vector2(0.5, 0.5)).Times(Vector2(s.rect.width, s.rect.height))
  }

  /** `p * m_PixelsToUnits + pivotPixelsOffset`, the map applied to every outline and shape point. */
  function ToPixel(p: Vector2, pixelsToUnits: real, offset: Vector2): Vector2 {
    p.Scale(pixelsToUnits).Plus(offset)
  }

  /** The map on every point of every polygon. */
  function ToPixels(polygons: seq<seq<Vector2>>, pixelsToUnits: real, offset: Vector2): seq<seq<Vector2>> {
    seq(|polygons|, i requires 0 <= i < |polygons| =>
      seq(|polygons[i]|, j requires 0 <= j < |polygons[i]| => ToPixel(polygons[i][j], pixelsToUnits, offset)))
  }

  /**
   * The `MCSprite` constructor: the bones, then the outline from the decoded triangles, then the
   * physics shape.  It fails only where `GetTriangles` fails.
   */
  function SpriteMeta(c: Container, s: Sprite, id: nat, f32: SpriteExtensions.Float32Reader)
    : Result<MCSprite, SpriteExtensions.DecodeError>
    requires Convertible(c, s)
  {
    var rect := SpriteExtensions.GetRect(c, s);
    var bones := SpriteBones(c, s);
    var triangles :- SpriteExtensions.MeshTriangles(s.rd.mesh, f32);
    var offset := PivotPixelsOffset(s);
    Ok(MCSprite(2, s.name, MCRect(2, rect), SpriteExtensions.GetAlignment(s).Code(), s.pivot, s.border, id, bones,
                ToPixels(triangles, s.pixelsToUnits, offset), ToPixels(s.physicsShape, s.pixelsToUnits, offset)))
  }

  /** The bone loop of the constructor, filling `new MCBone[m_Bones.Length]`. */
  method ConvertBones(c: Container, s: Sprite) returns (r: seq<MCBone>)
    requires Convertible(c, s)
    ensures r == SpriteBones(c, s)
  {
    var rect := SpriteExtensions.GetRect(c, s);
    var bones := new MCBone[|s.bones|];
    for i := 0 to |s.bones|
      invariant forall k :: 0 <= k < i ==> bones[k] == ConvertBone(s.bones[k], s.pivot, rect, s.pixelsToUnits)
    {
      var bone := s.bones[i];
      assert IsRoot(bone) ==> HasRootBone(s);
      bones[i] := ConvertBone(bone, s.pivot, rect, s.pixelsToUnits);
    }
    return bones[..];
  }

  /**
   * The inner loop of the outline and shape transforms: a `new Vector2[size]` whose first `|points|`
   * elements are the converted points.
   */
  method ConvertPoints(points: seq<Vector2>, size: nat, pixelsToUnits: real, offset: Vector2) returns (r: array<Vector2>)
    requires |points| <= size
    ensures fresh(r) && r.Length == size
    ensures r[..|points|] == seq(|points|, j requires 0 <= j < |points| => ToPixel(points[j], pixelsToUnits, offset))
  {
    r := new Vector2[size];
    for j := 0 to |points|
      invariant forall k :: 0 <= k < j ==> r[k] == ToPixel(points[k], pixelsToUnits, offset)
    {
      r[j] := ToPixel(points[j], pixelsToUnits, offset);
    }
  }

  /** The outline loop: a three-element array per decoded triangle. */
  method ConvertOutline(triangles: seq<SpriteExtensions.Triangle>, pixelsToUnits: real, offset: Vector2)
    returns (r: seq<seq<Vector2>>)
    requires SpriteExtensions.AllTriangles(triangles)
    ensures r == ToPixels(triangles, pixelsToUnits, offset)
  {
    var outline := new seq<Vector2>[|triangles|];
    for i := 0 to |triangles|
      invariant forall k :: 0 <= k < i ==> outline[k] == ToPixels(triangles, pixelsToUnits, offset)[k]
    {
      var triangle := triangles[i];
      var corners := ConvertPoints(triangle, 3, pixelsToUnits, offset);
      assert corners[..] == corners[..|triangle|];
      outline[i] := corners[..];
    }
    return outline[..];
  }

  /** The physics-shape loop: an array of the polygon's own length per polygon. */
  method ConvertShape(shape: seq<seq<Vector2>>, pixelsToUnits: real, offset: Vector2) returns (r: seq<seq<Vector2>>)
    ensures r == ToPixels(shape, pixelsToUnits, offset)
  {
    var physicsShape := new seq<Vector2>[|shape|];
    for i := 0 to |shape|
      invariant forall k :: 0 <= k < i ==> physicsShape[k] == ToPixels(shape, pixelsToUnits, offset)[k]
    {
      var points := ConvertPoints(shape[i], |shape[i]|, pixelsToUnits, offset);
      assert points[..] == points[..|shape[i]|];
      physicsShape[i] := points[..];
    }
    return physicsShape[..];
  }

  /** `new MCSprite(sprite, id)`. */
  method NewMCSprite(c: Container, s: Sprite, id: nat, f32: SpriteExtensions.Float32Reader)
    returns (r: Result<MCSprite, SpriteExtensions.DecodeError>)
    requires Convertible(c, s)
    ensures r == SpriteMeta(c, s, id, f32)
  {
    var rect := MCRect(2, SpriteExtensions.GetRect(c, s));
    var alignment := SpriteExtensions.GetAlignment(s).Code();
    var bones := ConvertBones(c, s);
    var triangles :- SpriteExtensions.GetTriangles(s, f32);
    var offset := PivotPixelsOffset(s);
    var outline := ConvertOutline(triangles, s.pixelsToUnits, offset);
    var physicsShape := ConvertShape(s.physicsShape, s.pixelsToUnits, offset);
    return Ok(MCSprite(2, s.name, rect, alignment, s.pivot, s.border, id, bones, outline, physicsShape));
  }

  // ----- The MCSpriteSheet constructors -----

  /**
   * `MCSpriteSheet`.  A field the constructor never assigns stays null, which is `None` here; an
   * entry of `sprites` whose reference did not resolve stays null too.
   */
  datatype MCSpriteSheet = MCSpriteSheet(
    serializedVersion: nat,
    sprites: seq<Option<MCSprite>>,
    bones: Option<seq<MCBone>>,
    outline: Option<seq<seq<Vector2>>>,
    physicsShape: Option<seq<seq<Vector2>>>,
    spriteID: Option<string>)

  /** `MCSpriteSheet(Sprite)`: no entries; the mesh data of `MCSprite(sprite, 0)` lives on the sheet. */
  function SingleSheet(c: Container, s: Sprite, spriteId: string, f32: SpriteExtensions.Float32Reader)
    : Result<MCSpriteSheet, SpriteExtensions.DecodeError>
    requires Convertible(c, s)
  {
    var sprite :- SpriteMeta(c, s, 0, f32);
    Ok(MCSpriteSheet(2, [], Some(sprite.bones), Some(sprite.outline), Some(sprite.physicsShape), Some(spriteId)))
  }

  /** Every sprite that is present can be converted. */
  predicate AllConvertible(c: Container, sprites: seq<Option<Sprite>>) {
    forall i :: 0 <= i < |sprites| && sprites[i].Some? ==> Convertible(c, sprites[i].value)
  }

  /** One entry of a multi-sprite sheet: the ID is looked up by name before the sprite is converted. */
  function SheetEntry(c: Container, sprite: Option<Sprite>, ids: map<string, nat>, f32: SpriteExtensions.Float32Reader)
    : Result<Option<MCSprite>, MetaError>
    requires sprite.Some? ==> Convertible(c, sprite.value)
  {
    if sprite.None? then
      Ok(Option.None)
    else if sprite.value.name !in ids then
      Err(KeyNotFound(sprite.value.name))
    else
      match SpriteMeta(c, sprite.value, ids[sprite.value.name], f32)
      case Ok(m) => Ok(Some(m))
      case Err(e) => Err(Decode(e))
  }

  /** The entry loop of the multi-sprite constructors, over a prefix of the sprites. */
  function SheetEntries(c: Container, sprites: seq<Option<Sprite>>, ids: map<string, nat>,
                        f32: SpriteExtensions.Float32Reader): (r: Result<seq<Option<MCSprite>>, MetaError>)
    requires AllConvertible(c, sprites)
    ensures r.Ok? ==> |r.value| == |sprites|
    decreases |sprites|
  {
    if sprites == [] then
      Ok([])
    else
      var before :- SheetEntries(c, sprites[..|sprites| - 1], ids, f32);
      var entry :- SheetEntry(c, sprites[|sprites| - 1], ids, f32);
      Ok(before + [entry])
  }

  /** `MCSpriteSheet(Sprite[], Dictionary)`: every sprite of the array is present. */
  function SpritesSheet(c: Container, sprites: seq<Sprite>, ids: map<string, nat>, f32: SpriteExtensions.Float32Reader)
    : Result<MCSpriteSheet, MetaError>
    requires forall i :: 0 <= i < |sprites| ==> Convertible(c, sprites[i])
  {
    var entries :- SheetEntries(c, seq(|sprites|, i requires 0 <= i < |sprites| => Some(sprites[i])), ids, f32);
    Ok(MCSpriteSheet(2, entries, Option.None, Option.None, Option.None, Option.None))
  }

  /** The sprites the references resolve to, `None` where `TryGet` fails. */
  function Resolve(c: Container, ptrs: seq<PPtr>): (r: seq<Option<Sprite>>)
    ensures |r| == |ptrs|
  {
    seq(|ptrs|, i requires 0 <= i < |ptrs| => TryGetSprite(c, ptrs[i]))
  }

  /** `MCSpriteSheet(PPtr<Sprite>[], Dictionary)`: an unresolved reference leaves its entry null. */
  function PtrsSheet(c: Container, ptrs: seq<PPtr>, ids: map<string, nat>, f32: SpriteExtensions.Float32Reader)
    : Result<MCSpriteSheet, MetaError>
    requires AllConvertible(c, Resolve(c, ptrs))
  {
    var entries :- SheetEntries(c, Resolve(c, ptrs), ids, f32);
    Ok(MCSpriteSheet(2, entries, Option.None, Option.None, Option.None, Option.None))
  }

  lemma AllConvertiblePrefix(c: Container, sprites: seq<Option<Sprite>>, n: nat)
    requires AllConvertible(c, sprites) && n <= |sprites|
    ensures AllConvertible(c, sprites[..n])
  {
    forall k | 0 <= k < n && sprites[k].Some?
      ensures Convertible(c, sprites[k].value)
    {
    }
    assert forall k :: 0 <= k < n ==> sprites[..n][k] == sprites[k];
  }

  /** A failure in the entry loop stops it: no later sprite changes the outcome. */
  lemma {:induction false} SheetEntriesFailureSticks(c: Container, sprites: seq<Option<Sprite>>, more: seq<Option<Sprite>>,
                                                     ids: map<string, nat>, f32: SpriteExtensions.Float32Reader)
    requires AllConvertible(c, sprites + more)
    requires AllConvertible(c, sprites) && SheetEntries(c, sprites, ids, f32).Err?
    ensures SheetEntries(c, sprites + more, ids, f32) == SheetEntries(c, sprites, ids, f32)
    decreases |more|
  {
    if more == [] {
      assert sprites + more == sprites;
    } else {
      var more' := more[..|more| - 1];
      assert (sprites + more)[..|sprites + more| - 1] == sprites + more';
      assert AllConvertible(c, sprites + more') by {
        forall i | 0 <= i < |sprites + more'| && (sprites + more')[i].Some?
          ensures Convertible(c, (sprites + more')[i].value)
        {
          assert (sprites + more')[i] == (sprites + more)[i];
        }
      }
      SheetEntriesFailureSticks(c, sprites, more', ids, f32);
    }
  }

  /** `new MCSpriteSheet(sprite)`. */
  method NewSingleSheet(c: Container, s: Sprite, spriteId: string, f32: SpriteExtensions.Float32Reader)
    returns (r: Result<MCSpriteSheet, SpriteExtensions.DecodeError>)
    requires Convertible(c, s)
    ensures r == SingleSheet(c, s, spriteId, f32)
  {
    var sprite :- NewMCSprite(c, s, 0, f32);
    return Ok(MCSpriteSheet(2, [], Some(sprite.bones), Some(sprite.outline), Some(sprite.physicsShape), Some(spriteId)));
  }

  /** The entry loop of the multi-sprite constructors, filling `new MCSprite[n]`. */
  method FillEntries(c: Container, sprites: seq<Option<Sprite>>, ids: map<string, nat>, f32: SpriteExtensions.Float32Reader)
    returns (r: Result<seq<Option<MCSprite>>, MetaError>)
    requires AllConvertible(c, sprites)
    ensures r == SheetEntries(c, sprites, ids, f32)
  {
    var entries := new Option<MCSprite>[|sprites|];
    for i := 0 to |sprites|
      invariant AllConvertible(c, sprites[..i])
      invariant SheetEntries(c, sprites[..i], ids, f32) == Ok(entries[..i])
    {
      assert sprites[..i + 1][..i] == sprites[..i];
      assert sprites[..i + 1] + sprites[i + 1..] == sprites;
      AllConvertiblePrefix(c, sprites, i + 1);
      var sprite := sprites[i];
      var entry: Option<MCSprite> := Option.None;
      if sprite.Some? {
        if sprite.value.name !in ids {
          SheetEntriesFailureSticks(c, sprites[..i + 1], sprites[i + 1..], ids, f32);
          return Err(KeyNotFound(sprite.value.name));
        }
        var converted := NewMCSprite(c, sprite.value, ids[sprite.value.name], f32);
        if converted.Err? {
          SheetEntriesFailureSticks(c, sprites[..i + 1], sprites[i + 1..], ids, f32);
          return Err(Decode(converted.error));
        }
        entry := Some(converted.value);
      }
      entries[i] := entry;
      assert entries[..i + 1] == entries[..i] + [entry];
    }
    assert sprites[..|sprites|] == sprites;
    assert entries[..] == entries[..|sprites|];
    return Ok(entries[..]);
  }

  /** `new MCSpriteSheet(sprites, internalIDDict)`. */
  method NewSpritesSheet(c: Container, sprites: seq<Sprite>, ids: map<string, nat>, f32: SpriteExtensions.Float32Reader)
    returns (r: Result<MCSpriteSheet, MetaError>)
    requires forall i :: 0 <= i < |sprites| ==> Convertible(c, sprites[i])
    ensures r == SpritesSheet(c, sprites, ids, f32)
  {
    var entries :- FillEntries(c, seq(|sprites|, i requires 0 <= i < |sprites| => Some(sprites[i])), ids, f32);
    return Ok(MCSpriteSheet(2, entries, Option.None, Option.None, Option.None, Option.None));
  }

  /** `new MCSpriteSheet(spritePtrs, internalIDDict)`. */
  method NewPtrsSheet(c: Container, ptrs: seq<PPtr>, ids: map<string, nat>, f32: SpriteExtensions.Float32Reader)
    returns (r: Result<MCSpriteSheet, MetaError>)
    requires AllConvertible(c, Resolve(c, ptrs))
    ensures r == PtrsSheet(c, ptrs, ids, f32)
  {
    var entries :- FillEntries(c, Resolve(c, ptrs), ids, f32);
    return Ok(MCSpriteSheet(2, entries, Option.None, Option.None, Option.None, Option.None));
  }

  // ----- The MCTextureImporter constructors -----

  /** `MCInternalIDNamePair`: a one-entry class-ID-to-internal-ID dictionary and a sprite name. */
  datatype InternalIdNamePair = InternalIdNamePair(first: map<int, nat>, second: string)

  /** `MCTextureImporter`; the fields the constructors leave unassigned hold C#'s zero values. */
  datatype MCTextureImporter = MCTextureImporter(
    serializedVersion: nat,
    internalIDToNameTable: seq<InternalIdNamePair>,
    spriteSheet: MCSpriteSheet,
    spritePixelsToUnits: real,
    spritePivot: Vector2,
    spriteBorder: Vector4,
    alignment: int,
    textureType: int,
    spriteMode: int,
    alphaIsTransparency: int,
    nPOTScale: int)

  /** Unity's class ID of `Sprite` (`ClassIDType.Sprite`). */
  const SpriteClassId: nat := 213

  /** The synthetic internal ID of the sprite at index i of the atlas's packed list. */
  function InternalId(i: nat): nat {
    SpriteClassId * 100000 + i * 2
  }

  /** Distinct packed indices get distinct internal IDs, all at or above `213 * 100000`. */
  lemma InternalIdInjective(i: nat, j: nat)
    ensures InternalId(i) == InternalId(j) <==> i == j
    ensures InternalId(i) >= 21300000 && InternalId(i) % 2 == 0
  {
  }

  /** `MCTextureImporter(Sprite)`: a single-sprite importer. */
  function SingleImporter(c: Container, s: Sprite, spriteId: string, f32: SpriteExtensions.Float32Reader)
    : Result<MCTextureImporter, SpriteExtensions.DecodeError>
    requires Convertible(c, s)
  {
    var sheet :- SingleSheet(c, s, spriteId, f32);
    Ok(MCTextureImporter(11, [], sheet, s.pixelsToUnits, s.pivot, s.border, SpriteExtensions.GetAlignment(s).Code(),
                         Editor.TextureImporterTypeName.Sprite.Code(), Editor.SpriteImportMode.Single.Code(), 1,
                         Editor.TextureImporterNPOTScale.None.Code()))
  }

  /** A packed sprite belongs to the texture: it resolves and its texture has the target's name. */
  predicate IsMatch(c: Container, texture: Texture2D, p: PPtr) {
    && p in c.sprites
    && var t := SpriteExtensions.GetTexture(c, c.sprites[p]);
       t.Some? && t.value.name == texture.name
  }

  /** The state of the atlas constructor's loop. */
  datatype AtlasScan = AtlasScan(
    matched: seq<PPtr>,
    table: seq<InternalIdNamePair>,
    ids: map<string, nat>,
    pixelsToUnits: real)

  /** The loop of the atlas constructor over the packed sprites, as far as a prefix of them. */
  function Scan(c: Container, texture: Texture2D, packed: seq<PPtr>): (r: AtlasScan)
    ensures |r.table| == |r.matched|
    ensures forall k :: 0 <= k < |r.table| ==> SpriteClassId in r.table[k].first
    ensures forall k :: 0 <= k < |r.matched| ==>
              r.matched[k] in packed && IsMatch(c, texture, r.matched[k]) && c.sprites[r.matched[k]].name in r.ids
    decreases |packed|
  {
    if packed == [] then
      AtlasScan([], [], map[], 0.0)
    else
      var acc := Scan(c, texture, packed[..|packed| - 1]);
      var i := |packed| - 1;
      var p := packed[i];
      if IsMatch(c, texture, p) then
        var sprite := c.sprites[p];
        AtlasScan(acc.matched + [p],
                  acc.table + [InternalIdNamePair(map[SpriteClassId := InternalId(i)], sprite.name)],
                  acc.ids[sprite.name := InternalId(i)],
                  if acc.pixelsToUnits == 0.0 then sprite.pixelsToUnits else acc.pixelsToUnits)
      else
        acc
  }

  /** Every matching packed sprite can be converted. */
  predicate AtlasConvertible(c: Container, texture: Texture2D, atlas: SpriteAtlas) {
    forall p :: p in atlas.packedSprites && IsMatch(c, texture, p) ==> Convertible(c, c.sprites[p])
  }

  lemma MatchedConvertible(c: Container, texture: Texture2D, atlas: SpriteAtlas)
    requires AtlasConvertible(c, texture, atlas)
    ensures AllConvertible(c, Resolve(c, Scan(c, texture, atlas.packedSprites).matched))
  {
  }

  /** `MCTextureImporter(Texture2D, SpriteAtlas)`: a multi-sprite importer for one atlas texture. */
  function AtlasImporter(c: Container, texture: Texture2D, atlas: SpriteAtlas, f32: SpriteExtensions.Float32Reader)
    : Result<MCTextureImporter, MetaError>
    requires AtlasConvertible(c, texture, atlas)
  {
    var scan := Scan(c, texture, atlas.packedSprites);
    MatchedConvertible(c, texture, atlas);
    var sheet :- PtrsSheet(c, scan.matched, scan.ids, f32);
    Ok(MCTextureImporter(11, scan.table, sheet, scan.pixelsToUnits, Zero2, Zero4, 0,
                         Editor.TextureImporterTypeName.Sprite.Code(), Editor.SpriteImportMode.Multiple.Code(), 1, 0))
  }

  /** `new MCTextureImporter(sprite)`. */
  method NewSingleImporter(c: Container, s: Sprite, spriteId: string, f32: SpriteExtensions.Float32Reader)
    returns (r: Result<MCTextureImporter, SpriteExtensions.DecodeError>)
    requires Convertible(c, s)
    ensures r == SingleImporter(c, s, spriteId, f32)
  {
    var alignment := SpriteExtensions.GetAlignment(s).Code();
    var sheet :- NewSingleSheet(c, s, spriteId, f32);
    return Ok(MCTextureImporter(11, [], sheet, s.pixelsToUnits, s.pivot, s.border, alignment,
                                Editor.TextureImporterTypeName.Sprite.Code(), Editor.SpriteImportMode.Single.Code(), 1,
                                Editor.TextureImporterNPOTScale.None.Code()));
  }

  /**
   * `new MCTextureImporter(texture, spriteAtlas)`: one pass over the packed sprites that collects the
   * matches, their table rows and their IDs and picks up pixels-per-unit, then the sheet.
   */
  method NewAtlasImporter(c: Container, texture: Texture2D, atlas: SpriteAtlas, f32: SpriteExtensions.Float32Reader)
    returns (r: Result<MCTextureImporter, MetaError>)
    requires AtlasConvertible(c, texture, atlas)
    ensures r == AtlasImporter(c, texture, atlas, f32)
  {
    var spritePixelsToUnits := 0.0;
    var matchedSprites: seq<PPtr> := [];
    var sprites := atlas.packedSprites;
    var internalIDToNameTable: seq<InternalIdNamePair> := [];
    var internalIDDict: map<string, nat> := map[];
    for i := 0 to |sprites|
      invariant Scan(c, texture, sprites[..i]) == AtlasScan(matchedSprites, internalIDToNameTable, internalIDDict, spritePixelsToUnits)
    {
      assert sprites[..i + 1][..i] == sprites[..i];
      var sprite := TryGetSprite(c, sprites[i]);
      if sprite.Some? {
        var spTexture2D := SpriteExtensions.GetTexture(c, sprite.value);
        if spTexture2D.Some? && spTexture2D.value.name == texture.name {
          if spritePixelsToUnits == 0.0 {
            spritePixelsToUnits := sprite.value.pixelsToUnits;
          }
          matchedSprites := matchedSprites + [sprites[i]];
          var classId := SpriteClassId;
          var internalId := SpriteClassId * 100000 + i * 2;
          internalIDToNameTable := internalIDToNameTable + [InternalIdNamePair(map[classId := internalId], sprite.value.name)];
          internalIDDict := internalIDDict[sprite.value.name := internalId];
        }
      }
    }
    assert sprites[..|sprites|] == sprites;
    MatchedConvertible(c, texture, atlas);
    var sheet :- NewPtrsSheet(c, matchedSprites, internalIDDict, f32);
    return Ok(MCTextureImporter(11, internalIDToNameTable, sheet, spritePixelsToUnits, Zero2, Zero4, 0,
                                Editor.TextureImporterTypeName.Sprite.Code(), Editor.SpriteImportMode.Multiple.Code(), 1, 0));
  }

  // ----- TextureMeta -----

  /** `TextureMeta`: `fileFormatVersion` 2 and a GUID from `MetaObject`, and the importer. */
  datatype TextureMeta = TextureMeta(fileFormatVersion: nat, guid: string, textureImporter: MCTextureImporter)

  /** `TextureMeta(Sprite)`, which is also what `GetMeta` on a sprite returns. */
  function SpriteTextureMeta(c: Container, s: Sprite, guid: string, spriteId: string, f32: SpriteExtensions.Float32Reader)
    : Result<TextureMeta, SpriteExtensions.DecodeError>
    requires Convertible(c, s)
  {
    var importer :- SingleImporter(c, s, spriteId, f32);
    Ok(TextureMeta(2, guid, importer))
  }

  /** `TextureMeta(Texture2D, SpriteAtlas)`. */
  function AtlasTextureMeta(c: Container, texture: Texture2D, atlas: SpriteAtlas, guid: string,
                            f32: SpriteExtensions.Float32Reader): Result<TextureMeta, MetaError>
    requires AtlasConvertible(c, texture, atlas)
  {
    var importer :- AtlasImporter(c, texture, atlas, f32);
    Ok(TextureMeta(2, guid, importer))
  }

  /** `GetMeta`: `new TextureMeta(sprite)`; the two GUIDs it draws are parameters. */
  method GetMeta(c: Container, s: Sprite, guid: string, spriteId: string, f32: SpriteExtensions.Float32Reader)
    returns (r: Result<TextureMeta, SpriteExtensions.DecodeError>)
    requires Convertible(c, s)
    ensures r == SpriteTextureMeta(c, s, guid, spriteId, f32)
  {
    var importer :- NewSingleImporter(c, s, spriteId, f32);
    return Ok(TextureMeta(2, guid, importer));
  }

  /** `new TextureMeta(texture, spriteAtlas)`. */
  method NewAtlasTextureMeta(c: Container, texture: Texture2D, atlas: SpriteAtlas, guid: string,
                             f32: SpriteExtensions.Float32Reader) returns (r: Result<TextureMeta, MetaError>)
    requires AtlasConvertible(c, texture, atlas)
    ensures r == AtlasTextureMeta(c, texture, atlas, guid, f32)
  {
    var importer :- NewAtlasImporter(c, texture, atlas, f32);
    return Ok(TextureMeta(2, guid, importer));
  }

  /**
   * A meta file has format version 2 and the GUID it was given; for a sprite it fails exactly when
   * the sprite's importer does, and for an atlas exactly when the atlas importer does.
   */
  lemma TextureMetaFields(c: Container, s: Sprite, texture: Texture2D, atlas: SpriteAtlas, guid: string, spriteId: string,
                          f32: SpriteExtensions.Float32Reader)
    requires Convertible(c, s) && AtlasConvertible(c, texture, atlas)
    ensures SpriteTextureMeta(c, s, guid, spriteId, f32).Ok? <==> SingleImporter(c, s, spriteId, f32).Ok?
    ensures SpriteTextureMeta(c, s, guid, spriteId, f32).Ok? ==>
              SpriteTextureMeta(c, s, guid, spriteId, f32).value
              == TextureMeta(2, guid, SingleImporter(c, s, spriteId, f32).value)
    ensures AtlasTextureMeta(c, texture, atlas, guid, f32).Ok? <==> AtlasImporter(c, texture, atlas, f32).Ok?
    ensures AtlasTextureMeta(c, texture, atlas, guid, f32).Ok? ==>
              AtlasTextureMeta(c, texture, atlas, guid, f32).value
              == TextureMeta(2, guid, AtlasImporter(c, texture, atlas, f32).value)
  {
  }

  // ----- Properties of the MCSprite constructor -----

  /**
   * The constructor fails exactly when decoding the triangles fails.  On success the name, pivot,
   * border and ID are copied, the alignment is the code of the nominal pivot's alignment, the rect
   * is what `GetRect` found, and there is one bone per sprite bone.
   */
  lemma SpriteMetaFields(c: Container, s: Sprite, id: nat, f32: SpriteExtensions.Float32Reader)
    requires Convertible(c, s)
    ensures SpriteMeta(c, s, id, f32).Ok? <==> SpriteExtensions.MeshTriangles(s.rd.mesh, f32).Ok?
    ensures SpriteMeta(c, s, id, f32).Err? ==>
              SpriteMeta(c, s, id, f32).error == SpriteExtensions.MeshTriangles(s.rd.mesh, f32).error
    ensures SpriteMeta(c, s, id, f32).Ok? ==>
              var m := SpriteMeta(c, s, id, f32).value;
              && m.serializedVersion == 2 && m.name == s.name && m.pivot == s.pivot && m.border == s.border
              && m.internalId == id && m.rect == MCRect(2, SpriteExtensions.GetRect(c, s))
              && m.alignment == VectorExtensions.ToAlignment(s.pivot).Code()
              && |m.bones| == |s.bones|
  {
  }

  /**
   * Bone i of a converted sprite: name, parent and rotation components copied, length scaled by
   * pixels-per-unit, Z dropped, and only a root shifted by the pivot's share of the rect.
   */
  lemma SpriteMetaBone(c: Container, s: Sprite, id: nat, f32: SpriteExtensions.Float32Reader, i: nat)
    requires Convertible(c, s) && SpriteMeta(c, s, id, f32).Ok? && i < |s.bones|
    ensures i < |SpriteMeta(c, s, id, f32).value.bones|
    ensures BoneConverted(c, s, i, SpriteMeta(c, s, id, f32).value.bones[i])
  {
    assert SpriteMeta(c, s, id, f32).value.bones == SpriteBones(c, s);
    SpriteBonesConverted(c, s, i);
  }

  /** `mb` is bone i of `s` as the constructor converts it. */
  predicate BoneConverted(c: Container, s: Sprite, i: nat, mb: MCBone)
    requires i < |s.bones|
  {
    var b := s.bones[i];
    && mb.name == b.name && mb.parentId == b.parentId
    && mb.rotation == Vector4(b.rotation.x, b.rotation.y, b.rotation.z, b.rotation.w)
    && mb.length == b.length * s.pixelsToUnits
    && mb.position.z == 0.0
    && (b.parentId != -1 ==>
          mb.position.x == b.position.x * s.pixelsToUnits && mb.position.y == b.position.y * s.pixelsToUnits)
    && (b.parentId == -1 ==>
          SpriteExtensions.GetRect(c, s).Some?
          && mb.position.x == b.position.x * s.pixelsToUnits + s.pivot.x * SpriteExtensions.GetRect(c, s).value.width
          && mb.position.y == b.position.y * s.pixelsToUnits + s.pivot.y * SpriteExtensions.GetRect(c, s).value.height)
  }

  /** The bone loop converts bone i as `BoneConverted` describes. */
  lemma SpriteBonesConverted(c: Container, s: Sprite, i: nat)
    requires Convertible(c, s) && i < |s.bones|
    ensures i < |SpriteBones(c, s)| && BoneConverted(c, s, i, SpriteBones(c, s)[i])
  {
    var b, rect := s.bones[i], SpriteExtensions.GetRect(c, s);
    if IsRoot(b) {
      assert HasRootBone(s);
    }
    assert SpriteBones(c, s)[i] == ConvertBone(b, s.pivot, rect, s.pixelsToUnits);
  }

  /**
   * The outline has one polygon of exactly three points per decoded triangle, and each point is
   * the triangle's corner scaled by pixels-per-unit and shifted by the pivot's pixel offset.
   */
  lemma OutlineFromTriangles(c: Container, s: Sprite, id: nat, f32: SpriteExtensions.Float32Reader, i: nat, j: nat)
    requires Convertible(c, s) && SpriteMeta(c, s, id, f32).Ok?
    ensures var triangles := SpriteExtensions.MeshTriangles(s.rd.mesh, f32).value;
            var outline := SpriteMeta(c, s, id, f32).value.outline;
            && |outline| == |triangles|
            && (i < |outline| ==> |outline[i]| == 3)
            && (i < |outline| && j < 3 ==>
                  outline[i][j] == triangles[i][j].Scale(s.pixelsToUnits).Plus(
                    s.pivot.Minus(Vector2(0.5, 0.5)).Times(Vector2(s.rect.width, s.rect.height))))
  {
    SpriteExtensions.MeshAllTriangles(s.rd.mesh, f32);
  }

  /** The physics shape keeps the jagged shape of the sprite's and maps every point like the outline. */
  lemma PhysicsShapeKeepsShape(c: Container, s: Sprite, id: nat, f32: SpriteExtensions.Float32Reader, i: nat, j: nat)
    requires Convertible(c, s) && SpriteMeta(c, s, id, f32).Ok?
    ensures var shape := SpriteMeta(c, s, id, f32).value.physicsShape;
            && |shape| == |s.physicsShape|
            && (i < |shape| ==> |shape[i]| == |s.physicsShape[i]|)
            && (i < |shape| && j < |shape[i]| ==> shape[i][j] == ToPixel(s.physicsShape[i][j], s.pixelsToUnits, PivotPixelsOffset(s)))
  {
  }

  /** With nonzero pixels-per-unit the point map is invertible, so no outline information is lost. */
  lemma ToPixelInverse(p: Vector2, pixelsToUnits: real, offset: Vector2)
    requires pixelsToUnits != 0.0
    ensures ToPixel(p, pixelsToUnits, offset).Minus(offset).Scale(1.0 / pixelsToUnits) == p
  {
    var q := ToPixel(p, pixelsToUnits, offset).Minus(offset);
    assert q == Vector2(p.x * pixelsToUnits, p.y * pixelsToUnits);
    assert p.x * pixelsToUnits * (1.0 / pixelsToUnits) == p.x;
    assert p.y * pixelsToUnits * (1.0 / pixelsToUnits) == p.y;
  }

  /**
   * The outline and physics shape are computed from the nominal rect and pivot only: any two
   * containers (so any atlas rect) give the same ones.
   */
  lemma OutlineIgnoresAtlas(c: Container, c': Container, s: Sprite, id: nat, f32: SpriteExtensions.Float32Reader)
    requires Convertible(c, s) && Convertible(c', s)
    ensures SpriteMeta(c, s, id, f32).Ok? <==> SpriteMeta(c', s, id, f32).Ok?
    ensures SpriteMeta(c, s, id, f32).Ok? ==>
              && SpriteMeta(c, s, id, f32).value.outline == SpriteMeta(c', s, id, f32).value.outline
              && SpriteMeta(c, s, id, f32).value.physicsShape == SpriteMeta(c', s, id, f32).value.physicsShape
  {
  }

  /** Pivot (0, 1), rect 100 by 50, 100 pixels per unit: the point (0.5, -0.5) lands on (0, -25). */
  lemma OutlinePointExample(s: Sprite)
    requires s.pivot == Vector2(0.0, 1.0) && s.rect.width == 100.0 && s.rect.height == 50.0 && s.pixelsToUnits == 100.0
    ensures ToPixel(Vector2(0.5, -0.5), s.pixelsToUnits, PivotPixelsOffset(s)) == Vector2(0.0, -25.0)
  {
  }

  /**
   * Pivot (0.5, 0.5), rect 100 by 50, 100 pixels per unit, a bone at the unit origin with length 0:
   * as a root it lands on (50, 25), as a child on (0, 0), and its length stays 0 either way.
   */
  lemma BoneOriginExample()
    ensures BonePosUnitToPixel(Vector3(0.0, 0.0, 0.0), Vector2(0.5, 0.5), true, Some(Rectf(0.0, 0.0, 100.0, 50.0)), 100.0)
            == Vector3(50.0, 25.0, 0.0)
    ensures BonePosUnitToPixel(Vector3(0.0, 0.0, 0.0), Vector2(0.5, 0.5), false, Some(Rectf(0.0, 0.0, 100.0, 50.0)), 100.0)
            == Vector3(0.0, 0.0, 0.0)
    ensures BoneLengthUnitToPixel(0.0, 100.0) == 0.0
  {
    var rect := Some(Rectf(0.0, 0.0, 100.0, 50.0));
    var root := BonePosUnitToPixel(Vector3(0.0, 0.0, 0.0), Vector2(0.5, 0.5), true, rect, 100.0);
    assert root.x == 0.0 * 100.0 + 0.5 * 100.0;
    assert root.y == 0.0 * 100.0 + 0.5 * 50.0;
  }

  // ----- Properties of the atlas importer -----

  /** The indices, in the full packed list, of the packed sprites that match, in order. */
  function MatchedIndices(c: Container, texture: Texture2D, packed: seq<PPtr>): seq<nat>
    decreases |packed|
  {
    if packed == [] then []
    else
      MatchedIndices(c, texture, packed[..|packed| - 1])
        + (if IsMatch(c, texture, packed[|packed| - 1]) then [|packed| - 1] else [])
  }

  /** The matched indices are exactly the matching positions, strictly increasing. */
  lemma {:induction false} MatchedIndicesFilter(c: Container, texture: Texture2D, packed: seq<PPtr>)
    ensures forall k :: 0 <= k < |MatchedIndices(c, texture, packed)| ==>
              MatchedIndices(c, texture, packed)[k] < |packed| &&
              IsMatch(c, texture, packed[MatchedIndices(c, texture, packed)[k]])
    ensures forall k, l :: 0 <= k < l < |MatchedIndices(c, texture, packed)| ==>
              MatchedIndices(c, texture, packed)[k] < MatchedIndices(c, texture, packed)[l]
    ensures forall i :: 0 <= i < |packed| && IsMatch(c, texture, packed[i]) ==> i in MatchedIndices(c, texture, packed)
    decreases |packed|
  {
    if packed != [] {
      var init := packed[..|packed| - 1];
      MatchedIndicesFilter(c, texture, init);
      assert forall i :: 0 <= i < |init| ==> init[i] == packed[i];
      var idx0, idx := MatchedIndices(c, texture, init), MatchedIndices(c, texture, packed);
      if IsMatch(c, texture, packed[|packed| - 1]) {
        assert idx == idx0 + [|packed| - 1];
        assert forall k :: 0 <= k < |idx0| ==> idx[k] == idx0[k];
      } else {
        assert idx == idx0;
        forall k | 0 <= k < |idx|
          ensures idx[k] < |packed| && IsMatch(c, texture, packed[idx[k]])
        {
          assert idx0[k] < |init|;
          assert IsMatch(c, texture, init[idx0[k]]);
          assert init[idx0[k]] == packed[idx0[k]];
        }
        forall i | 0 <= i < |packed| && IsMatch(c, texture, packed[i])
          ensures i in idx
        {
          assert i < |init| && init[i] == packed[i];
        }
      }
    }
  }

  /**
   * Match k of the scan is the packed sprite at the k-th matched index, and its table row maps
   * the Sprite class ID to the internal ID of that index and names the sprite: one row per match,
   * in atlas order, even when names repeat.
   */
  lemma {:induction false} ScanFollowsIndices(c: Container, texture: Texture2D, packed: seq<PPtr>)
    ensures var scan, idx := Scan(c, texture, packed), MatchedIndices(c, texture, packed);
            && |idx| == |scan.matched|
            && forall k :: 0 <= k < |idx| ==>
                 && idx[k] < |packed|
                 && scan.matched[k] == packed[idx[k]]
                 && scan.table[k] == InternalIdNamePair(map[SpriteClassId := InternalId(idx[k])],
                                                          c.sprites[packed[idx[k]]].name)
    decreases |packed|
  {
    if packed != [] {
      var init := packed[..|packed| - 1];
      ScanFollowsIndices(c, texture, init);
      assert forall i :: 0 <= i < |init| ==> init[i] == packed[i];
      var acc, scan := Scan(c, texture, init), Scan(c, texture, packed);
      var idx0, idx := MatchedIndices(c, texture, init), MatchedIndices(c, texture, packed);
      if IsMatch(c, texture, packed[|packed| - 1]) {
        assert idx == idx0 + [|packed| - 1];
        assert scan.matched == acc.matched + [packed[|packed| - 1]];
        assert scan.table == acc.table + [scan.table[|acc.table|]];
      } else {
        assert idx == idx0;
      }
    }
  }

  /** Every table row carries a different internal ID. */
  lemma TableIdsDistinct(c: Container, texture: Texture2D, packed: seq<PPtr>, k: nat, l: nat)
    requires k < l < |Scan(c, texture, packed).table|
    ensures Scan(c, texture, packed).table[k].first[SpriteClassId] != Scan(c, texture, packed).table[l].first[SpriteClassId]
  {
    ScanFollowsIndices(c, texture, packed);
    MatchedIndicesFilter(c, texture, packed);
    var idx := MatchedIndices(c, texture, packed);
    InternalIdInjective(idx[k], idx[l]);
  }

  /** The name of match k. */
  function MatchedName(c: Container, scan: AtlasScan, k: nat): string
    requires k < |scan.matched| && scan.matched[k] in c.sprites
  {
    c.sprites[scan.matched[k]].name
  }

  /** The ID dictionary holds exactly the names of the matched sprites. */
  lemma {:induction false} ScanIdsDomain(c: Container, texture: Texture2D, packed: seq<PPtr>, name: string)
    ensures name in Scan(c, texture, packed).ids <==>
              exists k :: 0 <= k < |Scan(c, texture, packed).matched| && MatchedName(c, Scan(c, texture, packed), k) == name
    decreases |packed|
  {
    if packed != [] {
      var init := packed[..|packed| - 1];
      var acc, scan := Scan(c, texture, init), Scan(c, texture, packed);
      ScanIdsDomain(c, texture, init, name);
      if IsMatch(c, texture, packed[|packed| - 1]) {
        assert scan.matched == acc.matched + [packed[|packed| - 1]];
        assert forall k :: 0 <= k < |acc.matched| ==> MatchedName(c, scan, k) == MatchedName(c, acc, k);
        var last := |acc.matched|;
        if name in scan.ids && name != MatchedName(c, scan, last) {
          var k :| 0 <= k < |acc.matched| && MatchedName(c, acc, k) == name;
          assert MatchedName(c, scan, k) == name;
        }
      }
    }
  }

  /**
   * A name's ID is the internal ID of its last match: a later sprite with the same name overwrites
   * the ID of an earlier one.
   */
  lemma {:induction false} ScanIdsLastWriteWins(c: Container, texture: Texture2D, packed: seq<PPtr>, name: string, k: nat)
    requires k < |Scan(c, texture, packed).matched| && MatchedName(c, Scan(c, texture, packed), k) == name
    requires forall l :: k < l < |Scan(c, texture, packed).matched| ==> MatchedName(c, Scan(c, texture, packed), l) != name
    ensures name in Scan(c, texture, packed).ids
    ensures Scan(c, texture, packed).ids[name] == Scan(c, texture, packed).table[k].first[SpriteClassId]
    decreases |packed|
  {
    var init := packed[..|packed| - 1];
    var acc, scan := Scan(c, texture, init), Scan(c, texture, packed);
    if IsMatch(c, texture, packed[|packed| - 1]) {
      var last := |acc.matched|;
      assert scan.matched == acc.matched + [packed[|packed| - 1]];
      if k < last {
        assert MatchedName(c, scan, k) == MatchedName(c, acc, k);
        assert forall l :: k < l < |acc.matched| ==> MatchedName(c, acc, l) == MatchedName(c, scan, l);
        ScanIdsLastWriteWins(c, texture, init, name, k);
        assert MatchedName(c, scan, last) != name;
        assert scan.ids[name] == acc.ids[name];
        assert scan.table[k] == acc.table[k];
      }
    } else {
      ScanIdsLastWriteWins(c, texture, init, name, k);
    }
  }

  /** The first nonzero value of a list, or 0 if there is none. */
  function FirstNonzero(xs: seq<real>): real {
    if xs == [] then 0.0 else if xs[0] != 0.0 then xs[0] else FirstNonzero(xs[1..])
  }

  lemma {:induction false} FirstNonzeroSnoc(xs: seq<real>, x: real)
    ensures FirstNonzero(xs + [x]) == if FirstNonzero(xs) == 0.0 then x else FirstNonzero(xs)
  {
    if xs != [] {
      assert (xs + [x])[1..] == xs[1..] + [x];
      FirstNonzeroSnoc(xs[1..], x);
    }
  }

  /** Pixels-per-unit of the matched sprites, in match order. */
  function MatchedPixelsToUnits(c: Container, scan: AtlasScan): (r: seq<real>)
    requires forall k :: 0 <= k < |scan.matched| ==> scan.matched[k] in c.sprites
  {
    seq(|scan.matched|, k requires 0 <= k < |scan.matched| => c.sprites[scan.matched[k]].pixelsToUnits)
  }

  /** The importer's pixels-per-unit is that of the first match whose value is nonzero, else 0. */
  lemma {:induction false} ScanPixelsToUnits(c: Container, texture: Texture2D, packed: seq<PPtr>)
    ensures Scan(c, texture, packed).pixelsToUnits == FirstNonzero(MatchedPixelsToUnits(c, Scan(c, texture, packed)))
    decreases |packed|
  {
    if packed != [] {
      var init := packed[..|packed| - 1];
      var acc, scan := Scan(c, texture, init), Scan(c, texture, packed);
      ScanPixelsToUnits(c, texture, init);
      if IsMatch(c, texture, packed[|packed| - 1]) {
        var p := packed[|packed| - 1];
        assert MatchedPixelsToUnits(c, scan) == MatchedPixelsToUnits(c, acc) + [c.sprites[p].pixelsToUnits];
        FirstNonzeroSnoc(MatchedPixelsToUnits(c, acc), c.sprites[p].pixelsToUnits);
      }
    }
  }

  /** Every present sprite's name has an ID. */
  predicate NamesKnown(sprites: seq<Option<Sprite>>, ids: map<string, nat>) {
    forall k :: 0 <= k < |sprites| && sprites[k].Some? ==> sprites[k].value.name in ids
  }

  /** When every name has an ID, the only way the entry loop can fail is a decoding failure. */
  lemma {:induction false} SheetEntriesOnlyDecodeFails(c: Container, sprites: seq<Option<Sprite>>, ids: map<string, nat>,
                                                       f32: SpriteExtensions.Float32Reader)
    requires AllConvertible(c, sprites) && NamesKnown(sprites, ids)
    ensures SheetEntries(c, sprites, ids, f32).Err? ==> SheetEntries(c, sprites, ids, f32).error.Decode?
    decreases |sprites|
  {
    if sprites != [] {
      var init := sprites[..|sprites| - 1];
      AllConvertiblePrefix(c, sprites, |sprites| - 1);
      assert forall k :: 0 <= k < |init| ==> init[k] == sprites[k];
      SheetEntriesOnlyDecodeFails(c, init, ids, f32);
    }
  }

  /** When every name has an ID and every present sprite converts, the entry loop succeeds. */
  lemma {:induction false} SheetEntriesSucceed(c: Container, sprites: seq<Option<Sprite>>, ids: map<string, nat>,
                                               f32: SpriteExtensions.Float32Reader)
    requires AllConvertible(c, sprites) && NamesKnown(sprites, ids)
    requires forall k :: 0 <= k < |sprites| && sprites[k].Some? ==>
               SpriteMeta(c, sprites[k].value, ids[sprites[k].value.name], f32).Ok?
    ensures SheetEntries(c, sprites, ids, f32).Ok?
    decreases |sprites|
  {
    if sprites != [] {
      var init := sprites[..|sprites| - 1];
      AllConvertiblePrefix(c, sprites, |sprites| - 1);
      assert forall k :: 0 <= k < |init| ==> init[k] == sprites[k];
      SheetEntriesSucceed(c, init, ids, f32);
    }
  }

  /**
   * A successful entry loop has an entry exactly where a sprite is present, and that entry is the
   * sprite converted with the ID its name maps to.
   */
  lemma {:induction false} SheetEntriesAreConversions(c: Container, sprites: seq<Option<Sprite>>, ids: map<string, nat>,
                                                      f32: SpriteExtensions.Float32Reader, k: nat)
    requires AllConvertible(c, sprites) && SheetEntries(c, sprites, ids, f32).Ok? && k < |sprites|
    ensures SheetEntries(c, sprites, ids, f32).value[k].Some? <==> sprites[k].Some?
    ensures sprites[k].Some? ==>
              && sprites[k].value.name in ids
              && SpriteMeta(c, sprites[k].value, ids[sprites[k].value.name], f32).Ok?
              && SheetEntries(c, sprites, ids, f32).value[k]
                 == Some(SpriteMeta(c, sprites[k].value, ids[sprites[k].value.name], f32).value)
    decreases |sprites|
  {
    var init := sprites[..|sprites| - 1];
    AllConvertiblePrefix(c, sprites, |sprites| - 1);
    if k < |init| {
      SheetEntriesAreConversions(c, init, ids, f32, k);
      assert init[k] == sprites[k];
    }
  }

  /** The atlas importer never fails on a missing name: every matched sprite's name has an ID. */
  lemma AtlasImporterOnlyDecodeFails(c: Container, texture: Texture2D, atlas: SpriteAtlas,
                                     f32: SpriteExtensions.Float32Reader)
    requires AtlasConvertible(c, texture, atlas)
    ensures AtlasImporter(c, texture, atlas, f32).Err? ==> AtlasImporter(c, texture, atlas, f32).error.Decode?
  {
    var scan := Scan(c, texture, atlas.packedSprites);
    MatchedConvertible(c, texture, atlas);
    var resolved := Resolve(c, scan.matched);
    assert NamesKnown(resolved, scan.ids) by {
      forall k | 0 <= k < |resolved| && resolved[k].Some?
        ensures resolved[k].value.name in scan.ids
      {
        assert resolved[k].value == c.sprites[scan.matched[k]];
      }
    }
    SheetEntriesOnlyDecodeFails(c, resolved, scan.ids, f32);
  }

  /** The matched sprites, resolved: every reference resolves, and every name has an ID. */
  lemma MatchedResolved(c: Container, texture: Texture2D, atlas: SpriteAtlas)
    ensures var scan := Scan(c, texture, atlas.packedSprites);
            && |Resolve(c, scan.matched)| == |scan.matched|
            && (forall k :: 0 <= k < |scan.matched| ==>
                  Resolve(c, scan.matched)[k] == Some(c.sprites[scan.matched[k]]))
            && NamesKnown(Resolve(c, scan.matched), scan.ids)
  {
    var scan := Scan(c, texture, atlas.packedSprites);
    var resolved := Resolve(c, scan.matched);
    forall k | 0 <= k < |resolved| && resolved[k].Some?
      ensures resolved[k].value.name in scan.ids
    {
      assert resolved[k].value == c.sprites[scan.matched[k]];
    }
  }

  /**
   * The atlas importer succeeds exactly when every matched sprite converts with the ID its name
   * maps to; then entry k of its sheet is match k converted with that ID.
   */
  lemma AtlasImporterSucceeds(c: Container, texture: Texture2D, atlas: SpriteAtlas, f32: SpriteExtensions.Float32Reader)
    requires AtlasConvertible(c, texture, atlas)
    ensures var scan := Scan(c, texture, atlas.packedSprites);
            AtlasImporter(c, texture, atlas, f32).Ok? <==>
              forall k :: 0 <= k < |scan.matched| ==>
                SpriteMeta(c, c.sprites[scan.matched[k]], scan.ids[MatchedName(c, scan, k)], f32).Ok?
    ensures var scan := Scan(c, texture, atlas.packedSprites);
            AtlasImporter(c, texture, atlas, f32).Ok? ==>
              && |AtlasImporter(c, texture, atlas, f32).value.spriteSheet.sprites| == |scan.matched|
              && forall k :: 0 <= k < |scan.matched| ==>
                   AtlasImporter(c, texture, atlas, f32).value.spriteSheet.sprites[k]
                   == Some(SpriteMeta(c, c.sprites[scan.matched[k]], scan.ids[MatchedName(c, scan, k)], f32).value)
  {
    var scan := Scan(c, texture, atlas.packedSprites);
    MatchedConvertible(c, texture, atlas);
    MatchedResolved(c, texture, atlas);
    var resolved := Resolve(c, scan.matched);
    if forall k :: 0 <= k < |scan.matched| ==>
         SpriteMeta(c, c.sprites[scan.matched[k]], scan.ids[MatchedName(c, scan, k)], f32).Ok? {
      SheetEntriesSucceed(c, resolved, scan.ids, f32);
    }
    if AtlasImporter(c, texture, atlas, f32).Ok? {
      var es := SheetEntries(c, resolved, scan.ids, f32).value;
      assert AtlasImporter(c, texture, atlas, f32).value.spriteSheet.sprites == es;
      forall k | 0 <= k < |scan.matched|
        ensures SpriteMeta(c, c.sprites[scan.matched[k]], scan.ids[MatchedName(c, scan, k)], f32).Ok?
        ensures es[k] == Some(SpriteMeta(c, c.sprites[scan.matched[k]], scan.ids[MatchedName(c, scan, k)], f32).value)
      {
        SheetEntriesAreConversions(c, resolved, scan.ids, f32, k);
      }
    }
  }

  /**
   * Two matched sprites with the same name get the same internal ID in the sheet, the ID of the
   * later match, even though their rows of the ID table carry different IDs.
   */
  lemma SharedNameSharesId(c: Container, texture: Texture2D, atlas: SpriteAtlas, f32: SpriteExtensions.Float32Reader,
                           k: nat, l: nat)
    requires AtlasConvertible(c, texture, atlas) && AtlasImporter(c, texture, atlas, f32).Ok?
    requires k < l < |Scan(c, texture, atlas.packedSprites).matched|
    requires MatchedName(c, Scan(c, texture, atlas.packedSprites), k) == MatchedName(c, Scan(c, texture, atlas.packedSprites), l)
    ensures var imp := AtlasImporter(c, texture, atlas, f32).value;
            && imp.spriteSheet.sprites[k].Some? && imp.spriteSheet.sprites[l].Some?
            && imp.spriteSheet.sprites[k].value.internalId == imp.spriteSheet.sprites[l].value.internalId
            && imp.internalIDToNameTable[k].first[SpriteClassId] != imp.internalIDToNameTable[l].first[SpriteClassId]
  {
    var scan := Scan(c, texture, atlas.packedSprites);
    MatchedConvertible(c, texture, atlas);
    var resolved := Resolve(c, scan.matched);
    var es := SheetEntries(c, resolved, scan.ids, f32).value;
    assert AtlasImporter(c, texture, atlas, f32).value.spriteSheet.sprites == es;
    assert resolved[k] == Some(c.sprites[scan.matched[k]]);
    assert resolved[l] == Some(c.sprites[scan.matched[l]]);
    SheetEntriesAreConversions(c, resolved, scan.ids, f32, k);
    SheetEntriesAreConversions(c, resolved, scan.ids, f32, l);
    var name := MatchedName(c, scan, k);
    SpriteMetaFields(c, resolved[k].value, scan.ids[name], f32);
    SpriteMetaFields(c, resolved[l].value, scan.ids[name], f32);
    TableIdsDistinct(c, texture, atlas.packedSprites, k, l);
  }

  /**
   * The single-sprite importer: the fixed fields, the sprite's own pixels-per-unit, pivot, border
   * and alignment code, an empty ID table, and a sheet with no entries that holds the bones, outline
   * and physics shape of `MCSprite(sprite, 0)` and the sheet GUID.
   */
  lemma SingleImporterFields(c: Container, s: Sprite, spriteId: string, f32: SpriteExtensions.Float32Reader)
    requires Convertible(c, s)
    ensures SingleImporter(c, s, spriteId, f32).Ok? <==> SpriteMeta(c, s, 0, f32).Ok?
    ensures SingleImporter(c, s, spriteId, f32).Ok? ==>
              var imp, m := SingleImporter(c, s, spriteId, f32).value, SpriteMeta(c, s, 0, f32).value;
              && imp.serializedVersion == 11 && imp.textureType == 8 && imp.spriteMode == 1
              && imp.alphaIsTransparency == 1 && imp.nPOTScale == 0 && imp.internalIDToNameTable == []
              && imp.alignment == VectorExtensions.ToAlignment(s.pivot).Code()
              && imp.spritePixelsToUnits == s.pixelsToUnits && imp.spritePivot == s.pivot && imp.spriteBorder == s.border
              && imp.spriteSheet == MCSpriteSheet(2, [], Some(m.bones), Some(m.outline), Some(m.physicsShape), Some(spriteId))
  {
  }

  /**
   * The atlas importer: the fixed fields, alignment 0 and NPOT scale 0 with a zero pivot and border,
   * the scan's table and pixels-per-unit, and a sheet with one entry per match and no sheet-level
   * mesh data.  `AtlasImporterSucceeds` gives the entries themselves.
   */
  lemma AtlasImporterFields(c: Container, texture: Texture2D, atlas: SpriteAtlas, f32: SpriteExtensions.Float32Reader)
    requires AtlasConvertible(c, texture, atlas)
    ensures AtlasImporter(c, texture, atlas, f32).Ok? ==>
              var imp, scan := AtlasImporter(c, texture, atlas, f32).value, Scan(c, texture, atlas.packedSprites);
              && imp.serializedVersion == 11 && imp.textureType == 8 && imp.spriteMode == 2
              && imp.alphaIsTransparency == 1 && imp.alignment == 0 && imp.nPOTScale == 0
              && imp.spritePivot == Vector2(0.0, 0.0) && imp.spriteBorder == Vector4(0.0, 0.0, 0.0, 0.0)
              && imp.internalIDToNameTable == scan.table && imp.spritePixelsToUnits == scan.pixelsToUnits
              && |imp.spriteSheet.sprites| == |scan.matched|
              && imp.spriteSheet.bones.None? && imp.spriteSheet.outline.None?
              && imp.spriteSheet.physicsShape.None? && imp.spriteSheet.spriteID.None?
  {
  }
}
