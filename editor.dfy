/**
 * The editor enumerations of AssetStudio/Classes/Editor/TextureImporter.cs.  An enum value is its
 * integer code; the importer stores these codes in its integer fields.
 */
module Editor {
  import Wrappers

  /** How a sprite's rectangle is aligned with its pivot. */
  datatype SpriteAlignment =
    | Center | TopLeft | TopCenter | TopRight | LeftCenter
    | RightCenter | BottomLeft | BottomCenter | BottomRight | Custom
  {
    function Code(): (n: nat)
      ensures n <= 9
    {
      match this
      case Center => 0
      case TopLeft => 1
      case TopCenter => 2
      case TopRight => 3
      case LeftCenter => 4
      case RightCenter => 5
      case BottomLeft => 6
      case BottomCenter => 7
      case BottomRight => 8
      case Custom => 9
    }
  }

  /** The cast from an integer code back to the enumeration; codes outside 0..9 name no member. */
  function SpriteAlignmentOfCode(n: int): Wrappers.Option<SpriteAlignment>
  {
    if n == 0 then Wrappers.Some(Center)
    else if n == 1 then Wrappers.Some(TopLeft)
    else if n == 2 then Wrappers.Some(TopCenter)
    else if n == 3 then Wrappers.Some(TopRight)
    else if n == 4 then Wrappers.Some(LeftCenter)
    else if n == 5 then Wrappers.Some(RightCenter)
    else if n == 6 then Wrappers.Some(BottomLeft)
    else if n == 7 then Wrappers.Some(BottomCenter)
    else if n == 8 then Wrappers.Some(BottomRight)
    else if n == 9 then Wrappers.Some(Custom)
    else Wrappers.None
  }

  /** Code and cast are inverse: every member round-trips, and every code in 0..9 names the member with that code. */
  lemma SpriteAlignmentCodes(a: SpriteAlignment, n: int)
    ensures SpriteAlignmentOfCode(a.Code()) == Wrappers.Some(a)
    ensures SpriteAlignmentOfCode(n).Some? <==> 0 <= n <= 9
    ensures SpriteAlignmentOfCode(n).Some? ==> SpriteAlignmentOfCode(n).value.Code() == n
  {
  }

  /** Distinct alignments have distinct codes. */
  lemma SpriteAlignmentCodeInjective(a: SpriteAlignment, b: SpriteAlignment)
    ensures a.Code() == b.Code() ==> a == b
  {
    SpriteAlignmentCodes(a, 0);
    SpriteAlignmentCodes(b, 0);
  }

  /**
   * The member NAMES of TextureImporterType.  Several obsolete names alias a current one, so the
   * map from name to code is not injective (C# treats `Image` and `Default` as the same value).
   */
  datatype TextureImporterTypeName =
    | Default | Image | Bump | NormalMap | GUI | Cubemap | Reflection | Cookie | Advanced
    | Lightmap | Cursor | Sprite | HDRI | SingleChannel | Shadowmask | DirectionalLightmap
  {
    function Code(): (n: nat)
      ensures n <= 12
    {
      match this
      case Default => 0
      case Image => 0
      case Bump => 1
      case NormalMap => 1
      case GUI => 2
      case Cubemap => 3
      case Reflection => 3
      case Cookie => 4
      case Advanced => 5
      case Lightmap => 6
      case Cursor => 7
      case Sprite => 8
      case HDRI => 9
      case SingleChannel => 10
      case Shadowmask => 11
      case DirectionalLightmap => 12
    }

    /** The obsolete aliases. */
    predicate Obsolete() {
      this in {Image, Bump, Cubemap, Reflection, Advanced, HDRI}
    }
  }

  /**
   * Two names share a code exactly when they are one of the three alias pairs, and at least one
   * name of each pair is obsolete, so the current names have pairwise distinct codes; the codes
   * 3, 5 and 9 belong to obsolete names only.
   */
  lemma TextureImporterTypeAliases(a: TextureImporterTypeName, b: TextureImporterTypeName)
    ensures a != b && a.Code() == b.Code() <==>
      {a, b} == {Default, Image} || {a, b} == {Bump, NormalMap} || {a, b} == {Cubemap, Reflection}
    ensures a != b && a.Code() == b.Code() ==> a.Obsolete() || b.Obsolete()
    ensures a.Code() in {3, 5, 9} ==> a.Obsolete()
  {
  }

  /** Modes of sprite import; codes follow declaration order. */
  datatype SpriteImportMode = None | Single | Multiple | Polygon {
    function Code(): (n: nat)
      ensures n <= 3
    {
      match this
      case None => 0
      case Single => 1
      case Multiple => 2
      case Polygon => 3
    }
  }

  /** Scaling of non-power-of-two textures; codes follow declaration order. */
  datatype TextureImporterNPOTScale = None | ToNearest | ToLarger | ToSmaller {
    function Code(): (n: nat)
      ensures n <= 3
    {
      match this
      case None => 0
      case ToNearest => 1
      case ToLarger => 2
      case ToSmaller => 3
    }
  }

  /** Both four-member enumerations have distinct codes. */
  lemma ImportModeAndScaleCodesInjective(a: SpriteImportMode, b: SpriteImportMode,
                                         s: TextureImporterNPOTScale, t: TextureImporterNPOTScale)
    ensures a.Code() == b.Code() ==> a == b
    ensures s.Code() == t.Code() ==> s == t
  {
  }
}
