/**
 * Alignment inference of AssetStudio/Extensions/VectorExtensions.cs: a pivot is classified into
 * one of the ten sprite alignments by exact comparison with the fractions 0, 0.5 and 1.
 */
module VectorExtensions {
  import opened Wrappers
  import opened Geometry
  import opened Editor

  /** `ToAlignment`: the if-chain of the source, in its order. */
  function ToAlignment(v: Vector2): SpriteAlignment {
    var pX := v.x;
    var pY := v.y;
    if pX == 0.5 && pY == 0.5 then Center
    else if pX == 0.0 && pY == 1.0 then TopLeft
    else if pX == 0.5 && pY == 1.0 then TopCenter
    else if pX == 1.0 && pY == 1.0 then TopRight
    else if pX == 0.0 && pY == 0.5 then LeftCenter
    else if pX == 1.0 && pY == 0.5 then RightCenter
    else if pX == 0.0 && pY == 0.0 then BottomLeft
    else if pX == 0.5 && pY == 0.0 then BottomCenter
    else if pX == 1.0 && pY == 0.0 then BottomRight
    else Custom
  }

  /** The three canonical fractions of a pivot coordinate. */
  predicate IsCanonicalFraction(c: real) {
    c == 0.0 || c == 0.5 || c == 1.0
  }

  /** Reference definition: the pivot each named anchor stands for; Custom stands for none. */
  function AnchorPivot(a: SpriteAlignment): Option<Vector2> {
    match a
    case Center => Some(Vector2(0.5, 0.5))
    case TopLeft => Some(Vector2(0.0, 1.0))
    case TopCenter => Some(Vector2(0.5, 1.0))
    case TopRight => Some(Vector2(1.0, 1.0))
    case LeftCenter => Some(Vector2(0.0, 0.5))
    case RightCenter => Some(Vector2(1.0, 0.5))
    case BottomLeft => Some(Vector2(0.0, 0.0))
    case BottomCenter => Some(Vector2(0.5, 0.0))
    case BottomRight => Some(Vector2(1.0, 0.0))
    case Custom => Option.None
  }

  predicate InLeftColumn(a: SpriteAlignment) { a in {TopLeft, LeftCenter, BottomLeft} }
  predicate InRightColumn(a: SpriteAlignment) { a in {TopRight, RightCenter, BottomRight} }
  predicate InTopRow(a: SpriteAlignment) { a in {TopLeft, TopCenter, TopRight} }
  predicate InBottomRow(a: SpriteAlignment) { a in {BottomLeft, BottomCenter, BottomRight} }

  /** Every named anchor's canonical pivot is classified as that anchor. */
  lemma CanonicalPivotsMapToAnchors(a: SpriteAlignment)
    ensures AnchorPivot(a).Some? <==> a != Custom
    ensures AnchorPivot(a).Some? ==> ToAlignment(AnchorPivot(a).value) == a
  {
  }

  /** Conversely a pivot classified as a named anchor is exactly that anchor's pivot. */
  lemma AnchorDeterminesPivot(p: Vector2)
    ensures ToAlignment(p) != Custom ==> AnchorPivot(ToAlignment(p)) == Some(p)
  {
  }

  /** The result is Custom exactly when one coordinate is not 0, 0.5 or 1. */
  lemma CustomExactlyOffGrid(p: Vector2)
    ensures ToAlignment(p) == Custom <==> !IsCanonicalFraction(p.x) || !IsCanonicalFraction(p.y)
  {
  }

  /**
   * No tolerance: any displacement of the centre pivot along x gives Custom, except the two
   * displacements of exactly one half, which land on the edge midpoints.
   */
  lemma NoTolerance(delta: real)
    requires delta != 0.0
    ensures ToAlignment(Vector2(0.5 + delta, 0.5)) ==
              if delta == -0.5 then LeftCenter else if delta == 0.5 then RightCenter else Custom
  {
  }

  /** Distinct canonical pivots give distinct anchors, so the order of the if-chain does not matter. */
  lemma CanonicalPivotsDistinct(p: Vector2, q: Vector2)
    requires ToAlignment(p) != Custom && ToAlignment(q) != Custom
    ensures ToAlignment(p) == ToAlignment(q) <==> p == q
  {
    AnchorDeterminesPivot(p);
    AnchorDeterminesPivot(q);
  }

  /** For canonical pivots x picks the column and y picks the row. */
  lemma ColumnsAndRows(p: Vector2)
    requires ToAlignment(p) != Custom
    ensures p.x == 0.0 <==> InLeftColumn(ToAlignment(p))
    ensures p.x == 1.0 <==> InRightColumn(ToAlignment(p))
    ensures p.y == 1.0 <==> InTopRow(ToAlignment(p))
    ensures p.y == 0.0 <==> InBottomRow(ToAlignment(p))
  {
  }
}
