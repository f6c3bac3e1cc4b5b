/**
 * Pure model of `RepositionAdorner`'s `_thumbCoordinates` cache: four
 * rectangles indexed by `Geometry.Index`. The constructor seeds it once, and
 * every `ArrangeOverride` patches six of its sixteen fields in place.
 */
module ThumbCache {
  import opened Geometry

  /**
   * The ten fields `ArrangeOverride` never writes, at the values the
   * constructor gives them.
   */
  predicate CacheShape(c: seq<Rect>, t: nat)
  {
    var h := HalfThickness(t);
    && |c| == ThumbCount
    && c[Index(Top)].x == 0.0 && c[Index(Top)].y == -h && c[Index(Top)].height == t as real
    && c[Index(Bottom)].x == 0.0 && c[Index(Bottom)].height == t as real
    && c[Index(Left)].x == -h && c[Index(Left)].y == 0.0 && c[Index(Left)].width == t as real
    && c[Index(Right)].y == 0.0 && c[Index(Right)].width == t as real
  }

  /** Two caches agree on every field that `ArrangeOverride` leaves alone. */
  predicate SameFixedFields(c: seq<Rect>, d: seq<Rect>)
    requires |c| == ThumbCount && |d| == ThumbCount
  {
    && c[Index(Top)].x == d[Index(Top)].x && c[Index(Top)].y == d[Index(Top)].y
    && c[Index(Top)].height == d[Index(Top)].height
    && c[Index(Bottom)].x == d[Index(Bottom)].x && c[Index(Bottom)].height == d[Index(Bottom)].height
    && c[Index(Left)].x == d[Index(Left)].x && c[Index(Left)].y == d[Index(Left)].y
    && c[Index(Left)].width == d[Index(Left)].width
    && c[Index(Right)].y == d[Index(Right)].y && c[Index(Right)].width == d[Index(Right)].width
  }

  /** The cache as the constructor seeds it, before any layout pass. */
  function InitialCache(t: nat): (c: seq<Rect>)
    ensures CacheShape(c, t)
    ensures c[Index(Top)].width == 0.0 && c[Index(Bottom)].width == 0.0
    ensures c[Index(Left)].height == 0.0 && c[Index(Right)].height == 0.0
  {
    var h := HalfThickness(t);
    [ Rect(0.0, -h, 0.0, t as real),
      Rect(0.0, 0.0, 0.0, t as real),
      Rect(-h, 0.0, t as real, 0.0),
      Rect(0.0, 0.0, t as real, 0.0) ]
  }

  /** The reference layout for an element of size `sz`: one `ThumbRect` per slot. */
  function ArrangedCache(sz: Size, t: nat): (c: seq<Rect>)
    ensures CacheShape(c, t)
  {
    [ThumbRect(Top, sz, t), ThumbRect(Bottom, sz, t), ThumbRect(Left, sz, t), ThumbRect(Right, sz, t)]
  }

  /**
   * The six in-place writes of `ArrangeOverride`: Top.Width, Bottom.Y,
   * Bottom.Width, Left.Height, Right.X and Right.Height.
   */
  function PatchCache(c: seq<Rect>, sz: Size, t: nat): (p: seq<Rect>)
    requires |c| == ThumbCount
    ensures |p| == ThumbCount
    ensures SameFixedFields(c, p)
    ensures CacheShape(p, t) <==> CacheShape(c, t)
  {
    var h := HalfThickness(t);
    var top := c[Index(Top)];
    var bottom := c[Index(Bottom)];
    var left := c[Index(Left)];
    var right := c[Index(Right)];
    [ top.(width := sz.width),
      bottom.(y := sz.height - h, width := sz.width),
      left.(height := sz.height),
      right.(x := sz.width - h, height := sz.height) ]
  }

  /** On a cache of the constructor's shape, one patch produces the reference layout. */
  lemma PatchCacheLaysOut(c: seq<Rect>, sz: Size, t: nat)
    requires CacheShape(c, t)
    ensures PatchCache(c, sz, t) == ArrangedCache(sz, t)
  {
    var p, a := PatchCache(c, sz, t), ArrangedCache(sz, t);
    forall i | 0 <= i < ThumbCount
      ensures p[i] == a[i]
    {
      assert i == Index(EdgeAt(i));
    }
  }

  /** A later patch overwrites every trace of an earlier one. */
  lemma PatchCacheLatestWins(c: seq<Rect>, s1: Size, s2: Size, t: nat)
    requires |c| == ThumbCount
    ensures PatchCache(PatchCache(c, s1, t), s2, t) == PatchCache(c, s2, t)
  {
    var p, q := PatchCache(PatchCache(c, s1, t), s2, t), PatchCache(c, s2, t);
    forall i | 0 <= i < ThumbCount
      ensures p[i] == q[i]
    {
      assert i == Index(EdgeAt(i));
    }
  }

  /** Arranging twice at the same size is the same as arranging once. */
  lemma PatchCacheIdempotent(c: seq<Rect>, sz: Size, t: nat)
    requires |c| == ThumbCount
    ensures PatchCache(PatchCache(c, sz, t), sz, t) == PatchCache(c, sz, t)
  {
    PatchCacheLatestWins(c, sz, sz, t);
  }

  /**
   * The seeded cache is not the layout of an empty element: its Bottom.Y
   * and Right.X start at 0 instead of `-HalfThickness(t)`, so the two agree
   * only when the half thickness truncates to 0.
   */
  lemma InitialCacheIsEmptyLayoutIff(t: nat)
    ensures InitialCache(t) == ArrangedCache(Size(0.0, 0.0), t) <==> t < 2
  {
    var c, a := InitialCache(t), ArrangedCache(Size(0.0, 0.0), t);
    if t < 2 {
      assert HalfThickness(t) == 0.0;
      forall i | 0 <= i < ThumbCount
        ensures c[i] == a[i]
      {
        assert i == Index(EdgeAt(i));
      }
    } else {
      assert c[Index(Bottom)].y != a[Index(Bottom)].y;
    }
  }
}
