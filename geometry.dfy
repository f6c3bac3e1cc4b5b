/**
 * Shared geometry of the repositioning adorners: the four edges a thumb is
 * placed on, sizes and rectangles (WPF `Size` and `Rect`, with `double`
 * modelled as `real`), the half thickness as the C# source computes it, and
 * the reference placement of each edge thumb.
 */
module Geometry {

  /** The four drag thumbs, in the order of the source's `ThumbIndex` enumeration. */
  datatype Edge = Top | Bottom | Left | Right

  /** `ThumbIndex.NumThumbs`: the number of thumbs an adorner owns. */
  const ThumbCount: nat := 4

  /** Slot of an edge's thumb in the thumb and coordinate arrays. */
  function Index(e: Edge): (i: nat)
    ensures i < ThumbCount
  {
    match e
    case Top => 0
    case Bottom => 1
    case Left => 2
    case Right => 3
  }

  /** The edge whose thumb sits in slot `i`; the inverse of `Index`. */
  function EdgeAt(i: nat): (e: Edge)
    requires i < ThumbCount
    ensures Index(e) == i
  {
    if i == 0 then Top else if i == 1 then Bottom else if i == 2 then Left else Right
  }

  lemma EdgeAtIndex(e: Edge)
    ensures EdgeAt(Index(e)) == e
  {
  }

  datatype Size = Size(width: real, height: real)

  datatype Rect = Rect(x: real, y: real, width: real, height: real)

  /**
   * `ThumbThickness / 2` in the source: `ThumbThickness` is an `int`, so the
   * division truncates before the value is widened to `double`.
   */
  function HalfThickness(t: nat): (h: real)
    ensures h == h.Floor as real
    ensures 0.0 <= 2.0 * h <= t as real < 2.0 * h + 2.0
    ensures t % 2 == 0 <==> 2.0 * h == t as real
  {
    assert 2 * (t / 2) <= t < 2 * (t / 2) + 2;
    (t / 2) as real
  }

  /** Position of the element's edge line on the axis that crosses that edge. */
  function EdgeLine(e: Edge, sz: Size): real
  {
    match e
    case Top => 0.0
    case Bottom => sz.height
    case Left => 0.0
    case Right => sz.width
  }

  /** Length of the element's side that the edge runs along. */
  function SideLength(e: Edge, sz: Size): real
  {
    if e.Top? || e.Bottom? then sz.width else sz.height
  }

  /** Start of a rectangle on the axis across the edge. */
  function AcrossStart(r: Rect, e: Edge): real
  {
    if e.Top? || e.Bottom? then r.y else r.x
  }

  /** Extent of a rectangle on the axis across the edge (the thumb's thickness). */
  function AcrossExtent(r: Rect, e: Edge): real
  {
    if e.Top? || e.Bottom? then r.height else r.width
  }

  /** Start of a rectangle on the axis along the edge. */
  function AlongStart(r: Rect, e: Edge): real
  {
    if e.Top? || e.Bottom? then r.x else r.y
  }

  /** Extent of a rectangle on the axis along the edge. */
  function AlongExtent(r: Rect, e: Edge): real
  {
    if e.Top? || e.Bottom? then r.width else r.height
  }

  /**
   * The placement the layout contract asks of a thumb: it runs along the
   * whole side, it is `t` thick, and the edge line lies `HalfThickness(t)`
   * past the thumb's start, so the thumb straddles the edge.
   */
  predicate Straddles(r: Rect, e: Edge, sz: Size, t: nat)
  {
    && AlongStart(r, e) == 0.0
    && AlongExtent(r, e) == SideLength(e, sz)
    && AcrossExtent(r, e) == t as real
    && EdgeLine(e, sz) - AcrossStart(r, e) == HalfThickness(t)
  }

  /**
   * The rectangle of an edge's thumb for an element of size `sz`: the
   * formulas of the `*ThumbRect` properties and of the cache updates in
   * `ArrangeOverride`.
   */
  function ThumbRect(e: Edge, sz: Size, t: nat): (r: Rect)
    ensures Straddles(r, e, sz, t)
  {
    var h := HalfThickness(t);
    match e
    case Top => Rect(0.0, -h, sz.width, t as real)
    case Bottom => Rect(0.0, sz.height - h, sz.width, t as real)
    case Left => Rect(-h, 0.0, t as real, sz.height)
    case Right => Rect(sz.width - h, 0.0, t as real, sz.height)
  }

  /** `Straddles` pins the rectangle down: `ThumbRect` is the only placement meeting it. */
  lemma StraddlesOnlyThumbRect(r: Rect, e: Edge, sz: Size, t: nat)
    requires Straddles(r, e, sz, t)
    ensures r == ThumbRect(e, sz, t)
  {
  }

  /** A thumb of positive thickness covers the edge line it is placed on. */
  lemma ThumbCoversEdge(e: Edge, sz: Size, t: nat)
    requires t > 0
    ensures var r := ThumbRect(e, sz, t);
      AcrossStart(r, e) <= EdgeLine(e, sz) < AcrossStart(r, e) + AcrossExtent(r, e)
  {
    var h := HalfThickness(t);
    assert 2.0 * h <= t as real;
  }

  /**
   * Because the half thickness truncates, a thumb is centred exactly on its
   * edge when the thickness is even and half a unit past it when it is odd.
   */
  lemma ThumbCentre(e: Edge, sz: Size, t: nat)
    ensures var r := ThumbRect(e, sz, t);
      AcrossStart(r, e) + AcrossExtent(r, e) / 2.0
        == EdgeLine(e, sz) + (if t % 2 == 0 then 0.0 else 0.5)
  {
    var h := HalfThickness(t);
    if t % 2 != 0 {
      assert 2.0 * h + 1.0 == t as real by {
        assert t == 2 * (t / 2) + 1;
      }
    }
  }
}
