/**
 * `RepositionAdorner`: four thumbs around an element on a canvas, a cache
 * of their rectangles that each layout pass patches in place from the final
 * size, and drag handlers that move the element by the pointer's delta.
 */
module Reposition {
  import opened Wrappers
  import opened Geometry
  import opened ThumbCache
  import opened Visuals
  import Drag

  class RepositionAdorner {
    /** `AdornedElement`, shared with the hosting canvas. */
    const element: AdornedElement
    /** `_config`. */
    const config: AdornerConfig
    /** `_repositionThumbs`, indexed by `Geometry.Index`. */
    const thumbs: array<Thumb>
    /** `_thumbCoordinates`, indexed by `Geometry.Index`. */
    const coords: array<Rect>
    /** `_visualChildren`: the thumbs in the order they were added. */
    var visualChildren: seq<Thumb>

    /**
     * Four distinct thumbs, all of them visual children in slot order, and
     * a cache whose never-written fields keep the constructor's values.
     */
    ghost predicate Valid()
      reads this, thumbs, coords
    {
      && thumbs.Length == ThumbCount
      && coords.Length == ThumbCount
      && (forall i, j :: 0 <= i < j < ThumbCount ==> thumbs[i] != thumbs[j])
      && visualChildren == thumbs[..]
      && CacheShape(coords[..], config.thumbThickness)
    }

    /**
     * The constructor once the `Canvas` check has passed: four fresh
     * thumbs, each added to the visual children, and the seeded cache.
     */
    constructor (adornedElement: AdornedElement, adornerConfig: AdornerConfig)
      requires adornedElement.parentIsCanvas
      ensures Valid()
      ensures element == adornedElement && config == adornerConfig
      ensures fresh(thumbs) && fresh(coords)
      ensures forall i :: 0 <= i < ThumbCount ==> fresh(thumbs[i]) && thumbs[i].arranged == None
      ensures |visualChildren| == ThumbCount
      ensures coords[..] == InitialCache(adornerConfig.thumbThickness)
    {
      element := adornedElement;
      config := adornerConfig;
      var top := new Thumb();
      var bottom := new Thumb();
      var left := new Thumb();
      var right := new Thumb();
      thumbs := new Thumb[ThumbCount] [top, bottom, left, right];
      var t := adornerConfig.thumbThickness;
      var h := HalfThickness(t);
      coords := new Rect[ThumbCount] [
        Rect(0.0, -h, 0.0, t as real),
        Rect(0.0, 0.0, 0.0, t as real),
        Rect(-h, 0.0, t as real, 0.0),
        Rect(0.0, 0.0, t as real, 0.0)];
      visualChildren := [];
      new;
      for i := 0 to ThumbCount
        modifies this
        invariant visualChildren == thumbs[..i]
      {
        visualChildren := visualChildren + [thumbs[i]];
      }
    }

    /**
     * The checked construction: fails with the `adornedElement` argument
     * error unless the element's parent is a `Canvas`.
     */
    static method Create(adornedElement: AdornedElement, adornerConfig: AdornerConfig)
      returns (r: Result<RepositionAdorner, ArgumentError>)
      ensures r.Failure? <==> !adornedElement.parentIsCanvas
      ensures r.Failure? ==> r.error == NotOnCanvas && r.error.paramName == "adornedElement"
      ensures r.Success? ==>
        && fresh(r.value) && r.value.Valid()
        && fresh(r.value.thumbs) && fresh(r.value.coords)
        && (forall i :: 0 <= i < ThumbCount ==> fresh(r.value.thumbs[i]) && r.value.thumbs[i].arranged == None)
        && r.value.element == adornedElement && r.value.config == adornerConfig
        && r.value.VisualChildrenCount() == ThumbCount
        && r.value.coords[..] == InitialCache(adornerConfig.thumbThickness)
    {
      if !adornedElement.parentIsCanvas {
        return Failure(NotOnCanvas);
      }
      var a := new RepositionAdorner(adornedElement, adornerConfig);
      return Success(a);
    }

    /** `VisualChildrenCount`: always the four thumbs. */
    function VisualChildrenCount(): (n: nat)
      requires Valid()
      reads this, thumbs, coords
      ensures n == ThumbCount
    {
      |visualChildren|
    }

    /**
     * `GetVisualChild`: the thumb in slot `index`; an index outside the
     * collection is the `ArgumentOutOfRangeException` of `VisualCollection`.
     */
    function GetVisualChild(index: int): (r: Option<Thumb>)
      requires Valid()
      reads this, thumbs, coords
      ensures r.Some? <==> 0 <= index < ThumbCount
      ensures r.Some? ==> r.value == thumbs[index]
    {
      if 0 <= index < |visualChildren| then Some(visualChildren[index]) else None
    }

    /**
     * `ArrangeOverride`: patch the six size-dependent cache fields from
     * `finalSize`, arrange each thumb into its slot, and return the size.
     */
    method ArrangeOverride(finalSize: Size) returns (r: Size)
      requires Valid()
      modifies coords, thumbs[..]
      ensures Valid()
      ensures r == finalSize
      ensures coords[..] == PatchCache(old(coords[..]), finalSize, config.thumbThickness)
      ensures coords[..] == ArrangedCache(finalSize, config.thumbThickness)
      ensures forall i :: 0 <= i < ThumbCount ==> thumbs[i].arranged == Some(coords[i])
    {
      var h := HalfThickness(config.thumbThickness);
      coords[Index(Top)] := coords[Index(Top)].(width := finalSize.width);
      coords[Index(Bottom)] := coords[Index(Bottom)].(y := finalSize.height - h);
      coords[Index(Bottom)] := coords[Index(Bottom)].(width := finalSize.width);
      coords[Index(Left)] := coords[Index(Left)].(height := finalSize.height);
      coords[Index(Right)] := coords[Index(Right)].(x := finalSize.width - h);
      coords[Index(Right)] := coords[Index(Right)].(height := finalSize.height);
      assert coords[..] == PatchCache(old(coords[..]), finalSize, config.thumbThickness);
      PatchCacheLaysOut(old(coords[..]), finalSize, config.thumbThickness);

      thumbs[Index(Top)].Arrange(coords[Index(Top)]);
      thumbs[Index(Bottom)].Arrange(coords[Index(Bottom)]);
      thumbs[Index(Left)].Arrange(coords[Index(Left)]);
      thumbs[Index(Right)].Arrange(coords[Index(Right)]);
      return finalSize;
    }

    /** `OnDragStarted`: an empty hook; nothing changes. */
    method OnDragStarted(sender: Thumb, horizontalOffset: real, verticalOffset: real)
      ensures unchanged(element) && unchanged(coords) && unchanged(this)
    {
    }

    /**
     * `OnDragDelta`: whichever thumb sent it, the element's `Canvas.Top`
     * moves by the vertical change and `Canvas.Left` by the horizontal one.
     */
    method OnDragDelta(sender: Thumb, horizontalChange: real, verticalChange: real)
      modifies element
      ensures element.Position() == Drag.Moved(old(element.Position()), Drag.Delta(horizontalChange, verticalChange))
    {
      element.top := element.top + verticalChange;
      element.left := element.left + horizontalChange;
    }

    /** `OnDragCompleted`: an empty hook; nothing changes. */
    method OnDragCompleted(sender: Thumb, horizontalChange: real, verticalChange: real, canceled: bool)
      ensures unchanged(element) && unchanged(coords) && unchanged(this)
    {
    }
  }
}
