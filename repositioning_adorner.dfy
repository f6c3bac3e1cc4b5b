/**
 * `RepositioningAdorner`, the older variant: the same four thumbs and drag
 * handlers, but the thumb rectangles are computed afresh from the adorner's
 * `DesiredSize` on every layout pass instead of being cached.
 */
module Repositioning {
  import opened Wrappers
  import opened Geometry
  import opened Visuals
  import Drag

  class RepositioningAdorner {
    /** `AdornedElement`, shared with the hosting canvas. */
    const element: AdornedElement
    /** `_config`. */
    const config: AdornerConfig
    /** `_repositionThumbs`, indexed by `Geometry.Index`. */
    const thumbs: array<Thumb>
    /** `_visualChildren`: the thumbs in the order they were added. */
    var visualChildren: seq<Thumb>
    /**
     * `DesiredSize`, which the layout system's measure pass writes; the
     * adorner itself only reads it.
     */
    var desiredSize: Size

    /** Four distinct thumbs, all of them visual children in slot order. */
    ghost predicate Valid()
      reads this, thumbs
    {
      && thumbs.Length == ThumbCount
      && (forall i, j :: 0 <= i < j < ThumbCount ==> thumbs[i] != thumbs[j])
      && visualChildren == thumbs[..]
    }

    /**
     * The constructor once the `Canvas` check has passed: four fresh
     * thumbs, each added to the visual children. `DesiredSize` starts at
     * zero until the element is measured.
     */
    constructor (adornedElement: AdornedElement, adornerConfig: AdornerConfig)
      requires adornedElement.parentIsCanvas
      ensures Valid()
      ensures element == adornedElement && config == adornerConfig
      ensures fresh(thumbs)
      ensures forall i :: 0 <= i < ThumbCount ==> fresh(thumbs[i]) && thumbs[i].arranged == None
      ensures |visualChildren| == ThumbCount
      ensures desiredSize == Size(0.0, 0.0)
    {
      element := adornedElement;
      config := adornerConfig;
      var top := new Thumb();
      var bottom := new Thumb();
      var left := new Thumb();
      var right := new Thumb();
      thumbs := new Thumb[ThumbCount] [top, bottom, left, right];
      visualChildren := [];
      desiredSize := Size(0.0, 0.0);
      new;
      for i := 0 to ThumbCount
        modifies this
        invariant visualChildren == thumbs[..i]
        invariant desiredSize == Size(0.0, 0.0)
      {
        visualChildren := visualChildren + [thumbs[i]];
      }
    }

    /**
     * The checked construction: fails with the `adornedElement` argument
     * error unless the element's parent is a `Canvas`.
     */
    static method Create(adornedElement: AdornedElement, adornerConfig: AdornerConfig)
      returns (r: Result<RepositioningAdorner, ArgumentError>)
      ensures r.Failure? <==> !adornedElement.parentIsCanvas
      ensures r.Failure? ==> r.error == NotOnCanvas && r.error.paramName == "adornedElement"
      ensures r.Success? ==>
        && fresh(r.value) && r.value.Valid() && fresh(r.value.thumbs)
        && (forall i :: 0 <= i < ThumbCount ==> fresh(r.value.thumbs[i]) && r.value.thumbs[i].arranged == None)
        && r.value.desiredSize == Size(0.0, 0.0)
        && r.value.element == adornedElement && r.value.config == adornerConfig
        && r.value.VisualChildrenCount() == ThumbCount
    {
      if !adornedElement.parentIsCanvas {
        return Failure(NotOnCanvas);
      }
      var a := new RepositioningAdorner(adornedElement, adornerConfig);
      return Success(a);
    }

    /** `VisualChildrenCount`: always the four thumbs. */
    function VisualChildrenCount(): (n: nat)
      requires Valid()
      reads this, thumbs
      ensures n == ThumbCount
    {
      |visualChildren|
    }

    /**
     * `GetVisualChild`: the thumb in slot `index`; an index outside the
     * collection is the `ArgumentOutOfRangeException` of `VisualCollection`.
     */
    function GetVisualChild(index: int): (r: Option<Thumb>)
      requires Valid()
      reads this, thumbs
      ensures r.Some? <==> 0 <= index < ThumbCount
      ensures r.Some? ==> r.value == thumbs[index]
    {
      if 0 <= index < |visualChildren| then Some(visualChildren[index]) else None
    }

    /** `TopThumbRect`: across the top edge of the desired size. */
    function TopThumbRect(): (r: Rect)
      reads this
      ensures Straddles(r, Top, desiredSize, config.thumbThickness)
    {
      var t := config.thumbThickness;
      Rect(0.0, -HalfThickness(t), desiredSize.width, t as real)
    }

    /** `BottomThumbRect`: across the bottom edge of the desired size. */
    function BottomThumbRect(): (r: Rect)
      reads this
      ensures Straddles(r, Bottom, desiredSize, config.thumbThickness)
    {
      var t := config.thumbThickness;
      Rect(0.0, desiredSize.height - HalfThickness(t), desiredSize.width, t as real)
    }

    /** `LeftThumbRect`: across the left edge of the desired size. */
    function LeftThumbRect(): (r: Rect)
      reads this
      ensures Straddles(r, Left, desiredSize, config.thumbThickness)
    {
      var t := config.thumbThickness;
      Rect(-HalfThickness(t), 0.0, t as real, desiredSize.height)
    }

    /** `RightThumbRect`: across the right edge of the desired size. */
    function RightThumbRect(): (r: Rect)
      reads this
      ensures Straddles(r, Right, desiredSize, config.thumbThickness)
    {
      var t := config.thumbThickness;
      Rect(desiredSize.width - HalfThickness(t), 0.0, t as real, desiredSize.height)
    }

    /** The four rectangles in slot order. */
    function ThumbRects(): (rs: seq<Rect>)
      reads this
      ensures |rs| == ThumbCount
      ensures forall e :: rs[Index(e)] == ThumbRect(e, desiredSize, config.thumbThickness)
    {
      var rs := [TopThumbRect(), BottomThumbRect(), LeftThumbRect(), RightThumbRect()];
      StraddlesOnlyThumbRect(rs[0], Top, desiredSize, config.thumbThickness);
      StraddlesOnlyThumbRect(rs[1], Bottom, desiredSize, config.thumbThickness);
      StraddlesOnlyThumbRect(rs[2], Left, desiredSize, config.thumbThickness);
      StraddlesOnlyThumbRect(rs[3], Right, desiredSize, config.thumbThickness);
      rs
    }

    /**
     * `ArrangeOverride`: place each thumb from `DesiredSize`; `finalSize`
     * plays no part in the placement and is returned unchanged.
     */
    method ArrangeOverride(finalSize: Size) returns (r: Size)
      requires Valid()
      modifies thumbs[..]
      ensures Valid()
      ensures r == finalSize
      ensures forall i :: 0 <= i < ThumbCount ==> thumbs[i].arranged == Some(ThumbRects()[i])
    {
      thumbs[Index(Top)].Arrange(TopThumbRect());
      thumbs[Index(Bottom)].Arrange(BottomThumbRect());
      thumbs[Index(Left)].Arrange(LeftThumbRect());
      thumbs[Index(Right)].Arrange(RightThumbRect());
      return finalSize;
    }

    /** `OnDragStarted`: an empty hook; nothing changes. */
    method OnDragStarted(sender: Thumb, horizontalOffset: real, verticalOffset: real)
      ensures unchanged(element) && unchanged(this)
    {
    }

    /**
     * `OnDragDelta`: whichever thumb sent it, the element's `Canvas.Top`
     * moves by the vertical change and `Canvas.Left` by the horizontal one.
     */
    method OnDragDelta(sender: Thumb, horizontalChange: real, verticalChange: real)
      modifies element
      ensures element.Position() == Drag.Moved(old(element.Position()), Drag.Delta(horizontalChange, verticalChange))
    {
      element.top := element.top + verticalChange;
      element.left := element.left + horizontalChange;
    }

    /** `OnDragCompleted`: an empty hook; nothing changes. */
    method OnDragCompleted(sender: Thumb, horizontalChange: real, verticalChange: real, canceled: bool)
      ensures unchanged(element) && unchanged(this)
    {
    }
  }
}
