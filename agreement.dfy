/**
 * How the two adorner versions relate, and the documented scenarios run
 * through the model's contracts.
 */
module Agreement {
  import opened Wrappers
  import opened Geometry
  import opened ThumbCache
  import opened Visuals
  import opened Reposition
  import opened Repositioning
  import Drag

  /**
   * A layout pass of the current adorner at `finalSize` yields the older
   * adorner's rectangles exactly when the older one's `DesiredSize` is
   * `finalSize`; any other desired size places some thumb differently.
   */
  lemma {:induction false} AdornersAgree(newer: RepositionAdorner, older: RepositioningAdorner, finalSize: Size)
    requires newer.Valid()
    requires newer.config == older.config
    ensures PatchCache(newer.coords[..], finalSize, newer.config.thumbThickness) == older.ThumbRects()
      <==> older.desiredSize == finalSize
  {
    var t := newer.config.thumbThickness;
    PatchCacheLaysOut(newer.coords[..], finalSize, t);
    var patched, rs := ArrangedCache(finalSize, t), older.ThumbRects();
    if older.desiredSize == finalSize {
      forall i | 0 <= i < ThumbCount
        ensures patched[i] == rs[i]
      {
        assert i == Index(EdgeAt(i));
      }
    } else if older.desiredSize.width != finalSize.width {
      assert patched[Index(Top)].width != rs[Index(Top)].width;
    } else {
      assert patched[Index(Left)].height != rs[Index(Left)].height;
    }
  }

  /**
   * Both versions run a layout pass at the same final size; when the older
   * one was measured at that size, every thumb lands in the same place.
   */
  method ArrangeBoth(newer: RepositionAdorner, older: RepositioningAdorner, finalSize: Size)
    requires newer.Valid() && older.Valid()
    requires newer.config == older.config
    requires older.desiredSize == finalSize
    requires forall i, j :: 0 <= i < ThumbCount && 0 <= j < ThumbCount ==> newer.thumbs[i] != older.thumbs[j]
    modifies newer.coords, newer.thumbs[..], older.thumbs[..]
    ensures forall i :: 0 <= i < ThumbCount ==>
      newer.thumbs[i].arranged == older.thumbs[i].arranged == Some(ThumbRect(EdgeAt(i), finalSize, newer.config.thumbThickness))
  {
    var r1 := newer.ArrangeOverride(finalSize);
    var r2 := older.ArrangeOverride(finalSize);
    forall i | 0 <= i < ThumbCount
      ensures newer.thumbs[i].arranged == Some(ThumbRect(EdgeAt(i), finalSize, newer.config.thumbThickness))
    {
      assert i == Index(EdgeAt(i));
    }
  }

  /**
   * An element at (top 10, left 20) of size 100 by 50 with 8-unit thumbs:
   * the Right thumb is placed at (96, 0, 8, 50), and a drag of (5, -3) on it
   * moves the element to (top 7, left 25).
   */
  method DragRightThumbScenario()
  {
    var element := new AdornedElement(true, 10.0, 20.0);
    var created := RepositionAdorner.Create(element, DefaultConfig);
    assert created.Success?;
    var adorner := created.value;
    var size := adorner.ArrangeOverride(Size(100.0, 50.0));
    assert size == Size(100.0, 50.0);
    assert adorner.coords[Index(Right)] == Rect(96.0, 0.0, 8.0, 50.0);
    assert adorner.thumbs[Index(Right)].arranged == Some(Rect(96.0, 0.0, 8.0, 50.0));
    adorner.OnDragDelta(adorner.thumbs[Index(Right)], 5.0, -3.0);
    assert element.top == 7.0 && element.left == 25.0;
  }

  /**
   * The same element dragged by (5, -3) through any of the four thumbs,
   * with the gesture's start and end hooks, ends up in the same place.
   */
  method DragAnyThumbScenario(e: Edge)
  {
    var element := new AdornedElement(true, 10.0, 20.0);
    var created := RepositionAdorner.Create(element, DefaultConfig);
    var adorner := created.value;
    adorner.OnDragStarted(adorner.thumbs[Index(e)], 0.0, 0.0);
    adorner.OnDragDelta(adorner.thumbs[Index(e)], 5.0, -3.0);
    adorner.OnDragCompleted(adorner.thumbs[Index(e)], 5.0, -3.0, false);
    assert element.top == 7.0 && element.left == 25.0;
  }

  /**
   * An element whose parent is some other panel: both constructors fail
   * with the `adornedElement` argument error and the element is untouched.
   */
  method NotOnCanvasScenario()
  {
    var element := new AdornedElement(false, 10.0, 20.0);
    var created := RepositionAdorner.Create(element, DefaultConfig);
    assert created == Failure(NotOnCanvas);
    var createdOld := RepositioningAdorner.Create(element, DefaultConfig);
    assert createdOld == Failure(NotOnCanvas);
    assert element.top == 10.0 && element.left == 20.0;
  }

  /**
   * The input system delivering one gesture to a thumb: a start, the
   * deltas in order, an end. The element moves by the deltas' total.
   */
  method DeliverGesture(adorner: RepositionAdorner, sender: Thumb, deltas: seq<Drag.Delta>)
    modifies adorner.element
    ensures adorner.element.Position() == Drag.MovedAll(old(adorner.element.Position()), deltas)
    ensures adorner.element.Position() == Drag.Moved(old(adorner.element.Position()), Drag.Total(deltas))
  {
    ghost var start := adorner.element.Position();
    adorner.OnDragStarted(sender, 0.0, 0.0);
    for i := 0 to |deltas|
      invariant adorner.element.Position() == Drag.MovedAll(start, deltas[..i])
    {
      var d := deltas[i];
      adorner.OnDragDelta(sender, d.horizontal, d.vertical);
      assert deltas[..i + 1] == deltas[..i] + [d];
      Drag.MovedAllAppend(start, deltas[..i], [d]);
    }
    assert deltas[..|deltas|] == deltas;
    adorner.OnDragCompleted(sender, 0.0, 0.0, false);
    Drag.MovedAllIsTotal(start, deltas);
  }
}
