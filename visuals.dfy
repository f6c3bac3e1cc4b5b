/**
 * The collaborators both adorners work with: the adorner configuration, the
 * reposition thumb, the adorned element on its canvas, and the error the
 * constructors raise.
 */
module Visuals {
  import opened Geometry
  import Drag
  import opened Wrappers

  /**
   * `RepositioningAdornerConfig`: only the thumb thickness has behaviour;
   * opacity and colour are styling.
   */
  datatype AdornerConfig = AdornerConfig(thumbThickness: nat)

  /** The configuration as the source builds it: thumbs 8 units thick. */
  const DefaultConfig: AdornerConfig := AdornerConfig(8)

  /** The default configuration offsets every thumb by 4 units. */
  lemma DefaultHalfThickness()
    ensures HalfThickness(DefaultConfig.thumbThickness) == 4.0
  {
  }

  /** `ArgumentException(message, paramName)`. */
  datatype ArgumentError = ArgumentError(message: string, paramName: string)

  /** What both constructors throw when the element is not a child of a `Canvas`. */
  const NotOnCanvas: ArgumentError :=
    ArgumentError("Adorned element must be the child of a Canvas", "adornedElement")

  /**
   * A `RepositionThumb`. Its only state here is the rectangle it was last
   * arranged into; `None` while no layout pass has placed it.
   */
  class Thumb {
    var arranged: Option<Rect>

    /** `CreateRepositionThumb`: a thumb that has not been placed yet. */
    constructor ()
      ensures arranged == None
    {
      arranged := None;
    }

    /** `UIElement.Arrange`: the thumb occupies `r`. */
    method Arrange(r: Rect)
      modifies this
      ensures arranged == Some(r)
    {
      arranged := Some(r);
    }
  }

  /**
   * The adorned `FrameworkElement`: whether its parent is a `Canvas`, and
   * its `Canvas.Top` and `Canvas.Left` attached properties.
   */
  class AdornedElement {
    const parentIsCanvas: bool
    var top: real
    var left: real

    constructor (parentIsCanvas: bool, top: real, left: real)
      ensures this.parentIsCanvas == parentIsCanvas
      ensures this.top == top && this.left == left
    {
      this.parentIsCanvas := parentIsCanvas;
      this.top := top;
      this.left := left;
    }

    function Position(): Drag.Position
      reads this
    {
      Drag.Position(top, left)
    }
  }
}
