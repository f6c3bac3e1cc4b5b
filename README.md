# Repositioning adorner, modelled in Dafny

MovablePanel is a small WPF program. It lets the user drag elements around a
`Canvas` by four invisible thumbs laid over the element's edges. This project
models the two adorner classes that implement this:

* `RepositionAdorner`, the current version. It keeps a four-slot `Rect[]` cache
  of thumb rectangles. The constructor seeds the cache, and every
  `ArrangeOverride` patches six fields of it in place from the final layout size.
  The model is a class over two arrays (module `Reposition`,
  `reposition_adorner.dfy`).
* `RepositioningAdorner`, the older version. It computes the same rectangles as
  pure expressions over `DesiredSize` (module `Repositioning`,
  `repositioning_adorner.dfy`).

Shared pieces:

* `geometry.dfy` (`Geometry`): the edges and the slot each one uses (`ThumbIndex`).
  It also holds sizes and rectangles, the half thickness `ThumbThickness / 2`, and
  the reference placement `ThumbRect`. That placement is characterised by
  `Straddles`: the thumb runs along the whole side, is `t` thick, and starts half
  a thickness before the edge line.
* `thumb_cache.dfy` (`ThumbCache`): the cache as a pure value. It defines the
  seeded cache, the six-field patch, and the lemmas about them. One lemma says a
  patch lays out the reference rectangles. Another says the latest patch wins.
* `drag.dfy` (`Drag`): element positions, drag deltas, and the laws of moving by
  a delta.
* `visuals.dfy` (`Visuals`): the configuration, with `ThumbThickness` = 8. It
  also holds the thumb (`Arrange` records its rectangle), the adorned element
  (`parentIsCanvas`, `Canvas.Top`, `Canvas.Left`) and the `ArgumentException`.
* `agreement.dfy` (`Agreement`): how the two versions relate, a gesture delivered
  to the drag handlers, and the documented scenarios. One scenario places an
  element of size 100×50 with 8-unit thumbs: the Right thumb lands at
  (96, 0, 8, 50), and a (5, −3) drag moves the element from (10, 20) to (7, 25).
  Another is construction over a non-`Canvas` parent.

Modelling decisions:

* `double` is modelled as `real`.
* The C# half thickness `ThumbThickness / 2` is an `int` division, so the model
  uses `(t / 2) as real`. The intended layout centres each thumb on its edge,
  an offset of `t/2`. The model follows the code's truncating division; the two
  agree for the configured thickness 8. `Geometry.ThumbCentre` states the consequence: for an odd `t`
  the thumb sits half a unit off-centre.
* The C# constructors throw `ArgumentException("…", "adornedElement")` when the
  parent is not a `Canvas`. In the model, each class's constructor requires a
  `Canvas` parent. A static `Create` performs the check and returns
  `Failure(NotOnCanvas)` or `Success(adorner)`.
* WPF's layout system writes `DesiredSize`. In the model it is a public field of
  the older adorner, and that adorner only reads it.
* Thumbs are `Thumb` objects. `UIElement.Arrange` is modelled as recording the
  rectangle in `arranged`.
* The WPF events `DragStarted`, `DragDelta` and `DragCompleted` are modelled as
  direct calls of the three handler methods.
* `ThumbCache.InitialCacheIsEmptyLayoutIff` records an observation. The seeded
  cache, with Bottom.Y = 0 and Right.X = 0, is not the layout of an empty element
  once `t >= 2`. The constructor's values for those two fields are never shown,
  because every layout pass overwrites them.

## Model

| member | source | states |
|---|---|---|
| Geometry.Index | MovablePanel/RepositionAdorner.cs:37-44 | each edge has one of the four thumb slots 0..3 |
| Geometry.EdgeAt | MovablePanel/RepositionAdorner.cs:37-44 | slot i holds the edge whose index is i (inverse of `Index`) |
| Geometry.EdgeAtIndex | MovablePanel/RepositionAdorner.cs:37-44 | `EdgeAt` undoes `Index`, so the slot numbering is a bijection |
| Geometry.HalfThickness | MovablePanel/RepositionAdorner.cs:128 | the half thickness is a whole number with 2h <= t < 2h + 2, and 2h = t exactly when t is even (C# integer division) |
| Geometry.ThumbRect | MovablePanel/RepositioningAdorner.cs:69-87 | each edge's thumb runs along the whole side, is t thick, and its start lies `HalfThickness(t)` before the edge line |
| Geometry.StraddlesOnlyThumbRect | MovablePanel/RepositioningAdorner.cs:69-87 | any rectangle that straddles an edge this way equals `ThumbRect`: the placement is unique |
| Geometry.ThumbCoversEdge | MovablePanel/RepositionAdorner.cs:127-132 | with positive thickness, the thumb's band across the edge contains the edge line |
| Geometry.ThumbCentre | MovablePanel/RepositionAdorner.cs:127-132 | the thumb's centre is on the edge for even t and half a unit past it for odd t |
| ThumbCache.InitialCache | MovablePanel/RepositionAdorner.cs:113-118 | the seeded cache is Top=(0,−h,0,t), Bottom=(0,0,0,t), Left=(−h,0,t,0), Right=(0,0,t,0); it has the fixed-field shape and zero lengths along the edges |
| ThumbCache.ArrangedCache | MovablePanel/RepositionAdorner.cs:127-132 | the reference layout keeps the constructor's values in the ten fields that are never written |
| ThumbCache.PatchCache | MovablePanel/RepositionAdorner.cs:127-132 | the six writes leave the other ten fields untouched and preserve the cache's shape in both directions |
| ThumbCache.PatchCacheLaysOut | MovablePanel/RepositionAdorner.cs:113-132 | on a cache of the constructor's shape, one patch at (W,H) yields Top=(0,−h,W,t), Bottom=(0,H−h,W,t), Left=(−h,0,t,H), Right=(W−h,0,t,H) |
| ThumbCache.PatchCacheLatestWins | MovablePanel/RepositionAdorner.cs:127-132 | an earlier arrange at another size leaves no trace after a later one |
| ThumbCache.PatchCacheIdempotent | MovablePanel/RepositionAdorner.cs:127-132 | arranging twice at the same size equals arranging once |
| ThumbCache.InitialCacheIsEmptyLayoutIff | MovablePanel/RepositionAdorner.cs:113-132 | the seeded cache equals the layout of a 0×0 element exactly when t < 2 |
| Drag.MovedByNoDelta | MovablePanel/RepositionAdorner.cs:189-194 | a zero delta leaves the position unchanged |
| Drag.MovedDisplacement | MovablePanel/RepositionAdorner.cs:189-194 | top moves by exactly the vertical change and left by exactly the horizontal change |
| Drag.MovedComposes | MovablePanel/RepositionAdorner.cs:189-194 | two deltas in turn equal one delta of their sum |
| Drag.MovedAllIsTotal | MovablePanel/RepositionAdorner.cs:189-194 | a gesture's deltas applied in turn move the element by their total |
| Drag.MovedAllAppend | MovablePanel/RepositionAdorner.cs:189-194 | applying a gesture in two parts equals applying it whole |
| Visuals.DefaultHalfThickness | MovablePanel/RepositionAdorner.cs:21 | the configured thickness 8 gives a half offset of 4 |
| Visuals.Thumb.constructor | MovablePanel/RepositionAdorner.cs:156-170 | a newly created thumb has not yet been placed |
| Visuals.Thumb.Arrange | MovablePanel/RepositionAdorner.cs:135-138 | arranging a thumb records the rectangle it occupies |
| Reposition.RepositionAdorner.constructor | MovablePanel/RepositionAdorner.cs:88-119 | with a Canvas parent: four distinct fresh unplaced thumbs in Top, Bottom, Left, Right order, all four added as visual children, and the seeded cache |
| Reposition.RepositionAdorner.Create | MovablePanel/RepositionAdorner.cs:92-95 | fails exactly when the parent is not a Canvas, with the argument error naming `adornedElement`; otherwise a valid adorner with 4 children and the seeded cache |
| Reposition.RepositionAdorner.VisualChildrenCount | MovablePanel/RepositionAdorner.cs:76 | the child count is 4 |
| Reposition.RepositionAdorner.GetVisualChild | MovablePanel/RepositionAdorner.cs:146-149 | an index in 0..3 yields the thumb in that slot; any other index is the out-of-range error |
| Reposition.RepositionAdorner.ArrangeOverride | MovablePanel/RepositionAdorner.cs:123-141 | the new cache is the six-field patch of the old one and equals the reference layout of `finalSize`; each thumb is arranged into its cache slot; `finalSize` is returned; the invariant is kept |
| Reposition.RepositionAdorner.OnDragStarted | MovablePanel/RepositionAdorner.cs:178-181 | changes neither the element's position nor the cache |
| Reposition.RepositionAdorner.OnDragDelta | MovablePanel/RepositionAdorner.cs:189-194 | top += vertical change, left += horizontal change, whichever thumb sent it |
| Reposition.RepositionAdorner.OnDragCompleted | MovablePanel/RepositionAdorner.cs:202-205 | changes neither the element's position nor the cache |
| Repositioning.RepositioningAdorner.constructor | MovablePanel/RepositioningAdorner.cs:94-117 | with a Canvas parent: four distinct fresh unplaced thumbs in slot order, all four added as visual children |
| Repositioning.RepositioningAdorner.Create | MovablePanel/RepositioningAdorner.cs:98-101 | fails exactly when the parent is not a Canvas, with the argument error naming `adornedElement`; otherwise a valid adorner with 4 children |
| Repositioning.RepositioningAdorner.VisualChildrenCount | MovablePanel/RepositioningAdorner.cs:66 | the child count is 4 |
| Repositioning.RepositioningAdorner.GetVisualChild | MovablePanel/RepositioningAdorner.cs:134-137 | an index in 0..3 yields the thumb in that slot; any other index is the out-of-range error |
| Repositioning.RepositioningAdorner.TopThumbRect | MovablePanel/RepositioningAdorner.cs:69-72 | the Top rectangle straddles the top edge of the desired size |
| Repositioning.RepositioningAdorner.BottomThumbRect | MovablePanel/RepositioningAdorner.cs:74-77 | the Bottom rectangle straddles the bottom edge of the desired size |
| Repositioning.RepositioningAdorner.LeftThumbRect | MovablePanel/RepositioningAdorner.cs:79-82 | the Left rectangle straddles the left edge of the desired size |
| Repositioning.RepositioningAdorner.RightThumbRect | MovablePanel/RepositioningAdorner.cs:84-87 | the Right rectangle straddles the right edge of the desired size |
| Repositioning.RepositioningAdorner.ThumbRects | MovablePanel/RepositioningAdorner.cs:69-87 | the four properties, in slot order, are the reference placement for `DesiredSize` |
| Repositioning.RepositioningAdorner.ArrangeOverride | MovablePanel/RepositioningAdorner.cs:121-129 | each thumb is placed from `DesiredSize`, independently of `finalSize`, which is returned unchanged |
| Repositioning.RepositioningAdorner.OnDragStarted | MovablePanel/RepositioningAdorner.cs:162-165 | changes nothing |
| Repositioning.RepositioningAdorner.OnDragDelta | MovablePanel/RepositioningAdorner.cs:169-174 | top += vertical change, left += horizontal change, independent of the sending thumb |
| Repositioning.RepositioningAdorner.OnDragCompleted | MovablePanel/RepositioningAdorner.cs:178-181 | changes nothing |
| Agreement.AdornersAgree | MovablePanel/RepositioningAdorner.cs:121-129 | the current adorner's cache after arranging at `finalSize` equals the older adorner's rectangles if and only if its `DesiredSize` is `finalSize` (the current version at MovablePanel/RepositionAdorner.cs:127-132) |
| Agreement.ArrangeBoth | MovablePanel/RepositionAdorner.cs:123-141 | when `DesiredSize == finalSize`, one layout pass of each version places every pair of corresponding thumbs at the same reference rectangle |
| Agreement.DeliverGesture | MovablePanel/RepositionAdorner.cs:165-167 | a start, a sequence of deltas and an end delivered to the handlers move the element by the deltas' total |

## Left out

- Reposition.RepositionAdorner.Create: the contract cannot say that no thumb or cache is allocated on failure, because Dafny has no clause for "allocates nothing". The body returns the error before any allocation.
- Repositioning.RepositioningAdorner.Create: same as above.
- IEEE `double` behaviour (rounding, NaN from an unset `Canvas.Top`/`Canvas.Left`, infinities): sizes and positions are `real`.
- Thumb styling (`Cursor`, `Background`, `Opacity`, and the `ThumbOpacity`/`ThumbColor` settings): constants with no behaviour. Only `ThumbThickness` is kept.
- The event subscriptions in `CreateRepositionThumb`: delegate wiring is WPF machinery. The handlers are called directly; `Agreement.DeliverGesture` is the stand-in for the input system.
- The `adornedElement as FrameworkElement` null path: the element is always a `FrameworkElement` here.
- WPF's `Adorner` base, `VisualCollection`, adorner layers, hit-testing, and how `DesiredSize` is measured.
- The two identical `RepositioningAdornerConfig` classes (one in each source file) are modelled once as `Visuals.AdornerConfig`.
- MovablePanel/MainWindow.xaml.cs (window start-up and adorner registration) is not part of this model.
- MovablePanel/RepositionThumb.cs is an empty `Thumb` subclass. It is represented by `Visuals.Thumb`.
