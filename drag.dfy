/**
 * The element position the drag handlers update (WPF attached properties
 * `Canvas.Top` and `Canvas.Left`) and the deltas a `DragDelta` carries.
 */
module Drag {

  /** Absolute offsets of the adorned element on its canvas. */
  datatype Position = Position(top: real, left: real)

  /** `DragDeltaEventArgs`: pointer movement since the previous delta. */
  datatype Delta = Delta(horizontal: real, vertical: real)

  const NoDelta: Delta := Delta(0.0, 0.0)

  /** The position after one `OnDragDelta`: each offset moves by its change. */
  function Moved(p: Position, d: Delta): Position
  {
    Position(p.top + d.vertical, p.left + d.horizontal)
  }

  /** One delta with the movement of `d1` followed by `d2`. */
  function Combine(d1: Delta, d2: Delta): Delta
  {
    Delta(d1.horizontal + d2.horizontal, d1.vertical + d2.vertical)
  }

  /** The total movement of a gesture's deltas. */
  function Total(ds: seq<Delta>): Delta
  {
    if ds == [] then NoDelta else Combine(ds[0], Total(ds[1..]))
  }

  /** The position after the deltas of a gesture are applied one after another. */
  function MovedAll(p: Position, ds: seq<Delta>): Position
    decreases ds
  {
    if ds == [] then p else MovedAll(Moved(p, ds[0]), ds[1..])
  }

  /** A zero delta leaves the element where it is. */
  lemma MovedByNoDelta(p: Position)
    ensures Moved(p, NoDelta) == p
  {
  }

  /** A delta moves the element by exactly that delta and nothing else. */
  lemma MovedDisplacement(p: Position, d: Delta)
    ensures Moved(p, d).top - p.top == d.vertical
    ensures Moved(p, d).left - p.left == d.horizontal
  {
  }

  /** Two deltas compose additively. */
  lemma MovedComposes(p: Position, d1: Delta, d2: Delta)
    ensures Moved(Moved(p, d1), d2) == Moved(p, Combine(d1, d2))
  {
  }

  /** A whole gesture moves the element by the sum of its deltas. */
  lemma {:induction false} MovedAllIsTotal(p: Position, ds: seq<Delta>)
    ensures MovedAll(p, ds) == Moved(p, Total(ds))
    decreases ds
  {
    if ds != [] {
      MovedAllIsTotal(Moved(p, ds[0]), ds[1..]);
      MovedComposes(p, ds[0], Total(ds[1..]));
    }
  }

  /** Splitting a gesture in two and applying the parts in turn changes nothing. */
  lemma {:induction false} MovedAllAppend(p: Position, ds: seq<Delta>, es: seq<Delta>)
    ensures MovedAll(p, ds + es) == MovedAll(MovedAll(p, ds), es)
    decreases ds
  {
    if ds == [] {
      assert ds + es == es;
    } else {
      assert (ds + es)[1..] == ds[1..] + es;
      MovedAllAppend(Moved(p, ds[0]), ds[1..], es);
    }
  }
}
