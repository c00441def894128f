/**
 * The flip buttons of a polygon drawing's HUD. A polygon's points are one
 * flat list `x0, y0, x1, y1, ...`; flipping horizontally reflects every x
 * (even position) in the drawing's width, flipping vertically every y (odd
 * position) in its height. Coordinates are modelled as integers.
 */
module Hud {
  import opened Wrappers

  /** Axis of a flip: the parity of the positions it rewrites. */
  datatype Axis = Horizontal | Vertical

  function Parity(axis: Axis): nat {
    if axis.Horizontal? then 0 else 1
  }

  /** The part of a drawing document the flip handlers read. */
  datatype Shape = Shape(width: int, height: int, points: seq<int>)

  /** A drawing as the handler sees it once the unlock step has resolved:
      `locked` is the lock state after the user answered the dialog. */
  datatype Drawing = Drawing(locked: bool, shape: Shape)

  function Abs(x: int): (r: nat)
    ensures r == x || r == -x
  {
    if x < 0 then -x else x
  }

  /** The extent a flip reflects in: `Math.abs` of the width or height. */
  function Extent(s: Shape, axis: Axis): nat {
    if axis.Horizontal? then Abs(s.width) else Abs(s.height)
  }

  /** `s` with every coordinate at a position of parity `parity` replaced by
      `extent` minus it. */
  function Reflected(s: seq<int>, extent: int, parity: nat): (r: seq<int>)
    requires parity < 2
    ensures |r| == |s|
  {
    seq(|s|, i requires 0 <= i < |s| => if i % 2 == parity then extent - s[i] else s[i])
  }

  /** Reflecting twice in the same extent gives the points back. */
  lemma ReflectedInvolution(s: seq<int>, extent: int, parity: nat)
    requires parity < 2
    ensures Reflected(Reflected(s, extent, parity), extent, parity) == s
  {
    var r := Reflected(s, extent, parity);
    var rr := Reflected(r, extent, parity);
    forall i | 0 <= i < |s|
      ensures rr[i] == s[i]
    {
      assert r[i] == (if i % 2 == parity then extent - s[i] else s[i]);
    }
  }

  /** A flip leaves the coordinates of the other axis alone, and the two
      flips can be done in either order. */
  lemma ReflectedAxesCommute(s: seq<int>, width: int, height: int)
    ensures Reflected(Reflected(s, width, 0), height, 1) == Reflected(Reflected(s, height, 1), width, 0)
  {
    var a, b := Reflected(s, width, 0), Reflected(s, height, 1);
    forall i | 0 <= i < |s|
      ensures Reflected(a, height, 1)[i] == Reflected(b, width, 0)[i]
    {
      assert a[i] == (if i % 2 == 0 then width - s[i] else s[i]);
      assert b[i] == (if i % 2 == 1 then height - s[i] else s[i]);
    }
  }

  /** The handlers' `for (let i = parity; i < points.length; i += 2)` loop,
      rewriting the cloned array in place. */
  method ReflectInPlace(points: array<int>, extent: int, parity: nat)
    requires parity < 2
    modifies points
    ensures points[..] == Reflected(old(points[..]), extent, parity)
  {
    ghost var before := points[..];
    var i := parity;
    while i < points.Length
      invariant parity <= i <= points.Length + 1 && i % 2 == parity
      invariant forall j :: 0 <= j < points.Length ==>
        points[j] == (if j < i && j % 2 == parity then extent - before[j] else before[j])
      decreases points.Length + 1 - i
    {
      points[i] := extent - points[i];
      i := i + 2;
    }
    assert points[..] == Reflected(before, extent, parity);
  }

  /** A click on a flip button: nothing when the drawing is still locked,
      otherwise the points of the `shape` update, computed on a clone of the
      document's points. */
  method OnFlip(doc: Drawing, axis: Axis) returns (update: Option<seq<int>>)
    ensures doc.locked <==> update.None?
    ensures update.Some? ==> update.value == Reflected(doc.shape.points, Extent(doc.shape, axis), Parity(axis))
    ensures update.Some? ==> |update.value| == |doc.shape.points|
    ensures update.Some? ==> forall i :: 0 <= i < |doc.shape.points| ==>
      update.value[i] == (if i % 2 == Parity(axis) then Extent(doc.shape, axis) - doc.shape.points[i]
                          else doc.shape.points[i])
  {
    if doc.locked {
      return None;
    }
    var extent := Extent(doc.shape, axis);
    var source := doc.shape.points;
    var points := new int[|source|](i requires 0 <= i < |source| => source[i]);
    assert points[..] == source;
    ReflectInPlace(points, extent, Parity(axis));
    update := Some(points[..]);
  }

  /** The document after its `shape.points` were updated. */
  function WithPoints(doc: Drawing, points: seq<int>): Drawing {
    doc.(shape := doc.shape.(points := points))
  }

  /** Flipping a drawing twice about the same axis restores its points: the
      width and height the second flip reads are unchanged by the first
      update. */
  lemma FlipTwiceRestores(doc: Drawing, axis: Axis)
    ensures var p := Parity(axis);
      var once := Reflected(doc.shape.points, Extent(doc.shape, axis), p);
      Reflected(once, Extent(WithPoints(doc, once).shape, axis), p) == doc.shape.points
  {
    ReflectedInvolution(doc.shape.points, Extent(doc.shape, axis), Parity(axis));
  }
}
