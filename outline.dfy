/** The outline updateShape hands to LatheGeometry (src/lathe.js, lines
    94-99): the flattened shape points shifted so the start x is 0, with an
    axis point at the top y put in front and one at the bottom y put at the
    end, so that the revolved surface is closed on the axis at both ends. */
module Outline {
  import opened Numbers
  import opened Vectors

  /** points.map(p => new Vector2(p.x - startX, p.y)). */
  function Translate(ps: seq<Point2>, dx: real): (r: seq<Point2>)
    ensures |r| == |ps|
  {
    seq(|ps|, i requires 0 <= i < |ps| => Point2(ps[i].x - dx, ps[i].y))
  }

  /** points.map(p => p.y). */
  function Ys(ps: seq<Point2>): (r: seq<real>)
    ensures |r| == |ps|
    ensures forall i :: 0 <= i < |ps| ==> r[i] == ps[i].y
  {
    seq(|ps|, i requires 0 <= i < |ps| => ps[i].y)
  }

  /** Math.max(...points.map(p => p.y)): no point lies above it. */
  function TopY(ps: seq<Point2>): (r: real)
    requires |ps| > 0
    ensures forall i :: 0 <= i < |ps| ==> ps[i].y <= r
  {
    MaxOf(Ys(ps))
  }

  /** Math.min(...points.map(p => p.y)): no point lies below it. */
  function BottomY(ps: seq<Point2>): (r: real)
    requires |ps| > 0
    ensures forall i :: 0 <= i < |ps| ==> r <= ps[i].y
  {
    MinOf(Ys(ps))
  }

  /** points.push(new Vector2(0, bottomY)) after points.unshift(new Vector2(0, topY)):
      two points longer, starting and ending on the axis, top above bottom. */
  function Capped(ps: seq<Point2>): (r: seq<Point2>)
    requires |ps| > 0
    ensures |r| == |ps| + 2
    ensures r[0].x == 0.0 && r[|r| - 1].x == 0.0
    ensures r[|r| - 1].y <= r[0].y
  {
    assert BottomY(ps) <= ps[0].y <= TopY(ps);
    [Point2(0.0, TopY(ps))] + ps + [Point2(0.0, BottomY(ps))]
  }

  /** Shifting moves every x by the same amount and leaves every y alone, so
      it is undone by the opposite shift. */
  lemma TranslateRoundTrip(ps: seq<Point2>, dx: real)
    ensures Translate(Translate(ps, dx), -dx) == ps
    ensures Ys(Translate(ps, dx)) == Ys(ps)
  {
  }

  /** The start point (startX, y) of the flattened path becomes (0, y). */
  lemma StartOnAxis(ps: seq<Point2>, startX: real)
    requires |ps| > 0 && ps[0].x == startX
    ensures Translate(ps, startX)[0] == Point2(0.0, ps[0].y)
  {
  }

  /** topY is the largest and bottomY the smallest y of the points, both are
      attained, and so topY >= bottomY. */
  lemma {:induction false} Extremes(ps: seq<Point2>)
    requires |ps| > 0
    ensures forall i :: 0 <= i < |ps| ==> BottomY(ps) <= ps[i].y <= TopY(ps)
    ensures exists i :: 0 <= i < |ps| && ps[i].y == TopY(ps)
    ensures exists j :: 0 <= j < |ps| && ps[j].y == BottomY(ps)
    ensures BottomY(ps) <= TopY(ps)
  {
    var ys := Ys(ps);
    var i :| 0 <= i < |ys| && ys[i] == MaxOf(ys);
    var j :| 0 <= j < |ys| && ys[j] == MinOf(ys);
    assert ps[i].y == TopY(ps) && ps[j].y == BottomY(ps);
  }

  /** The capped outline: two points longer, first and last on the axis at
      the top and bottom y, with the points in between unchanged and lying
      between the two caps in height. */
  lemma {:induction false} CappedShape(ps: seq<Point2>)
    requires |ps| > 0
    ensures var o := Capped(ps);
      && |o| == |ps| + 2
      && o[0] == Point2(0.0, TopY(ps)) && o[|o| - 1] == Point2(0.0, BottomY(ps))
      && o[1..|o| - 1] == ps
      && (forall i :: 0 <= i < |o| ==> o[|o| - 1].y <= o[i].y <= o[0].y)
  {
    var o := Capped(ps);
    Extremes(ps);
    assert o[1..|o| - 1] == ps;
    forall i | 0 <= i < |o|
      ensures o[|o| - 1].y <= o[i].y <= o[0].y
    {
      if 0 < i < |o| - 1 {
        assert o[i] == ps[i - 1];
      }
    }
  }

  /** The caps of the shifted points are those of the points as flattened:
      shifting x does not move the top or the bottom. */
  lemma CapsIgnoreShift(ps: seq<Point2>, dx: real)
    requires |ps| > 0
    ensures TopY(Translate(ps, dx)) == TopY(ps)
    ensures BottomY(Translate(ps, dx)) == BottomY(ps)
  {
    TranslateRoundTrip(ps, dx);
  }
}
