/** The operator's tactical canvas: Fit All frames the swarm. */
module FitAll {
  import opened Domain

  function Min(a: real, b: real): real { if a <= b then a else b }
  function Max(a: real, b: real): real { if a >= b then a else b }

  /** Centre, scale and viewport. */
  datatype View = View(centerX: real, centerY: real, scale: real, vw: real, vh: real)

  /** Canvas y grows downward. */
  function WorldToCanvas(v: View, x: real, y: real): Point {
    Point((x - v.centerX) * v.scale + v.vw / 2.0, (v.centerY - y) * v.scale + v.vh / 2.0)
  }

  /** Within 0.45 of the viewport's width and height of its centre. */
  predicate NearCentre(p: Point, vw: real, vh: real) {
    && vw / 2.0 - 0.45 * vw <= p.x <= vw / 2.0 + 0.45 * vw
    && vh / 2.0 - 0.45 * vh <= p.y <= vh / 2.0 + 0.45 * vh
  }

  datatype Box = Box(minX: real, maxX: real, minY: real, maxY: real)

  ghost predicate Contains(b: Box, ps: seq<Point>) {
    forall i | 0 <= i < |ps| :: b.minX <= ps[i].x <= b.maxX && b.minY <= ps[i].y <= b.maxY
  }

  /** Each side of the box goes through some point. */
  ghost predicate Touches(b: Box, ps: seq<Point>) {
    && (exists i :: 0 <= i < |ps| && ps[i].x == b.minX) && (exists i :: 0 <= i < |ps| && ps[i].x == b.maxX)
    && (exists i :: 0 <= i < |ps| && ps[i].y == b.minY) && (exists i :: 0 <= i < |ps| && ps[i].y == b.maxY)
  }

  predicate Within(limit: real, p: Point) {
    -limit <= p.x <= limit && -limit <= p.y <= limit
  }

  /** The loop starts from the largest and the smallest coordinate there is. */
  method BoundingBox(limit: real, ps: seq<Point>) returns (b: Box)
    requires ps != [] && forall i | 0 <= i < |ps| :: Within(limit, ps[i])
    ensures Contains(b, ps) && Touches(b, ps)
  {
    b := Box(limit, -limit, limit, -limit);
    for i := 0 to |ps|
      invariant i == 0 ==> b == Box(limit, -limit, limit, -limit)
      invariant i > 0 ==> Contains(b, ps[..i]) && Touches(b, ps[..i])
    {
      ghost var before, was := b, ps[..i];
      b := Box(Min(b.minX, ps[i].x), Max(b.maxX, ps[i].x), Min(b.minY, ps[i].y), Max(b.maxY, ps[i].y));
      assert Within(limit, ps[i]);
      assert ps[..i + 1] == was + [ps[i]];
      if i == 0 {
        assert ps[..1][0].x == b.minX == b.maxX && ps[..1][0].y == b.minY == b.maxY;
      } else {
        TouchesMore(before, b, was, ps[i]);
      }
    }
    assert ps[..|ps|] == ps;
  }

  lemma {:induction false} TouchesMore(before: Box, b: Box, ps: seq<Point>, p: Point)
    requires Touches(before, ps)
    requires b == Box(Min(before.minX, p.x), Max(before.maxX, p.x), Min(before.minY, p.y), Max(before.maxY, p.y))
    ensures Touches(b, ps + [p])
  {
    var more := ps + [p];
    assert more[|ps|] == p;
    var i :| 0 <= i < |ps| && ps[i].x == before.minX; assert more[i] == ps[i];
    var j :| 0 <= j < |ps| && ps[j].x == before.maxX; assert more[j] == ps[j];
    var k :| 0 <= k < |ps| && ps[k].y == before.minY; assert more[k] == ps[k];
    var l :| 0 <= l < |ps| && ps[l].y == before.maxY; assert more[l] == ps[l];
    assert more[if b.minX == p.x then |ps| else i].x == b.minX;
    assert more[if b.maxX == p.x then |ps| else j].x == b.maxX;
    assert more[if b.minY == p.y then |ps| else k].y == b.minY;
    assert more[if b.maxY == p.y then |ps| else l].y == b.maxY;
  }

  /** The view Fit All chooses for a box: centred, nine tenths of the tighter fit, a side counting at least 1. */
  function Fit(b: Box, vw: real, vh: real): View {
    var width, height := Max(b.maxX - b.minX, 1.0), Max(b.maxY - b.minY, 1.0);
    View((b.minX + b.maxX) / 2.0, (b.minY + b.maxY) / 2.0, Min(vw / width, vh / height) * 0.9, vw, vh)
  }

  class RobotViewModel {
    var x: real
    var y: real
    var canvasX: real
    var canvasY: real

    function World(): Point
      reads this
    {
      Point(x, y)
    }
  }

  class MainViewModel {
    /** The largest coordinate the world type can hold. */
    const limit: real
    var robots: seq<RobotViewModel>
    var centerX: real
    var centerY: real
    var scale: real
    var vw: real
    var vh: real

    constructor (limit: real)
      ensures this.limit == limit && robots == [] && CurrentView() == View(300.0, 0.0, 0.6, 800.0, 450.0)
    {
      this.limit, robots := limit, [];
      centerX, centerY, scale, vw, vh := 300.0, 0.0, 0.6, 800.0, 450.0;
    }

    function CurrentView(): View
      reads this
    {
      View(centerX, centerY, scale, vw, vh)
    }

    function Swarm(): (ps: seq<Point>)
      reads this, robots
      ensures |ps| == |robots| && forall i | 0 <= i < |ps| :: ps[i] == robots[i].World()
    {
      seq(|robots|, i requires 0 <= i < |robots| reads this, robots => robots[i].World())
    }

    /** Every robot drawn where the view puts it. */
    ghost predicate Drawn(count: nat)
      requires count <= |robots|
      reads this, robots
    {
      forall j | 0 <= j < count ::
        Point(robots[j].canvasX, robots[j].canvasY) == WorldToCanvas(CurrentView(), robots[j].x, robots[j].y)
    }

    method Redraw()
      modifies robots`canvasX, robots`canvasY
      ensures Drawn(|robots|)
    {
      for i := 0 to |robots|
        invariant Drawn(i)
      {
        var p := WorldToCanvas(CurrentView(), robots[i].x, robots[i].y);
        robots[i].canvasX, robots[i].canvasY := p.x, p.y;
      }
    }

    /**
     After Fit All every robot is drawn where the new view puts it, within 0.45 of the viewport's width and height of
     its centre; with no robots nothing changes.
     */
    method FitAll()
      requires vw > 0.0 && vh > 0.0
      requires forall i | 0 <= i < |robots| :: Within(limit, robots[i].World())
      modifies `centerX, `centerY, `scale
      modifies robots`canvasX, robots`canvasY
      ensures robots == [] ==> CurrentView() == old(CurrentView())
      ensures robots != [] ==>
        exists b :: Contains(b, old(Swarm())) && Touches(b, old(Swarm())) && CurrentView() == Fit(b, vw, vh)
      ensures Drawn(|robots|) && forall i | 0 <= i < |robots| ::
        NearCentre(Point(robots[i].canvasX, robots[i].canvasY), vw, vh)
    {
      hide WorldToCanvas, NearCentre, Contains, Touches;
      if robots == [] { return; }
      var ps := Swarm();
      var b := BoundingBox(limit, ps);
      var width, height := Max(b.maxX - b.minX, 1.0), Max(b.maxY - b.minY, 1.0);
      scale := Min(vw / width, vh / height) * 0.9;
      centerX := (b.minX + b.maxX) / 2.0;
      centerY := (b.minY + b.maxY) / 2.0;
      assert CurrentView() == Fit(b, vw, vh);
      Redraw();
      hide Fit;
      forall i | 0 <= i < |robots|
        ensures NearCentre(Point(robots[i].canvasX, robots[i].canvasY), vw, vh)
      {
        FitContains(b, ps, i, vw, vh);
      }
    }
  }

  /** A distance of at most half the width, scaled, is at most 0.45 of the viewport side the width was fitted to. */
  lemma {:induction false} ScaledWithin(d: real, width: real, scale: real, side: real)
    requires width > 0.0 && scale > 0.0 && scale * width <= 0.9 * side && -width / 2.0 <= d <= width / 2.0
    ensures -0.45 * side <= d * scale <= 0.45 * side
  {
    assert (width / 2.0 - d) * scale >= 0.0;
    assert (d + width / 2.0) * scale >= 0.0;
    assert width / 2.0 * scale == scale * width / 2.0;
  }

  lemma {:induction false} FitScale(b: Box, vw: real, vh: real)
    requires vw > 0.0 && vh > 0.0
    ensures var v := Fit(b, vw, vh);
      var width, height := Max(b.maxX - b.minX, 1.0), Max(b.maxY - b.minY, 1.0);
      && v.scale > 0.0 && v.scale * width <= 0.9 * vw && v.scale * height <= 0.9 * vh
      && (v.scale * width == 0.9 * vw || v.scale * height == 0.9 * vh)
      && v.vw == vw && v.vh == vh && v.centerX == (b.minX + b.maxX) / 2.0 && v.centerY == (b.minY + b.maxY) / 2.0
  {
    var width, height := Max(b.maxX - b.minX, 1.0), Max(b.maxY - b.minY, 1.0);
    Quotient(vw, width);
    Quotient(vh, height);
    var q := Min(vw / width, vh / height);
    Ordered(q, vw / width, width);
    Ordered(q, vh / height, height);
    assert q * 0.9 * width == 0.9 * (q * width);
    assert q * 0.9 * height == 0.9 * (q * height);
  }

  lemma {:induction false} Quotient(a: real, b: real)
    requires a > 0.0 && b > 0.0
    ensures a / b > 0.0 && a / b * b == a
  {
  }

  lemma {:induction false} Ordered(a: real, b: real, c: real)
    requires a <= b && c > 0.0
    ensures a * c <= b * c
  {
  }

  lemma {:induction false} FitContains(b: Box, ps: seq<Point>, i: int, vw: real, vh: real)
    requires Contains(b, ps) && 0 <= i < |ps| && vw > 0.0 && vh > 0.0
    ensures NearCentre(WorldToCanvas(Fit(b, vw, vh), ps[i].x, ps[i].y), vw, vh)
  {
    hide Fit;
    var v := Fit(b, vw, vh);
    FitScale(b, vw, vh);
    ScaledWithin(ps[i].x - v.centerX, Max(b.maxX - b.minX, 1.0), v.scale, vw);
    ScaledWithin(v.centerY - ps[i].y, Max(b.maxY - b.minY, 1.0), v.scale, vh);
  }

  /**
   The scale is the largest that fits: a scale draws nine tenths of the viewport or less, across and down, a side of the
   box counting at least 1, if and only if it is at most the one chosen.
   */
  lemma {:induction false} FitIsLargest(b: Box, vw: real, vh: real, s: real)
    requires vw > 0.0 && vh > 0.0
    ensures var width, height := Max(b.maxX - b.minX, 1.0), Max(b.maxY - b.minY, 1.0);
      s <= Fit(b, vw, vh).scale <==> s * width <= 0.9 * vw && s * height <= 0.9 * vh
  {
    hide Fit;
    var v, width, height := Fit(b, vw, vh), Max(b.maxX - b.minX, 1.0), Max(b.maxY - b.minY, 1.0);
    FitScale(b, vw, vh);
    Compare(s, v.scale, width);
    Compare(s, v.scale, height);
  }

  lemma {:induction false} Compare(a: real, b: real, c: real)
    requires c > 0.0
    ensures a <= b <==> a * c <= b * c
  {
    if a > b { assert (a - b) * c > 0.0; } else { assert (b - a) * c >= 0.0; }
  }

  /** The canvas is a scaled map: east is right, north is up, and the view's centre is the middle of the viewport. */
  lemma {:induction false} CanvasIsScaledMap(v: View, a: Point, b: Point)
    ensures var p, q := WorldToCanvas(v, a.x, a.y), WorldToCanvas(v, b.x, b.y);
      && q.x - p.x == v.scale * (b.x - a.x) && q.y - p.y == -(v.scale * (b.y - a.y))
      && (a == Point(v.centerX, v.centerY) ==> p == Point(v.vw / 2.0, v.vh / 2.0))
  {
    Difference(b.x, a.x, v.centerX, v.scale);
    Difference(v.centerY - b.y, v.centerY - a.y, 0.0, v.scale);
    assert (v.centerY - b.y) - (v.centerY - a.y) == -(b.y - a.y);
    Negated(v.scale, b.y - a.y);
    if a == Point(v.centerX, v.centerY) { assert 0.0 * v.scale == 0.0; }
  }

  lemma {:induction false} Negated(s: real, d: real)
    ensures s * -d == -(s * d)
  {
  }

  /** Drawn exactly nine tenths of the viewport apart, across or down. */
  ghost predicate Spans(v: View, a: Point, b: Point) {
    var p, q := WorldToCanvas(v, a.x, a.y), WorldToCanvas(v, b.x, b.y);
    q.x - p.x == 0.9 * v.vw || q.y - p.y == 0.9 * v.vh
  }

  lemma {:induction false} SpansAcross(v: View, a: Point, b: Point)
    requires v.scale * (b.x - a.x) == 0.9 * v.vw
    ensures Spans(v, a, b)
  {
    Difference(b.x, a.x, v.centerX, v.scale);
  }

  lemma {:induction false} SpansDown(v: View, a: Point, b: Point)
    requires v.scale * (a.y - b.y) == 0.9 * v.vh
    ensures Spans(v, a, b)
  {
    Difference(v.centerY - b.y, v.centerY - a.y, 0.0, v.scale);
  }

  lemma {:induction false} Difference(a: real, b: real, c: real, s: real)
    ensures (a - c) * s - (b - c) * s == s * (a - b)
  {
  }

  /**
   The fit is tight: when the swarm is at least 1 wide and 1 high, two robots are drawn exactly nine tenths of the
   viewport apart, across or down. No larger scale would contain it.
   */
  lemma {:induction false} FitIsTight(b: Box, ps: seq<Point>, vw: real, vh: real)
    requires Contains(b, ps) && Touches(b, ps) && vw > 0.0 && vh > 0.0
    requires b.maxX - b.minX >= 1.0 && b.maxY - b.minY >= 1.0
    ensures exists i, j :: 0 <= i < |ps| && 0 <= j < |ps| && Spans(Fit(b, vw, vh), ps[i], ps[j])
  {
    hide Spans, WorldToCanvas, Fit, Contains, Min;
    var v, width, height := Fit(b, vw, vh), b.maxX - b.minX, b.maxY - b.minY;
    FitScale(b, vw, vh);
    assert Max(width, 1.0) == width && Max(height, 1.0) == height;
    hide Max;
    if v.scale * width == 0.9 * vw {
      var i :| 0 <= i < |ps| && ps[i].x == b.minX;
      var j :| 0 <= j < |ps| && ps[j].x == b.maxX;
      SpansAcross(v, ps[i], ps[j]);
    } else {
      var k :| 0 <= k < |ps| && ps[k].y == b.minY;
      var l :| 0 <= l < |ps| && ps[l].y == b.maxY;
      SpansDown(v, ps[l], ps[k]);
    }
  }
}
