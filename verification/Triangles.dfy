/** What the even-odd test means for points: rays that hit edges, and the sides of a triangle. */
module Triangles {
  import opened Polygons

  /** The point a fraction `t` of the way from `a` to `b`. */
  function Along(a: Point, b: Point, t: real): Point {
    Point(a.x + t * (b.x - a.x), a.y + t * (b.y - a.y))
  }

  /** The ray from (x, y) to the right meets the segment; of the ends only one that is not above the
      other end's side counts, so that the meeting of two edges counts once. */
  ghost predicate Hit(x: real, y: real, a: Point, b: Point) {
    && ((a.y <= y < b.y) || (b.y <= y < a.y))
    && exists t: real :: 0.0 <= t <= 1.0 && Along(a, b, t).y == y && x < Along(a, b, t).x
  }

  function Before(polygon: seq<Point>, i: nat): Point
    requires i < |polygon|
  {
    polygon[(i + |polygon| - 1) % |polygon|]
  }

  ghost function EdgesHit(x: real, y: real, polygon: seq<Point>): set<nat> {
    set i: nat | i < |polygon| && Hit(x, y, Before(polygon, i), polygon[i])
  }

  /** Twice the signed area of the triangle `a`, `b`, (x, y): positive when the point is to the left of the
      way from `a` to `b`. */
  function Side(a: Point, b: Point, x: real, y: real): real {
    (b.x - a.x) * (y - a.y) - (b.y - a.y) * (x - a.x)
  }

  ghost predicate OnSegment(x: real, y: real, a: Point, b: Point) {
    exists t: real :: 0.0 <= t <= 1.0 && Along(a, b, t) == Point(x, y)
  }

  // ----- crossings

  lemma QuotientAbove(n: real, h: real, d: real)
    requires h > 0.0
    ensures d < n / h <==> d * h < n
  {
    var q := n / h;
    assert q * h == n;
    if d < q {
      assert (q - d) * h > 0.0;
    } else {
      assert (d - q) * h >= 0.0;
    }
  }

  /** An edge that leads upwards is crossed when the point is to its left. */
  lemma CrossedUpward(x: real, y: real, a: Point, b: Point)
    requires a.y <= y < b.y
    ensures Crosses(x, y, a, b) <==> Side(a, b, x, y) > 0.0
  {
    QuotientAbove((b.x - a.x) * (y - a.y), b.y - a.y, x - a.x);
  }

  lemma CrossedBySide(x: real, y: real, a: Point, b: Point)
    ensures Crosses(x, y, a, b) <==> (a.y <= y < b.y && Side(a, b, x, y) > 0.0) || (b.y <= y < a.y && Side(a, b, x, y) < 0.0)
  {
    hide CrossingX;
    if a.y <= y < b.y {
      CrossedUpward(x, y, a, b);
    } else if b.y <= y < a.y {
      CrossedUpward(x, y, b, a);
      CrossesSymmetric(x, y, a, b);
      SideTurns(a, b, x, y);
    }
  }

  lemma SideTurns(a: Point, b: Point, x: real, y: real)
    ensures Side(b, a, x, y) == -Side(a, b, x, y)
  {
  }

  /** The height decides where on the edge a point is. */
  lemma OnePointAtHeight(y: real, a: Point, b: Point, t: real)
    requires a.y != b.y && Along(a, b, t).y == y
    ensures Along(a, b, t).x == CrossingX(y, a, b)
  {
    var h, d := b.y - a.y, b.x - a.x;
    assert t * h == y - a.y;
    assert d * (y - a.y) == (t * d) * h;
    Cancels(t * d, h);
  }

  lemma Cancels(q: real, h: real)
    requires h != 0.0
    ensures q * h / h == q
  {
  }

  lemma Distributes(d: real, u: real)
    ensures (1.0 - u) * d == d + u * (-d)
  {
  }

  lemma AlongTurns(a: Point, b: Point, u: real)
    ensures Along(a, b, 1.0 - u) == Along(b, a, u)
  {
    Distributes(b.x - a.x, u);
    Distributes(b.y - a.y, u);
  }

  lemma DividesBack(v: real, h: real)
    requires h != 0.0
    ensures v / h * h == v
  {
  }

  lemma FractionUpward(y: real, a: Point, b: Point) returns (t: real)
    requires a.y <= y < b.y
    ensures 0.0 <= t <= 1.0 && Along(a, b, t).y == y
  {
    var h := b.y - a.y;
    t := (y - a.y) / h;
    QuotientBetween(y - a.y, h, 0.0, 1.0);
    DividesBack(y - a.y, h);
  }

  lemma Fraction(y: real, a: Point, b: Point) returns (t: real)
    requires (a.y <= y < b.y) || (b.y <= y < a.y)
    ensures 0.0 <= t <= 1.0 && Along(a, b, t).y == y
  {
    hide Along;
    if a.y <= y < b.y {
      t := FractionUpward(y, a, b);
    } else {
      var u := FractionUpward(y, b, a);
      AlongTurns(a, b, u);
      t := 1.0 - u;
    }
  }

  lemma CrossedIsHit(x: real, y: real, a: Point, b: Point)
    ensures Crosses(x, y, a, b) <==> Hit(x, y, a, b)
  {
    hide CrossingX, Along;
    if Straddles(y, a, b) {
      var t := Fraction(y, a, b);
      OnePointAtHeight(y, a, b, t);
      if Hit(x, y, a, b) {
        var u: real :| 0.0 <= u <= 1.0 && Along(a, b, u).y == y && x < Along(a, b, u).x;
        OnePointAtHeight(y, a, b, u);
      }
    }
  }

  /** The test says of a point that the ray from it to the right hits an odd number of edges. */
  lemma InsideCountsHits(x: real, y: real, polygon: seq<Point>)
    ensures Inside(x, y, polygon) <==> |polygon| >= 3 && |EdgesHit(x, y, polygon)| % 2 == 1
  {
    hide Crosses, Hit;
    var n := |polygon|;
    forall i: nat | i < n
      ensures EdgeCrossed(x, y, polygon, i) <==> Hit(x, y, Before(polygon, i), polygon[i])
    {
      CrossedIsHit(x, y, Before(polygon, i), polygon[i]);
    }
    assert CrossedEdges(x, y, polygon, n) == EdgesHit(x, y, polygon);
  }

  // ----- triangles

  /** The sides weigh the vertices to the point. */
  lemma Balance(a: Point, b: Point, c: Point, x: real, y: real)
    ensures Side(b, c, x, y) * (a.y - y) + Side(c, a, x, y) * (b.y - y) + Side(a, b, x, y) * (c.y - y) == 0.0
    ensures Side(b, c, x, y) * (a.x - x) + Side(c, a, x, y) * (b.x - x) + Side(a, b, x, y) * (c.x - x) == 0.0
  {
  }

  /** Between the heights of the ends, only points of the edge are on neither side of it. */
  lemma OnNeitherSide(a: Point, b: Point, x: real, y: real)
    requires ((a.y <= y < b.y) || (b.y <= y < a.y)) && Side(a, b, x, y) == 0.0
    ensures OnSegment(x, y, a, b)
  {
    var t := Fraction(y, a, b);
    var h := b.y - a.y;
    assert t * h == y - a.y;
    assert (t * (b.x - a.x)) * h == (x - a.x) * h;
    Cancels(t * (b.x - a.x), h);
    Cancels(x - a.x, h);
    assert Along(a, b, t) == Point(x, y);
  }

  lemma OnLevel(a: Point, b: Point, x: real, y: real)
    requires a.y == y == b.y && a.x < x < b.x
    ensures OnSegment(x, y, a, b) && OnSegment(x, y, b, a)
  {
    var t := (x - a.x) / (b.x - a.x);
    QuotientBetween(x - a.x, b.x - a.x, 0.0, 1.0);
    assert t * (b.x - a.x) == x - a.x;
    assert Along(a, b, t) == Point(x, y);
    assert (1.0 - t) * (a.x - b.x) == x - b.x;
    assert Along(b, a, 1.0 - t) == Point(x, y);
  }

  ghost predicate OffBoundary(a: Point, b: Point, c: Point, x: real, y: real) {
    !OnSegment(x, y, a, b) && !OnSegment(x, y, b, c) && !OnSegment(x, y, c, a)
  }

  /** The point is on the same side of all three edges, walking round. */
  predicate SidesAgree(a: Point, b: Point, c: Point, x: real, y: real) {
    var ab, bc, ca := Side(a, b, x, y), Side(b, c, x, y), Side(c, a, x, y);
    (ab > 0.0 && bc > 0.0 && ca > 0.0) || (ab < 0.0 && bc < 0.0 && ca < 0.0)
  }

  /** With `a` alone on its side of the horizontal, the edges at `a` decide. */
  lemma AloneAbove(a: Point, b: Point, c: Point, x: real, y: real)
    requires b.y <= y < a.y && c.y <= y && OffBoundary(a, b, c, x, y)
    ensures SidesAgree(a, b, c, x, y) <==> ((Side(a, b, x, y) < 0.0) != (Side(c, a, x, y) > 0.0))
  {
    hide Side, OnSegment;
    var ab, bc, ca := Side(a, b, x, y), Side(b, c, x, y), Side(c, a, x, y);
    if ab == 0.0 {
      OnNeitherSide(a, b, x, y);
    }
    if ca == 0.0 {
      OnNeitherSide(c, a, x, y);
    }
    Balance(a, b, c, x, y);
    if ab < 0.0 && ca < 0.0 {
      BaseFollows(-bc, -ca, -ab, a.y - y, b.y - y, c.y - y);
      if bc == 0.0 {
        LevelBase(a, b, c, x, y);
        OnLevel(c, b, x, y);
      }
    } else if ab > 0.0 && ca > 0.0 {
      BaseFollows(bc, ca, ab, a.y - y, b.y - y, c.y - y);
      if bc == 0.0 {
        LevelBase(a, b, c, x, y);
        OnLevel(b, c, x, y);
      }
    }
  }

  /** With `a` above and the others not, the weight of `a` has the sign of the other two, or these are level. */
  lemma BaseFollows(u: real, v: real, w: real, a: real, b: real, c: real)
    requires v > 0.0 && w > 0.0 && a > 0.0 && b <= 0.0 && c <= 0.0 && u * a + v * b + w * c == 0.0
    ensures u >= 0.0 && (u == 0.0 ==> b == c == 0.0)
  {
    SignOf(b, v);
    SignOf(c, w);
    SignOf(u, a);
  }

  /** When the base is on the level of the point, the sides at the apex say where on it the point is. */
  lemma LevelBase(a: Point, b: Point, c: Point, x: real, y: real)
    requires b.y == y == c.y < a.y
    ensures Side(a, b, x, y) < 0.0 <==> x < b.x
    ensures Side(a, b, x, y) > 0.0 <==> x > b.x
    ensures Side(c, a, x, y) < 0.0 <==> x > c.x
    ensures Side(c, a, x, y) > 0.0 <==> x < c.x
  {
    SignOf(b.x - x, a.y - y);
    SignOf(x - c.x, a.y - y);
    assert Side(a, b, x, y) == -((b.x - x) * (a.y - y));
    assert Side(c, a, x, y) == -((x - c.x) * (a.y - y));
  }

  lemma SignOf(v: real, h: real)
    requires h > 0.0
    ensures v * h > 0.0 <==> v > 0.0
    ensures v * h < 0.0 <==> v < 0.0
  {
  }

  lemma AloneBelow(a: Point, b: Point, c: Point, x: real, y: real)
    requires a.y <= y < b.y && y < c.y && OffBoundary(a, b, c, x, y)
    ensures SidesAgree(a, b, c, x, y) <==> ((Side(a, b, x, y) > 0.0) != (Side(c, a, x, y) < 0.0))
  {
    hide Side, OnSegment;
    var ab, bc, ca := Side(a, b, x, y), Side(b, c, x, y), Side(c, a, x, y);
    if ab == 0.0 {
      OnNeitherSide(a, b, x, y);
    }
    if ca == 0.0 {
      OnNeitherSide(c, a, x, y);
    }
    Balance(a, b, c, x, y);
    if ab < 0.0 && ca < 0.0 {
      ApexFollows(-bc, -ca, -ab, a.y - y, b.y - y, c.y - y);
    } else if ab > 0.0 && ca > 0.0 {
      ApexFollows(bc, ca, ab, a.y - y, b.y - y, c.y - y);
    }
  }

  /** With `a` not above and the others above, the weight of `a` has the sign of the other two. */
  lemma ApexFollows(u: real, v: real, w: real, a: real, b: real, c: real)
    requires v > 0.0 && w > 0.0 && a <= 0.0 && b > 0.0 && c > 0.0 && u * a + v * b + w * c == 0.0
    ensures u > 0.0
  {
    SignOf(b, v);
    SignOf(c, w);
    assert u * a < 0.0;
    if u <= 0.0 {
      Product(-u, -a);
    }
  }

  /** A point above or below the whole triangle is not on the same side of all edges. */
  lemma NotBetween(a: Point, b: Point, c: Point, x: real, y: real)
    requires (a.y <= y && b.y <= y && c.y <= y) || (a.y > y && b.y > y && c.y > y)
    ensures !SidesAgree(a, b, c, x, y)
  {
    hide Side;
    var ab, bc, ca := Side(a, b, x, y), Side(b, c, x, y), Side(c, a, x, y);
    Balance(a, b, c, x, y);
    AllOnLevel(a, b, x, y);
    if ab > 0.0 && bc > 0.0 && ca > 0.0 {
      WeightsOfOneSign(bc, ca, ab, a.y - y, b.y - y, c.y - y);
    } else if ab < 0.0 && bc < 0.0 && ca < 0.0 {
      WeightsOfOneSign(-bc, -ca, -ab, a.y - y, b.y - y, c.y - y);
    }
  }

  /** Positive weights balance heights of one sign only when all are zero. */
  lemma WeightsOfOneSign(u: real, v: real, w: real, a: real, b: real, c: real)
    requires u > 0.0 && v > 0.0 && w > 0.0 && u * a + v * b + w * c == 0.0
    requires (a <= 0.0 && b <= 0.0 && c <= 0.0) || (a > 0.0 && b > 0.0 && c > 0.0)
    ensures a == b == 0.0
  {
    SignOf(a, u);
    SignOf(b, v);
    SignOf(c, w);
  }

  lemma AllOnLevel(a: Point, b: Point, x: real, y: real)
    ensures a.y == y == b.y ==> Side(a, b, x, y) == 0.0
  {
  }

  lemma TriangleIsThreeEdges(a: Point, b: Point, c: Point, x: real, y: real)
    ensures Inside(x, y, [a, b, c]) <==> (Crosses(x, y, a, b) != Crosses(x, y, b, c)) != Crosses(x, y, c, a)
  {
    hide Crosses, Inside;
    InsideIsOdd(x, y, [a, b, c]);
    assert [a, b, c][..2] == [a, b] && [a, b][..1] == [a];
    Short(x, y, a);
    assert Odd(x, y, [a, b]) == Crosses(x, y, a, b);
  }

  /** Off its boundary, a triangle holds exactly the points on the same side of its three edges. */
  lemma TriangleInside(a: Point, b: Point, c: Point, x: real, y: real)
    requires OffBoundary(a, b, c, x, y)
    ensures Inside(x, y, [a, b, c]) <==> SidesAgree(a, b, c, x, y)
  {
    hide Crosses, Inside, Side, OnSegment, SidesAgree;
    TriangleIsThreeEdges(a, b, c, x, y);
    CrossedBySide(x, y, a, b);
    CrossedBySide(x, y, b, c);
    CrossedBySide(x, y, c, a);
    SidesTurn(a, b, c, x, y);
    SidesTurn(b, c, a, x, y);
    if b.y <= y < a.y && c.y <= y {
      AloneAbove(a, b, c, x, y);
    } else if c.y <= y < b.y && a.y <= y {
      AloneAbove(b, c, a, x, y);
    } else if a.y <= y < c.y && b.y <= y {
      AloneAbove(c, a, b, x, y);
    } else if a.y <= y < b.y && y < c.y {
      AloneBelow(a, b, c, x, y);
    } else if b.y <= y < c.y && y < a.y {
      AloneBelow(b, c, a, x, y);
    } else if c.y <= y < a.y && y < b.y {
      AloneBelow(c, a, b, x, y);
    } else {
      NotBetween(a, b, c, x, y);
    }
  }

  lemma SidesTurn(a: Point, b: Point, c: Point, x: real, y: real)
    ensures SidesAgree(a, b, c, x, y) <==> SidesAgree(b, c, a, x, y)
  {
  }

  // ----- any polygon

  /** The triangle from the first vertex to the edge that ends in vertex `i` holds the point. */
  predicate FanHolds(polygon: seq<Point>, i: nat, x: real, y: real)
    requires 1 < i < |polygon|
  {
    SidesAgree(polygon[0], polygon[i - 1], polygon[i], x, y)
  }

  ghost predicate OffFan(polygon: seq<Point>, i: nat, x: real, y: real)
    requires 1 < i < |polygon|
  {
    OffBoundary(polygon[0], polygon[i - 1], polygon[i], x, y)
  }

  function Holding(polygon: seq<Point>, n: nat, x: real, y: real): set<nat>
    requires n <= |polygon|
  {
    set i: nat | 1 < i < n && FanHolds(polygon, i, x, y)
  }

  /** Off the triangles' boundaries, a polygon of any shape holds exactly the points that an odd number
      of the triangles from its first vertex hold. */
  lemma {:induction false} InsideByTriangles(polygon: seq<Point>, x: real, y: real)
    requires |polygon| >= 3 && forall i: nat :: 1 < i < |polygon| ==> OffFan(polygon, i, x, y)
    ensures Inside(x, y, polygon) <==> |Holding(polygon, |polygon|, x, y)| % 2 == 1
    decreases |polygon|
  {
    hide Inside, SidesAgree, OffBoundary, Holding;
    var n := |polygon| - 1;
    var first, a, b := polygon[0], polygon[n - 1], polygon[n];
    assert OffFan(polygon, n, x, y);
    TriangleInside(first, a, b, x, y);
    OneMoreTriangle(polygon, n, x, y);
    if n == 2 {
      assert polygon == [first, a, b];
    } else {
      var init := polygon[..n];
      forall i: nat | 1 < i < n
        ensures OffFan(init, i, x, y)
      {
        assert OffFan(polygon, i, x, y);
      }
      InsideByTriangles(init, x, y);
      FirstDiagonalSplits(x, y, polygon, n - 1);
      assert polygon[n - 1..] + [first] == [a, b, first];
      RotationInvariant(x, y, [first, a, b], 1);
      assert [first, a, b][1..] + [first, a, b][..1] == [a, b, first];
    }
  }

  lemma OneMoreTriangle(polygon: seq<Point>, n: nat, x: real, y: real)
    requires 1 < n < |polygon|
    ensures |Holding(polygon, n + 1, x, y)| == |Holding(polygon[..n], n, x, y)| + if FanHolds(polygon, n, x, y) then 1 else 0
    ensures |Holding(polygon, 2, x, y)| == |Holding(polygon[..2], 2, x, y)| == 0
  {
    hide SidesAgree;
    var init := polygon[..n];
    forall i: nat | 1 < i < n
      ensures FanHolds(init, i, x, y) == FanHolds(polygon, i, x, y)
    {
    }
    var before := Holding(init, n, x, y);
    assert n !in before;
    assert Holding(polygon, n + 1, x, y) == before + if FanHolds(polygon, n, x, y) then {n} else {};
    assert Holding(polygon, 2, x, y) == {} == Holding(polygon[..2], 2, x, y);
  }
}
