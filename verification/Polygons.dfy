/** The even-odd test of inspect_target.py over the reals. */
module Polygons {
  datatype Point = Point(x: real, y: real)

  /** The edge has one end above the horizontal through `y`, the other on or below it. */
  predicate Straddles(y: real, a: Point, b: Point) {
    (a.y > y) != (b.y > y)
  }

  function CrossingX(y: real, a: Point, b: Point): real
    requires a.y != b.y
  {
    (b.x - a.x) * (y - a.y) / (b.y - a.y) + a.x
  }

  /** The ray from (x, y) to the right crosses the edge. */
  predicate Crosses(x: real, y: real, a: Point, b: Point) {
    Straddles(y, a, b) && x < CrossingX(y, a, b)
  }

  /** Edge `i` of a closed polygon ends in vertex `i`. */
  predicate EdgeCrossed(x: real, y: real, polygon: seq<Point>, i: nat)
    requires i < |polygon|
  {
    Crosses(x, y, if i == 0 then polygon[|polygon| - 1] else polygon[i - 1], polygon[i])
  }

  function CrossedEdges(x: real, y: real, polygon: seq<Point>, n: nat): set<nat>
    requires n <= |polygon|
  {
    set i: nat | i < n && EdgeCrossed(x, y, polygon, i)
  }

  predicate OddlyMany(x: real, y: real, polygon: seq<Point>, n: nat)
    requires n <= |polygon|
  {
    |CrossedEdges(x, y, polygon, n)| % 2 == 1
  }

  /** The number of crossed edges is odd. */
  predicate Inside(x: real, y: real, polygon: seq<Point>) {
    |polygon| >= 3 && OddlyMany(x, y, polygon, |polygon|)
  }

  lemma OneMoreEdge(x: real, y: real, polygon: seq<Point>, k: nat)
    requires k < |polygon|
    ensures OddlyMany(x, y, polygon, k + 1) <==> OddlyMany(x, y, polygon, k) != EdgeCrossed(x, y, polygon, k)
  {
    hide Crosses;
    assert CrossedEdges(x, y, polygon, k + 1) == CrossedEdges(x, y, polygon, k) + (if EdgeCrossed(x, y, polygon, k) then {k} else {});
    assert k !in CrossedEdges(x, y, polygon, k);
  }

  lemma NoEdges(x: real, y: real, polygon: seq<Point>)
    ensures !OddlyMany(x, y, polygon, 0)
  {
    assert CrossedEdges(x, y, polygon, 0) == {};
  }

  method PointInPolygon(x: real, y: real, polygon: seq<Point>) returns (inside: bool)
    ensures inside <==> Inside(x, y, polygon)
  {
    inside := false;
    if |polygon| < 3 {
      return;
    }
    var previous := polygon[|polygon| - 1];
    NoEdges(x, y, polygon);
    for k := 0 to |polygon|
      invariant previous == if k == 0 then polygon[|polygon| - 1] else polygon[k - 1]
      invariant inside <==> OddlyMany(x, y, polygon, k)
    {
      hide OddlyMany, CrossingX;
      OneMoreEdge(x, y, polygon, k);
      var current := polygon[k];
      if (previous.y > y) != (current.y > y) {
        if x < CrossingX(y, previous, current) {
          inside := !inside;
        }
      }
      previous := current;
    }
  }

  // ----- open and closed chains of edges

  /** Whether an odd number of the edges along an open chain is crossed. */
  predicate Odd(x: real, y: real, chain: seq<Point>) {
    |chain| >= 2 && Crosses(x, y, chain[|chain| - 2], chain[|chain| - 1]) != Odd(x, y, chain[..|chain| - 1])
  }

  lemma {:induction false} OddCounts(x: real, y: real, polygon: seq<Point>, n: nat)
    requires 0 < n <= |polygon|
    ensures OddlyMany(x, y, polygon, n) <==> Crosses(x, y, polygon[|polygon| - 1], polygon[0]) != Odd(x, y, polygon[..n])
  {
    hide Crosses, OddlyMany;
    OneMoreEdge(x, y, polygon, n - 1);
    if n == 1 {
      NoEdges(x, y, polygon);
      Short(x, y, polygon[0]);
      assert polygon[..1] == [polygon[0]];
    } else {
      OddCounts(x, y, polygon, n - 1);
      assert polygon[..n][..n - 1] == polygon[..n - 1];
    }
  }

  /** A polygon is its chain of vertices, closed by the edge from the last to the first. */
  lemma InsideIsOdd(x: real, y: real, polygon: seq<Point>)
    requires |polygon| >= 3
    ensures Inside(x, y, polygon) <==> Crosses(x, y, polygon[|polygon| - 1], polygon[0]) != Odd(x, y, polygon)
  {
    hide Crosses, OddlyMany, Odd;
    OddCounts(x, y, polygon, |polygon|);
    assert polygon[..|polygon|] == polygon;
  }

  /** Chains add up, with the edge between them. */
  lemma {:induction false} OddConcat(x: real, y: real, a: seq<Point>, b: seq<Point>)
    requires |a| > 0 && |b| > 0
    ensures Odd(x, y, a + b) <==> (Odd(x, y, a) != Odd(x, y, b)) != Crosses(x, y, a[|a| - 1], b[0])
  {
    hide Crosses;
    var init := b[..|b| - 1];
    assert (a + b)[..|a + b| - 1] == a + init;
    if |b| == 1 {
      assert a + init == a;
    } else {
      OddConcat(x, y, a, init);
    }
  }

  // ----- the starting vertex does not matter

  lemma RotationInvariant(x: real, y: real, polygon: seq<Point>, k: nat)
    requires k <= |polygon|
    ensures Inside(x, y, polygon[k..] + polygon[..k]) <==> Inside(x, y, polygon)
  {
    hide Crosses, OddlyMany, Odd;
    var a, b := polygon[..k], polygon[k..];
    assert a + b == polygon;
    if k == 0 || k == |polygon| {
      assert b + a == polygon;
    } else if |polygon| >= 3 {
      InsideIsOdd(x, y, polygon);
      InsideIsOdd(x, y, b + a);
      OddConcat(x, y, a, b);
      OddConcat(x, y, b, a);
    }
  }

  // ----- nor does the direction

  lemma CrossingSymmetric(y: real, a: Point, b: Point)
    requires a.y != b.y
    ensures CrossingX(y, a, b) == CrossingX(y, b, a)
  {
    var h := b.y - a.y;
    var p, q := (b.x - a.x) * (y - a.y), (a.x - b.x) * (y - b.y);
    assert q / (a.y - b.y) == -q / h;
    assert p + q == (a.x - b.x) * (a.y - b.y) == (b.x - a.x) * h;
    Quotients(p, -q, h, b.x - a.x);
  }

  lemma Quotients(p: real, q: real, h: real, d: real)
    requires h != 0.0 && p - q == d * h
    ensures p / h == q / h + d
  {
    assert (q / h + d) * h == q + d * h == p;
  }

  lemma CrossesSymmetric(x: real, y: real, a: Point, b: Point)
    ensures Crosses(x, y, a, b) <==> Crosses(x, y, b, a)
  {
    hide CrossingX;
    if Straddles(y, a, b) {
      CrossingSymmetric(y, a, b);
    }
  }

  function Reversed(chain: seq<Point>): (r: seq<Point>)
    ensures |r| == |chain| && forall i :: 0 <= i < |r| ==> r[i] == chain[|chain| - 1 - i]
  {
    if |chain| == 0 then [] else [chain[|chain| - 1]] + Reversed(chain[..|chain| - 1])
  }

  lemma {:induction false} OddReversed(x: real, y: real, chain: seq<Point>)
    ensures Odd(x, y, Reversed(chain)) <==> Odd(x, y, chain)
  {
    hide Crosses;
    if |chain| >= 2 {
      var n := |chain| - 1;
      var last, init := [chain[n]], chain[..n];
      OddReversed(x, y, init);
      assert Reversed(chain) == last + Reversed(init);
      OddConcat(x, y, last, Reversed(init));
      CrossesSymmetric(x, y, chain[n], chain[n - 1]);
      assert !Odd(x, y, last);
    }
  }

  lemma ReversalInvariant(x: real, y: real, polygon: seq<Point>)
    ensures Inside(x, y, Reversed(polygon)) <==> Inside(x, y, polygon)
  {
    hide Crosses, OddlyMany, Odd;
    if |polygon| >= 3 {
      InsideIsOdd(x, y, polygon);
      InsideIsOdd(x, y, Reversed(polygon));
      OddReversed(x, y, polygon);
      CrossesSymmetric(x, y, polygon[|polygon| - 1], polygon[0]);
    }
  }

  // ----- cutting along a diagonal

  /** The diagonal is crossed by the ray in both parts or in neither. */
  lemma FirstDiagonalSplits(x: real, y: real, polygon: seq<Point>, j: nat)
    requires 2 <= j <= |polygon| - 2
    ensures Inside(x, y, polygon) <==> Inside(x, y, polygon[..j + 1]) != Inside(x, y, polygon[j..] + [polygon[0]])
  {
    hide Crosses, OddlyMany, Odd;
    var a, b, first := polygon[..j + 1], polygon[j..], [polygon[0]];
    var rest := polygon[j + 1..];
    assert polygon == a + rest && b == [polygon[j]] + rest;
    InsideIsOdd(x, y, polygon);
    InsideIsOdd(x, y, a);
    InsideIsOdd(x, y, b + first);
    OddConcat(x, y, a, rest);
    OddConcat(x, y, [polygon[j]], rest);
    OddConcat(x, y, b, first);
    Short(x, y, polygon[j]);
    Short(x, y, polygon[0]);
    CrossesSymmetric(x, y, polygon[0], polygon[j]);
  }

  lemma Short(x: real, y: real, p: Point)
    ensures !Odd(x, y, [p])
  {
  }

  /** Any diagonal between vertices that are not neighbours splits the polygon into two parts, of
      which exactly one holds each point inside, and none or both each point outside. */
  lemma DiagonalSplits(x: real, y: real, polygon: seq<Point>, i: nat, j: nat)
    requires i + 2 <= j < |polygon| && (i > 0 || j < |polygon| - 1)
    ensures Inside(x, y, polygon) <==> Inside(x, y, polygon[i..j + 1]) != Inside(x, y, polygon[j..] + polygon[..i + 1])
  {
    hide Inside;
    var turned := polygon[i..] + polygon[..i];
    RotationInvariant(x, y, polygon, i);
    FirstDiagonalSplits(x, y, turned, j - i);
    assert turned[..j - i + 1] == polygon[i..j + 1];
    assert turned[j - i..] + [turned[0]] == polygon[j..] + polygon[..i + 1];
  }

  // ----- the bounding box

  ghost predicate Within(polygon: seq<Point>, x0: real, x1: real, y0: real, y1: real) {
    forall p :: p in polygon ==> x0 <= p.x <= x1 && y0 <= p.y <= y1
  }

  lemma Product(a: real, b: real)
    requires a >= 0.0 && b >= 0.0
    ensures a * b >= 0.0
  {
  }

  /** The crossing lies between the ends of the edge. */
  lemma CrossingBetween(y: real, a: Point, b: Point, x0: real, x1: real)
    requires Straddles(y, a, b) && x0 <= a.x <= x1 && x0 <= b.x <= x1
    ensures x0 <= CrossingX(y, a, b) <= x1
  {
    if a.y > b.y {
      CrossingSymmetric(y, a, b);
      CrossingUpward(y, b, a, x0, x1);
    } else {
      CrossingUpward(y, a, b, x0, x1);
    }
  }

  lemma CrossingUpward(y: real, a: Point, b: Point, x0: real, x1: real)
    requires a.y <= y < b.y && x0 <= a.x <= x1 && x0 <= b.x <= x1
    ensures x0 <= CrossingX(y, a, b) <= x1
  {
    var h, u, v := b.y - a.y, y - a.y, b.y - y;
    Product(b.x - x0, u);
    Product(a.x - x0, v);
    Product(x1 - b.x, u);
    Product(x1 - a.x, v);
    var n := (b.x - a.x) * u;
    assert n + (a.x - x0) * h == (b.x - x0) * u + (a.x - x0) * v >= 0.0;
    assert n + (a.x - x1) * h == -((x1 - b.x) * u + (x1 - a.x) * v) <= 0.0;
    QuotientBetween(n, h, x0 - a.x, x1 - a.x);
  }

  lemma QuotientBetween(n: real, h: real, low: real, high: real)
    requires h > 0.0 && low * h <= n <= high * h
    ensures low <= n / h <= high
  {
  }

  /** To the right of all edges nothing is crossed. */
  lemma {:induction false} NothingCrossed(x: real, y: real, chain: seq<Point>, x0: real, x1: real, y0: real, y1: real)
    requires Within(chain, x0, x1, y0, y1) && (x >= x1 || y < y0 || y >= y1)
    ensures !Odd(x, y, chain)
  {
    hide Crosses;
    if |chain| >= 2 {
      var n := |chain| - 1;
      NothingCrossed(x, y, chain[..n], x0, x1, y0, y1);
      NotCrossed(x, y, chain[n - 1], chain[n], x0, x1, y0, y1);
    }
  }

  lemma NotCrossed(x: real, y: real, a: Point, b: Point, x0: real, x1: real, y0: real, y1: real)
    requires Within([a, b], x0, x1, y0, y1) && (x >= x1 || y < y0 || y >= y1)
    ensures !Crosses(x, y, a, b)
  {
    hide CrossingX;
    assert a in [a, b] && b in [a, b];
    if Straddles(y, a, b) {
      CrossingBetween(y, a, b, x0, x1);
    }
  }

  /** To the left of all edges, the edges crossed are those that straddle the horizontal: an odd
      number of them exactly when the ends of the chain are on different sides. */
  lemma {:induction false} LeftOfChain(x: real, y: real, chain: seq<Point>, x0: real, x1: real, y0: real, y1: real)
    requires |chain| > 0 && Within(chain, x0, x1, y0, y1) && x < x0
    ensures Odd(x, y, chain) <==> Straddles(y, chain[0], chain[|chain| - 1])
  {
    hide Crosses;
    if |chain| >= 2 {
      var n := |chain| - 1;
      LeftOfChain(x, y, chain[..n], x0, x1, y0, y1);
      LeftOfEdge(x, y, chain[n - 1], chain[n], x0, x1, y0, y1);
    }
  }

  lemma LeftOfEdge(x: real, y: real, a: Point, b: Point, x0: real, x1: real, y0: real, y1: real)
    requires Within([a, b], x0, x1, y0, y1) && x < x0
    ensures Crosses(x, y, a, b) <==> Straddles(y, a, b)
  {
    hide CrossingX;
    assert a in [a, b] && b in [a, b];
    if Straddles(y, a, b) {
      CrossingBetween(y, a, b, x0, x1);
    }
  }

  /** Points inside lie in the half-open bounding box. */
  lemma InsideIsInBox(x: real, y: real, polygon: seq<Point>, x0: real, x1: real, y0: real, y1: real)
    requires Within(polygon, x0, x1, y0, y1) && Inside(x, y, polygon)
    ensures x0 <= x < x1 && y0 <= y < y1
  {
    hide Crosses, OddlyMany, Odd;
    var n := |polygon| - 1;
    InsideIsOdd(x, y, polygon);
    if x >= x1 || y < y0 || y >= y1 {
      NothingCrossed(x, y, polygon, x0, x1, y0, y1);
      NotCrossed(x, y, polygon[n], polygon[0], x0, x1, y0, y1);
    } else if x < x0 {
      LeftOfChain(x, y, polygon, x0, x1, y0, y1);
      LeftOfEdge(x, y, polygon[n], polygon[0], x0, x1, y0, y1);
    }
  }

  /** For a rectangle the half-open box is all of it. */
  lemma RectangleIsItsBox(x: real, y: real, x0: real, x1: real, y0: real, y1: real)
    requires x0 < x1 && y0 < y1
    ensures Inside(x, y, [Point(x0, y0), Point(x1, y0), Point(x1, y1), Point(x0, y1)]) <==> x0 <= x < x1 && y0 <= y < y1
  {
    hide OddlyMany, Odd;
    var a, b, c, d := Point(x0, y0), Point(x1, y0), Point(x1, y1), Point(x0, y1);
    InsideIsOdd(x, y, [a, b, c, d]);
    assert [a, b, c, d] == [a, b] + [c, d];
    OddConcat(x, y, [a, b], [c, d]);
    assert [a, b] == [a] + [b] && [c, d] == [c] + [d];
    OddConcat(x, y, [a], [b]);
    OddConcat(x, y, [c], [d]);
    Short(x, y, a);
    Short(x, y, b);
    Short(x, y, c);
    Short(x, y, d);
    if Straddles(y, b, c) {
      CrossingBetween(y, b, c, x1, x1);
      CrossingBetween(y, d, a, x0, x0);
    }
  }
}
