/** Poses and paths of inspect_target.py: what is checked, and what the sampled check covers. */
module FlightPaths {
  import opened Wrappers
  import opened Polygons
  import Triangles

  datatype Pose = Pose(frame: string, x: real, y: real, z: real, yaw: Option<real>)

  datatype Bounds = Bounds(xMin: real, xMax: real, yMin: real, yMax: real, zMin: real, zMax: real)

  datatype Zone = Zone(id: string, zMin: real, zMax: real, polygon: seq<Point>)

  datatype Area = Area(bounds: Bounds, allowed: seq<Point>, noFly: seq<Zone>)

  /** A value, an `InspectionRejected` with its failure code, or any other exception. */
  datatype Try<+T> = Done(value: T) | Rejected(code: string) | Raised {
    predicate IsFailure() {
      !Done?
    }

    function PropagateFailure<U>(): Try<U>
      requires !Done?
    {
      if Rejected? then Rejected(code) else Raised
    }

    function Extract(): T
      requires Done?
    {
      value
    }
  }

  predicate InBounds(b: Bounds, p: Pose) {
    b.xMin <= p.x <= b.xMax && b.yMin <= p.y <= b.yMax && b.zMin <= p.z <= b.zMax
  }

  predicate InZone(zone: Zone, p: Pose) {
    zone.zMin <= p.z <= zone.zMax && Inside(p.x, p.y, zone.polygon)
  }

  /** Within the box and, if one is configured, the polygon. */
  predicate InArea(a: Area, p: Pose) {
    InBounds(a.bounds, p) && (a.allowed != [] ==> Inside(p.x, p.y, a.allowed))
  }

  predicate PoseOk(a: Area, p: Pose) {
    InArea(a, p) && forall k :: 0 <= k < |a.noFly| ==> !InZone(a.noFly[k], p)
  }

  /** The ray from the point to the right hits an odd number of edges. */
  ghost predicate OddHits(p: Pose, polygon: seq<Point>) {
    |polygon| >= 3 && |Triangles.EdgesHit(p.x, p.y, polygon)| % 2 == 1
  }

  /** A pose passes exactly when it is in the box, in the allowed polygon if there is one, and in no forbidden zone
      between its heights. */
  lemma PoseOkExactly(a: Area, p: Pose)
    ensures PoseOk(a, p) <==>
              && a.bounds.xMin <= p.x <= a.bounds.xMax && a.bounds.yMin <= p.y <= a.bounds.yMax && a.bounds.zMin <= p.z <= a.bounds.zMax
              && (a.allowed == [] || OddHits(p, a.allowed))
              && forall k :: 0 <= k < |a.noFly| ==> !(a.noFly[k].zMin <= p.z <= a.noFly[k].zMax && OddHits(p, a.noFly[k].polygon))
  {
    hide Inside, Triangles.EdgesHit;
    Triangles.InsideCountsHits(p.x, p.y, a.allowed);
    forall k | 0 <= k < |a.noFly|
      ensures InZone(a.noFly[k], p) <==> a.noFly[k].zMin <= p.z <= a.noFly[k].zMax && OddHits(p, a.noFly[k].polygon)
    {
      Triangles.InsideCountsHits(p.x, p.y, a.noFly[k].polygon);
    }
  }

  method ValidatePose(a: Area, p: Pose) returns (r: Try<()>)
    ensures r.Done? <==> PoseOk(a, p)
    ensures !r.Done? ==> r == Rejected(if InArea(a, p) then "TARGET_IN_NO_FLY_ZONE" else "OUT_OF_FLIGHT_AREA")
  {
    hide Inside;
    if !(a.bounds.xMin <= p.x <= a.bounds.xMax) || !(a.bounds.yMin <= p.y <= a.bounds.yMax) || !(a.bounds.zMin <= p.z <= a.bounds.zMax) {
      return Rejected("OUT_OF_FLIGHT_AREA");
    }
    if a.allowed != [] {
      var inside := PointInPolygon(p.x, p.y, a.allowed);
      if !inside {
        return Rejected("OUT_OF_FLIGHT_AREA");
      }
    }
    for k := 0 to |a.noFly|
      invariant forall i :: 0 <= i < k ==> !InZone(a.noFly[i], p)
    {
      if a.noFly[k].zMin <= p.z <= a.noFly[k].zMax {
        var inside := PointInPolygon(p.x, p.y, a.noFly[k].polygon);
        if inside {
          return Rejected("TARGET_IN_NO_FLY_ZONE");
        }
      }
    }
    r := Done(());
  }

  // ----- sampling

  const STEP := 0.05

  /** `math.hypot`, by what defines it. */
  ghost predicate IsHypot(hypot: (real, real) -> real) {
    forall a, b :: hypot(a, b) >= 0.0 && hypot(a, b) * hypot(a, b) == a * a + b * b
  }

  function Ceil(x: real): int {
    -((-x).Floor)
  }

  function SampleCount(distance: real): (n: nat)
    ensures n >= 1
  {
    if Ceil(distance / STEP) > 1 then Ceil(distance / STEP) else 1
  }

  /** The point a fraction `t` along the way. */
  function Along(start: Pose, end: Pose, t: real): Pose {
    Pose(start.frame, start.x + (end.x - start.x) * t, start.y + (end.y - start.y) * t, start.z + (end.z - start.z) * t, end.yaw)
  }

  function Sample(start: Pose, end: Pose, n: nat, i: nat): Pose
    requires 0 < n
  {
    Along(start, end, i as real / n as real)
  }

  ghost predicate PathOk(a: Area, start: Pose, end: Pose, n: nat)
    requires 0 < n
  {
    forall i: nat :: i <= n ==> PoseOk(a, Sample(start, end, n, i))
  }

  method ValidatePath(a: Area, start: Pose, end: Pose, hypot: (real, real) -> real) returns (r: Try<()>)
    ensures r.Done? <==> PathOk(a, start, end, SampleCount(hypot(end.x - start.x, end.y - start.y)))
    ensures !r.Raised?
  {
    hide PoseOk, Along, InArea;
    var n := SampleCount(hypot(end.x - start.x, end.y - start.y));
    for i := 0 to n + 1
      invariant forall k: nat :: k < i ==> PoseOk(a, Sample(start, end, n, k))
    {
      var _ :- ValidatePose(a, Sample(start, end, n, i));
    }
    r := Done(());
  }

  // ----- what the samples cover

  function Horizontal2(p: Pose, q: Pose): real {
    (p.x - q.x) * (p.x - q.x) + (p.y - q.y) * (p.y - q.y)
  }

  lemma CountCovers(distance: real)
    requires distance >= 0.0
    ensures distance <= STEP * SampleCount(distance) as real
  {
    var q := distance / STEP;
    assert q <= Ceil(q) as real;
    assert distance == STEP * q;
  }

  /** No fewer samples would do, unless it is the one there has to be. */
  lemma CountIsLeast(distance: real, m: nat)
    requires 0 < m < SampleCount(distance)
    ensures distance > STEP * m as real
  {
    var q := distance / STEP;
    assert distance == STEP * q;
    assert q > m as real;
  }

  /** The samples lie evenly on the straight way. */
  lemma SamplesAreEven(start: Pose, end: Pose, n: nat, i: nat)
    requires 0 < n
    ensures var s := Sample(start, end, n, i);
            && (s.x - start.x) * n as real == i as real * (end.x - start.x)
            && (s.y - start.y) * n as real == i as real * (end.y - start.y)
            && (s.z - start.z) * n as real == i as real * (end.z - start.z)
            && s.frame == start.frame && s.yaw == end.yaw
  {
    Cancel(n as real, i as real);
    Even(end.x - start.x, i as real / n as real, n as real, i as real);
    Even(end.y - start.y, i as real / n as real, n as real, i as real);
    Even(end.z - start.z, i as real / n as real, n as real, i as real);
  }

  lemma Even(d: real, t: real, n: real, i: real)
    requires n * t == i
    ensures d * t * n == i * d
  {
    assert d * t * n == d * (n * t);
  }

  predicate IsLength(d: real, start: Pose, end: Pose) {
    d * d == (end.x - start.x) * (end.x - start.x) + (end.y - start.y) * (end.y - start.y)
  }

  lemma HorizontalAlong(start: Pose, end: Pose, t: real, q: real, d: real)
    requires IsLength(d, start, end)
    ensures Horizontal2(Along(start, end, t), Along(start, end, q)) == (d * (t - q)) * (d * (t - q))
  {
    var dx, dy, u := end.x - start.x, end.y - start.y, t - q;
    Shift(start.x, dx, t, q);
    Shift(start.y, dy, t, q);
    SumOfSquares(dx, dy, u, d);
    Squares(Along(start, end, t), Along(start, end, q), dx * u, dy * u);
  }

  lemma Squares(p: Pose, q: Pose, x: real, y: real)
    requires p.x - q.x == x && p.y - q.y == y
    ensures Horizontal2(p, q) == x * x + y * y
  {
  }

  lemma Shift(s: real, d: real, t: real, q: real)
    ensures (s + d * t) - (s + d * q) == d * (t - q)
  {
  }

  lemma SumOfSquares(dx: real, dy: real, u: real, d: real)
    requires d * d == dx * dx + dy * dy
    ensures (dx * u) * (dx * u) + (dy * u) * (dy * u) == (d * u) * (d * u)
  {
    SquareOfProduct(dx, u);
    SquareOfProduct(dy, u);
    SquareOfProduct(d, u);
    Distribute(dx * dx, dy * dy, u * u);
  }

  lemma SquareOfProduct(a: real, b: real)
    ensures (a * b) * (a * b) == (a * a) * (b * b)
  {
  }

  lemma Distribute(a: real, b: real, c: real)
    ensures (a + b) * c == a * c + b * c
  {
  }

  lemma SquareBound(a: real, b: real)
    requires -b <= a <= b
    ensures a * a <= b * b
  {
    Product(b - a, b + a);
    assert (b - a) * (b + a) == b * b - a * a;
  }

  lemma ProductBound(d: real, n: real, u: real, e: real)
    requires 0.0 <= d <= STEP * n && n > 0.0 && -e <= n * u <= e
    ensures -(STEP * e) <= d * u <= STEP * e
  {
    if u >= 0.0 {
      Product(STEP * n - d, u);
      assert (STEP * n - d) * u == STEP * (n * u) - d * u;
      Product(d, u);
    } else {
      Product(STEP * n - d, -u);
      assert (STEP * n - d) * (-u) == d * u - STEP * (n * u);
      Product(d, -u);
    }
  }

  /** Two points on the way whose fractions differ by at most `e` samples are at most `e` steps apart. */
  lemma CloseAlong(start: Pose, end: Pose, t: real, q: real, d: real, n: nat, e: real)
    requires n > 0 && 0.0 <= d <= STEP * n as real && -e <= n as real * (t - q) <= e
    requires IsLength(d, start, end)
    ensures Horizontal2(Along(start, end, t), Along(start, end, q)) <= (STEP * e) * (STEP * e)
  {
    hide Along, Horizontal2, IsLength;
    HorizontalAlong(start, end, t, q, d);
    ProductBound(d, n as real, t - q, e);
    SquareBound(d * (t - q), STEP * e);
  }

  lemma SamplesApart(n: nat, i: nat)
    requires i < n
    ensures n as real * ((i + 1) as real / n as real - i as real / n as real) == 1.0
  {
    Cancel(n as real, (i + 1) as real);
    Cancel(n as real, i as real);
  }

  lemma Cancel(n: real, x: real)
    requires n != 0.0
    ensures n * (x / n) == x
  {
  }

  /** The samples run from the start to the end, at most 0.05 m apart horizontally. */
  lemma SamplesAreClose(start: Pose, end: Pose, hypot: (real, real) -> real, i: nat)
    requires IsHypot(hypot)
    ensures var n := SampleCount(hypot(end.x - start.x, end.y - start.y));
            && Sample(start, end, n, 0) == start.(yaw := end.yaw) && Sample(start, end, n, n) == end.(frame := start.frame)
            && (i < n ==> Horizontal2(Sample(start, end, n, i + 1), Sample(start, end, n, i)) <= 0.05 * 0.05)
  {
    hide Horizontal2, SampleCount;
    var d := hypot(end.x - start.x, end.y - start.y);
    var n := SampleCount(d);
    Cancel(n as real, n as real);
    assert n as real / n as real == 1.0;
    if i < n {
      hide Along;
      CountCovers(d);
      SamplesApart(n, i);
      CloseAlong(start, end, (i + 1) as real / n as real, i as real / n as real, d, n, 1.0);
    }
  }

  lemma NearestSample(t: real, n: nat) returns (i: nat)
    requires 0.0 <= t <= 1.0 && n > 0
    ensures i <= n && -0.5 <= n as real * (t - i as real / n as real) <= 0.5
  {
    var m := n as real * t;
    Product(n as real, t);
    Product(n as real, 1.0 - t);
    i := (m + 0.5).Floor;
    Cancel(n as real, i as real);
  }

  lemma Between(low: real, high: real, a: real, b: real, t: real)
    requires low <= a <= high && low <= b <= high && 0.0 <= t <= 1.0
    ensures low <= a + (b - a) * t <= high
  {
    Product(a - low, 1.0 - t);
    Product(b - low, t);
    Product(high - a, 1.0 - t);
    Product(high - b, t);
    assert a + (b - a) * t - low == (a - low) * (1.0 - t) + (b - low) * t;
    assert high - (a + (b - a) * t) == (high - a) * (1.0 - t) + (high - b) * t;
  }

  /** When the check passes, every point of the way is inside the flight box and at most 0.025 m
      (horizontally) from one of the samples of this way, all of which passed all checks. */
  lemma PathIsCovered(a: Area, start: Pose, end: Pose, hypot: (real, real) -> real, t: real)
    requires IsHypot(hypot) && PathOk(a, start, end, SampleCount(hypot(end.x - start.x, end.y - start.y))) && 0.0 <= t <= 1.0
    ensures InBounds(a.bounds, Along(start, end, t))
    ensures var n := SampleCount(hypot(end.x - start.x, end.y - start.y));
            exists i: nat :: i <= n && PoseOk(a, Sample(start, end, n, i))
                             && Horizontal2(Along(start, end, t), Sample(start, end, n, i)) <= 0.025 * 0.025
  {
    hide Horizontal2, SampleCount, Inside, Along;
    var d := hypot(end.x - start.x, end.y - start.y);
    var n := SampleCount(d);
    EndsInBounds(a, start, end, hypot, t);
    CountCovers(d);
    var i := NearestSample(t, n);
    CloseAlong(start, end, t, i as real / n as real, d, n, 0.5);
    assert PoseOk(a, Sample(start, end, n, i));
  }

  lemma EndsInBounds(a: Area, start: Pose, end: Pose, hypot: (real, real) -> real, t: real)
    requires IsHypot(hypot) && PathOk(a, start, end, SampleCount(hypot(end.x - start.x, end.y - start.y))) && 0.0 <= t <= 1.0
    ensures InBounds(a.bounds, Along(start, end, t))
  {
    hide Horizontal2, SampleCount, Inside, Along, InBounds;
    var n := SampleCount(hypot(end.x - start.x, end.y - start.y));
    SamplesAreClose(start, end, hypot, 0);
    assert PoseOk(a, Sample(start, end, n, 0)) && PoseOk(a, Sample(start, end, n, n));
    BoxIsConvex(a.bounds, start, end, t);
  }

  lemma BoxIsConvex(b: Bounds, start: Pose, end: Pose, t: real)
    requires InBounds(b, start.(yaw := end.yaw)) && InBounds(b, end.(frame := start.frame)) && 0.0 <= t <= 1.0
    ensures InBounds(b, Along(start, end, t))
  {
    Between(b.xMin, b.xMax, start.x, end.x, t);
    Between(b.yMin, b.yMax, start.y, end.y, t);
    Between(b.zMin, b.zMax, start.z, end.z, t);
  }
}
