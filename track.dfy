/** The race track (js/track.js): the oval waypoint loop and its checkpoints,
    the point-to-segment distance, the on-track test over the closed loop,
    boundary correction, and the nearest and forward-only checkpoint
    queries. */
module Tracks {
  import opened Utils
  import opened Cars

  /** A checkpoint: a path point and the oval parameter it was made at. */
  datatype Checkpoint = Checkpoint(x: real, y: real, angle: real)

  /** The oval is cut into this many segments; its loop has one more point. */
  const Segments: nat := 60

  /** Half-axes of the oval, centred on the origin. */
  const RadiusX: real := 400.0
  const RadiusY: real := 300.0

  /** The driveable width of the track, and the width of its drawn border. */
  const TrackWidth: real := 200.0
  const BoundaryWidth: real := 50.0

  /** The speed kept after hitting the boundary, and the push toward the
      track. */
  const BoundaryDamping: real := 0.3
  const BoundaryPush: real := 5.0

  /** The oval parameter of point `i`: `(i / segments) * π * 2`. */
  function OvalAngle(i: nat): (a: real)
    ensures i == 0 ==> a == 0.0
    ensures i == Segments ==> a == TwoPi
  {
    (i as real / Segments as real) * PI * 2.0
  }

  /** Path point `i` of the generated oval. */
  function OvalPoint(m: MathLib, i: nat): Point
  {
    var a := OvalAngle(i);
    Point(0.0 + m.cos(a) * RadiusX, 0.0 + m.sin(a) * RadiusY)
  }

  function CheckpointAt(m: MathLib, i: nat): Checkpoint
  {
    var p := OvalPoint(m, i);
    Checkpoint(p.x, p.y, OvalAngle(i))
  }

  /** The checkpoints the generation loop has pushed after visiting the
      points before `n`: one at every index divisible by `segments / 4`. */
  function Marks(m: MathLib, n: nat): seq<Checkpoint>
  {
    if n == 0 then []
    else Marks(m, n - 1) + (if (n - 1) % (Segments / 4) == 0 then [CheckpointAt(m, n - 1)] else [])
  }

  /** The marks are exactly the quarter points 0, 15, 30, ... */
  lemma {:induction false} MarksAreQuarters(m: MathLib, n: nat)
    ensures |Marks(m, n)| == (n + 14) / 15
    ensures forall k :: 0 <= k < |Marks(m, n)| ==> Marks(m, n)[k] == CheckpointAt(m, 15 * k)
  {
    if n > 0 {
      MarksAreQuarters(m, n - 1);
    }
  }

  /** With cos and sin periodic over one turn, the closing point of the loop
      repeats the first, so the closing segment has zero length, and the
      last checkpoint sits on the first. */
  lemma ClosedLoop(m: MathLib)
    requires m.cos(TwoPi) == m.cos(0.0) && m.sin(TwoPi) == m.sin(0.0)
    ensures OvalPoint(m, Segments) == OvalPoint(m, 0)
    ensures |Marks(m, Segments + 1)| == 5
    ensures Marks(m, Segments + 1)[4].x == Marks(m, Segments + 1)[0].x
    ensures Marks(m, Segments + 1)[4].y == Marks(m, Segments + 1)[0].y
  {
    MarksAreQuarters(m, Segments + 1);
  }

  /** The projection parameter of point `p` on the segment from `a` to `b`:
      -1 when the segment has zero length, otherwise the dot product over
      the squared length. */
  function ProjectionParam(px: real, py: real, x1: real, y1: real, x2: real, y2: real): (param: real)
    ensures x1 == x2 && y1 == y2 ==> param == -1.0
  {
    var dot := Mul(px - x1, x2 - x1) + Mul(py - y1, y2 - y1);
    var lenSq := Sq(x2 - x1) + Sq(y2 - y1);
    if lenSq != 0.0 then dot / lenSq else -1.0
  }

  /** The point of the segment that distanceToSegment measures to: the
      first end when the parameter is negative, the second when it exceeds
      1, otherwise the interpolated point. */
  function SegmentFoot(px: real, py: real, x1: real, y1: real, x2: real, y2: real): (f: Point)
    ensures Min(x1, x2) <= f.x <= Max(x1, x2) && Min(y1, y2) <= f.y <= Max(y1, y2)
    ensures x1 == x2 && y1 == y2 ==> f == Point(x1, y1)
    ensures ProjectionParam(px, py, x1, y1, x2, y2) < 0.0 ==> f == Point(x1, y1)
    ensures ProjectionParam(px, py, x1, y1, x2, y2) > 1.0 ==> f == Point(x2, y2)
    ensures var t := ProjectionParam(px, py, x1, y1, x2, y2);
            0.0 <= t <= 1.0 ==> f == Point(x1 + Mul(t, x2 - x1), y1 + Mul(t, y2 - y1))
  {
    var param := ProjectionParam(px, py, x1, y1, x2, y2);
    if param < 0.0 then
      Point(x1, y1)
    else if param > 1.0 then
      Point(x2, y2)
    else
      ScaleWithin(x2 - x1, param);
      ScaleWithin(y2 - y1, param);
      Point(x1 + Mul(param, x2 - x1), y1 + Mul(param, y2 - y1))
  }

  /** Track.distanceToSegment. */
  function DistanceToSegment(m: MathLib, px: real, py: real, x1: real, y1: real, x2: real, y2: real): (d: real)
    ensures Lawful(m) ==> 0.0 <= d
    ensures x1 == x2 && y1 == y2 ==> d == Distance(m, x1, y1, px, py)
    ensures var f := SegmentFoot(px, py, x1, y1, x2, y2); d == Distance(m, f.x, f.y, px, py)
  {
    var f := SegmentFoot(px, py, x1, y1, x2, y2);
    Distance(m, f.x, f.y, px, py)
  }

  /** A point of a segment projects onto itself, with its own parameter. */
  lemma ProjectOnSegment(x1: real, y1: real, x2: real, y2: real, t: real)
    requires 0.0 <= t <= 1.0
    ensures var px := x1 + Mul(t, x2 - x1);
            var py := y1 + Mul(t, y2 - y1);
            SegmentFoot(px, py, x1, y1, x2, y2) == Point(px, py)
  {
    var c := x2 - x1;
    var d := y2 - y1;
    var px := x1 + Mul(t, c);
    var py := y1 + Mul(t, d);
    var lenSq := Sq(c) + Sq(d);
    if lenSq != 0.0 {
      assert Mul(px - x1, c) + Mul(py - y1, d) == Mul(t, lenSq);
      assert ProjectionParam(px, py, x1, y1, x2, y2) == t;
    } else {
      SquareSign(c);
      SquareSign(d);
    }
  }

  /** A point on a segment is at distance 0 from it. */
  lemma OnSegmentDistance(m: MathLib, x1: real, y1: real, x2: real, y2: real, t: real)
    requires Lawful(m) && 0.0 <= t <= 1.0
    ensures DistanceToSegment(m, x1 + Mul(t, x2 - x1), y1 + Mul(t, y2 - y1), x1, y1, x2, y2) == 0.0
  {
    ProjectOnSegment(x1, y1, x2, y2, t);
    DistanceToSelf(m, x1 + Mul(t, x2 - x1), y1 + Mul(t, y2 - y1));
  }

  /** The distance from `p` to segment `i` of the closed loop, which runs
      from point `i` to point `(i + 1) mod n`. */
  function SegmentDistance(m: MathLib, path: seq<Point>, p: Point, i: nat): real
    requires i < |path|
  {
    var a := path[i];
    var b := path[(i + 1) % |path|];
    DistanceToSegment(m, p.x, p.y, a.x, a.y, b.x, b.y)
  }

  /** The reference for Track.isOnTrack: some segment of the loop, the
      closing one included, is strictly nearer than half the width. */
  predicate OnTrack(m: MathLib, path: seq<Point>, p: Point)
  {
    exists i :: 0 <= i < |path| && SegmentDistance(m, path, p, i) < TrackWidth / 2.0
  }

  /** The index of the first least element of `ds[..n]`, as a scan with a
      strict `<` finds it. */
  function FirstMin(ds: seq<real>, n: nat): (k: nat)
    requires 0 < n <= |ds|
    ensures k < n
    ensures forall j :: 0 <= j < n ==> ds[k] <= ds[j]
    ensures forall j :: 0 <= j < k ==> ds[k] < ds[j]
  {
    if n == 1 then 0
    else
      var k := FirstMin(ds, n - 1);
      if ds[n - 1] < ds[k] then n - 1 else k
  }

  /** The distances from `p` to every segment of the loop. */
  function SegmentDistances(m: MathLib, path: seq<Point>, p: Point): (ds: seq<real>)
    ensures |ds| == |path|
    ensures forall i :: 0 <= i < |path| ==> ds[i] == SegmentDistance(m, path, p, i)
  {
    seq(|path|, i requires 0 <= i < |path| => SegmentDistance(m, path, p, i))
  }

  /** The point the nearest-point loop of Track.handleBoundaryCollision
      settles on: the foot on the first nearest segment, or `p` itself on an
      empty path. */
  function NearestPoint(m: MathLib, path: seq<Point>, p: Point): (q: Point)
    ensures |path| == 0 ==> q == p
    ensures |path| > 0 ==>
              exists k :: 0 <= k < |path| && q == FootOn(path, p, k)
                && Distance(m, q.x, q.y, p.x, p.y) == SegmentDistance(m, path, p, k)
                && (forall j :: 0 <= j < |path| ==> SegmentDistance(m, path, p, k) <= SegmentDistance(m, path, p, j))
                && (forall j :: 0 <= j < k ==> SegmentDistance(m, path, p, k) < SegmentDistance(m, path, p, j))
  {
    if |path| == 0 then p
    else FootOn(path, p, FirstMin(SegmentDistances(m, path, p), |path|))
  }

  /** The foot of the perpendicular from `p` on segment `i` of the loop. */
  function FootOn(path: seq<Point>, p: Point, i: nat): Point
    requires i < |path|
  {
    var a := path[i];
    var b := path[(i + 1) % |path|];
    SegmentFoot(p.x, p.y, a.x, a.y, b.x, b.y)
  }

  /** The push of Track.handleBoundaryCollision: 5 units along the
      direction to `target`, or nothing when the car sits on it. */
  function Nudge(m: MathLib, s: CarState, target: Point): (r: CarState)
    ensures r.(x := s.x, y := s.y) == s
    ensures Distance(m, s.x, s.y, target.x, target.y) <= 0.0 ==> r == s
  {
    var dx := target.x - s.x;
    var dy := target.y - s.y;
    var dist := Distance(m, s.x, s.y, target.x, target.y);
    if dist > 0.0 then s.(x := s.x + (dx / dist) * BoundaryPush, y := s.y + (dy / dist) * BoundaryPush)
    else s
  }

  /** With an exact square root, a push moves the car exactly 5 units,
      straight toward the target: it ends up 5 units nearer, or past the
      target when that was closer than 5. */
  lemma NudgeLength(m: MathLib, s: CarState, target: Point)
    requires ExactSqrt(m)
    requires s.x != target.x || s.y != target.y
    ensures var r := Nudge(m, s, target);
            Distance(m, s.x, s.y, r.x, r.y) == BoundaryPush
    ensures var r := Nudge(m, s, target);
            Distance(m, r.x, r.y, target.x, target.y)
              == Abs(Distance(m, s.x, s.y, target.x, target.y) - BoundaryPush)
  {
    ExactSqrtIsLawful(m);
    var dx := target.x - s.x;
    var dy := target.y - s.y;
    var dist := Distance(m, s.x, s.y, target.x, target.y);
    assert 0.0 < dist;
    assert Sq(dist) == Sq(dx) + Sq(dy);
    var u := dx / dist;
    var v := dy / dist;
    UnitDirection(dx, dy, dist);
    ScaledLength(u, v, BoundaryPush);
    var r := Nudge(m, s, target);
    assert r.x - s.x == Mul(u, BoundaryPush) && r.y - s.y == Mul(v, BoundaryPush);
    assert SqDist(s.x, s.y, r.x, r.y) == Sq(BoundaryPush);
    RootOfSquare(m, BoundaryPush);
    Remaining(m, s, target, dist, u, v, r);
  }

  /** What is left of the way to the target after a step of 5 along the
      unit direction (u, v) toward it. */
  lemma Remaining(m: MathLib, s: CarState, target: Point, dist: real, u: real, v: real, r: CarState)
    requires ExactSqrt(m) && 0.0 < dist
    requires Sq(u) + Sq(v) == 1.0
    requires target.x - s.x == Mul(u, dist) && target.y - s.y == Mul(v, dist)
    requires r.x - s.x == Mul(u, BoundaryPush) && r.y - s.y == Mul(v, BoundaryPush)
    ensures Distance(m, r.x, r.y, target.x, target.y) == Abs(dist - BoundaryPush)
  {
    var k := dist - BoundaryPush;
    assert target.x - r.x == Mul(u, k) && target.y - r.y == Mul(v, k);
    ScaledLength(u, v, k);
    assert SqDist(r.x, r.y, target.x, target.y) == Sq(k);
    SquareOfNegation(k);
    assert Sq(Abs(k)) == Sq(k);
    RootOfSquare(m, Abs(k));
  }

  /** A car is off the track when one of its four corners is. */
  predicate OffTrack(m: MathLib, path: seq<Point>, s: CarState)
  {
    exists k :: 0 <= k < 4 && !OnTrack(m, path, Corners(m, s)[k])
  }

  /** Track.handleBoundaryCollision on the car's state, once a boundary
      collision is found: speed times 0.3, then the push toward the nearest
      point of the track. */
  function BoundaryResponse(m: MathLib, path: seq<Point>, s: CarState): (r: CarState)
    ensures r.speed == BoundaryDamping * s.speed
    ensures r.(x := s.x, y := s.y, speed := s.speed) == s
    ensures var q := NearestPoint(m, path, Point(s.x, s.y));
            (Distance(m, s.x, s.y, q.x, q.y) <= 0.0 ==> r.x == s.x && r.y == s.y)
  {
    var slowed := s.(speed := s.speed * BoundaryDamping);
    Nudge(m, slowed, NearestPoint(m, path, Point(s.x, s.y)))
  }

  /** The push of a boundary hit moves a car that is not already on the
      nearest point of the track exactly 5 units straight toward it. */
  lemma BoundaryPushLength(m: MathLib, path: seq<Point>, s: CarState)
    requires ExactSqrt(m)
    ensures var q := NearestPoint(m, path, Point(s.x, s.y));
            var r := BoundaryResponse(m, path, s);
            (s.x != q.x || s.y != q.y) ==>
              && Distance(m, s.x, s.y, r.x, r.y) == BoundaryPush
              && Distance(m, r.x, r.y, q.x, q.y) == Abs(Distance(m, s.x, s.y, q.x, q.y) - BoundaryPush)
  {
    var q := NearestPoint(m, path, Point(s.x, s.y));
    if s.x != q.x || s.y != q.y {
      NudgeLength(m, s.(speed := s.speed * BoundaryDamping), q);
    }
  }

  /** The nearest checkpoint (Track.getCurrentCheckpoint): the first of the
      closest, or 0 when there are none. */
  function NearestCheckpoint(m: MathLib, checkpoints: seq<Checkpoint>, x: real, y: real): (k: nat)
    ensures |checkpoints| == 0 ==> k == 0
    ensures |checkpoints| > 0 ==> k < |checkpoints|
    ensures forall j :: 0 <= j < |checkpoints| ==>
              Distance(m, x, y, checkpoints[k].x, checkpoints[k].y) <= Distance(m, x, y, checkpoints[j].x, checkpoints[j].y)
    ensures forall j :: 0 <= j < k ==>
              Distance(m, x, y, checkpoints[k].x, checkpoints[k].y) < Distance(m, x, y, checkpoints[j].x, checkpoints[j].y)
  {
    if |checkpoints| == 0 then 0
    else FirstMin(CheckpointDistances(m, checkpoints, x, y), |checkpoints|)
  }

  function CheckpointDistances(m: MathLib, checkpoints: seq<Checkpoint>, x: real, y: real): (ds: seq<real>)
    ensures |ds| == |checkpoints|
    ensures forall i :: 0 <= i < |checkpoints| ==> ds[i] == Distance(m, x, y, checkpoints[i].x, checkpoints[i].y)
  {
    seq(|checkpoints|, i requires 0 <= i < |checkpoints| => Distance(m, x, y, checkpoints[i].x, checkpoints[i].y))
  }

  /** The forward test of Track.checkCheckpoint: the car lies ahead of
      checkpoint `c`, toward the next one. */
  predicate Ahead(checkpoints: seq<Checkpoint>, c: nat, x: real, y: real)
    requires c < |checkpoints|
  {
    var next := (c + 1) % |checkpoints|;
    var cp1 := checkpoints[c];
    var cp2 := checkpoints[next];
    Mul(cp2.x - cp1.x, x - cp1.x) + Mul(cp2.y - cp1.y, y - cp1.y) > 0.0
  }

  /** Track.checkCheckpoint: the nearest checkpoint when it differs from the
      last one and the car is strictly ahead of it, otherwise the last one. */
  function Advance(m: MathLib, checkpoints: seq<Checkpoint>, x: real, y: real, last: nat): (r: nat)
    requires |checkpoints| > 0 || last == 0
    ensures r == last || r == NearestCheckpoint(m, checkpoints, x, y)
    ensures r != last <==> NearestCheckpoint(m, checkpoints, x, y) != last
                           && Ahead(checkpoints, NearestCheckpoint(m, checkpoints, x, y), x, y)
  {
    var current := NearestCheckpoint(m, checkpoints, x, y);
    if current != last && Ahead(checkpoints, current, x, y) then current else last
  }

  /** Asking again for an unmoved car with the answer just given changes
      nothing. */
  lemma AdvanceIdempotent(m: MathLib, checkpoints: seq<Checkpoint>, x: real, y: real, last: nat)
    requires |checkpoints| > 0 || last == 0
    ensures var r := Advance(m, checkpoints, x, y, last);
            (|checkpoints| > 0 || r == 0) && Advance(m, checkpoints, x, y, r) == r
  {
  }

  /** The track as generated: the 61-point oval loop, its 5 quarter
      checkpoints and the start on its first point, facing the second. */
  ghost predicate Generated(m: MathLib, path: seq<Point>, checkpoints: seq<Checkpoint>,
                            startX: real, startY: real, startAngle: real)
  {
    && path == seq(Segments + 1, i requires 0 <= i <= Segments => OvalPoint(m, i))
    && checkpoints == Marks(m, Segments + 1)
    && |checkpoints| == 5
    && startX == path[0].x && startY == path[0].y
    && startAngle == m.atan2(path[1].y - path[0].y, path[1].x - path[0].x)
  }

  /** Track.generateTrack: walk the oval in 60 equal steps of its
      parameter, pushing every point and a checkpoint at each quarter;
      the start is the first point, facing the second. */
  method GenerateTrack(m: MathLib)
    returns (path: seq<Point>, checkpoints: seq<Checkpoint>, startX: real, startY: real, startAngle: real)
    ensures Generated(m, path, checkpoints, startX, startY, startAngle)
  {
    path := [];
    checkpoints := [];
    var i := 0;
    while i <= Segments
      invariant 0 <= i <= Segments + 1
      invariant path == seq(i, j requires 0 <= j < i => OvalPoint(m, j))
      invariant checkpoints == Marks(m, i)
    {
      var angle := OvalAngle(i);
      var x := 0.0 + m.cos(angle) * RadiusX;
      var y := 0.0 + m.sin(angle) * RadiusY;
      path := path + [Point(x, y)];
      if i % (Segments / 4) == 0 {
        checkpoints := checkpoints + [Checkpoint(x, y, angle)];
      }
      i := i + 1;
    }
    MarksAreQuarters(m, Segments + 1);
    startX := path[0].x;
    startY := path[0].y;
    startAngle := m.atan2(path[1].y - path[0].y, path[1].x - path[0].x);
  }

  /** The track. Its path, checkpoints and start are set once, by the
      constructor's call of generateTrack, and never change. */
  class Track {
    const path: seq<Point>
    const checkpoints: seq<Checkpoint>
    const startX: real
    const startY: real
    const startAngle: real

    /** `new Track()`. */
    constructor (m: MathLib)
      ensures Generated(m, path, checkpoints, startX, startY, startAngle)
    {
      var p, c, x, y, a := GenerateTrack(m);
      path, checkpoints, startX, startY, startAngle := p, c, x, y, a;
    }

    /** Track.isOnTrack: the least distance to any segment of the loop,
        the closing one included, is below half the width. */
    method IsOnTrack(m: MathLib, x: real, y: real) returns (onTrack: bool)
      ensures onTrack == OnTrack(m, path, Point(x, y))
      ensures |path| == 0 ==> !onTrack
    {
      // `minDist` is Infinity until the first segment is measured.
      var measured := false;
      var minDist := 0.0;
      ghost var argMin := 0;
      var i := 0;
      while i < |path|
        invariant 0 <= i <= |path|
        invariant measured == (i > 0)
        invariant measured ==> forall j :: 0 <= j < i ==> minDist <= SegmentDistance(m, path, Point(x, y), j)
        invariant measured ==> argMin < i && minDist == SegmentDistance(m, path, Point(x, y), argMin)
      {
        var p1 := path[i];
        var p2 := path[(i + 1) % |path|];
        var dist := DistanceToSegment(m, x, y, p1.x, p1.y, p2.x, p2.y);
        if !measured || dist < minDist {
          argMin := i;
        }
        minDist := if measured then Min(minDist, dist) else dist;
        measured := true;
        i := i + 1;
      }
      onTrack := measured && minDist < TrackWidth / 2.0;
    }

    /** Track.checkBoundaryCollision: some corner of the car is off the
        track. */
    method CheckBoundaryCollision(m: MathLib, car: Car) returns (hit: bool)
      ensures hit == OffTrack(m, path, car.State())
    {
      var corners := car.GetCorners(m);
      var k := 0;
      while k < 4
        invariant 0 <= k <= 4
        invariant forall j :: 0 <= j < k ==> OnTrack(m, path, corners[j])
      {
        var on := IsOnTrack(m, corners[k].x, corners[k].y);
        if !on {
          return true;
        }
        k := k + 1;
      }
      return false;
    }

    /** Track.handleBoundaryCollision: on a boundary collision the car keeps
        30% of its speed and is pushed 5 units toward the nearest point of
        the track; otherwise nothing changes. */
    method HandleBoundaryCollision(m: MathLib, car: Car) returns (hit: bool)
      modifies car
      ensures hit == OffTrack(m, path, old(car.State()))
      ensures !hit ==> car.State() == old(car.State())
      ensures hit ==> car.State() == BoundaryResponse(m, path, old(car.State()))
    {
      hit := CheckBoundaryCollision(m, car);
      if hit {
        car.speed := car.speed * BoundaryDamping;
        var nearest := FindNearestPoint(m, car.x, car.y);
        PushToward(m, car, nearest);
      }
    }

    /** The last step of Track.handleBoundaryCollision: 5 units toward
        `nearest`, unless the car already sits on it. */
    method PushToward(m: MathLib, car: Car, nearest: Point)
      modifies car
      ensures car.State() == Nudge(m, old(car.State()), nearest)
    {
      var dx := nearest.x - car.x;
      var dy := nearest.y - car.y;
      var dist := Distance(m, car.x, car.y, nearest.x, nearest.y);
      if dist > 0.0 {
        car.x := car.x + (dx / dist) * BoundaryPush;
        car.y := car.y + (dy / dist) * BoundaryPush;
      }
    }

    /** The nearest-point loop of Track.handleBoundaryCollision: a strict
        running minimum over the segments, keeping the foot on the best
        one so far; the starting point is the car itself. */
    method FindNearestPoint(m: MathLib, x: real, y: real) returns (nearest: Point)
      ensures nearest == NearestPoint(m, path, Point(x, y))
    {
      var ds := SegmentDistances(m, path, Point(x, y));
      var measured := false;
      var minDist := 0.0;
      var best := 0;
      nearest := Point(x, y);
      var i := 0;
      while i < |path|
        invariant 0 <= i <= |path|
        invariant measured == (i > 0)
        invariant measured ==> best == FirstMin(ds, i) && minDist == ds[best]
        invariant measured ==> best < |path| && nearest == FootOn(path, Point(x, y), best)
        invariant !measured ==> nearest == Point(x, y)
      {
        var p1 := path[i];
        var p2 := path[(i + 1) % |path|];
        var dist := DistanceToSegment(m, x, y, p1.x, p1.y, p2.x, p2.y);
        if !measured || dist < minDist {
          minDist := dist;
          best := i;
          nearest := SegmentFoot(x, y, p1.x, p1.y, p2.x, p2.y);
        }
        measured := true;
        i := i + 1;
      }
    }

    /** Track.checkCheckpoint. */
    method CheckCheckpoint(m: MathLib, car: Car, lastCheckpoint: nat) returns (r: nat)
      requires |checkpoints| > 0 || lastCheckpoint == 0
      ensures r == Advance(m, checkpoints, car.x, car.y, lastCheckpoint)
    {
      var currentCheckpoint := GetCurrentCheckpoint(m, car);
      if currentCheckpoint != lastCheckpoint {
        var nextCheckpoint := (currentCheckpoint + 1) % |checkpoints|;
        var cp1 := checkpoints[currentCheckpoint];
        var cp2 := checkpoints[nextCheckpoint];
        var dx1 := cp2.x - cp1.x;
        var dy1 := cp2.y - cp1.y;
        var dx2 := car.x - cp1.x;
        var dy2 := car.y - cp1.y;
        var dot := Mul(dx1, dx2) + Mul(dy1, dy2);
        if dot > 0.0 {
          return currentCheckpoint;
        }
      }
      return lastCheckpoint;
    }

    /** Track.getCurrentCheckpoint: a strict running minimum of the
        distances from the car to the checkpoints. */
    method GetCurrentCheckpoint(m: MathLib, car: Car) returns (checkpointIndex: nat)
      ensures checkpointIndex == NearestCheckpoint(m, checkpoints, car.x, car.y)
    {
      var ds := CheckpointDistances(m, checkpoints, car.x, car.y);
      var measured := false;
      var minDist := 0.0;
      checkpointIndex := 0;
      var i := 0;
      while i < |checkpoints|
        invariant 0 <= i <= |checkpoints|
        invariant measured == (i > 0)
        invariant measured ==> checkpointIndex == FirstMin(ds, i) && minDist == ds[checkpointIndex]
        invariant !measured ==> checkpointIndex == 0
      {
        var cp := checkpoints[i];
        var dist := Distance(m, car.x, car.y, cp.x, cp.y);
        if !measured || dist < minDist {
          minDist := dist;
          checkpointIndex := i;
        }
        measured := true;
        i := i + 1;
      }
    }
  }
}
