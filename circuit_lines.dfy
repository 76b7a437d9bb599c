/** The circuit-line background: a field of random axis-aligned walks over the
    canvas, each emitted as SVG path data (an absolute moveto followed by one
    absolute lineto per segment, section 8.3 "Path Data" of SVG 1.1), plus a row
    of connection-node markers.

    The generator is the imperative `GeneratePath`; the functions `Trail`,
    `PathAt`, `PathDataAt` and `FieldEnd` say, point by point and draw by draw, what
    it computes, and the lemmas below them state the guarantees of the walk. */
module CircuitLines {
  import opened Random

  datatype Point = Point(x: real, y: real)

  /** One command of SVG path data: an absolute moveto (`M x y`) or lineto (`L x y`). */
  datatype PathCommand = MoveTo(at: Point) | LineTo(at: Point)

  /** Canvas size used for a side that measured 0. */
  const FallbackWidth: real := 800.0
  const FallbackHeight: real := 600.0

  /** The size of the SVG view box, over which the connection nodes are placed. */
  const ViewBoxWidth: real := 800.0
  const ViewBoxHeight: real := 600.0

  /** At most this many paths get a connection node. */
  const MarkerCap: nat := 10

  function Max(a: real, b: real): real { if a >= b then a else b }

  function Min(a: real, b: real): real { if a <= b then a else b }

  /** `Math.max(0, Math.min(hi, v))`: pins a coordinate to the edge it crossed. */
  function Clamp(v: real, hi: real): (r: real)
    ensures hi >= 0.0 ==> 0.0 <= r <= hi
    ensures hi >= 0.0 && 0.0 <= v <= hi ==> r == v
    ensures hi >= 0.0 && v > hi ==> r == hi
    ensures hi >= 0.0 && v < 0.0 ==> r == 0.0
  {
    Max(0.0, Min(hi, v))
  }

  /** The step unit: the longer canvas side divided by the number of paths. */
  function GridSize(width: real, height: real, density: int): real
    requires density > 0
  {
    Max(width, height) / density as real
  }

  /** `3 + Math.floor(r * 4)`: the segment count of one path. */
  function SegmentCount(r: real): int { 3 + (r * 4.0).Floor }

  /** How often the inner `for` loop runs: the segment count, or never when it is negative. */
  function Segments(r: real): nat { var s := SegmentCount(r); if s < 0 then 0 else s }

  /** `Math.floor(r * 4)`: 0 right, 1 down, 2 left, 3 up. */
  function DirectionCode(r: real): int { (r * 4.0).Floor }

  /** `gridSize * (0.5 + r * 1.5)`: the length of one step before clamping. */
  function StepLength(gridSize: real, r: real): real { gridSize * (0.5 + r * 1.5) }

  /** The `switch` on the direction code; a code outside 0..3 falls through every case and moves nothing. */
  function Advance(p: Point, direction: int, length: real): Point {
    if direction == 0 then p.(x := p.x + length)
    else if direction == 1 then p.(y := p.y + length)
    else if direction == 2 then p.(x := p.x - length)
    else if direction == 3 then p.(y := p.y - length)
    else p
  }

  /** One segment: the direction drawn at `pos`, the length drawn at `pos + 1`, then both coordinates clamped. */
  function StepFrom(p: Point, rand: Stream, pos: nat, width: real, height: real, gridSize: real): Point {
    var q := Advance(p, DirectionCode(rand(pos)), StepLength(gridSize, rand(pos + 1)));
    Point(Clamp(q.x, width), Clamp(q.y, height))
  }

  /** The start point followed by the first `k` segment ends of a walk whose segment draws begin at `pos`. */
  function Trail(rand: Stream, pos: nat, start: Point, k: nat, width: real, height: real, gridSize: real): (t: seq<Point>)
    ensures |t| == k + 1 && t[0] == start
  {
    if k == 0 then [start]
    else
      var t := Trail(rand, pos, start, k - 1, width, height, gridSize);
      t + [StepFrom(t[k - 1], rand, pos + 2 * (k - 1), width, height, gridSize)]
  }

  /** The start point drawn at `pos` (x) and `pos + 1` (y). */
  function StartPoint(rand: Stream, pos: nat, width: real, height: real): Point {
    Point(rand(pos) * width, rand(pos + 1) * height)
  }

  /** The points of the path generated from the draws at `pos`: start x, start y, segment count, then one
      (direction, length) pair per segment. */
  function PathAt(rand: Stream, pos: nat, width: real, height: real, gridSize: real): seq<Point> {
    Trail(rand, pos + 3, StartPoint(rand, pos, width, height), Segments(rand(pos + 2)), width, height, gridSize)
  }

  /** The cursor just after the path generated from `pos`. */
  function PathEnd(rand: Stream, pos: nat): nat {
    pos + 3 + 2 * Segments(rand(pos + 2))
  }

  /** The cursor after `n` paths generated from `pos`. */
  function FieldEnd(rand: Stream, pos: nat, n: nat): nat {
    if n == 0 then pos else PathEnd(rand, FieldEnd(rand, pos, n - 1))
  }

  /** The vertex each command draws to. */
  function Vertices(d: seq<PathCommand>): (pts: seq<Point>)
    ensures |pts| == |d|
  {
    seq(|d|, i requires 0 <= i < |d| => d[i].at)
  }

  /** A path description as the generator writes it: one moveto, then only linetos. */
  predicate WellFormed(d: seq<PathCommand>) {
    |d| > 0 && d[0].MoveTo? && forall i :: 0 < i < |d| ==> d[i].LineTo?
  }

  /** The path data of a polyline: moveto its first vertex, lineto each of the others. */
  function PathData(pts: seq<Point>): (d: seq<PathCommand>)
    ensures |d| == |pts|
  {
    seq(|pts|, i requires 0 <= i < |pts| => if i == 0 then MoveTo(pts[0]) else LineTo(pts[i]))
  }

  /** The path data of a polyline is well formed and draws exactly through its vertices. */
  lemma PathDataRoundTrip(pts: seq<Point>)
    requires |pts| > 0
    ensures WellFormed(PathData(pts)) && Vertices(PathData(pts)) == pts
  {
  }

  /** The text of one command, numbers written by `fmt` (the template literals of the source). */
  function CommandText(c: PathCommand, fmt: real -> string): string {
    match c
    case MoveTo(p) => "M " + fmt(p.x) + " " + fmt(p.y)
    case LineTo(p) => " L " + fmt(p.x) + " " + fmt(p.y)
  }

  /** The text of a sequence of commands: their texts in order. */
  function CommandsText(d: seq<PathCommand>, fmt: real -> string): string {
    if |d| == 0 then "" else CommandsText(d[..|d| - 1], fmt) + CommandText(d[|d| - 1], fmt)
  }

  /** Appending a vertex to a polyline appends one lineto to its path data. */
  lemma PathDataSnoc(pts: seq<Point>, q: Point)
    requires |pts| > 0
    ensures PathData(pts + [q]) == PathData(pts) + [LineTo(q)]
  {
  }

  /** A trail one segment longer ends with the step drawn from its last vertex. */
  lemma TrailSnoc(rand: Stream, pos: nat, start: Point, k: nat, width: real, height: real, gridSize: real)
    ensures var t := Trail(rand, pos, start, k, width, height, gridSize);
      Trail(rand, pos, start, k + 1, width, height, gridSize) == t + [StepFrom(t[k], rand, pos + 2 * k, width, height, gridSize)]
  {
  }

  /** The path data pushed for the path generated from the draws at `pos`. */
  function PathDataAt(rand: Stream, pos: nat, width: real, height: real, gridSize: real): seq<PathCommand> {
    PathData(PathAt(rand, pos, width, height, gridSize))
  }

  /** One iteration of the outer loop of `generatePath`: draw a start point and a segment count, then walk
      segment by segment, clamping after every step and writing ` L x y` for each vertex. */
  method TracePath(width: real, height: real, gridSize: real, rand: Stream, pos: nat)
    returns (path: seq<PathCommand>, next: nat)
    ensures path == PathDataAt(rand, pos, width, height, gridSize)
    ensures next == PathEnd(rand, pos)
  {
    var startX := rand(pos) * width;
    var startY := rand(pos + 1) * height;
    path := [MoveTo(Point(startX, startY))];
    var currentX, currentY := startX, startY;
    var segments := SegmentCount(rand(pos + 2));
    next := pos + 3;
    ghost var start := Point(startX, startY);
    ghost var pts := [start];
    var j := 0;
    while j < segments
      invariant 0 <= j <= Segments(rand(pos + 2))
      invariant next == pos + 3 + 2 * j
      invariant pts == Trail(rand, pos + 3, start, j, width, height, gridSize)
      invariant Point(currentX, currentY) == pts[j]
      invariant path == PathData(pts)
    {
      ghost var q := StepFrom(pts[j], rand, next, width, height, gridSize);
      TrailSnoc(rand, pos + 3, start, j, width, height, gridSize);
      PathDataSnoc(pts, q);
      var direction := DirectionCode(rand(next));
      var length := StepLength(gridSize, rand(next + 1));
      next := next + 2;
      var moved := Advance(Point(currentX, currentY), direction, length);
      currentX := Clamp(moved.x, width);
      currentY := Clamp(moved.y, height);
      path := path + [LineTo(Point(currentX, currentY))];
      pts := pts + [q];
      j := j + 1;
    }
    assert j == Segments(rand(pos + 2));
    assert start == StartPoint(rand, pos, width, height);
    assert Trail(rand, pos + 3, start, j, width, height, gridSize) == PathAt(rand, pos, width, height, gridSize);
  }

  /** `generatePath`: `density` random walks in generation order, each written out as path data; also returns
      the cursor after the last draw used. Path `i` is the one drawn from the cursor the `i` paths before it
      left. */
  method GeneratePath(width: real, height: real, density: int, rand: Stream, pos: nat)
    returns (paths: seq<seq<PathCommand>>, next: nat)
    ensures |paths| == if density > 0 then density else 0
    ensures next == FieldEnd(rand, pos, |paths|)
    ensures forall i {:trigger paths[i]} :: 0 <= i < |paths| ==>
      paths[i] == PathDataAt(rand, FieldEnd(rand, pos, i), width, height, GridSize(width, height, density))
  {
    paths := [];
    next := pos;
    if density <= 0 {
      return;
    }
    var gridSize := GridSize(width, height, density);
    var i: nat := 0;
    while i < density
      invariant i <= density && |paths| == i
      invariant next == FieldEnd(rand, pos, i)
      invariant forall k {:trigger paths[k]} :: 0 <= k < i ==> paths[k] == PathDataAt(rand, FieldEnd(rand, pos, k), width, height, gridSize)
    {
      var path;
      path, next := TracePath(width, height, gridSize, rand, next);
      paths := paths + [path];
      i := i + 1;
    }
  }

  /** `rect.width || 800`: a measured side of 0 is replaced by the fallback. */
  function MeasuredOr(measured: real, fallback: real): (r: real)
    requires fallback > 0.0
    ensures measured >= 0.0 ==> r > 0.0
    ensures measured != 0.0 ==> r == measured
    ensures measured == 0.0 ==> r == fallback
  {
    if measured == 0.0 then fallback else measured
  }

  /** The effect body, run when `density` changes: generate on the measured canvas, with the fallback size for a
      side that measured 0. */
  method Refresh(rectWidth: real, rectHeight: real, density: int, rand: Stream, pos: nat)
    returns (paths: seq<seq<PathCommand>>, next: nat)
    ensures |paths| == if density > 0 then density else 0
    ensures next == FieldEnd(rand, pos, |paths|)
    ensures forall i {:trigger paths[i]} :: 0 <= i < |paths| ==>
      var w, h := MeasuredOr(rectWidth, FallbackWidth), MeasuredOr(rectHeight, FallbackHeight);
      paths[i] == PathDataAt(rand, FieldEnd(rand, pos, i), w, h, GridSize(w, h, density))
  {
    paths, next := GeneratePath(MeasuredOr(rectWidth, FallbackWidth), MeasuredOr(rectHeight, FallbackHeight), density, rand, pos);
  }

  /** A canvas that measured non-negative is generated on positive sides, so the step unit is positive. */
  lemma FallbackCanvas(rectWidth: real, rectHeight: real, density: int)
    requires rectWidth >= 0.0 && rectHeight >= 0.0 && density > 0
    ensures var w, h := MeasuredOr(rectWidth, FallbackWidth), MeasuredOr(rectHeight, FallbackHeight);
      w > 0.0 && h > 0.0 && GridSize(w, h, density) > 0.0
  {
  }

  /** The connection nodes: one per path among the first ten, placed from two fresh draws each over the
      800 by 600 view box, whatever the paths are. */
  function Markers<T>(paths: seq<T>, rand: Stream, pos: nat): (m: seq<Point>)
    ensures |m| == if |paths| < MarkerCap then |paths| else MarkerCap
  {
    var count := if |paths| < MarkerCap then |paths| else MarkerCap;
    seq(count, i requires 0 <= i < count => Point(rand(pos + 2 * i) * ViewBoxWidth, rand(pos + 2 * i + 1) * ViewBoxHeight))
  }

  // ----- Guarantees of the walk -----

  predicate InCanvas(p: Point, width: real, height: real) {
    0.0 <= p.x <= width && 0.0 <= p.y <= height
  }

  /** How one segment may move a point: along the drawn axis only, in the drawn sense, by at most the drawn
      length, and by exactly that length when the target is inside the canvas. */
  predicate AxisStep(p: Point, q: Point, direction: int, length: real, width: real, height: real) {
    && (direction == 0 ==> q.y == p.y && p.x <= q.x <= p.x + length && (p.x + length <= width ==> q.x == p.x + length))
    && (direction == 1 ==> q.x == p.x && p.y <= q.y <= p.y + length && (p.y + length <= height ==> q.y == p.y + length))
    && (direction == 2 ==> q.y == p.y && p.x - length <= q.x <= p.x && (p.x - length >= 0.0 ==> q.x == p.x - length))
    && (direction == 3 ==> q.x == p.x && p.y - length <= q.y <= p.y && (p.y - length >= 0.0 ==> q.y == p.y - length))
  }

  lemma SegmentsRange(r: real)
    requires 0.0 <= r < 1.0
    ensures 3 <= Segments(r) <= 6
  {
    var k := Pick(r, 4);
  }

  lemma DirectionRange(r: real)
    requires 0.0 <= r < 1.0
    ensures 0 <= DirectionCode(r) <= 3
  {
    var k := Pick(r, 4);
  }

  lemma StepLengthRange(gridSize: real, r: real)
    requires 0.0 <= r < 1.0 && gridSize > 0.0
    ensures 0.5 * gridSize <= StepLength(gridSize, r) < 2.0 * gridSize
  {
    ScaleBelow(r, 1.5 * gridSize);
    assert StepLength(gridSize, r) == 0.5 * gridSize + r * (1.5 * gridSize);
  }

  /** A clamped segment from a point inside the canvas is an axis step with the drawn direction and length. */
  lemma StepShape(p: Point, rand: Stream, pos: nat, width: real, height: real, gridSize: real)
    requires ValidStream(rand) && gridSize > 0.0 && InCanvas(p, width, height)
    ensures var q := StepFrom(p, rand, pos, width, height, gridSize);
      && InCanvas(q, width, height)
      && 0 <= DirectionCode(rand(pos)) <= 3
      && AxisStep(p, q, DirectionCode(rand(pos)), StepLength(gridSize, rand(pos + 1)), width, height)
  {
    DirectionRange(rand(pos));
    StepLengthRange(gridSize, rand(pos + 1));
  }

  /** A shorter trail is a prefix of a longer one over the same draws. */
  lemma {:induction false} TrailPrefix(rand: Stream, pos: nat, start: Point, k: nat, m: nat, width: real, height: real, gridSize: real)
    requires m <= k
    ensures Trail(rand, pos, start, k, width, height, gridSize)[..m + 1] == Trail(rand, pos, start, m, width, height, gridSize)
  {
    if m < k {
      TrailPrefix(rand, pos, start, k - 1, m, width, height, gridSize);
      assert Trail(rand, pos, start, k, width, height, gridSize)[..k] == Trail(rand, pos, start, k - 1, width, height, gridSize);
    }
  }

  /** Segment `j` of a trail is the step drawn at `pos + 2 * j` from vertex `j`. */
  lemma TrailStep(rand: Stream, pos: nat, start: Point, k: nat, j: nat, width: real, height: real, gridSize: real)
    requires j < k
    ensures var t := Trail(rand, pos, start, k, width, height, gridSize);
      t[j + 1] == StepFrom(t[j], rand, pos + 2 * j, width, height, gridSize)
  {
    TrailPrefix(rand, pos, start, k, j + 1, width, height, gridSize);
    var t := Trail(rand, pos, start, k, width, height, gridSize);
    var s := Trail(rand, pos, start, j + 1, width, height, gridSize);
    assert t[j + 1] == s[j + 1] && t[j] == s[j];
  }

  /** A trail that starts inside the canvas never leaves it. */
  lemma {:induction false} TrailInCanvas(rand: Stream, pos: nat, start: Point, k: nat, width: real, height: real, gridSize: real)
    requires InCanvas(start, width, height)
    ensures forall j :: 0 <= j < k + 1 ==> InCanvas(Trail(rand, pos, start, k, width, height, gridSize)[j], width, height)
  {
    if k > 0 {
      TrailInCanvas(rand, pos, start, k - 1, width, height, gridSize);
    }
  }

  /** The start point lies in [0, width) by [0, height) (closed where a side is 0). */
  lemma StartInCanvas(rand: Stream, pos: nat, width: real, height: real)
    requires ValidStream(rand) && width >= 0.0 && height >= 0.0
    ensures var s := StartPoint(rand, pos, width, height);
      && InCanvas(s, width, height)
      && (width > 0.0 ==> s.x < width) && (height > 0.0 ==> s.y < height)
  {
    ScaleBelow(rand(pos), width);
    ScaleBelow(rand(pos + 1), height);
  }

  /** Every path has 3 to 6 segments, so 4 to 7 points. */
  lemma PathHasFourToSevenPoints(rand: Stream, pos: nat, width: real, height: real, gridSize: real)
    requires ValidStream(rand)
    ensures 4 <= |PathAt(rand, pos, width, height, gridSize)| <= 7
  {
    SegmentsRange(rand(pos + 2));
  }

  /** On a canvas with positive sides every point of a path lies in [0, width] by [0, height], and its start point
      in [0, width) by [0, height). */
  lemma PathInCanvas(rand: Stream, pos: nat, width: real, height: real, gridSize: real)
    requires ValidStream(rand) && width > 0.0 && height > 0.0
    ensures var t := PathAt(rand, pos, width, height, gridSize);
      && (forall j :: 0 <= j < |t| ==> InCanvas(t[j], width, height))
      && t[0].x < width && t[0].y < height
  {
    StartInCanvas(rand, pos, width, height);
    TrailInCanvas(rand, pos + 3, StartPoint(rand, pos, width, height), Segments(rand(pos + 2)), width, height, gridSize);
  }

  /** Segment `j` of a trail that starts inside the canvas is an axis step with the direction and length drawn
      at `pos + 2 * j` and `pos + 2 * j + 1`. */
  lemma TrailAxisStep(rand: Stream, pos: nat, start: Point, k: nat, j: nat, width: real, height: real, gridSize: real)
    requires ValidStream(rand) && gridSize > 0.0 && InCanvas(start, width, height) && j < k
    ensures var t := Trail(rand, pos, start, k, width, height, gridSize);
      && 0 <= DirectionCode(rand(pos + 2 * j)) <= 3
      && AxisStep(t[j], t[j + 1], DirectionCode(rand(pos + 2 * j)), StepLength(gridSize, rand(pos + 2 * j + 1)), width, height)
  {
    var t := Trail(rand, pos, start, k, width, height, gridSize);
    TrailInCanvas(rand, pos, start, k, width, height, gridSize);
    TrailStep(rand, pos, start, k, j, width, height, gridSize);
    StepShape(t[j], rand, pos + 2 * j, width, height, gridSize);
  }

  /** Segment `j` of a path moves along one axis, in the direction drawn for it, by at most its drawn length,
      which lies in [gridSize / 2, 2 * gridSize); the two draws sit at `3 + 2 * j` and `3 + 2 * j + 1` past the
      path's first draw. */
  lemma PathIsAxisWalk(rand: Stream, pos: nat, width: real, height: real, gridSize: real, j: nat)
    requires ValidStream(rand) && width > 0.0 && height > 0.0 && gridSize > 0.0
    requires j + 1 < |PathAt(rand, pos, width, height, gridSize)|
    ensures var t := PathAt(rand, pos, width, height, gridSize);
      var len := StepLength(gridSize, rand(pos + 3 + 2 * j + 1));
      && (t[j].x == t[j + 1].x || t[j].y == t[j + 1].y)
      && 0 <= DirectionCode(rand(pos + 3 + 2 * j)) <= 3
      && 0.5 * gridSize <= len < 2.0 * gridSize
      && AxisStep(t[j], t[j + 1], DirectionCode(rand(pos + 3 + 2 * j)), len, width, height)
  {
    StartInCanvas(rand, pos, width, height);
    TrailAxisStep(rand, pos + 3, StartPoint(rand, pos, width, height), Segments(rand(pos + 2)), j, width, height, gridSize);
    StepLengthRange(gridSize, rand(pos + 3 + 2 * j + 1));
  }

  /** A path uses exactly 3 + 2 * segments draws: two for its start, one for its segment count, two per segment. */
  lemma DrawsPerPath(rand: Stream, pos: nat, width: real, height: real, gridSize: real)
    ensures PathEnd(rand, pos) == pos + 3 + 2 * (|PathAt(rand, pos, width, height, gridSize)| - 1)
  {
  }

  /** With draws in [0, 1) each path uses 9 to 15 draws, so `n` paths use between 9n and 15n. */
  lemma {:induction false} FieldDraws(rand: Stream, pos: nat, n: nat)
    requires ValidStream(rand)
    ensures pos + 9 * n <= FieldEnd(rand, pos, n) <= pos + 15 * n
  {
    if n > 0 {
      FieldDraws(rand, pos, n - 1);
      SegmentsRange(rand(FieldEnd(rand, pos, n - 1) + 2));
    }
  }

  /** There are `min(10, |paths|)` connection nodes, each inside [0, 800) by [0, 600). */
  lemma MarkersInViewBox<T>(paths: seq<T>, rand: Stream, pos: nat)
    requires ValidStream(rand)
    ensures var m := Markers(paths, rand, pos);
      forall i :: 0 <= i < |m| ==> 0.0 <= m[i].x < ViewBoxWidth && 0.0 <= m[i].y < ViewBoxHeight
  {
    var m := Markers(paths, rand, pos);
    forall i | 0 <= i < |m|
      ensures 0.0 <= m[i].x < ViewBoxWidth && 0.0 <= m[i].y < ViewBoxHeight
    {
      ScaleBelow(rand(pos + 2 * i), ViewBoxWidth);
      ScaleBelow(rand(pos + 2 * i + 1), ViewBoxHeight);
    }
  }

  /** A formatter whose numbers contain neither command letter. */
  ghost predicate LetterFree(fmt: real -> string) {
    forall r :: 'M' !in fmt(r) && 'L' !in fmt(r)
  }

  /** The text of a moveto holds one `M` and no `L`, that of a lineto one `L` and no `M`. */
  lemma CommandLetters(c: PathCommand, fmt: real -> string)
    requires LetterFree(fmt)
    ensures var s := CommandText(c, fmt);
      && multiset(s)['M'] == (if c.MoveTo? then 1 else 0)
      && multiset(s)['L'] == (if c.LineTo? then 1 else 0)
      && (c.MoveTo? ==> s[0] == 'M')
  {
    var x, y := fmt(c.at.x), fmt(c.at.y);
    var head := if c.MoveTo? then "M " else " L ";
    assert multiset(head)['M'] == (if c.MoveTo? then 1 else 0) && multiset(head)['L'] == (if c.LineTo? then 1 else 0);
    assert multiset(x)['M'] == 0 && multiset(x)['L'] == 0;
    assert multiset(y)['M'] == 0 && multiset(y)['L'] == 0;
    assert multiset(" ")['M'] == 0 && multiset(" ")['L'] == 0;
    assert CommandText(c, fmt) == head + x + " " + y;
  }

  /** Written out as text, with a number formatter that writes no command letters, the path data of a polyline
      starts with its one `M` and holds one `L` per segment. */
  lemma {:induction false} PathTextLetters(pts: seq<Point>, fmt: real -> string)
    requires |pts| > 0 && LetterFree(fmt)
    ensures var s := CommandsText(PathData(pts), fmt);
      |s| > 0 && s[0] == 'M' && multiset(s)['M'] == 1 && multiset(s)['L'] == |pts| - 1
  {
    var d := PathData(pts);
    CommandLetters(d[|d| - 1], fmt);
    if |pts| > 1 {
      var init := pts[..|pts| - 1];
      assert pts == init + [pts[|pts| - 1]];
      PathDataSnoc(init, pts[|pts| - 1]);
      PathTextLetters(init, fmt);
      assert d[..|d| - 1] == PathData(init);
    } else {
      assert d[..0] == [];
    }
  }

  /** What the generator pushes for one path on a canvas with positive sides: a moveto and 3 to 6 linetos, drawn
      through exactly the points of the walk, all inside the canvas. */
  lemma PathDataShape(rand: Stream, pos: nat, width: real, height: real, gridSize: real)
    requires ValidStream(rand) && width > 0.0 && height > 0.0
    ensures var d := PathDataAt(rand, pos, width, height, gridSize);
      && 4 <= |d| <= 7
      && WellFormed(d)
      && Vertices(d) == PathAt(rand, pos, width, height, gridSize)
      && forall j :: 0 <= j < |d| ==> InCanvas(d[j].at, width, height)
  {
    var t := PathAt(rand, pos, width, height, gridSize);
    PathHasFourToSevenPoints(rand, pos, width, height, gridSize);
    PathInCanvas(rand, pos, width, height, gridSize);
    PathDataRoundTrip(t);
    var d := PathData(t);
    assert forall j :: 0 <= j < |d| ==> d[j].at == Vertices(d)[j];
  }
}
