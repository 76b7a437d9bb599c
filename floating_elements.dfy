/** Floating decoration: the looping keyframes of a floating element, the random
    parameters of the blurred background shapes, and the rounding class each shape
    kind is drawn with. */
module FloatingElements {
  import opened Random

  /** The three tracks of a floating element's loop, one value per keyframe. */
  datatype Keyframes = Keyframes(y: seq<real>, x: seq<real>, rotate: seq<real>)

  /** The intensity every background shape floats with. */
  const GeometryIntensity: real := 30.0

  /** The tilt, in degrees, a floating element sways between. */
  const Tilt: real := 2.0

  /** The `animate` object of `FloatingElement`. */
  function FloatKeyframes(intensity: real): Keyframes {
    Keyframes([-intensity, intensity, -intensity],
              [-intensity / 2.0, intensity / 2.0, -intensity / 2.0],
              [-Tilt, Tilt, -Tilt])
  }

  /** A track that swings from `-a` to `a` and back: it ends where it starts, so the repeat has no jump. */
  predicate Swing(track: seq<real>, a: real) {
    track == [-a, a, -a]
  }

  /** Every track of a floating element's loop is a swing that ends where it starts; the sideways swing is half
      the vertical one at every keyframe and the tilt is 2 degrees each way. */
  lemma KeyframesLoop(intensity: real)
    ensures var k := FloatKeyframes(intensity);
      && Swing(k.y, intensity) && Swing(k.x, intensity / 2.0) && Swing(k.rotate, Tilt)
      && (forall i :: 0 <= i < 3 ==> k.x[i] * 2.0 == k.y[i])
      && k.y[0] == k.y[|k.y| - 1] && k.x[0] == k.x[|k.x| - 1] && k.rotate[0] == k.rotate[|k.rotate| - 1]
  {
    var k := FloatKeyframes(intensity);
    forall i | 0 <= i < 3
      ensures k.x[i] * 2.0 == k.y[i]
    {
    }
  }

  // ----- FloatingGeometry -----

  datatype ShapeKind = Circle | Square | Triangle

  datatype Tone = Primary | Secondary | Accent

  /** One background shape: its index, size in pixels, position in percent of the container, animation delay
      and duration in seconds, kind and colour. */
  datatype GeometryShape = GeometryShape(
    id: nat, size: real, x: real, y: real, delay: real, duration: real, shape: ShapeKind, color: Tone)

  const Kinds: seq<ShapeKind> := [Circle, Square, Triangle]

  const Tones: seq<Tone> := [Primary, Secondary, Accent]

  /** How many draws one shape record takes. */
  const DrawsPerShape: nat := 7

  /** The record for index `i`, from the seven draws starting at `pos`, taken in the order the object literal lists
      its properties: size, x, y, delay, duration, kind, colour. */
  function ShapeFrom(rand: Stream, pos: nat, i: nat): GeometryShape
    requires ValidStream(rand)
  {
    GeometryShape(
      i,
      rand(pos) * 100.0 + 50.0,
      rand(pos + 1) * 100.0,
      rand(pos + 2) * 100.0,
      rand(pos + 3) * 2.0,
      8.0 + rand(pos + 4) * 4.0,
      Kinds[Pick(rand(pos + 5), 3)],
      Tones[Pick(rand(pos + 6), 3)])
  }

  /** The length `Array.from` gives `{ length: count }`: the count, or 0 when it is negative. */
  function ShapeCount(count: int): nat {
    if count < 0 then 0 else count
  }

  /** `geometryShapes`: one record per index, each from its own seven draws. */
  function GeometryShapes(count: int, rand: Stream, pos: nat): (s: seq<GeometryShape>)
    requires ValidStream(rand)
    ensures |s| == ShapeCount(count)
    ensures forall i :: 0 <= i < |s| ==> s[i].id == i
  {
    seq(ShapeCount(count), i requires 0 <= i < ShapeCount(count) => ShapeFrom(rand, pos + DrawsPerShape * i, i))
  }

  /** The documented range of every parameter of a shape record. */
  predicate InRange(g: GeometryShape) {
    && 50.0 <= g.size < 150.0
    && 0.0 <= g.x < 100.0
    && 0.0 <= g.y < 100.0
    && 0.0 <= g.delay < 2.0
    && 8.0 <= g.duration < 12.0
  }

  /** A single record has its parameters in range. */
  lemma ShapeInRange(rand: Stream, pos: nat, i: nat)
    requires ValidStream(rand)
    ensures InRange(ShapeFrom(rand, pos, i))
  {
    ScaleBelow(rand(pos), 100.0);
    ScaleBelow(rand(pos + 1), 100.0);
    ScaleBelow(rand(pos + 2), 100.0);
    ScaleBelow(rand(pos + 3), 2.0);
    ScaleBelow(rand(pos + 4), 4.0);
  }

  /** Every generated record has its parameters in range. */
  lemma ShapesInRange(count: int, rand: Stream, pos: nat)
    requires ValidStream(rand)
    ensures var s := GeometryShapes(count, rand, pos);
      forall i :: 0 <= i < |s| ==> InRange(s[i])
  {
    var s := GeometryShapes(count, rand, pos);
    forall i | 0 <= i < |s|
      ensures InRange(s[i])
    {
      ShapeInRange(rand, pos + DrawsPerShape * i, i);
    }
  }

  /** `floor(3 r)` splits [0, 1) into thirds. */
  lemma ThirdIndex(r: real)
    requires 0.0 <= r < 1.0
    ensures Pick(r, 3) == 0 <==> r < 1.0 / 3.0
    ensures Pick(r, 3) == 1 <==> 1.0 / 3.0 <= r < 2.0 / 3.0
    ensures Pick(r, 3) == 2 <==> 2.0 / 3.0 <= r
  {
    var k := Pick(r, 3);
    assert k as real <= r * 3.0 < k as real + 1.0;
  }

  /** Each kind and each colour is chosen by its own third of the draw: circle and primary by [0, 1/3), square and
      secondary by [1/3, 2/3), triangle and accent by [2/3, 1). */
  lemma KindAndToneByThirds(rand: Stream, pos: nat, i: nat)
    requires ValidStream(rand)
    ensures var g, r, c := ShapeFrom(rand, pos, i), rand(pos + 5), rand(pos + 6);
      && (g.shape == Circle <==> r < 1.0 / 3.0)
      && (g.shape == Square <==> 1.0 / 3.0 <= r < 2.0 / 3.0)
      && (g.shape == Triangle <==> 2.0 / 3.0 <= r)
      && (g.color == Primary <==> c < 1.0 / 3.0)
      && (g.color == Secondary <==> 1.0 / 3.0 <= c < 2.0 / 3.0)
      && (g.color == Accent <==> 2.0 / 3.0 <= c)
  {
    ThirdIndex(rand(pos + 5));
    ThirdIndex(rand(pos + 6));
  }

  /** The records use the stream in disjoint blocks of seven: a record is fixed by the draws of its own block. */
  lemma ShapeUsesOwnDraws(rand: Stream, other: Stream, pos: nat, count: int, i: nat)
    requires ValidStream(rand) && ValidStream(other) && i < ShapeCount(count)
    requires forall d :: pos + DrawsPerShape * i <= d < pos + DrawsPerShape * (i + 1) ==> rand(d) == other(d)
    ensures GeometryShapes(count, rand, pos)[i] == GeometryShapes(count, other, pos)[i]
  {
    var b := pos + DrawsPerShape * i;
    assert rand(b) == other(b) && rand(b + 1) == other(b + 1) && rand(b + 2) == other(b + 2);
    assert rand(b + 3) == other(b + 3) && rand(b + 4) == other(b + 4);
    assert rand(b + 5) == other(b + 5) && rand(b + 6) == other(b + 6);
  }

  /** The rounding class of a shape's blob. */
  function RoundingClass(shape: ShapeKind): string {
    if shape == Circle then "rounded-full" else if shape == Square then "rounded-lg" else "rounded-full"
  }

  /** Only squares get rounded corners; circles and triangles are both drawn as full circles. */
  lemma RoundingClassOf(shape: ShapeKind)
    ensures RoundingClass(shape) == "rounded-lg" <==> shape == Square
    ensures RoundingClass(shape) == "rounded-full" <==> shape != Square
  {
    assert "rounded-lg" != "rounded-full" by {
      assert "rounded-lg"[8] != "rounded-full"[8];
    }
  }

  /** Each background shape floats 30 pixels up and down and 15 sideways. */
  lemma GeometryKeyframes()
    ensures FloatKeyframes(GeometryIntensity).y == [-30.0, 30.0, -30.0]
    ensures FloatKeyframes(GeometryIntensity).x == [-15.0, 15.0, -15.0]
  {
  }
}
