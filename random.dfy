/** The ambient `Math.random` of the animations, made explicit.

    A stream is an infinite sequence of draws indexed from 0; a generator reads it
    from a cursor and hands back the cursor after the last draw it used, so every
    random choice of the animations becomes a deterministic function of the stream. */
module Random {

  /** An infinite sequence of draws. */
  type Stream = nat -> real

  /** Every draw lies in [0, 1), as `Math.random` promises. */
  ghost predicate ValidStream(rand: Stream) {
    forall i: nat :: 0.0 <= rand(i) < 1.0
  }

  /** `Math.floor(r * k)`: the index picked from a list of `k` choices. */
  function Pick(r: real, k: nat): (i: int)
    requires 0.0 <= r < 1.0 && k > 0
    ensures 0 <= i < k
    ensures i as real <= r * k as real < i as real + 1.0
  {
    ScaleBelow(r, k as real);
    var i := (r * k as real).Floor;
    assert i as real <= r * k as real < k as real;
    i
  }

  /** A draw scaled by a non-negative factor stays in [0, factor], and below it when the factor is positive. */
  lemma ScaleBelow(r: real, f: real)
    requires 0.0 <= r < 1.0 && f >= 0.0
    ensures 0.0 <= r * f <= f
    ensures f > 0.0 ==> r * f < f
  {
    if f > 0.0 {
      assert f - r * f == (1.0 - r) * f;
    }
  }
}
