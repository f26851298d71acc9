/** The synthetic sensors: S2's clamped random walk and the independent
    filler draws for S3..S7. Each `Math.random()` call is a `Unit` parameter.
 */
module Generator {
  import opened JsMath

  const Low := 350
  const High := 520
  /** Initial previous value of the walk. */
  const InitialCompanion := 395
  /** The walk moves by `(r - 0.5) * Step`, i.e. by an offset in [-5, 5). */
  const Step := 10.0
  /** A filler is `350 + r * Span`. */
  const Span := 170.0

  predicate InBand(v: int) {
    Low <= v <= High
  }

  /** The walk's offset `(Math.random() - 0.5) * 10`. */
  function Offset(u: Unit): (d: real)
    ensures -5.0 <= d < 5.0
  {
    (u - 0.5) * Step
  }

  /** `Math.round(Math.max(350, Math.min(520, prev + offset)))`. Whatever the
      previous value, the result lies in [350, 520]; from a previous value in
      that band it moves by at most 5 ppm. */
  function NextCompanion(prev: int, u: Unit): (r: int)
    ensures InBand(r)
    ensures InBand(prev) ==> prev - 5 <= r <= prev + 5
  {
    var x := Max(Low as real, Min(High as real, prev as real + Offset(u)));
    RoundWithin(x, Low, High);
    Round(x)
  }

  /** `Math.round(350 + Math.random() * 170)`. */
  function NextFiller(u: Unit): (r: int)
    ensures InBand(r)
  {
    var x := Low as real + u * Span;
    RoundWithin(x, Low, High);
    Round(x)
  }

  /** Every value of the band is some draw's filler: the band is tight. */
  lemma FillerCoversBand(v: int)
    requires InBand(v)
    ensures exists u: Unit :: NextFiller(u) == v
  {
    if v == Low {
      assert NextFiller(0.0) == v;
    } else {
      var u: Unit := ((v - Low) as real - 0.25) / Span;
      assert Low as real + u * Span == v as real - 0.25;
      assert NextFiller(u) == v;
    }
  }

  /** The companion values produced by a run of successive draws, each draw
      starting from the value the previous one produced. */
  function Walk(prev: int, us: seq<Unit>): (vs: seq<int>)
    ensures |vs| == |us|
    ensures forall k :: 0 <= k < |vs| ==> InBand(vs[k])
    ensures InBand(prev) && |vs| > 0 ==> prev - 5 <= vs[0] <= prev + 5
    ensures forall k :: 0 < k < |vs| ==> vs[k - 1] - 5 <= vs[k] <= vs[k - 1] + 5
    decreases |us|
  {
    if us == [] then []
    else
      var v := NextCompanion(prev, us[0]);
      [v] + Walk(v, us[1..])
  }

  /** The end of a walk is the end of the walk from its first step on. */
  lemma WalkLastStep(prev: int, us: seq<Unit>)
    requires |us| > 0
    ensures |us| == 1 ==> Walk(prev, us)[0] == NextCompanion(prev, us[0])
    ensures |us| > 1 ==> Walk(prev, us)[|us| - 1] == Walk(NextCompanion(prev, us[0]), us[1..])[|us| - 2]
  {
  }
}
