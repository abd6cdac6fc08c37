/** The constants App.js hands to the mirrored frame engine. */
module AppJs {
  import opened Numeric
  import opened MirroredEngine

  /** A 48-bin float snapshot, factors `0.65 * (1 + 30 * a)`, speed
      `(4L - 3)^6 + 0.1`, and particle sizes not scaled by the radius. */
  const Constants: Preset := Preset(48, 0.65, 30.0, 6, false)

  /** The snapshot is longer than the highest bin the ring update reads (26),
      so every read is in bounds, and the speed exponent is even. */
  lemma ConstantsSound()
    ensures Sound(Constants)
    ensures Constants.bins > RingSize / 2 + BinsToSkip
  {
  }

  /** A frame of silent bins sets every left-half factor to
      `max(previous, 0.65)`. */
  lemma SilentFrameFactors(snapshot: seq<Level>, previous: real)
    requires |snapshot| == Constants.bins
    requires forall k :: 0 <= k < |snapshot| ==> snapshot[k] == NegativeInfinity
    ensures forall i :: 0 <= i < RingSize / 2 + 1 ==> Factors(snapshot, previous, Constants)[i] == Max(previous, 0.65)
  {
    ConstantsSound();
    var fs := Factors(snapshot, previous, Constants);
    forall i | 0 <= i < RingSize / 2 + 1
      ensures fs[i] == Max(previous, 0.65)
    {
      assert snapshot[i + BinsToSkip] == NegativeInfinity;
      assert CandidateOf(NegativeInfinity, 0.65, 30.0) == Finite(0.65);
    }
  }
}
