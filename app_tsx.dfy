/** The constants App.tsx hands to the mirrored frame engine. */
module AppTsx {
  import opened Numeric
  import opened MirroredEngine

  /** A 27-bin float snapshot (48 / 2 + 2 + 1), factors `0.4 * (1 + 80 * a)`,
      speed `(4L - 3)^4 + 0.1`, and particle sizes scaled by radius / 300. */
  const Constants: Preset := Preset(27, 0.4, 80.0, 4, true)

  /** The snapshot is exactly as long as the highest bin the ring update reads
      plus one, so every read is in bounds, and the speed exponent is even. */
  lemma ConstantsSound()
    ensures Sound(Constants)
    ensures Constants.bins == MinimumBins
  {
  }

  /** A frame of silent bins sets every left-half factor to
      `max(previous, 0.4)`. */
  lemma SilentFrameFactors(snapshot: seq<Level>, previous: real)
    requires |snapshot| == Constants.bins
    requires forall k :: 0 <= k < |snapshot| ==> snapshot[k] == NegativeInfinity
    ensures forall i :: 0 <= i < RingSize / 2 + 1 ==> Factors(snapshot, previous, Constants)[i] == Max(previous, 0.4)
  {
    ConstantsSound();
    var fs := Factors(snapshot, previous, Constants);
    forall i | 0 <= i < RingSize / 2 + 1
      ensures fs[i] == Max(previous, 0.4)
    {
      assert snapshot[i + BinsToSkip] == NegativeInfinity;
      assert CandidateOf(NegativeInfinity, 0.4, 80.0) == Finite(0.4);
    }
  }
}
