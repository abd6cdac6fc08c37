/** The ring update shared by every variant (`updateCoordinates`): for the
    left half `i` in [0, K/2] a point gets its new distance factor and the
    position that factor gives along its fixed angle; for `i > 0` the point
    `K - i` then receives the reflected `x` and the same `y`. The loudness is
    the mean distance factor over the whole ring. */
module Ring {
  import opened Numeric
  import opened Geometry

  /** Shape the ring update needs: an even number K >= 2 of points and one
      new distance factor for each index in [0, K/2]. */
  predicate Shaped(ring: seq<RingPoint>, factors: seq<real>)
  {
    |ring| >= 2 && |ring| % 2 == 0 && |factors| == |ring| / 2 + 1
  }

  /** The point `p` with distance factor `factor`, placed at
      `(centerX + radius·cos(-angle)·factor, centerY + radius·sin(-angle)·factor)`. */
  function Placed(p: RingPoint, factor: real, centerX: real, centerY: real, radius: real, trig: Trig): (q: RingPoint)
    ensures q.angle == p.angle && q.distanceFactor == factor
  {
    p.(distanceFactor := factor,
       x := centerX + radius * trig.cos(-p.angle) * factor,
       y := centerY + radius * trig.sin(-p.angle) * factor)
  }

  /** The ring after one pass of the update loop, point by point. Index K/2
      is placed and then "mirrored" onto itself, so its `x` ends up reflected.
      Indices above K/2 keep their angle and distance factor and take the
      reflected `x` and the `y` of their partner K - k. */
  function RingAfter(ring: seq<RingPoint>, factors: seq<real>,
                     centerX: real, centerY: real, radius: real, trig: Trig): (r: seq<RingPoint>)
    requires Shaped(ring, factors)
    ensures |r| == |ring|
  {
    var n := |ring|;
    var h := n / 2;
    seq(n, k requires 0 <= k < n =>
      if k < h then
        Placed(ring[k], factors[k], centerX, centerY, radius, trig)
      else if k == h then
        var q := Placed(ring[h], factors[h], centerX, centerY, radius, trig);
        q.(x := Reflect(centerX, q.x))
      else
        var q := Placed(ring[n - k], factors[n - k], centerX, centerY, radius, trig);
        ring[k].(x := Reflect(centerX, q.x), y := q.y))
  }

  /** The mirror invariant: for each pair (i, K - i) with 1 <= i < K/2 the
      `y` values agree and the `x` values are reflections around `centerX`. */
  ghost predicate Mirrored(ring: seq<RingPoint>, centerX: real)
  {
    forall i :: 1 <= i < |ring| / 2 ==>
      ring[|ring| - i].x == Reflect(centerX, ring[i].x) && ring[|ring| - i].y == ring[i].y
  }

  /** The distance factors of a ring, in index order (`map(x => x.distanceFactor)`). */
  function DistanceFactors(ring: seq<RingPoint>): (d: seq<real>)
    ensures |d| == |ring|
  {
    seq(|ring|, k requires 0 <= k < |ring| => ring[k].distanceFactor)
  }

  /** The loudness metric: mean distance factor over the whole ring. */
  function Loudness(ring: seq<RingPoint>): real
    requires |ring| > 0
  {
    Mean(DistanceFactors(ring))
  }

  /** `updateCoordinates`' ring loop, in place on the array. */
  method UpdateRing(ring: array<RingPoint>, factors: seq<real>,
                    centerX: real, centerY: real, radius: real, trig: Trig)
    requires Shaped(ring[..], factors)
    modifies ring
    ensures ring[..] == RingAfter(old(ring[..]), factors, centerX, centerY, radius, trig)
  {
    var n := ring.Length;
    var h := n / 2;
    ghost var before := ring[..];
    var i := 0;
    while i <= h
      invariant 0 <= i <= h + 1
      invariant forall k :: 0 <= k < n ==>
        ring[k] == Partial(before, factors, centerX, centerY, radius, trig, i, k)
    {
      ring[i] := Placed(ring[i], factors[i], centerX, centerY, radius, trig);
      if i > 0 {
        ring[n - i] := ring[n - i].(x := Reflect(centerX, ring[i].x), y := ring[i].y);
      }
      i := i + 1;
    }
    assert forall k :: 0 <= k < n ==>
      ring[k] == RingAfter(before, factors, centerX, centerY, radius, trig)[k];
  }

  /** Index `k` of the ring once the loop has handled indices [0, i). */
  ghost function Partial(ring: seq<RingPoint>, factors: seq<real>,
                         centerX: real, centerY: real, radius: real, trig: Trig,
                         i: nat, k: nat): RingPoint
    requires Shaped(ring, factors) && i <= |ring| / 2 + 1 && k < |ring|
  {
    var n := |ring|;
    var h := n / 2;
    if k < h && k < i then
      Placed(ring[k], factors[k], centerX, centerY, radius, trig)
    else if k == h && h < i then
      var q := Placed(ring[h], factors[h], centerX, centerY, radius, trig);
      q.(x := Reflect(centerX, q.x))
    else if h < k && n - k < i then
      var q := Placed(ring[n - k], factors[n - k], centerX, centerY, radius, trig);
      ring[k].(x := Reflect(centerX, q.x), y := q.y)
    else
      ring[k]
  }

  /** After the update every mirror pair satisfies the mirror invariant. */
  lemma RingAfterMirrored(ring: seq<RingPoint>, factors: seq<real>,
                          centerX: real, centerY: real, radius: real, trig: Trig)
    requires Shaped(ring, factors)
    ensures Mirrored(RingAfter(ring, factors, centerX, centerY, radius, trig), centerX)
  {
    var r := RingAfter(ring, factors, centerX, centerY, radius, trig);
    var n := |ring|;
    forall i | 1 <= i < n / 2
      ensures r[n - i].x == Reflect(centerX, r[i].x) && r[n - i].y == r[i].y
    {
      var q := Placed(ring[i], factors[i], centerX, centerY, radius, trig);
      assert r[i] == q;
      assert r[n - i] == ring[n - i].(x := Reflect(centerX, q.x), y := q.y);
    }
  }

  /** Index K/2 is reflected onto itself: its `x` lies on the opposite side of
      the centre from where its angle and factor place it, while `y` is kept. */
  lemma RingAfterMidpoint(ring: seq<RingPoint>, factors: seq<real>,
                          centerX: real, centerY: real, radius: real, trig: Trig)
    requires Shaped(ring, factors)
    ensures var r := RingAfter(ring, factors, centerX, centerY, radius, trig);
            var h := |ring| / 2;
            r[h].x == centerX - radius * trig.cos(-ring[h].angle) * factors[h] &&
            r[h].y == centerY + radius * trig.sin(-ring[h].angle) * factors[h] &&
            r[h].distanceFactor == factors[h]
  {
  }

  /** The update never changes an angle. */
  lemma RingAfterAngles(ring: seq<RingPoint>, factors: seq<real>,
                        centerX: real, centerY: real, radius: real, trig: Trig)
    requires Shaped(ring, factors)
    ensures var r := RingAfter(ring, factors, centerX, centerY, radius, trig);
            forall k :: 0 <= k < |ring| ==> r[k].angle == ring[k].angle
  {
  }

  /** The left half [0, K/2] takes the new factors; the right half (K/2, K)
      keeps its old ones, because the loop never writes them. */
  lemma RingAfterFactors(ring: seq<RingPoint>, factors: seq<real>,
                         centerX: real, centerY: real, radius: real, trig: Trig)
    requires Shaped(ring, factors)
    ensures DistanceFactors(RingAfter(ring, factors, centerX, centerY, radius, trig))
         == factors + DistanceFactors(ring)[|ring| / 2 + 1..]
  {
  }

  /** The factor sum after the update: the new left-half factors plus the
      untouched right-half factors. */
  lemma RingAfterSum(ring: seq<RingPoint>, factors: seq<real>,
                     centerX: real, centerY: real, radius: real, trig: Trig)
    requires Shaped(ring, factors)
    ensures Sum(DistanceFactors(RingAfter(ring, factors, centerX, centerY, radius, trig)))
         == Sum(factors) + Sum(DistanceFactors(ring)[|ring| / 2 + 1..])
  {
    RingAfterFactors(ring, factors, centerX, centerY, radius, trig);
    SumAppend(factors, DistanceFactors(ring)[|ring| / 2 + 1..]);
  }

  /** If every right-half factor is 1 and every new factor is at least `floor`,
      the new loudness of a ring of K = 2h points is at least
      ((h + 1)·floor + (h - 1)) / K. */
  lemma LoudnessLowerBound(ring: seq<RingPoint>, factors: seq<real>,
                            centerX: real, centerY: real, radius: real, trig: Trig, floor: real, h: nat)
    requires Shaped(ring, factors) && |ring| == 2 * h
    requires forall k :: h < k < |ring| ==> ring[k].distanceFactor == 1.0
    requires forall k :: 0 <= k < |factors| ==> factors[k] >= floor
    ensures Loudness(RingAfter(ring, factors, centerX, centerY, radius, trig))
              >= ((h + 1) as real * floor + (h - 1) as real) / (2 * h) as real
  {
    RingAfterFactors(ring, factors, centerX, centerY, radius, trig);
    assert |ring| / 2 == h;
    FactorsLoudnessBound(ring, RingAfter(ring, factors, centerX, centerY, radius, trig),
                         factors, floor, h);
  }

  /** The same bound for any ring `after` whose factors are the new left-half
      factors followed by the untouched right half of `ring`. */
  lemma FactorsLoudnessBound(ring: seq<RingPoint>, after: seq<RingPoint>, factors: seq<real>,
                             floor: real, h: nat)
    requires |ring| == 2 * h && h >= 1 && |factors| == h + 1
    requires DistanceFactors(after) == factors + DistanceFactors(ring)[h + 1..]
    requires forall k :: h < k < |ring| ==> ring[k].distanceFactor == 1.0
    requires forall k :: 0 <= k < |factors| ==> factors[k] >= floor
    ensures |after| == 2 * h
    ensures Loudness(after) >= ((h + 1) as real * floor + (h - 1) as real) / (2 * h) as real
  {
    FactorSumLowerBound(ring, after, factors, floor, h);
    LoudnessFromSum(after, (h + 1) as real * floor + (h - 1) as real, 2 * h);
  }

  /** A lower bound on the factor sum gives one on the loudness. */
  lemma LoudnessFromSum(ring: seq<RingPoint>, bound: real, n: nat)
    requires n == |ring| > 0 && Sum(DistanceFactors(ring)) >= bound
    ensures Loudness(ring) >= bound / n as real
  {
    QuotientMonotone(Sum(DistanceFactors(ring)), bound, |ring| as real);
  }

  /** The factor sum behind the loudness floor: at least (h + 1)·floor for
      the new left half plus h - 1 for the untouched right half. */
  lemma FactorSumLowerBound(ring: seq<RingPoint>, after: seq<RingPoint>, factors: seq<real>,
                            floor: real, h: nat)
    requires |ring| == 2 * h && h >= 1 && |factors| == h + 1
    requires DistanceFactors(after) == factors + DistanceFactors(ring)[h + 1..]
    requires forall k :: h < k < |ring| ==> ring[k].distanceFactor == 1.0
    requires forall k :: 0 <= k < |factors| ==> factors[k] >= floor
    ensures Sum(DistanceFactors(after)) >= (h + 1) as real * floor + (h - 1) as real
  {
    var rest := DistanceFactors(ring)[h + 1..];
    assert forall k :: 0 <= k < |rest| ==> rest[k] == 1.0 by {
      forall k | 0 <= k < |rest| ensures rest[k] == 1.0 {
        assert rest[k] == ring[h + 1 + k].distanceFactor;
      }
    }
    SumOfPartsBound(DistanceFactors(after), factors, rest, floor, h + 1, h - 1);
  }

  /** The sum of `a + b` with the bounds of `PartsSumBound`. */
  lemma SumOfPartsBound(d: seq<real>, a: seq<real>, b: seq<real>, lo: real, na: nat, nb: nat)
    requires d == a + b && |a| == na && |b| == nb
    requires forall k :: 0 <= k < |a| ==> a[k] >= lo
    requires forall k :: 0 <= k < |b| ==> b[k] == 1.0
    ensures Sum(d) >= na as real * lo + nb as real
  {
    SumAppend(a, b);
    PartsSumBound(a, b, lo, na, nb);
  }

  /** With every one of the `na` elements of `a` at least `lo` and every one
      of the `nb` elements of `b` equal to 1, the two sums together are at
      least na·lo + nb. */
  lemma PartsSumBound(a: seq<real>, b: seq<real>, lo: real, na: nat, nb: nat)
    requires |a| == na && |b| == nb
    requires forall k :: 0 <= k < |a| ==> a[k] >= lo
    requires forall k :: 0 <= k < |b| ==> b[k] == 1.0
    ensures Sum(a) + Sum(b) >= na as real * lo + nb as real
  {
    SumLowerBound(a, lo);
    SumConstant(b, 1.0);
  }

  /** Dividing by a positive number keeps the order. */
  lemma QuotientMonotone(a: real, b: real, d: real)
    requires d > 0.0 && a >= b
    ensures a / d >= b / d
  {
  }

  /** Every element at least `lo` bounds the sum below by |s|·lo. */
  lemma {:induction false} SumLowerBound(s: seq<real>, lo: real)
    requires forall k :: 0 <= k < |s| ==> s[k] >= lo
    ensures Sum(s) >= |s| as real * lo
  {
    if s != [] {
      SumLowerBound(s[..|s| - 1], lo);
    }
  }
}
