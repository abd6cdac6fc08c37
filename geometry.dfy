/** The geometry buffer's records and the small rules shared by all three
    variants of the engine: mirror reflection, bounded angular drift,
    viewport containment and `Array.prototype.splice(j, 1)`. */
module Geometry {

  /** One vertex of a ring contour. `angle` is fixed at initialisation. */
  datatype RingPoint = RingPoint(angle: real, x: real, y: real, distanceFactor: real)

  /** One flying particle. */
  datatype Particle = Particle(x: real, y: real, size: real, opacity: real, angle: real, speed: real)

  /** One angular particle slot: its base angle and its growable list. */
  datatype Slot = Slot(angle: real, particles: seq<Particle>)

  /** `Math.cos(d·π/180)` and `Math.sin(d·π/180)` for an angle `d` in degrees;
      their values are supplied from outside and never inspected. */
  datatype Trig = Trig(cos: real -> real, sin: real -> real)

  /** What one tick reads besides the geometry buffer: the viewport, the ring
      radius, the loudness computed by the ring update, trigonometry, and the
      stream of `Math.random()` results. */
  datatype Frame = Frame(
    centerX: real, centerY: real, radius: real,
    width: real, height: real,
    loudness: real, trig: Trig, rnd: nat -> real)

  /** The canvas centre along one side: `width / 2` or `height / 2`. */
  function Center(size: real): (c: real)
    ensures c + c == size
  {
    size / 2.0
  }

  /** `Math.random()` never leaves [0, 1). */
  ghost predicate RandomStream(rnd: nat -> real)
  {
    forall n: nat :: 0.0 <= rnd(n) < 1.0
  }

  /** Reflection of `x` in the vertical line through `centerX`. */
  function Reflect(centerX: real, x: real): (r: real)
    ensures r - centerX == centerX - x
  {
    2.0 * centerX - x
  }

  /** Half-width in degrees of the arc a particle may drift within. */
  const DriftArc: real := 60.0

  /** `angle` lies within the drift arc around `base`. */
  predicate WithinArc(angle: real, base: real)
  {
    base - DriftArc <= angle <= base + DriftArc
  }

  /** `Math.random() < 0.5 ? -5 : 5`. */
  function AngleChange(r: real): (c: real)
    ensures c == -5.0 || c == 5.0
  {
    if r < 0.5 then -5.0 else 5.0
  }

  /** A drift step: `angle + change` unless that would leave the arc around
      `base`, in which case the angle is kept. */
  function Drift(angle: real, base: real, change: real): (a: real)
    ensures WithinArc(angle + change, base) ==> a == angle + change
    ensures !WithinArc(angle + change, base) ==> a == angle
    ensures WithinArc(angle, base) ==> WithinArc(a, base)
  {
    if angle + change < base - DriftArc || angle + change > base + DriftArc
    then angle
    else angle + change
  }

  /** The removal test's complement: strictly inside the viewport. */
  predicate Inside(x: real, y: real, width: real, height: real)
  {
    0.0 < x < width && 0.0 < y < height
  }

  /** `list.splice(j, 1)`: the element at `j` is dropped and the rest close up. */
  function Splice<T>(s: seq<T>, j: nat): (r: seq<T>)
    requires j < |s|
    ensures |r| == |s| - 1
    ensures forall k :: 0 <= k < j ==> r[k] == s[k]
    ensures forall k :: j <= k < |r| ==> r[k] == s[k + 1]
  {
    s[..j] + s[j + 1..]
  }

  /** Splicing keeps every remaining element's multiplicity at most what it was. */
  lemma SpliceSubMultiset<T>(s: seq<T>, j: nat)
    requires j < |s|
    ensures multiset(Splice(s, j)) <= multiset(s)
  {
    assert s == s[..j] + [s[j]] + s[j + 1..];
  }
}
