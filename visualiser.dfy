/** The frame engine of Visualiser.js: two 32-point rings (a primary one
    whose mean distance factor is the loudness and a secondary one drawn
    behind it) driven by a byte frequency snapshot, and 360 particle slots,
    one per degree, each emitting and sweeping its own particles. Nothing is
    mirrored between slots, a particle never fades, and it is removed only
    when it leaves the viewport. */
module Visualiser {
  import opened Numeric
  import opened Geometry
  import opened Ring

  /** `totalRingPoints`. */
  const RingPoints: nat := 32

  /** One slot per degree: `for (angle = 0; angle < 360; angle += 1)`. */
  const SlotCount: nat := 360

  /** The radius never exceeds 150 pixels. */
  const MaxRadius: real := 150.0

  /** Bins the ring update reads: `frequencyArray[i * 2]` for i in [0, 16]. */
  const MinimumBins: nat := RingPoints + 1

  /** One entry of the `Uint8Array` filled by `getByteFrequencyData`. */
  newtype Byte = b: int | 0 <= b < 256

  /** `Math.min(width / 3, 150)`. */
  function RadiusFor(width: real): (r: real)
    ensures r <= MaxRadius && 3.0 * r <= width
    ensures r == MaxRadius || 3.0 * r == width
  {
    Min(width / 3.0, MaxRadius)
  }

  /** `frequencyArray[k] / 255`: a byte as a level in [0, 1]. */
  function AudioValue(b: Byte): (a: real)
    ensures 0.0 <= a <= 1.0
  {
    b as real / 255.0
  }

  /** The primary ring's factor `Math.max(1, 0.8 * (1 + audioValue²))`. */
  function PrimaryFactor(b: Byte): (d: real)
    ensures 1.0 <= d <= 1.6
  {
    PowUnitInterval(AudioValue(b), 2);
    Max(1.0, 0.8 * (1.0 + Pow(AudioValue(b), 2)))
  }

  /** The secondary ring's factor `Math.max(1, 0.85 * (1 + audioValue³))`. */
  function SecondaryFactor(b: Byte): (d: real)
    ensures 1.0 <= d <= 1.7
  {
    PowUnitInterval(AudioValue(b), 3);
    Max(1.0, 0.85 * (1.0 + Pow(AudioValue(b), 3)))
  }

  /** A louder bin never gives a level below a quieter one. */
  lemma AudioValueMonotone(b: Byte, c: Byte)
    requires b <= c
    ensures AudioValue(b) <= AudioValue(c)
  {
  }

  /** The primary ring bulges exactly at bins of 128 and above; a quieter bin
      leaves its point on the unit circle (factor 1). */
  lemma PrimaryFactorThreshold(b: Byte)
    ensures PrimaryFactor(b) > 1.0 <==> b >= 128
  {
    var a := AudioValue(b);
    if b >= 128 {
      AudioValueMonotone(128, b);
      PowMonotone(AudioValue(128), a, 2);
      SquareOf(AudioValue(128));
    } else {
      AudioValueMonotone(b, 127);
      PowMonotone(a, AudioValue(127), 2);
      SquareOf(AudioValue(127));
    }
  }

  /** The secondary ring bulges exactly at bins of 144 and above. */
  lemma SecondaryFactorThreshold(b: Byte)
    ensures SecondaryFactor(b) > 1.0 <==> b >= 144
  {
    var a := AudioValue(b);
    if b >= 144 {
      AudioValueMonotone(144, b);
      PowMonotone(AudioValue(144), a, 3);
      CubeOf(AudioValue(144));
    } else {
      AudioValueMonotone(b, 143);
      PowMonotone(a, AudioValue(143), 3);
      CubeOf(AudioValue(143));
    }
  }

  /** `Math.pow(a, 2)` is `a·a`. */
  lemma SquareOf(a: real)
    ensures Pow(a, 2) == a * a
  {
    assert Pow(a, 1) == a * Pow(a, 0);
  }

  /** `Math.pow(a, 3)` is `a·a·a`. */
  lemma CubeOf(a: real)
    ensures Pow(a, 3) == a * a * a
  {
    SquareOf(a);
    assert Pow(a, 3) == a * Pow(a, 2);
  }

  /** A louder bin never pulls a point of either ring inwards. */
  lemma FactorsMonotone(b: Byte, c: Byte)
    requires b <= c
    ensures PrimaryFactor(b) <= PrimaryFactor(c)
    ensures SecondaryFactor(b) <= SecondaryFactor(c)
  {
    AudioValueMonotone(b, c);
    PowMonotone(AudioValue(b), AudioValue(c), 2);
    PowMonotone(AudioValue(b), AudioValue(c), 3);
  }

  /** The primary ring's new factors for indices 0..16, read from the even
      bins 0, 2, ..., 32. */
  function PrimaryFactors(snapshot: seq<Byte>): (fs: seq<real>)
    requires |snapshot| >= MinimumBins
    ensures |fs| == RingPoints / 2 + 1
    ensures forall i :: 0 <= i < |fs| ==> fs[i] == PrimaryFactor(snapshot[2 * i])
    ensures forall i :: 0 <= i < |fs| ==> 1.0 <= fs[i] <= 1.6
  {
    seq(RingPoints / 2 + 1, i requires 0 <= i < RingPoints / 2 + 1 => PrimaryFactor(snapshot[2 * i]))
  }

  /** The secondary ring's new factors, read from the same bins. */
  function SecondaryFactors(snapshot: seq<Byte>): (fs: seq<real>)
    requires |snapshot| >= MinimumBins
    ensures |fs| == RingPoints / 2 + 1
    ensures forall i :: 0 <= i < |fs| ==> fs[i] == SecondaryFactor(snapshot[2 * i])
    ensures forall i :: 0 <= i < |fs| ==> 1.0 <= fs[i] <= 1.7
  {
    seq(RingPoints / 2 + 1, i requires 0 <= i < RingPoints / 2 + 1 => SecondaryFactor(snapshot[2 * i]))
  }

  /** The angle of ring point `k`: 270 - k·360/32 degrees, the values the
      loop `for (angle = 270; angle > -90; angle -= 360 / 32)` visits. */
  function RingAngle(k: nat): real
  {
    270.0 - 11.25 * k as real
  }

  /** A ring of 32 points at their fixed angles whose distance factors all
      lie in [1, hi], the never-written right half (16, 32) at exactly 1. */
  ghost predicate RingShaped(ring: seq<RingPoint>, hi: real)
  {
    |ring| == RingPoints &&
    (forall k :: 0 <= k < RingPoints ==> ring[k].angle == RingAngle(k)) &&
    (forall k :: 0 <= k < RingPoints ==> 1.0 <= ring[k].distanceFactor <= hi) &&
    (forall k :: RingPoints / 2 < k < RingPoints ==> ring[k].distanceFactor == 1.0)
  }

  /** An update with factors in [1, hi] keeps a ring's shape. */
  lemma RingAfterShaped(ring: seq<RingPoint>, factors: seq<real>, hi: real,
                        centerX: real, centerY: real, radius: real, trig: Trig)
    requires RingShaped(ring, hi) && |factors| == RingPoints / 2 + 1
    requires forall i :: 0 <= i < |factors| ==> 1.0 <= factors[i] <= hi
    ensures RingShaped(RingAfter(ring, factors, centerX, centerY, radius, trig), hi)
  {
    var r := RingAfter(ring, factors, centerX, centerY, radius, trig);
    RingAfterAngles(ring, factors, centerX, centerY, radius, trig);
    RingAfterFactors(ring, factors, centerX, centerY, radius, trig);
    forall k | 0 <= k < RingPoints
      ensures 1.0 <= r[k].distanceFactor <= hi
      ensures k > RingPoints / 2 ==> r[k].distanceFactor == 1.0
    {
      assert r[k].distanceFactor == DistanceFactors(r)[k];
      if k > RingPoints / 2 {
        assert DistanceFactors(r)[k] == ring[k].distanceFactor;
      }
    }
  }

  /** The loudness of a shaped primary ring lies in [1, 1.6]. */
  lemma LoudnessBounds(ring: seq<RingPoint>)
    requires RingShaped(ring, 1.6)
    ensures 1.0 <= Loudness(ring) <= 1.6
  {
    var d := DistanceFactors(ring);
    forall k | 0 <= k < |d| ensures 1.0 <= d[k] <= 1.6 {
      assert d[k] == ring[k].distanceFactor;
    }
    MeanBounds(d, 1.0, 1.6);
  }

  /** Before the analyser exists the snapshot is all zeros: every new factor
      is 1, so the primary ring's loudness is exactly 1. */
  lemma SilenceIsUnitLoudness(ring: seq<RingPoint>, snapshot: seq<Byte>,
                              centerX: real, centerY: real, radius: real, trig: Trig)
    requires RingShaped(ring, 1.6) && |snapshot| >= MinimumBins
    requires forall k :: 0 <= k < |snapshot| ==> snapshot[k] == 0
    ensures Loudness(RingAfter(ring, PrimaryFactors(snapshot), centerX, centerY, radius, trig)) == 1.0
  {
    var factors := PrimaryFactors(snapshot);
    var after := RingAfter(ring, factors, centerX, centerY, radius, trig);
    var d := DistanceFactors(after);
    RingAfterFactors(ring, factors, centerX, centerY, radius, trig);
    forall k | 0 <= k < |d| ensures d[k] == 1.0 {
      if k <= RingPoints / 2 {
        PrimaryFactorThreshold(snapshot[2 * k]);
        assert d[k] == PrimaryFactor(snapshot[2 * k]);
      } else {
        assert d[k] == ring[k].distanceFactor;
      }
    }
    SumConstant(d, 1.0);
  }

  /** `Math.pow(currentLoudness, 10) + 0.5`: never below 0.5. */
  function Speed(loudness: real): (s: real)
    ensures s >= 0.5
  {
    EvenPowNonnegative(loudness, 10);
    Pow(loudness, 10) + 0.5
  }

  /** The emission test `Math.pow(currentLoudness, 5) > Math.random() * 50`. */
  predicate Emits(loudness: real, r: real)
  {
    Pow(loudness, 5) > r * 50.0
  }

  /** With the loudness in [1, 1.6] a draw below 0.02 always emits and a
      draw of 0.21 or more never does. */
  lemma EmissionWindow(loudness: real, r: real)
    requires 1.0 <= loudness <= 1.6
    ensures r < 0.02 ==> Emits(loudness, r)
    ensures r >= 0.21 ==> !Emits(loudness, r)
  {
    PowAtLeastOne(loudness, 5);
    PowMonotone(loudness, 1.6, 5);
    assert Pow(1.6, 5) == 10.48576 by {
      assert Pow(1.6, 2) == 2.56;
      assert Pow(1.6, 4) == 2.56 * 2.56 by {
        assert Pow(1.6, 3) == 1.6 * 2.56;
      }
    }
  }

  /** With the loudness at least 1 every particle moves at least 1.5 pixels
      per frame. */
  lemma SpeedFloor(loudness: real)
    requires loudness >= 1.0
    ensures Speed(loudness) >= 1.5
  {
    PowAtLeastOne(loudness, 10);
  }

  /** One particle's update in the `forEach` callback: drift the angle with
      draw `r`, set the speed from the loudness, then move along
      `(sin(angle), cos(angle))` by that speed. Size and opacity never
      change. */
  function Advance(p: Particle, base: real, loudness: real, r: real, trig: Trig): (q: Particle)
    ensures q.size == p.size && q.opacity == p.opacity
    ensures q.speed == Speed(loudness)
    ensures q.angle == p.angle || q.angle == p.angle + AngleChange(r)
    ensures WithinArc(p.angle, base) ==> WithinArc(q.angle, base)
  {
    var angle := Drift(p.angle, base, AngleChange(r));
    var speed := Speed(loudness);
    p.(angle := angle, speed := speed,
       x := p.x + trig.sin(angle) * speed,
       y := p.y + trig.cos(angle) * speed)
  }

  /** A list and the next unused random draw. */
  datatype Swept = Swept(particles: seq<Particle>, cursor: nat)

  /** The `forEach` over a slot's list from index `j` on, with the random
      stream read from `cursor`: each visited particle is advanced and, if it
      has left the viewport, spliced out, so the next one slides into `j`
      and is not visited (`forEach` moves on to `j + 1`). */
  function Sweep(own: seq<Particle>, j: nat, cursor: nat, base: real, f: Frame): (r: Swept)
    ensures |r.particles| <= |own|
    ensures r.cursor >= cursor
    decreases |own| - j
  {
    if j >= |own| then Swept(own, cursor)
    else
      var p := Advance(own[j], base, f.loudness, f.rnd(cursor), f.trig);
      if !Inside(p.x, p.y, f.width, f.height) then
        Sweep(Splice(own, j), j + 1, cursor + 1, base, f)
      else
        Sweep(own[j := p], j + 1, cursor + 1, base, f)
  }

  /** What every particle of a slot satisfies: its angle within the drift
      arc around the slot's angle, its size in [0, 3) and its opacity in
      [0, 1). */
  ghost predicate Admissible(own: seq<Particle>, base: real)
  {
    forall j :: 0 <= j < |own| ==>
      WithinArc(own[j].angle, base) && 0.0 <= own[j].size < 3.0 && 0.0 <= own[j].opacity < 1.0
  }

  /** The sweep keeps every particle admissible. */
  lemma {:induction false} SweepAdmissible(own: seq<Particle>, j: nat, cursor: nat, base: real, f: Frame)
    requires Admissible(own, base)
    ensures Admissible(Sweep(own, j, cursor, base, f).particles, base)
    decreases |own| - j
  {
    if j < |own| {
      var p := Advance(own[j], base, f.loudness, f.rnd(cursor), f.trig);
      if !Inside(p.x, p.y, f.width, f.height) {
        SweepAdmissible(Splice(own, j), j + 1, cursor + 1, base, f);
      } else {
        SweepAdmissible(own[j := p], j + 1, cursor + 1, base, f);
      }
    }
  }

  /** Every particle left after the sweep is either inside the viewport after
      being advanced, or a particle of the input left as it was (one that slid
      into a spliced index and was skipped). */
  lemma {:induction false} SweepSurvivors(own: seq<Particle>, j: nat, cursor: nat, base: real, f: Frame)
    ensures forall q :: q in Sweep(own, j, cursor, base, f).particles ==>
              Inside(q.x, q.y, f.width, f.height) || q in own
    decreases |own| - j
  {
    if j < |own| {
      var p := Advance(own[j], base, f.loudness, f.rnd(cursor), f.trig);
      if !Inside(p.x, p.y, f.width, f.height) {
        SweepSurvivors(Splice(own, j), j + 1, cursor + 1, base, f);
        SpliceSubMultiset(own, j);
        forall q | q in Splice(own, j) ensures q in own {
          assert q in multiset(Splice(own, j));
        }
      } else {
        SweepSurvivors(own[j := p], j + 1, cursor + 1, base, f);
        forall q | q in own[j := p] ensures q == p || q in own {
          var k :| 0 <= k < |own| && own[j := p][k] == q;
          if k != j { assert own[k] == q; }
        }
      }
    }
  }

  /** The converse of `SweepSurvivors`: removal happens only when a particle
      leaves the viewport. If every particle from `j` on stays inside once
      advanced, whatever draw it gets, the sweep removes nothing. */
  lemma {:induction false} SweepKeepsInside(own: seq<Particle>, j: nat, cursor: nat, base: real, f: Frame)
    requires forall k, c: nat :: j <= k < |own| ==>
               var q := Advance(own[k], base, f.loudness, f.rnd(c), f.trig); Inside(q.x, q.y, f.width, f.height)
    ensures |Sweep(own, j, cursor, base, f).particles| == |own|
    decreases |own| - j
  {
    if j < |own| {
      var p := Advance(own[j], base, f.loudness, f.rnd(cursor), f.trig);
      assert Inside(p.x, p.y, f.width, f.height);
      var own' := own[j := p];
      forall k, c: nat | j + 1 <= k < |own'|
        ensures var q := Advance(own'[k], base, f.loudness, f.rnd(c), f.trig); Inside(q.x, q.y, f.width, f.height)
      {
        assert own'[k] == own[k];
      }
      SweepKeepsInside(own', j + 1, cursor + 1, base, f);
    }
  }

  /** A particle that leaves the viewport once advanced is removed: the list
      comes out of the sweep shorter than it went in. */
  lemma SweepRemovesLeaving(own: seq<Particle>, j: nat, cursor: nat, base: real, f: Frame)
    requires j < |own|
    requires var p := Advance(own[j], base, f.loudness, f.rnd(cursor), f.trig); !Inside(p.x, p.y, f.width, f.height)
    ensures |Sweep(own, j, cursor, base, f).particles| < |own|
  {
  }

  /** The (size, opacity) of each particle of a list, in order. */
  function Marks(own: seq<Particle>): (m: seq<(real, real)>)
    ensures |m| == |own|
  {
    seq(|own|, k requires 0 <= k < |own| => (own[k].size, own[k].opacity))
  }

  /** No particle's size or opacity ever changes and no particle is created by
      the sweep: the multiset of (size, opacity) pairs can only shrink. */
  lemma {:induction false} SweepKeepsMarks(own: seq<Particle>, j: nat, cursor: nat, base: real, f: Frame)
    ensures multiset(Marks(Sweep(own, j, cursor, base, f).particles)) <= multiset(Marks(own))
    decreases |own| - j
  {
    if j < |own| {
      var p := Advance(own[j], base, f.loudness, f.rnd(cursor), f.trig);
      if !Inside(p.x, p.y, f.width, f.height) {
        SweepKeepsMarks(Splice(own, j), j + 1, cursor + 1, base, f);
        assert Marks(Splice(own, j)) == Splice(Marks(own), j);
        SpliceSubMultiset(Marks(own), j);
      } else {
        SweepKeepsMarks(own[j := p], j + 1, cursor + 1, base, f);
        assert Marks(own[j := p]) == Marks(own);
      }
    }
  }

  /** A particle that slides into a spliced index is skipped: two particles
      that both start outside the viewport (here, with trigonometry that never
      moves them) enter the sweep and one of them, still outside, comes out. */
  lemma SpliceSkipsNext()
    ensures var gone := Particle(-1.0, 10.0, 1.0, 0.5, 0.0, 0.0);
            var f := Frame(50.0, 50.0, 25.0, 100.0, 100.0, 1.0, Trig(a => 0.0, a => 0.0), n => 0.25);
            var r := Sweep([gone, gone], 0, 0, 0.0, f);
            |r.particles| == 1 && r.particles[0] == gone && !Inside(gone.x, gone.y, f.width, f.height)
  {
    var gone := Particle(-1.0, 10.0, 1.0, 0.5, 0.0, 0.0);
    var f := Frame(50.0, 50.0, 25.0, 100.0, 100.0, 1.0, Trig(a => 0.0, a => 0.0), n => 0.25);
    var p := Advance(gone, 0.0, 1.0, 0.25, f.trig);
    assert p.x == -1.0;
    assert Splice([gone, gone], 0) == [gone];
    assert Sweep([gone, gone], 0, 0, 0.0, f) == Sweep([gone], 1, 1, 0.0, f);
  }

  /** The emission part of a slot's step: draw `cursor` decides; on emission
      draws `cursor + 1` (size) and `cursor + 2` (opacity) follow and the
      list gains a particle at the slot's angle on the circle of radius
      `radius`, at `(centerX + sin(angle)·radius, centerY + cos(angle)·radius)`. */
  function Emission(slot: Slot, cursor: nat, f: Frame): (e: Swept)
    ensures |e.particles| <= |slot.particles| + 1
    ensures e.cursor == cursor + 1 || e.cursor == cursor + 3
  {
    var base := slot.angle;
    if Emits(f.loudness, f.rnd(cursor)) then
      Swept(slot.particles + [Particle(f.centerX + f.trig.sin(base) * f.radius,
                                       f.centerY + f.trig.cos(base) * f.radius,
                                       Pow(f.rnd(cursor + 1), 2) * 3.0,
                                       Pow(f.rnd(cursor + 2), 2), base, 0.0)],
            cursor + 3)
    else
      Swept(slot.particles, cursor + 1)
  }

  /** What the emission does: on a passing test the list gains exactly one
      particle at its end, at the slot's angle, with size `3·r²` and opacity
      `r'²` for the next two draws, and three draws are used; otherwise the
      list is unchanged and one draw is used. */
  lemma EmissionPushes(slot: Slot, cursor: nat, f: Frame)
    ensures var e := Emission(slot, cursor, f);
            var own := slot.particles;
            (Emits(f.loudness, f.rnd(cursor)) ==>
               |e.particles| == |own| + 1 && e.particles[..|own|] == own &&
               e.particles[|own|].angle == slot.angle &&
               e.particles[|own|].size == Pow(f.rnd(cursor + 1), 2) * 3.0 &&
               e.particles[|own|].opacity == Pow(f.rnd(cursor + 2), 2) &&
               e.cursor == cursor + 3) &&
            (!Emits(f.loudness, f.rnd(cursor)) ==> e.particles == own && e.cursor == cursor + 1)
  {
  }

  /** With draws in [0, 1) an emitted particle is admissible. */
  lemma EmissionAdmissible(slot: Slot, cursor: nat, f: Frame)
    requires Admissible(slot.particles, slot.angle) && RandomStream(f.rnd)
    ensures Admissible(Emission(slot, cursor, f).particles, slot.angle)
  {
    EmissionPushes(slot, cursor, f);
    PowBelowOne(f.rnd(cursor + 1), 2);
    PowBelowOne(f.rnd(cursor + 2), 2);
  }

  /** The base angle of particle slot `i`: `i` degrees. */
  function SlotAngle(i: nat): real
  {
    i as real
  }

  /** All 360 slots, with the next unused random draw. */
  datatype SlotsAt = SlotsAt(slots: seq<Slot>, cursor: nat)

  /** Slot `i`'s share of a tick: the emission draw and optional push, then
      the sweep over its list. */
  function SlotStep(s: seq<Slot>, i: nat, cursor: nat, f: Frame): (t: SlotsAt)
    requires |s| == SlotCount && i < SlotCount
    ensures |t.slots| == SlotCount
    ensures forall k :: 0 <= k < SlotCount && k != i ==> t.slots[k] == s[k]
    ensures t.slots[i].angle == s[i].angle
    ensures |t.slots[i].particles| <= |s[i].particles| + 1
  {
    EmissionPushes(s[i], cursor, f);
    var e := Emission(s[i], cursor, f);
    var r := Sweep(e.particles, 0, e.cursor, s[i].angle, f);
    SlotsAt(s[i := s[i].(particles := r.particles)], r.cursor)
  }

  /** `particleCoordinates.forEach(...)` after its first `n` slots. */
  function Tick(s: seq<Slot>, n: nat, cursor: nat, f: Frame): (t: SlotsAt)
    requires |s| == SlotCount && n <= SlotCount
    ensures |t.slots| == SlotCount
  {
    if n == 0 then SlotsAt(s, cursor)
    else
      var p := Tick(s, n - 1, cursor, f);
      SlotStep(p.slots, n - 1, p.cursor, f)
  }

  /** Step `n + 1` is slot `n`'s step on the state the first `n` left. */
  lemma TickNext(s: seq<Slot>, n: nat, cursor: nat, f: Frame)
    requires |s| == SlotCount && n < SlotCount
    ensures var p := Tick(s, n, cursor, f);
            Tick(s, n + 1, cursor, f) == SlotStep(p.slots, n, p.cursor, f)
  {
  }

  /** The first `n` steps leave slot `k >= n` alone. */
  lemma {:induction false} TickFrame(s: seq<Slot>, n: nat, cursor: nat, f: Frame, k: nat)
    requires |s| == SlotCount && n <= k < SlotCount
    ensures Tick(s, n, cursor, f).slots[k] == s[k]
  {
    if n == 0 {
      assert Tick(s, n, cursor, f).slots == s;
    } else {
      TickFrame(s, n - 1, cursor, f, k);
      TickNext(s, n - 1, cursor, f);
      var p := Tick(s, n - 1, cursor, f);
      var t := SlotStep(p.slots, n - 1, p.cursor, f);
      assert t.slots[k] == p.slots[k];
    }
  }

  /** Step `n + 1` leaves an earlier slot `k < n` alone. */
  lemma TickKeeps(s: seq<Slot>, n: nat, cursor: nat, f: Frame, k: nat)
    requires |s| == SlotCount && k < n < SlotCount
    ensures Tick(s, n + 1, cursor, f).slots[k] == Tick(s, n, cursor, f).slots[k]
  {
    TickNext(s, n, cursor, f);
    var p := Tick(s, n, cursor, f);
    var t := SlotStep(p.slots, n, p.cursor, f);
    assert t.slots[k] == p.slots[k];
  }

  /** Step `i + 1` adds at most one particle to slot `i`. */
  lemma TickGrowthLast(s: seq<Slot>, i: nat, cursor: nat, f: Frame)
    requires |s| == SlotCount && i < SlotCount
    ensures |Tick(s, i + 1, cursor, f).slots[i].particles| <= |s[i].particles| + 1
  {
    TickNext(s, i, cursor, f);
    TickFrame(s, i, cursor, f, i);
    var p := Tick(s, i, cursor, f);
    var t := SlotStep(p.slots, i, p.cursor, f);
    assert |t.slots[i].particles| <= |p.slots[i].particles| + 1;
  }

  /** After the first `n` steps slot `k < n` holds at most one particle more
      than before: each slot gains at most one particle per frame. */
  lemma {:induction false} TickGrowth(s: seq<Slot>, n: nat, cursor: nat, f: Frame, k: nat)
    requires |s| == SlotCount && k < n <= SlotCount
    ensures |Tick(s, n, cursor, f).slots[k].particles| <= |s[k].particles| + 1
  {
    if k == n - 1 {
      TickGrowthLast(s, k, cursor, f);
    } else {
      TickGrowth(s, n - 1, cursor, f, k);
      TickKeeps(s, n - 1, cursor, f, k);
    }
  }

  /** 360 slots at their angles, each holding only admissible particles. */
  ghost predicate SlotsShaped(s: seq<Slot>)
  {
    |s| == SlotCount &&
    forall i :: 0 <= i < SlotCount ==> s[i].angle == SlotAngle(i) && Admissible(s[i].particles, s[i].angle)
  }

  /** One slot's step keeps the slots' shape, given draws in [0, 1). */
  lemma SlotStepShaped(s: seq<Slot>, i: nat, cursor: nat, f: Frame)
    requires SlotsShaped(s) && i < SlotCount && RandomStream(f.rnd)
    ensures SlotsShaped(SlotStep(s, i, cursor, f).slots)
  {
    EmissionAdmissible(s[i], cursor, f);
    var e := Emission(s[i], cursor, f);
    SweepAdmissible(e.particles, 0, e.cursor, s[i].angle, f);
    var r := Sweep(e.particles, 0, e.cursor, s[i].angle, f);
    var t := SlotStep(s, i, cursor, f).slots;
    assert t[i] == s[i].(particles := r.particles);
    forall k | 0 <= k < SlotCount
      ensures t[k].angle == SlotAngle(k) && Admissible(t[k].particles, t[k].angle)
    {
      if k != i {
        assert t[k] == s[k];
      }
    }
  }

  /** Step `n + 1` keeps the slots' shape. */
  lemma TickNextShaped(s: seq<Slot>, n: nat, cursor: nat, f: Frame)
    requires |s| == SlotCount && n < SlotCount && RandomStream(f.rnd)
    requires SlotsShaped(Tick(s, n, cursor, f).slots)
    ensures SlotsShaped(Tick(s, n + 1, cursor, f).slots)
  {
    TickNext(s, n, cursor, f);
    var p := Tick(s, n, cursor, f);
    SlotStepShaped(p.slots, n, p.cursor, f);
  }

  /** The whole particle tick keeps every slot at its angle and every
      particle within its slot's drift arc, with size in [0, 3) and opacity
      in [0, 1). */
  lemma {:induction false} TickShaped(s: seq<Slot>, n: nat, cursor: nat, f: Frame)
    requires SlotsShaped(s) && n <= SlotCount && RandomStream(f.rnd)
    ensures SlotsShaped(Tick(s, n, cursor, f).slots)
  {
    if n == 0 {
      assert Tick(s, n, cursor, f).slots == s;
    } else {
      TickShaped(s, n - 1, cursor, f);
      TickNextShaped(s, n - 1, cursor, f);
    }
  }

  /** The `forEach` over one slot's list: advance each visited particle and
      splice it out when it has left the viewport. */
  method SweepList(own0: seq<Particle>, cursor: nat, base: real, f: Frame)
    returns (own: seq<Particle>, next: nat)
    ensures Swept(own, next) == Sweep(own0, 0, cursor, base, f)
  {
    own := own0;
    var j := 0;
    next := cursor;
    while j < |own|
      invariant Sweep(own, j, next, base, f) == Sweep(own0, 0, cursor, base, f)
      decreases |own| - j
    {
      var p := Advance(own[j], base, f.loudness, f.rnd(next), f.trig);
      if !Inside(p.x, p.y, f.width, f.height) {
        own := Splice(own, j);
      } else {
        own := own[j := p];
      }
      j := j + 1;
      next := next + 1;
    }
  }

  /** The emission part of slot `i`'s step, in place. */
  method EmitParticle(slots: array<Slot>, i: nat, cursor: nat, f: Frame) returns (next: nat)
    requires slots.Length == SlotCount && i < SlotCount
    modifies slots
    ensures var e := Emission(old(slots[i]), cursor, f);
            slots[i] == old(slots[i]).(particles := e.particles) && next == e.cursor
    ensures forall k :: 0 <= k < SlotCount && k != i ==> slots[k] == old(slots[k])
  {
    ghost var e := Emission(slots[i], cursor, f);
    var base := slots[i].angle;
    if Emits(f.loudness, f.rnd(cursor)) {
      var size := Pow(f.rnd(cursor + 1), 2) * 3.0;
      var opacity := Pow(f.rnd(cursor + 2), 2);
      var p := Particle(f.centerX + f.trig.sin(base) * f.radius,
                        f.centerY + f.trig.cos(base) * f.radius,
                        size, opacity, base, 0.0);
      assert e.particles[|slots[i].particles|] == p;
      assert e.particles[..|slots[i].particles|] == slots[i].particles;
      assert e.particles == slots[i].particles + [p];
      slots[i] := slots[i].(particles := slots[i].particles + [p]);
      next := cursor + 3;
    } else {
      next := cursor + 1;
    }
  }

  /** Slot `i`'s whole step, in place: emission, then the sweep. */
  method StepSlot(slots: array<Slot>, i: nat, cursor: nat, f: Frame) returns (next: nat)
    requires slots.Length == SlotCount && i < SlotCount
    modifies slots
    ensures var t := SlotStep(old(slots[..]), i, cursor, f);
            slots[..] == t.slots && next == t.cursor
  {
    ghost var before := slots[..];
    ghost var step := SlotStep(before, i, cursor, f);
    var afterEmission := EmitParticle(slots, i, cursor, f);
    var own;
    own, next := SweepList(slots[i].particles, afterEmission, slots[i].angle, f);
    slots[i] := slots[i].(particles := own);
    assert slots[..] == step.slots by {
      forall k | 0 <= k < SlotCount ensures slots[..][k] == step.slots[k] {
        if k != i {
          assert slots[k] == before[k];
        }
      }
    }
  }

  /** `updateParticleCoordinates`: each of the 360 slots in order takes its
      step. */
  method UpdateParticleCoordinates(slots: array<Slot>, cursor: nat, f: Frame) returns (next: nat)
    requires slots.Length == SlotCount
    modifies slots
    ensures var t := Tick(old(slots[..]), SlotCount, cursor, f);
            slots[..] == t.slots && next == t.cursor
  {
    ghost var start := slots[..];
    var i := 0;
    next := cursor;
    while i < slots.Length
      invariant 0 <= i <= SlotCount
      invariant SlotsAt(slots[..], next) == Tick(start, i, cursor, f)
    {
      TickNext(start, i, cursor, f);
      next := StepSlot(slots, i, next, f);
      i := i + 1;
    }
  }

  /** The ring part of `updateCoordinates`: both rings take their new left
      half factors from the even bins and mirror their right half; the
      loudness is the primary ring's mean distance factor. */
  method UpdateRings(primary: array<RingPoint>, secondary: array<RingPoint>, snapshot: seq<Byte>,
                     centerX: real, centerY: real, radius: real, trig: Trig)
    returns (loudness: real)
    requires primary != secondary
    requires RingShaped(primary[..], 1.6) && RingShaped(secondary[..], 1.7) && |snapshot| >= MinimumBins
    modifies primary, secondary
    ensures primary[..] == RingAfter(old(primary[..]), PrimaryFactors(snapshot), centerX, centerY, radius, trig)
    ensures secondary[..] == RingAfter(old(secondary[..]), SecondaryFactors(snapshot), centerX, centerY, radius, trig)
    ensures RingShaped(primary[..], 1.6) && RingShaped(secondary[..], 1.7)
    ensures Mirrored(primary[..], centerX) && Mirrored(secondary[..], centerX)
    ensures loudness == Loudness(primary[..]) && 1.0 <= loudness <= 1.6
  {
    ghost var first := primary[..];
    ghost var second := secondary[..];
    UpdateRing(primary, PrimaryFactors(snapshot), centerX, centerY, radius, trig);
    RingAfterShaped(first, PrimaryFactors(snapshot), 1.6, centerX, centerY, radius, trig);
    RingAfterMirrored(first, PrimaryFactors(snapshot), centerX, centerY, radius, trig);
    ghost var placed := primary[..];
    assert secondary[..] == second;
    UpdateRing(secondary, SecondaryFactors(snapshot), centerX, centerY, radius, trig);
    RingAfterShaped(second, SecondaryFactors(snapshot), 1.7, centerX, centerY, radius, trig);
    RingAfterMirrored(second, SecondaryFactors(snapshot), centerX, centerY, radius, trig);
    assert primary[..] == placed;
    LoudnessBounds(primary[..]);
    loudness := Loudness(primary[..]);
  }

  /** The particle part of `updateCoordinates`: one step of every slot,
      keeping the slots' shape. */
  method UpdateParticles(slots: array<Slot>, f: Frame, cursor: nat) returns (next: nat)
    requires SlotsShaped(slots[..]) && RandomStream(f.rnd)
    modifies slots
    ensures SlotsShaped(slots[..])
    ensures var t := Tick(old(slots[..]), SlotCount, cursor, f);
            slots[..] == t.slots && next == t.cursor
  {
    TickShaped(slots[..], SlotCount, cursor, f);
    next := UpdateParticleCoordinates(slots, cursor, f);
  }

  /** 360 empty slots at their angles have the slots' shape. */
  lemma EmptySlotsShaped(s: seq<Slot>)
    requires |s| == SlotCount && forall i :: 0 <= i < SlotCount ==> s[i] == Slot(SlotAngle(i), [])
    ensures SlotsShaped(s)
  {
  }

  /** The slot set-up loop `for (angle = 0; angle < 360; angle += 1)`. */
  method EmptySlots() returns (slots: array<Slot>)
    ensures fresh(slots) && slots.Length == SlotCount
    ensures forall i :: 0 <= i < SlotCount ==> slots[i] == Slot(SlotAngle(i), [])
  {
    slots := new Slot[SlotCount];
    var angle := 0.0;
    var i := 0;
    while angle < 360.0
      invariant 0 <= i <= SlotCount && angle == SlotAngle(i)
      invariant forall n :: 0 <= n < i ==> slots[n] == Slot(SlotAngle(n), [])
      decreases SlotCount - i
    {
      slots[i] := Slot(angle, []);
      angle := angle + 1.0;
      i := i + 1;
    }
  }

  /** The ring set-up loop `for (angle = 270; angle > -90; angle -= 360 / 32)`:
      each point, at factor 1 on the ellipse through the canvas edges, is
      pushed as a copy onto both rings. */
  method InitialRings(width: real, height: real, trig: Trig) returns (first: array<RingPoint>, second: array<RingPoint>)
    ensures fresh(first) && fresh(second) && first != second
    ensures first.Length == RingPoints && second.Length == RingPoints
    ensures forall k :: 0 <= k < RingPoints ==>
      first[k] == RingPoint(RingAngle(k), Center(width) * trig.cos(-RingAngle(k)),
                            Center(height) * trig.sin(-RingAngle(k)), 1.0) &&
      second[k] == first[k]
  {
    first := new RingPoint[RingPoints];
    second := new RingPoint[RingPoints];
    var angle := 270.0;
    var k := 0;
    while angle > -90.0
      invariant 0 <= k <= RingPoints && angle == RingAngle(k)
      invariant forall n :: 0 <= n < k ==>
        first[n] == RingPoint(RingAngle(n), Center(width) * trig.cos(-RingAngle(n)),
                              Center(height) * trig.sin(-RingAngle(n)), 1.0) &&
        second[n] == first[n]
      decreases RingPoints - k
    {
      var point := RingPoint(angle, Center(width) * trig.cos(-angle), Center(height) * trig.sin(-angle), 1.0);
      first[k] := point;
      second[k] := point;
      angle := angle - 360.0 / RingPoints as real;
      k := k + 1;
    }
  }

  /** The state the component's canvas effect keeps between frames. */
  class Animation {
    const primary: array<RingPoint>
    const secondary: array<RingPoint>
    const slots: array<Slot>
    var width: real
    var height: real
    var radius: real
    var loudness: real

    /** Two distinct 32-point rings with their shapes and 360 shaped slots. */
    ghost predicate Valid()
      reads primary, secondary, slots
    {
      primary != secondary &&
      RingShaped(primary[..], 1.6) && RingShaped(secondary[..], 1.7) && SlotsShaped(slots[..])
    }

    /** Set-up: 360 empty slots at 0, ..., 359 degrees, and two identical
        rings of 32 points at 270, 258.75, ..., -78.75 degrees with factor 1,
        placed on the ellipse through the canvas edges. */
    constructor (width: real, height: real, trig: Trig)
      ensures Valid() && fresh(primary) && fresh(secondary) && fresh(slots)
      ensures this.width == width && this.height == height
      ensures radius == RadiusFor(width) && loudness == 0.0
      ensures forall k :: 0 <= k < RingPoints ==>
        primary[k] == RingPoint(RingAngle(k), Center(width) * trig.cos(-RingAngle(k)),
                                Center(height) * trig.sin(-RingAngle(k)), 1.0) &&
        secondary[k] == primary[k]
      ensures forall i :: 0 <= i < SlotCount ==> slots[i] == Slot(SlotAngle(i), [])
    {
      this.width := width;
      this.height := height;
      radius := RadiusFor(width);
      loudness := 0.0;

      var particleSlots := EmptySlots();
      EmptySlotsShaped(particleSlots[..]);
      var first, second := InitialRings(width, height, trig);
      primary := first;
      secondary := second;
      slots := particleSlots;
    }

    /** `updateCoordinates()`: both rings from the snapshot, the loudness as
        the primary ring's mean factor, then the particle step of every slot
        with that loudness. */
    method UpdateCoordinates(snapshot: seq<Byte>, trig: Trig, rnd: nat -> real, cursor: nat)
      returns (next: nat)
      requires Valid() && |snapshot| >= MinimumBins && RandomStream(rnd)
      modifies primary, secondary, slots, this`loudness
      ensures Valid()
      ensures primary[..] == RingAfter(old(primary[..]), PrimaryFactors(snapshot),
                                       Center(width), Center(height), radius, trig)
      ensures secondary[..] == RingAfter(old(secondary[..]), SecondaryFactors(snapshot),
                                         Center(width), Center(height), radius, trig)
      ensures loudness == Loudness(primary[..]) && 1.0 <= loudness <= 1.6
      ensures var f := Frame(Center(width), Center(height), radius, width, height, loudness, trig, rnd);
              var t := Tick(old(slots[..]), SlotCount, cursor, f);
              slots[..] == t.slots && next == t.cursor
    {
      ghost var start := slots[..];
      var newLoudness := UpdateRings(primary, secondary, snapshot, Center(width), Center(height), radius, trig);
      ghost var first := primary[..];
      ghost var second := secondary[..];
      assert slots[..] == start;
      next := UpdateParticles(slots, Frame(Center(width), Center(height), radius, width, height, newLoudness, trig, rnd), cursor);
      assert primary[..] == first && secondary[..] == second;
      loudness := newLoudness;
    }

    /** The canvas-size part of `draw`: take the window's size and recompute
        the radius. */
    method Resize(newWidth: real, newHeight: real)
      requires Valid()
      modifies this`width, this`height, this`radius
      ensures Valid()
      ensures width == newWidth && height == newHeight && radius == RadiusFor(newWidth)
    {
      width, height, radius := newWidth, newHeight, RadiusFor(newWidth);
    }

    /** One animation frame (`draw` without rendering): resize, then update
        rings and particles. */
    method Draw(newWidth: real, newHeight: real, snapshot: seq<Byte>, trig: Trig,
                rnd: nat -> real, cursor: nat) returns (next: nat)
      requires Valid() && |snapshot| >= MinimumBins && RandomStream(rnd)
      modifies this`width, this`height, this`radius, this`loudness, primary, secondary, slots
      ensures Valid()
      ensures width == newWidth && height == newHeight && radius == RadiusFor(newWidth)
      ensures loudness == Loudness(primary[..]) && 1.0 <= loudness <= 1.6
    {
      Resize(newWidth, newHeight);
      next := UpdateCoordinates(snapshot, trig, rnd, cursor);
    }
  }
}
