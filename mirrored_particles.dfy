/** The mirrored particle update (`updateParticleCoordinates` of App.tsx and
    App.js). Slots 0..179 own their particles; slot 359 - i holds the mirror
    copies of slot i's particles, index for index. Per owning slot: three
    random draws decide a new particle (pushed onto both lists), then a sweep
    with an index `j` advances each particle and either splices both lists at
    `j` or copies the survivor's `x` (reflected), `y` and `opacity` into the
    mirror list. A splice is followed by `j++`, so the particle that slid
    into index `j` is not visited in that tick. */
module MirroredParticles {
  import opened Numeric
  import opened Geometry

  /** 360 slots, one per degree. */
  const SlotCount: nat := 360

  /** Slots [0, 180) own their particles; the loop bound is `length / 2`. */
  const OwnedSlots: nat := 180

  /** The mirror partner of owning slot `i`: `length - 1 - i`. */
  function MirrorOf(i: nat): (m: nat)
    requires i < OwnedSlots
    ensures OwnedSlots <= m < SlotCount
  {
    SlotCount - 1 - i
  }

  /** Per-tick speed `(4·loudness - 3)^exponent + 0.1` for an even exponent:
      never below the 0.1 floor, so particles drift even at silence. */
  function Speed(loudness: real, exponent: nat): (s: real)
    requires exponent % 2 == 0
    ensures s >= 0.1
  {
    EvenPowNonnegative(4.0 * loudness - 3.0, exponent);
    Pow(4.0 * loudness - 3.0, exponent) + 0.1
  }

  /** One particle's advection, in the source's order: drift the angle with
      draw `r`, set the speed, decay the opacity by `0.001·speed`, then move
      by `speed` along the new angle. */
  function Advance(p: Particle, base: real, loudness: real, r: real, exponent: nat, trig: Trig): (q: Particle)
    requires exponent % 2 == 0
    ensures q.speed >= 0.1
    ensures q.opacity < p.opacity
    ensures p.opacity - q.opacity == 0.001 * q.speed
    ensures q.size == p.size
    ensures q.angle == p.angle || q.angle == p.angle + AngleChange(r)
    ensures WithinArc(p.angle, base) ==> WithinArc(q.angle, base)
  {
    var angle := Drift(p.angle, base, AngleChange(r));
    var speed := Speed(loudness, exponent);
    var opacity := p.opacity - 0.001 * speed;
    p.(angle := angle, speed := speed, opacity := opacity,
       x := p.x + trig.cos(-angle) * speed,
       y := p.y + trig.sin(-angle) * speed)
  }

  /** The complement of the removal test: strictly inside the viewport and
      still visible. */
  predicate Survives(p: Particle, width: real, height: real)
  {
    Inside(p.x, p.y, width, height) && p.opacity > 0.0
  }

  /** The mirror particle after the owner `p` survived: reflected `x`, same
      `y` and `opacity`; its own `size`, `angle` and `speed` are untouched. */
  function MirrorCopy(m: Particle, p: Particle, centerX: real): (c: Particle)
    ensures c.x == Reflect(centerX, p.x) && c.y == p.y && c.opacity == p.opacity
    ensures c.size == m.size && c.angle == m.angle && c.speed == m.speed
  {
    m.(x := Reflect(centerX, p.x), y := p.y, opacity := p.opacity)
  }

  /** An owning list and its mirror list, and the next unused random draw. */
  datatype Lists = Lists(own: seq<Particle>, mirror: seq<Particle>, cursor: nat)

  /** The sweep `for (j = ...; j < own.length; j++)` from index `j` on, with
      the random stream read from `cursor`. */
  function Sweep(own: seq<Particle>, mirror: seq<Particle>, j: nat, cursor: nat,
                 base: real, exponent: nat, f: Frame): (r: Lists)
    requires |own| == |mirror| && exponent % 2 == 0
    ensures |r.own| == |r.mirror| <= |own|
    ensures r.cursor >= cursor
    decreases |own| - j
  {
    if j >= |own| then Lists(own, mirror, cursor)
    else
      var p := Advance(own[j], base, f.loudness, f.rnd(cursor), exponent, f.trig);
      if !Survives(p, f.width, f.height) then
        Sweep(Splice(own, j), Splice(mirror, j), j + 1, cursor + 1, base, exponent, f)
      else
        Sweep(own[j := p], mirror[j := MirrorCopy(mirror[j], p, f.centerX)], j + 1, cursor + 1, base, exponent, f)
  }

  /** Mirror pairing that does not depend on the viewport: equal lengths, and
      equal `y`, `size` and `opacity` at every index. */
  ghost predicate Paired(own: seq<Particle>, mirror: seq<Particle>)
  {
    |own| == |mirror| &&
    forall j :: 0 <= j < |own| ==>
      own[j].y == mirror[j].y && own[j].size == mirror[j].size && own[j].opacity == mirror[j].opacity
  }

  /** Every mirror particle's `x` is the reflection of its owner's. */
  ghost predicate Reflected(own: seq<Particle>, mirror: seq<Particle>, centerX: real)
  {
    |own| == |mirror| &&
    forall j :: 0 <= j < |own| ==> mirror[j].x == Reflect(centerX, own[j].x)
  }

  /** What every particle of an owning slot satisfies: its angle within the
      drift arc around the slot's angle and its opacity below 1. */
  ghost predicate Admissible(own: seq<Particle>, base: real)
  {
    forall j :: 0 <= j < |own| ==> WithinArc(own[j].angle, base) && own[j].opacity < 1.0
  }

  /** The sweep keeps the two lists paired: both are spliced at the same index
      and survivors' `y` and `opacity` are copied. */
  lemma {:induction false} SweepPaired(own: seq<Particle>, mirror: seq<Particle>, j: nat, cursor: nat,
                                       base: real, exponent: nat, f: Frame)
    requires Paired(own, mirror) && exponent % 2 == 0
    ensures var r := Sweep(own, mirror, j, cursor, base, exponent, f); Paired(r.own, r.mirror)
    decreases |own| - j
  {
    if j < |own| {
      var p := Advance(own[j], base, f.loudness, f.rnd(cursor), exponent, f.trig);
      if !Survives(p, f.width, f.height) {
        SweepPaired(Splice(own, j), Splice(mirror, j), j + 1, cursor + 1, base, exponent, f);
      } else {
        var mirror' := mirror[j := MirrorCopy(mirror[j], p, f.centerX)];
        assert Paired(own[j := p], mirror');
        SweepPaired(own[j := p], mirror', j + 1, cursor + 1, base, exponent, f);
      }
    }
  }

  /** With a fixed centre line, the sweep keeps every mirror `x` reflected:
      survivors are re-reflected, skipped and untouched pairs keep theirs. */
  lemma {:induction false} SweepReflected(own: seq<Particle>, mirror: seq<Particle>, j: nat, cursor: nat,
                                          base: real, exponent: nat, f: Frame)
    requires Reflected(own, mirror, f.centerX) && exponent % 2 == 0
    ensures var r := Sweep(own, mirror, j, cursor, base, exponent, f); Reflected(r.own, r.mirror, f.centerX)
    decreases |own| - j
  {
    if j < |own| {
      var p := Advance(own[j], base, f.loudness, f.rnd(cursor), exponent, f.trig);
      if !Survives(p, f.width, f.height) {
        SweepReflected(Splice(own, j), Splice(mirror, j), j + 1, cursor + 1, base, exponent, f);
      } else {
        var mirror' := mirror[j := MirrorCopy(mirror[j], p, f.centerX)];
        assert Reflected(own[j := p], mirror', f.centerX);
        SweepReflected(own[j := p], mirror', j + 1, cursor + 1, base, exponent, f);
      }
    }
  }

  /** The sweep keeps every owning particle within the drift arc and below
      full opacity. */
  lemma {:induction false} SweepAdmissible(own: seq<Particle>, mirror: seq<Particle>, j: nat, cursor: nat,
                                           base: real, exponent: nat, f: Frame)
    requires |own| == |mirror| && exponent % 2 == 0 && Admissible(own, base)
    ensures Admissible(Sweep(own, mirror, j, cursor, base, exponent, f).own, base)
    decreases |own| - j
  {
    if j < |own| {
      var p := Advance(own[j], base, f.loudness, f.rnd(cursor), exponent, f.trig);
      if !Survives(p, f.width, f.height) {
        SweepAdmissible(Splice(own, j), Splice(mirror, j), j + 1, cursor + 1, base, exponent, f);
      } else {
        var mirror' := mirror[j := MirrorCopy(mirror[j], p, f.centerX)];
        SweepAdmissible(own[j := p], mirror', j + 1, cursor + 1, base, exponent, f);
      }
    }
  }

  /** Every particle left after the sweep either passed the removal test
      after being advanced, or is a particle of the input list left as it was
      (one that slid into a spliced index and was skipped). */
  lemma {:induction false} SweepSurvivors(own: seq<Particle>, mirror: seq<Particle>, j: nat, cursor: nat,
                                          base: real, exponent: nat, f: Frame)
    requires |own| == |mirror| && exponent % 2 == 0
    ensures forall q :: q in Sweep(own, mirror, j, cursor, base, exponent, f).own ==>
              Survives(q, f.width, f.height) || q in own
    decreases |own| - j
  {
    if j < |own| {
      var p := Advance(own[j], base, f.loudness, f.rnd(cursor), exponent, f.trig);
      if !Survives(p, f.width, f.height) {
        SweepSurvivors(Splice(own, j), Splice(mirror, j), j + 1, cursor + 1, base, exponent, f);
        SpliceSubMultiset(own, j);
        forall q | q in Splice(own, j) ensures q in own {
          assert q in multiset(Splice(own, j));
        }
      } else {
        var mirror' := mirror[j := MirrorCopy(mirror[j], p, f.centerX)];
        SweepSurvivors(own[j := p], mirror', j + 1, cursor + 1, base, exponent, f);
        forall q | q in own[j := p] ensures q == p || q in own {
          var k :| 0 <= k < |own| && own[j := p][k] == q;
          if k != j { assert own[k] == q; }
        }
      }
    }
  }

  /** The converse of `SweepSurvivors`: removal happens only on a failed test.
      If every particle from `j` on passes the test once advanced, whatever
      draw it gets, the sweep removes nothing from either list. */
  lemma {:induction false} SweepKeepsPassing(own: seq<Particle>, mirror: seq<Particle>, j: nat, cursor: nat,
                                             base: real, exponent: nat, f: Frame)
    requires |own| == |mirror| && exponent % 2 == 0
    requires forall k, c: nat :: j <= k < |own| ==>
               Survives(Advance(own[k], base, f.loudness, f.rnd(c), exponent, f.trig), f.width, f.height)
    ensures |Sweep(own, mirror, j, cursor, base, exponent, f).own| == |own|
    decreases |own| - j
  {
    if j < |own| {
      var p := Advance(own[j], base, f.loudness, f.rnd(cursor), exponent, f.trig);
      assert Survives(p, f.width, f.height);
      var own' := own[j := p];
      forall k, c: nat | j + 1 <= k < |own'|
        ensures Survives(Advance(own'[k], base, f.loudness, f.rnd(c), exponent, f.trig), f.width, f.height)
      {
        assert own'[k] == own[k];
      }
      SweepKeepsPassing(own', mirror[j := MirrorCopy(mirror[j], p, f.centerX)], j + 1, cursor + 1, base, exponent, f);
    }
  }

  /** A particle that fails the test once advanced is removed: both lists
      come out of the sweep shorter than they went in. */
  lemma SweepRemovesFailing(own: seq<Particle>, mirror: seq<Particle>, j: nat, cursor: nat,
                            base: real, exponent: nat, f: Frame)
    requires |own| == |mirror| && exponent % 2 == 0 && j < |own|
    requires !Survives(Advance(own[j], base, f.loudness, f.rnd(cursor), exponent, f.trig), f.width, f.height)
    ensures var r := Sweep(own, mirror, j, cursor, base, exponent, f);
            |r.own| < |own| && |r.mirror| < |mirror|
  {
  }

  /** Mirrors keep the centre of the frame that last wrote them. After a
      resize moves the centre from 50 to 60, a particle skipped after a splice
      keeps a mirror reflected around 50, so the lists are no longer
      reflected around the new centre. */
  lemma SkippedMirrorKeepsOldCentre()
    ensures var gone := Particle(-1.0, 10.0, 1.0, 0.5, 90.0, 0.0);
            var keep := Particle(20.0, 10.0, 1.0, 0.5, 90.0, 0.0);
            var own := [gone, keep];
            var mirror := [gone.(x := Reflect(50.0, gone.x)), keep.(x := Reflect(50.0, keep.x))];
            var f := Frame(60.0, 50.0, 25.0, 120.0, 100.0, 1.0, Trig(a => 0.0, a => 0.0), n => 0.25);
            var r := Sweep(own, mirror, 0, 0, 90.0, 4, f);
            Reflected(own, mirror, 50.0) && r.own == [keep] && !Reflected(r.own, r.mirror, 60.0)
  {
    var gone := Particle(-1.0, 10.0, 1.0, 0.5, 90.0, 0.0);
    var keep := Particle(20.0, 10.0, 1.0, 0.5, 90.0, 0.0);
    var own := [gone, keep];
    var mirror := [gone.(x := Reflect(50.0, gone.x)), keep.(x := Reflect(50.0, keep.x))];
    var f := Frame(60.0, 50.0, 25.0, 120.0, 100.0, 1.0, Trig(a => 0.0, a => 0.0), n => 0.25);
    var p := Advance(gone, 90.0, 1.0, 0.25, 4, f.trig);
    assert p.x == -1.0;
    assert !Survives(p, f.width, f.height);
    assert Splice(own, 0) == [keep];
    assert Splice(mirror, 0) == [mirror[1]];
    assert Sweep(own, mirror, 0, 0, 90.0, 4, f) == Sweep([keep], [mirror[1]], 1, 1, 90.0, 4, f);
    assert mirror[1].x == 80.0 && Reflect(60.0, keep.x) == 100.0;
  }

  /** A particle that slides into a spliced index is skipped: two particles
      that both leave the viewport (here, with trigonometry that never moves
      them) enter the sweep and one of them, still outside, comes out. */
  lemma SpliceSkipsNext()
    ensures var gone := Particle(-1.0, 10.0, 1.0, 0.5, 90.0, 0.0);
            var f := Frame(50.0, 50.0, 25.0, 100.0, 100.0, 1.0, Trig(a => 0.0, a => 0.0), n => 0.25);
            var r := Sweep([gone, gone], [gone, gone], 0, 0, 90.0, 4, f);
            |r.own| == 1 && r.own[0] == gone && !Inside(r.own[0].x, r.own[0].y, f.width, f.height)
  {
    var gone := Particle(-1.0, 10.0, 1.0, 0.5, 90.0, 0.0);
    var f := Frame(50.0, 50.0, 25.0, 100.0, 100.0, 1.0, Trig(a => 0.0, a => 0.0), n => 0.25);
    var p := Advance(gone, 90.0, 1.0, 0.25, 4, f.trig);
    assert p.x == -1.0;
    assert !Survives(p, f.width, f.height);
    assert Splice([gone, gone], 0) == [gone];
    assert Sweep([gone, gone], [gone, gone], 0, 0, 90.0, 4, f)
        == Sweep([gone], [gone], 1, 1, 90.0, 4, f);
  }

  /** `Math.pow(r, 2) * 3 * radius / 300` (App.tsx) or `Math.pow(r, 2) * 3`
      (App.js) for the size draw `r`. */
  function ParticleSize(r: real, radius: real, sizeByRadius: bool): real
  {
    if sizeByRadius then Pow(r, 2) * 3.0 * radius / 300.0 else Pow(r, 2) * 3.0
  }

  /** The emission test `Math.pow(4·loudness - 3, 5) > r·60`. */
  predicate Emits(loudness: real, r: real)
  {
    Pow(4.0 * loudness - 3.0, 5) > r * 60.0
  }

  /** All 360 slots, with the next unused random draw. */
  datatype SlotsAt = SlotsAt(slots: seq<Slot>, cursor: nat)

  /** Both lists of owning slot `i` and its mirror have equal lengths. */
  ghost predicate PairLengths(s: seq<Slot>, i: nat)
    requires |s| == SlotCount && i < OwnedSlots
  {
    |s[i].particles| == |s[MirrorOf(i)].particles|
  }

  /** The slot invariant: 360 slots; every owning slot is paired with its
      mirror and holds only admissible particles. */
  ghost predicate ValidSlots(s: seq<Slot>)
  {
    |s| == SlotCount && PairLengthsFrom(s, 0) &&
    forall i :: 0 <= i < OwnedSlots ==>
      Paired(s[i].particles, s[MirrorOf(i)].particles) && Admissible(s[i].particles, s[i].angle)
  }

  /** Every mirror list holds the reflections of its owner's `x` values. */
  ghost predicate ReflectedSlots(s: seq<Slot>, centerX: real)
  {
    |s| == SlotCount &&
    forall i :: 0 <= i < OwnedSlots ==> Reflected(s[i].particles, s[MirrorOf(i)].particles, centerX)
  }

  /** The emission part of owning slot `i`'s step: draws `cursor` (size),
      `cursor + 1` (opacity) and `cursor + 2` (the test). On emission the
      owning list gains a particle on the ring circle at the slot's angle and
      the mirror list gains its reflection, with equal `y`, `size` and
      `opacity`; otherwise both lists are unchanged. */
  function Emission(s: seq<Slot>, i: nat, cursor: nat, sizeByRadius: bool, f: Frame): (e: Lists)
    requires |s| == SlotCount && i < OwnedSlots
    ensures e.cursor == cursor + 3
  {
    var m := MirrorOf(i);
    var base := s[i].angle;
    var x := f.centerX + f.trig.cos(-base) * f.radius;
    var y := f.centerY + f.trig.sin(-base) * f.radius;
    var size := ParticleSize(f.rnd(cursor), f.radius, sizeByRadius);
    var opacity := Pow(f.rnd(cursor + 1), 2);
    if Emits(f.loudness, f.rnd(cursor + 2)) then
      Lists(s[i].particles + [Particle(x, y, size, opacity, base, 0.0)],
            s[m].particles + [Particle(Reflect(f.centerX, x), y, size, opacity, base, 0.0)],
            cursor + 3)
    else
      Lists(s[i].particles, s[m].particles, cursor + 3)
  }

  /** What the emission does to the two lists: on a passing test both gain
      one particle at the end, the owning one on the ring circle at the
      slot's angle with opacity `r²` and the mirror one its reflection with
      equal `y`, `size` and `opacity`; otherwise both are unchanged. */
  lemma EmissionPushes(s: seq<Slot>, i: nat, cursor: nat, sizeByRadius: bool, f: Frame)
    requires |s| == SlotCount && i < OwnedSlots
    ensures var e := Emission(s, i, cursor, sizeByRadius, f);
            var own := s[i].particles;
            var mirror := s[MirrorOf(i)].particles;
            var emit := Emits(f.loudness, f.rnd(cursor + 2));
            (emit ==> |e.own| == |own| + 1 && e.own[..|own|] == own &&
                      |e.mirror| == |mirror| + 1 && e.mirror[..|mirror|] == mirror &&
                      e.own[|own|].angle == s[i].angle &&
                      e.own[|own|].opacity == Pow(f.rnd(cursor + 1), 2) &&
                      e.own[|own|].y == e.mirror[|mirror|].y &&
                      e.own[|own|].size == e.mirror[|mirror|].size &&
                      e.own[|own|].opacity == e.mirror[|mirror|].opacity &&
                      e.mirror[|mirror|].x == Reflect(f.centerX, e.own[|own|].x)) &&
            (!emit ==> e.own == own && e.mirror == mirror)
  {
  }

  /** Owning slot `i`'s share of a tick: the three draws for size, opacity and
      the emission test, the optional push of a particle at the slot's angle
      on the ring circle (and of its reflection into the mirror slot), then
      the sweep over the owning list. */
  function SlotStep(s: seq<Slot>, i: nat, cursor: nat, exponent: nat, sizeByRadius: bool, f: Frame): (t: SlotsAt)
    requires |s| == SlotCount && i < OwnedSlots && exponent % 2 == 0 && PairLengths(s, i)
    ensures |t.slots| == SlotCount
    ensures forall k :: 0 <= k < SlotCount && k != i && k != MirrorOf(i) ==> t.slots[k] == s[k]
    ensures PairLengths(t.slots, i)
    ensures |t.slots[i].particles| <= |s[i].particles| + 1
  {
    var m := MirrorOf(i);
    EmissionPushes(s, i, cursor, sizeByRadius, f);
    var e := Emission(s, i, cursor, sizeByRadius, f);
    var r := Sweep(e.own, e.mirror, 0, cursor + 3, s[i].angle, exponent, f);
    SlotsAt(s[i := s[i].(particles := r.own)][m := s[m].(particles := r.mirror)], r.cursor)
  }

  /** Every owning slot from `i` on has a list as long as its mirror's. */
  ghost predicate PairLengthsFrom(s: seq<Slot>, i: nat)
    requires |s| == SlotCount
  {
    forall k :: i <= k < OwnedSlots ==> PairLengths(s, k)
  }

  /** The loop `for (i = 0; i < length / 2; i++)` after its first `n`
      iterations: owning slots [0, n) have taken their step, in order. */
  function Tick(s: seq<Slot>, n: nat, cursor: nat, exponent: nat, sizeByRadius: bool, f: Frame): (t: SlotsAt)
    requires |s| == SlotCount && n <= OwnedSlots && exponent % 2 == 0 && PairLengthsFrom(s, 0)
    ensures |t.slots| == SlotCount && PairLengthsFrom(t.slots, n)
  {
    if n == 0 then SlotsAt(s, cursor)
    else
      var p := Tick(s, n - 1, cursor, exponent, sizeByRadius, f);
      SlotStepPairLengths(p.slots, n - 1, p.cursor, exponent, sizeByRadius, f);
      SlotStep(p.slots, n - 1, p.cursor, exponent, sizeByRadius, f)
  }

  /** Iteration `n + 1` of the loop is owning slot `n`'s step on the state
      the first `n` iterations left. */
  lemma TickNext(s: seq<Slot>, n: nat, cursor: nat, exponent: nat, sizeByRadius: bool, f: Frame)
    requires |s| == SlotCount && n < OwnedSlots && exponent % 2 == 0 && PairLengthsFrom(s, 0)
    ensures var p := Tick(s, n, cursor, exponent, sizeByRadius, f);
            PairLengths(p.slots, n) &&
            Tick(s, n + 1, cursor, exponent, sizeByRadius, f)
              == SlotStep(p.slots, n, p.cursor, exponent, sizeByRadius, f)
  {
  }

  /** No step moves a slot: every slot keeps its angle. */
  lemma SlotStepAngles(s: seq<Slot>, i: nat, cursor: nat, exponent: nat, sizeByRadius: bool, f: Frame)
    requires |s| == SlotCount && i < OwnedSlots && exponent % 2 == 0 && PairLengths(s, i)
    ensures var t := SlotStep(s, i, cursor, exponent, sizeByRadius, f).slots;
            forall k :: 0 <= k < SlotCount ==> t[k].angle == s[k].angle
  {
  }

  /** The tick keeps every slot's angle. */
  lemma {:induction false} TickAngles(s: seq<Slot>, n: nat, cursor: nat, exponent: nat, sizeByRadius: bool, f: Frame)
    requires |s| == SlotCount && n <= OwnedSlots && exponent % 2 == 0 && PairLengthsFrom(s, 0)
    ensures var t := Tick(s, n, cursor, exponent, sizeByRadius, f).slots;
            forall k :: 0 <= k < SlotCount ==> t[k].angle == s[k].angle
  {
    if n == 0 {
      assert Tick(s, n, cursor, exponent, sizeByRadius, f).slots == s;
    } else {
      TickAngles(s, n - 1, cursor, exponent, sizeByRadius, f);
      TickNext(s, n - 1, cursor, exponent, sizeByRadius, f);
      var p := Tick(s, n - 1, cursor, exponent, sizeByRadius, f);
      SlotStepAngles(p.slots, n - 1, p.cursor, exponent, sizeByRadius, f);
    }
  }

  /** One owning slot's step keeps the slot invariant, given draws in [0, 1). */
  lemma SlotStepValid(s: seq<Slot>, i: nat, cursor: nat, exponent: nat, sizeByRadius: bool, f: Frame)
    requires ValidSlots(s) && i < OwnedSlots && exponent % 2 == 0 && RandomStream(f.rnd)
    ensures ValidSlots(SlotStep(s, i, cursor, exponent, sizeByRadius, f).slots)
  {
    var t := SlotStep(s, i, cursor, exponent, sizeByRadius, f).slots;
    SweptSlotValid(s, i, cursor, exponent, sizeByRadius, f);
    forall k | 0 <= k < OwnedSlots
      ensures PairLengths(t, k)
      ensures Paired(t[k].particles, t[MirrorOf(k)].particles)
      ensures Admissible(t[k].particles, t[k].angle)
    {
      if k != i {
        assert k != MirrorOf(i) && MirrorOf(k) != i && MirrorOf(k) != MirrorOf(i);
        assert t[k] == s[k] && t[MirrorOf(k)] == s[MirrorOf(k)];
      }
    }
  }

  /** The swept owning slot and its mirror are paired and admissible. */
  lemma SweptSlotValid(s: seq<Slot>, i: nat, cursor: nat, exponent: nat, sizeByRadius: bool, f: Frame)
    requires ValidSlots(s) && i < OwnedSlots && exponent % 2 == 0 && RandomStream(f.rnd)
    ensures var t := SlotStep(s, i, cursor, exponent, sizeByRadius, f).slots;
            Paired(t[i].particles, t[MirrorOf(i)].particles) && Admissible(t[i].particles, t[i].angle)
  {
    var m := MirrorOf(i);
    var base := s[i].angle;
    PowBelowOne(f.rnd(cursor + 1), 2);
    EmissionPushes(s, i, cursor, sizeByRadius, f);
    var e := Emission(s, i, cursor, sizeByRadius, f);
    assert Paired(e.own, e.mirror);
    assert Admissible(e.own, base);
    SweepPaired(e.own, e.mirror, 0, cursor + 3, base, exponent, f);
    SweepAdmissible(e.own, e.mirror, 0, cursor + 3, base, exponent, f);
    var r := Sweep(e.own, e.mirror, 0, cursor + 3, base, exponent, f);
    var t := SlotStep(s, i, cursor, exponent, sizeByRadius, f).slots;
    assert t[i] == s[i].(particles := r.own) && t[m] == s[m].(particles := r.mirror);
  }

  /** The whole particle tick keeps the slot invariant: paired lists stay
      equally long with equal `y`, `size` and `opacity`, and owning particles
      stay within the drift arc and below full opacity. */
  lemma {:induction false} TickValid(s: seq<Slot>, n: nat, cursor: nat, exponent: nat, sizeByRadius: bool, f: Frame)
    requires ValidSlots(s) && n <= OwnedSlots && exponent % 2 == 0 && RandomStream(f.rnd)
    ensures ValidSlots(Tick(s, n, cursor, exponent, sizeByRadius, f).slots)
  {
    if n == 0 {
      assert Tick(s, n, cursor, exponent, sizeByRadius, f).slots == s;
    } else {
      TickValid(s, n - 1, cursor, exponent, sizeByRadius, f);
      TickNextValid(s, n - 1, cursor, exponent, sizeByRadius, f);
    }
  }

  /** Iteration `n + 1` keeps the slot invariant. */
  lemma TickNextValid(s: seq<Slot>, n: nat, cursor: nat, exponent: nat, sizeByRadius: bool, f: Frame)
    requires |s| == SlotCount && PairLengthsFrom(s, 0) && n < OwnedSlots && exponent % 2 == 0 && RandomStream(f.rnd)
    requires ValidSlots(Tick(s, n, cursor, exponent, sizeByRadius, f).slots)
    ensures ValidSlots(Tick(s, n + 1, cursor, exponent, sizeByRadius, f).slots)
  {
    TickNext(s, n, cursor, exponent, sizeByRadius, f);
    var p := Tick(s, n, cursor, exponent, sizeByRadius, f);
    SlotStepValid(p.slots, n, p.cursor, exponent, sizeByRadius, f);
  }

  /** With the centre line fixed, the tick keeps every mirror `x` reflected. */
  lemma {:induction false} TickReflected(s: seq<Slot>, n: nat, cursor: nat, exponent: nat, sizeByRadius: bool, f: Frame)
    requires |s| == SlotCount && PairLengthsFrom(s, 0) && ReflectedSlots(s, f.centerX)
    requires n <= OwnedSlots && exponent % 2 == 0
    ensures ReflectedSlots(Tick(s, n, cursor, exponent, sizeByRadius, f).slots, f.centerX)
  {
    if n == 0 {
      assert Tick(s, n, cursor, exponent, sizeByRadius, f).slots == s;
    } else {
      TickReflected(s, n - 1, cursor, exponent, sizeByRadius, f);
      TickNextReflected(s, n - 1, cursor, exponent, sizeByRadius, f);
    }
  }

  /** Iteration `n + 1` keeps every mirror `x` reflected. */
  lemma TickNextReflected(s: seq<Slot>, n: nat, cursor: nat, exponent: nat, sizeByRadius: bool, f: Frame)
    requires |s| == SlotCount && PairLengthsFrom(s, 0) && n < OwnedSlots && exponent % 2 == 0
    requires ReflectedSlots(Tick(s, n, cursor, exponent, sizeByRadius, f).slots, f.centerX)
    ensures ReflectedSlots(Tick(s, n + 1, cursor, exponent, sizeByRadius, f).slots, f.centerX)
  {
    TickNext(s, n, cursor, exponent, sizeByRadius, f);
    var p := Tick(s, n, cursor, exponent, sizeByRadius, f);
    SlotStepReflected(p.slots, n, p.cursor, exponent, sizeByRadius, f);
  }

  /** One owning slot's step keeps every mirror `x` reflected. */
  lemma SlotStepReflected(s: seq<Slot>, i: nat, cursor: nat, exponent: nat, sizeByRadius: bool, f: Frame)
    requires ReflectedSlots(s, f.centerX) && i < OwnedSlots && exponent % 2 == 0 && PairLengths(s, i)
    ensures ReflectedSlots(SlotStep(s, i, cursor, exponent, sizeByRadius, f).slots, f.centerX)
  {
    var m := MirrorOf(i);
    var base := s[i].angle;
    EmissionPushes(s, i, cursor, sizeByRadius, f);
    var e := Emission(s, i, cursor, sizeByRadius, f);
    var own, mirror := e.own, e.mirror;
    assert Reflected(own, mirror, f.centerX);
    SweepReflected(own, mirror, 0, cursor + 3, base, exponent, f);
    var t := SlotStep(s, i, cursor, exponent, sizeByRadius, f);
    forall k | 0 <= k < OwnedSlots
      ensures Reflected(t.slots[k].particles, t.slots[MirrorOf(k)].particles, f.centerX)
    {
      if k != i {
        assert t.slots[k] == s[k] && t.slots[MirrorOf(k)] == s[MirrorOf(k)];
      } else {
        var r := Sweep(own, mirror, 0, cursor + 3, base, exponent, f);
        assert t.slots[i].particles == r.own && t.slots[m].particles == r.mirror;
      }
    }
  }

  /** The step of slot `i` keeps the later slots' pair lengths. */
  lemma SlotStepPairLengths(s: seq<Slot>, i: nat, cursor: nat, exponent: nat, sizeByRadius: bool, f: Frame)
    requires |s| == SlotCount && i < OwnedSlots && exponent % 2 == 0 && PairLengthsFrom(s, i)
    ensures PairLengthsFrom(SlotStep(s, i, cursor, exponent, sizeByRadius, f).slots, i + 1)
  {
    var t := SlotStep(s, i, cursor, exponent, sizeByRadius, f);
    forall k | i + 1 <= k < OwnedSlots ensures PairLengths(t.slots, k) {
      assert PairLengths(s, k);
    }
  }

  /** The first `n` iterations leave owning slot `k >= n` and its mirror alone. */
  lemma {:induction false} TickFrame(s: seq<Slot>, n: nat, cursor: nat, exponent: nat, sizeByRadius: bool, f: Frame, k: nat)
    requires |s| == SlotCount && PairLengthsFrom(s, 0) && n <= k < OwnedSlots && exponent % 2 == 0
    ensures var t := Tick(s, n, cursor, exponent, sizeByRadius, f).slots;
            t[k] == s[k] && t[MirrorOf(k)] == s[MirrorOf(k)]
  {
    if n == 0 {
      assert Tick(s, n, cursor, exponent, sizeByRadius, f).slots == s;
    } else {
      TickFrame(s, n - 1, cursor, exponent, sizeByRadius, f, k);
      TickNext(s, n - 1, cursor, exponent, sizeByRadius, f);
      var p := Tick(s, n - 1, cursor, exponent, sizeByRadius, f);
      var t := SlotStep(p.slots, n - 1, p.cursor, exponent, sizeByRadius, f);
      var m := MirrorOf(k);
      assert k != n - 1 && k != MirrorOf(n - 1) && m != n - 1 && m != MirrorOf(n - 1);
      assert t.slots[k] == p.slots[k] && t.slots[m] == p.slots[m];
    }
  }

  /** After the first `n` iterations owning slot `k < n` holds at most one
      particle more than before: each slot gains at most one particle per tick. */
  lemma {:induction false} TickGrowth(s: seq<Slot>, n: nat, cursor: nat, exponent: nat, sizeByRadius: bool, f: Frame, k: nat)
    requires |s| == SlotCount && PairLengthsFrom(s, 0) && k < n <= OwnedSlots && exponent % 2 == 0
    ensures |Tick(s, n, cursor, exponent, sizeByRadius, f).slots[k].particles| <= |s[k].particles| + 1
  {
    if k == n - 1 {
      TickGrowthLast(s, k, cursor, exponent, sizeByRadius, f);
    } else {
      TickGrowth(s, n - 1, cursor, exponent, sizeByRadius, f, k);
      TickKeeps(s, n - 1, cursor, exponent, sizeByRadius, f, k);
    }
  }

  /** Iteration `i + 1` adds at most one particle to owning slot `i`, which
      the earlier iterations left alone. */
  lemma TickGrowthLast(s: seq<Slot>, i: nat, cursor: nat, exponent: nat, sizeByRadius: bool, f: Frame)
    requires |s| == SlotCount && PairLengthsFrom(s, 0) && i < OwnedSlots && exponent % 2 == 0
    ensures |Tick(s, i + 1, cursor, exponent, sizeByRadius, f).slots[i].particles| <= |s[i].particles| + 1
  {
    TickNext(s, i, cursor, exponent, sizeByRadius, f);
    TickFrame(s, i, cursor, exponent, sizeByRadius, f, i);
    var p := Tick(s, i, cursor, exponent, sizeByRadius, f);
    var t := SlotStep(p.slots, i, p.cursor, exponent, sizeByRadius, f);
    assert |t.slots[i].particles| <= |p.slots[i].particles| + 1;
  }

  /** Iteration `n + 1` leaves an earlier owning slot `k < n` alone. */
  lemma TickKeeps(s: seq<Slot>, n: nat, cursor: nat, exponent: nat, sizeByRadius: bool, f: Frame, k: nat)
    requires |s| == SlotCount && PairLengthsFrom(s, 0) && k < n < OwnedSlots && exponent % 2 == 0
    ensures Tick(s, n + 1, cursor, exponent, sizeByRadius, f).slots[k]
         == Tick(s, n, cursor, exponent, sizeByRadius, f).slots[k]
  {
    TickNext(s, n, cursor, exponent, sizeByRadius, f);
    var p := Tick(s, n, cursor, exponent, sizeByRadius, f);
    var t := SlotStep(p.slots, n, p.cursor, exponent, sizeByRadius, f);
    assert k != n && k != MirrorOf(n);
    assert t.slots[k] == p.slots[k];
  }

  /** The inner `for (j ...)` loop over owning list `own` and its mirror
      list: advances each visited particle and either splices both lists at
      `j` or copies the survivor into the mirror, then moves `j` on. */
  method SweepLists(own0: seq<Particle>, mirror0: seq<Particle>, cursor: nat, base: real, exponent: nat, f: Frame)
    returns (own: seq<Particle>, mirror: seq<Particle>, next: nat)
    requires |own0| == |mirror0| && exponent % 2 == 0
    ensures Lists(own, mirror, next) == Sweep(own0, mirror0, 0, cursor, base, exponent, f)
  {
    own, mirror := own0, mirror0;
    var j := 0;
    next := cursor;
    while j < |own|
      invariant |own| == |mirror|
      invariant Sweep(own, mirror, j, next, base, exponent, f) == Sweep(own0, mirror0, 0, cursor, base, exponent, f)
      decreases |own| - j
    {
      var p := Advance(own[j], base, f.loudness, f.rnd(next), exponent, f.trig);
      if !Survives(p, f.width, f.height) {
        own := Splice(own, j);
        mirror := Splice(mirror, j);
      } else {
        mirror := mirror[j := MirrorCopy(mirror[j], p, f.centerX)];
        own := own[j := p];
      }
      j := j + 1;
      next := next + 1;
    }
  }

  /** The sweep of owning slot `i`, in place on the slot array: slot `i` and
      its mirror slot receive the swept lists; no other slot changes. */
  method SweepSlot(slots: array<Slot>, i: nat, cursor: nat, exponent: nat, f: Frame) returns (next: nat)
    requires slots.Length == SlotCount && i < OwnedSlots && exponent % 2 == 0
    requires PairLengths(slots[..], i)
    modifies slots
    ensures var m := MirrorOf(i);
            var r := Sweep(old(slots[i].particles), old(slots[m].particles), 0, cursor, old(slots[i].angle), exponent, f);
            slots[i] == old(slots[i]).(particles := r.own) &&
            slots[m] == old(slots[m]).(particles := r.mirror) &&
            next == r.cursor
    ensures forall k :: 0 <= k < SlotCount && k != i && k != MirrorOf(i) ==> slots[k] == old(slots[k])
  {
    var m := slots.Length - i - 1;
    var own, mirror;
    own, mirror, next := SweepLists(slots[i].particles, slots[m].particles, cursor, slots[i].angle, exponent, f);
    slots[i] := slots[i].(particles := own);
    slots[m] := slots[m].(particles := mirror);
  }

  /** The emission part of owning slot `i`'s step, in place: the three draws
      and, when the test passes, one push onto slot `i` and one onto its
      mirror slot. */
  method EmitParticle(slots: array<Slot>, i: nat, cursor: nat, sizeByRadius: bool, f: Frame)
    requires slots.Length == SlotCount && i < OwnedSlots
    modifies slots
    ensures var e := Emission(old(slots[..]), i, cursor, sizeByRadius, f);
            var m := MirrorOf(i);
            slots[i] == old(slots[i]).(particles := e.own) &&
            slots[m] == old(slots[m]).(particles := e.mirror)
    ensures forall k :: 0 <= k < SlotCount && k != i && k != MirrorOf(i) ==> slots[k] == old(slots[k])
  {
    ghost var before := slots[..];
    EmissionPushes(before, i, cursor, sizeByRadius, f);
    ghost var e := Emission(before, i, cursor, sizeByRadius, f);
    var m := slots.Length - i - 1;
    assert before[i] == slots[i] && before[m] == slots[m];
    var base := slots[i].angle;
    var x := f.centerX + f.trig.cos(-base) * f.radius;
    var y := f.centerY + f.trig.sin(-base) * f.radius;
    var size := ParticleSize(f.rnd(cursor), f.radius, sizeByRadius);
    var opacity := Pow(f.rnd(cursor + 1), 2);
    if Emits(f.loudness, f.rnd(cursor + 2)) {
      var n := |before[i].particles|;
      assert e.own[n] == Particle(x, y, size, opacity, base, 0.0);
      assert e.own[..n] == slots[i].particles;
      assert e == Lists(slots[i].particles + [Particle(x, y, size, opacity, base, 0.0)],
                        slots[m].particles + [Particle(Reflect(f.centerX, x), y, size, opacity, base, 0.0)],
                        cursor + 3);
      slots[i] := slots[i].(particles := slots[i].particles + [Particle(x, y, size, opacity, base, 0.0)]);
      slots[m] := slots[m].(particles := slots[m].particles + [Particle(Reflect(f.centerX, x), y, size, opacity, base, 0.0)]);
    }
  }

  /** Owning slot `i`'s whole step, in place: emission, then the sweep. */
  method StepSlot(slots: array<Slot>, i: nat, cursor: nat, exponent: nat, sizeByRadius: bool, f: Frame)
    returns (next: nat)
    requires slots.Length == SlotCount && i < OwnedSlots && exponent % 2 == 0
    requires PairLengths(slots[..], i)
    modifies slots
    ensures var t := SlotStep(old(slots[..]), i, cursor, exponent, sizeByRadius, f);
            slots[..] == t.slots && next == t.cursor
  {
    ghost var before := slots[..];
    ghost var step := SlotStep(before, i, cursor, exponent, sizeByRadius, f);
    var m := slots.Length - i - 1;
    EmitParticle(slots, i, cursor, sizeByRadius, f);
    next := SweepSlot(slots, i, cursor + 3, exponent, f);
    assert slots[..] == step.slots by {
      forall k | 0 <= k < SlotCount ensures slots[..][k] == step.slots[k] {
        if k != i && k != m {
          assert slots[k] == before[k];
        }
      }
    }
  }

  /** `updateParticleCoordinates`: for each owning slot `i` in [0, 180), the
      emission draws and optional push onto slot `i` and slot `359 - i`,
      then the in-place sweep. */
  method UpdateParticleCoordinates(slots: array<Slot>, cursor: nat, exponent: nat, sizeByRadius: bool, f: Frame)
    returns (next: nat)
    requires ValidSlots(slots[..]) && exponent % 2 == 0 && RandomStream(f.rnd)
    modifies slots
    ensures ValidSlots(slots[..])
    ensures var t := Tick(old(slots[..]), OwnedSlots, cursor, exponent, sizeByRadius, f);
            slots[..] == t.slots && next == t.cursor
  {
    ghost var start := slots[..];
    TickValid(start, OwnedSlots, cursor, exponent, sizeByRadius, f);
    var i := 0;
    next := cursor;
    while i < slots.Length / 2
      invariant 0 <= i <= OwnedSlots
      invariant SlotsAt(slots[..], next) == Tick(start, i, cursor, exponent, sizeByRadius, f)
    {
      TickNext(start, i, cursor, exponent, sizeByRadius, f);
      next := StepSlot(slots, i, next, exponent, sizeByRadius, f);
      i := i + 1;
    }
  }
}
