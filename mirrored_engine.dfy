/** The frame engine of App.tsx and App.js: a 48-point mirrored ring driven by
    a float (dBFS) frequency snapshot, and 360 particle slots of which the
    first 180 own particles and the rest hold their mirror copies. The two
    files differ only in the constants gathered in a `Preset`. */
module MirroredEngine {
  import opened Numeric
  import opened Geometry
  import opened Ring
  import opened MirroredParticles

  /** Number of ring points. */
  const RingSize: nat := 48

  /** Lowest frequency bins skipped by the ring update. */
  const BinsToSkip: nat := 2

  /** Smallest snapshot the ring update reads in bounds: indices up to
      RingSize / 2 + BinsToSkip. */
  const MinimumBins: nat := RingSize / 2 + BinsToSkip + 1

  /** One float frequency bin in dBFS; silent bins read -Infinity. */
  datatype Level = Decibels(value: real) | NegativeInfinity

  /** A candidate distance factor, which is -Infinity when a bin reads 0 dB
      (because `-1 / 0` is -Infinity). */
  datatype Candidate = Finite(value: real) | MinusInfinity

  /** The constants that differ between App.tsx and App.js. */
  datatype Preset = Preset(
    bins: nat,             // length of the snapshot buffer
    scale: real,           // the 0.4 / 0.65 in `scale * (1 + gain * audioValue)`
    gain: real,            // the 80 / 30 in the same formula
    speedExponent: nat,    // the 4 / 6 in `(4 * loudness - 3) ^ exponent + 0.1`
    sizeByRadius: bool)    // whether a particle's size scales with radius / 300

  /** Constants the engine relies on. */
  predicate Sound(p: Preset)
  {
    p.bins >= MinimumBins && p.speedExponent % 2 == 0
  }

  /** `scale * (1 + gain * (-1 / level))`: a silent bin (-1 / -Infinity = 0)
      gives `scale`, a bin at exactly 0 dB gives -Infinity. */
  function CandidateOf(level: Level, scale: real, gain: real): (c: Candidate)
    ensures level == NegativeInfinity ==> c == Finite(scale)
    ensures c == MinusInfinity <==> level == Decibels(0.0)
  {
    match level
    case NegativeInfinity => Finite(scale * (1.0 + gain * 0.0))
    case Decibels(v) =>
      if v == 0.0 then MinusInfinity else Finite(scale * (1.0 + gain * (-1.0 / v)))
  }

  /** `Math.max(1 * previous, candidate)`: the new distance factor of one
      left-half point. It is never below the previous loudness, and it is the
      candidate whenever that is larger. */
  function DistanceFactor(previous: real, level: Level, scale: real, gain: real): (d: real)
    ensures d >= previous
    ensures CandidateOf(level, scale, gain).Finite? ==> d >= CandidateOf(level, scale, gain).value
    ensures d == previous || CandidateOf(level, scale, gain) == Finite(d)
  {
    match CandidateOf(level, scale, gain)
    case MinusInfinity => previous
    case Finite(c) => Max(1.0 * previous, c)
  }

  /** The distance factors of indices 0..24, read from bins 2..26. */
  function Factors(snapshot: seq<Level>, previous: real, p: Preset): (fs: seq<real>)
    requires Sound(p) && |snapshot| == p.bins
    ensures |fs| == RingSize / 2 + 1
    ensures forall i :: 0 <= i < |fs| ==> fs[i] == DistanceFactor(previous, snapshot[i + BinsToSkip], p.scale, p.gain)
    ensures forall i :: 0 <= i < |fs| ==> fs[i] >= previous
  {
    seq(RingSize / 2 + 1, i requires 0 <= i < RingSize / 2 + 1 =>
      DistanceFactor(previous, snapshot[i + BinsToSkip], p.scale, p.gain))
  }

  /** The ring radius for a canvas: a quarter of its smaller side. */
  function RadiusFor(width: real, height: real): (r: real)
    ensures r == width / 4.0 || r == height / 4.0
    ensures r <= width / 4.0 && r <= height / 4.0
  {
    Min(width, height) / 4.0
  }

  /** The angle of ring point `k`: 90 + k·360/48 degrees. */
  function RingAngle(k: nat): real
  {
    90.0 + 7.5 * k as real
  }

  /** The base angle of particle slot `i`: 90 + i degrees. */
  function SlotAngle(i: nat): real
  {
    90.0 + i as real
  }

  /** A snapshot in which every bin reads exactly 0 dB (the all-zero buffer
      before the analyser exists) sets every left-half factor to the previous
      loudness. */
  lemma ZeroSnapshotKeepsLoudness(snapshot: seq<Level>, previous: real, p: Preset)
    requires Sound(p) && |snapshot| == p.bins
    requires forall k :: 0 <= k < |snapshot| ==> snapshot[k] == Decibels(0.0)
    ensures forall i :: 0 <= i < RingSize / 2 + 1 ==> Factors(snapshot, previous, p)[i] == previous
  {
  }

  /** With the right half at 1 and every left-half factor at least the
      previous loudness `L`, the new loudness is at least (25·L + 23) / 48. */
  lemma LoudnessFloor(ring: seq<RingPoint>, snapshot: seq<Level>, p: Preset,
                      centerX: real, centerY: real, radius: real, trig: Trig, previous: real)
    requires Sound(p) && |snapshot| == p.bins && |ring| == RingSize
    requires forall k :: RingSize / 2 < k < RingSize ==> ring[k].distanceFactor == 1.0
    ensures Loudness(RingAfter(ring, Factors(snapshot, previous, p), centerX, centerY, radius, trig))
            >= (25.0 * previous + 23.0) / 48.0
  {
    LoudnessLowerBound(ring, Factors(snapshot, previous, p), centerX, centerY, radius, trig, previous,
                       RingSize / 2);
  }

  /** 48 ring points at their fixed angles with the never-written right
      half (K/2, K) at factor 1. */
  ghost predicate RingShaped(ring: seq<RingPoint>)
  {
    |ring| == RingSize &&
    (forall k :: 0 <= k < RingSize ==> ring[k].angle == RingAngle(k)) &&
    (forall k :: RingSize / 2 < k < RingSize ==> ring[k].distanceFactor == 1.0)
  }

  /** 360 slots at their fixed angles satisfying the slot invariant. */
  ghost predicate SlotsShaped(s: seq<Slot>)
  {
    ValidSlots(s) && forall i :: 0 <= i < SlotCount ==> s[i].angle == SlotAngle(i)
  }

  /** The ring update keeps the ring's shape. */
  lemma RingAfterShaped(ring: seq<RingPoint>, factors: seq<real>,
                        centerX: real, centerY: real, radius: real, trig: Trig)
    requires RingShaped(ring) && |factors| == RingSize / 2 + 1
    ensures RingShaped(RingAfter(ring, factors, centerX, centerY, radius, trig))
  {
    RingAfterAngles(ring, factors, centerX, centerY, radius, trig);
  }

  /** The particle tick keeps the slots' shape. */
  lemma TickShaped(s: seq<Slot>, cursor: nat, exponent: nat, sizeByRadius: bool, f: Frame)
    requires SlotsShaped(s) && exponent % 2 == 0 && RandomStream(f.rnd)
    ensures SlotsShaped(Tick(s, OwnedSlots, cursor, exponent, sizeByRadius, f).slots)
  {
    TickValid(s, OwnedSlots, cursor, exponent, sizeByRadius, f);
    TickAngles(s, OwnedSlots, cursor, exponent, sizeByRadius, f);
  }

  /** A tick keeps every mirror `x` the reflection of its owner's, provided
      the mirrors were already reflected around this frame's centre. */
  lemma TickKeepsReflection(s: seq<Slot>, cursor: nat, exponent: nat, sizeByRadius: bool, f: Frame)
    requires SlotsShaped(s) && exponent % 2 == 0
    ensures ReflectedSlots(s, f.centerX) ==>
            ReflectedSlots(Tick(s, OwnedSlots, cursor, exponent, sizeByRadius, f).slots, f.centerX)
  {
    if ReflectedSlots(s, f.centerX) {
      TickReflected(s, OwnedSlots, cursor, exponent, sizeByRadius, f);
    }
  }

  /** The ring half of `updateCoordinates`: the factors from the snapshot
      and the `previous` loudness, the in-place ring update, then the new
      loudness as the mean distance factor. */
  method UpdateRingLoudness(ring: array<RingPoint>, p: Preset, snapshot: seq<Level>, previous: real,
                            centerX: real, centerY: real, radius: real, trig: Trig)
    returns (loudness: real)
    requires Sound(p) && RingShaped(ring[..]) && |snapshot| == p.bins
    modifies ring
    ensures ring[..] == RingAfter(old(ring[..]), Factors(snapshot, previous, p), centerX, centerY, radius, trig)
    ensures RingShaped(ring[..]) && Mirrored(ring[..], centerX)
    ensures loudness == Loudness(ring[..])
    ensures loudness >= (25.0 * previous + 23.0) / 48.0
  {
    ghost var before := ring[..];
    var factors := Factors(snapshot, previous, p);
    LoudnessFloor(before, snapshot, p, centerX, centerY, radius, trig, previous);
    UpdateRing(ring, factors, centerX, centerY, radius, trig);
    RingAfterShaped(before, factors, centerX, centerY, radius, trig);
    RingAfterMirrored(before, factors, centerX, centerY, radius, trig);
    loudness := Loudness(ring[..]);
  }

  /** The particle half of `updateCoordinates`: one tick of every owning
      slot, keeping the slots' shape. */
  method UpdateParticles(slots: array<Slot>, p: Preset, f: Frame, cursor: nat) returns (next: nat)
    requires Sound(p) && SlotsShaped(slots[..]) && RandomStream(f.rnd)
    modifies slots
    ensures SlotsShaped(slots[..])
    ensures var t := Tick(old(slots[..]), OwnedSlots, cursor, p.speedExponent, p.sizeByRadius, f);
            slots[..] == t.slots && next == t.cursor
    ensures ReflectedSlots(old(slots[..]), f.centerX) ==> ReflectedSlots(slots[..], f.centerX)
  {
    TickShaped(slots[..], cursor, p.speedExponent, p.sizeByRadius, f);
    TickKeepsReflection(slots[..], cursor, p.speedExponent, p.sizeByRadius, f);
    next := UpdateParticleCoordinates(slots, cursor, p.speedExponent, p.sizeByRadius, f);
  }

  /** The body of `updateCoordinates` on the two arrays: the ring update from
      the snapshot and the `previous` loudness, the new loudness, then the
      particle tick with that loudness. */
  method Update(ring: array<RingPoint>, slots: array<Slot>, p: Preset, snapshot: seq<Level>, previous: real,
                width: real, height: real, radius: real, trig: Trig, rnd: nat -> real, cursor: nat)
    returns (loudness: real, next: nat)
    requires Sound(p) && RingShaped(ring[..]) && SlotsShaped(slots[..])
    requires |snapshot| == p.bins && RandomStream(rnd)
    modifies ring, slots
    ensures RingShaped(ring[..]) && SlotsShaped(slots[..])
    ensures ring[..] == RingAfter(old(ring[..]), Factors(snapshot, previous, p), Center(width), Center(height), radius, trig)
    ensures Mirrored(ring[..], Center(width))
    ensures loudness == Loudness(ring[..])
    ensures loudness >= (25.0 * previous + 23.0) / 48.0
    ensures var f := Frame(Center(width), Center(height), radius, width, height, loudness, trig, rnd);
            var t := Tick(old(slots[..]), OwnedSlots, cursor, p.speedExponent, p.sizeByRadius, f);
            slots[..] == t.slots && next == t.cursor
    ensures ReflectedSlots(old(slots[..]), Center(width)) ==> ReflectedSlots(slots[..], Center(width))
  {
    ghost var start := slots[..];
    loudness := UpdateRingLoudness(ring, p, snapshot, previous, Center(width), Center(height), radius, trig);
    ghost var placed := ring[..];
    assert slots[..] == start;
    next := UpdateParticles(slots, p, Frame(Center(width), Center(height), radius, width, height, loudness, trig, rnd), cursor);
    assert ring[..] == placed;
  }

  /** 360 empty slots satisfy the slot invariant. */
  lemma EmptySlotsValid(s: seq<Slot>)
    requires |s| == SlotCount && forall n :: 0 <= n < SlotCount ==> s[n].particles == []
    ensures ValidSlots(s)
  {
    assert PairLengthsFrom(s, 0) by {
      forall k | 0 <= k < OwnedSlots ensures PairLengths(s, k) {
        assert s[k].particles == [] && s[MirrorOf(k)].particles == [];
      }
    }
    forall k | 0 <= k < OwnedSlots
      ensures Paired(s[k].particles, s[MirrorOf(k)].particles) && Admissible(s[k].particles, s[k].angle)
    {
      assert s[k].particles == [] && s[MirrorOf(k)].particles == [];
    }
  }

  class Engine {
    const preset: Preset
    const ring: array<RingPoint>
    const slots: array<Slot>
    var width: real
    var height: real
    var radius: real
    var loudness: real

    /** The engine invariant: the preset's constants are sound, the ring has
        its shape and the slots theirs. */
    ghost predicate Valid()
      reads ring, slots
    {
      Sound(preset) && RingShaped(ring[..]) && SlotsShaped(slots[..])
    }

    /** Set-up: 48 ring points at 90, 97.5, ..., 442.5 degrees with factor 1
        and 360 empty slots at 90, ..., 449 degrees. */
    constructor (preset: Preset, width: real, height: real, trig: Trig)
      requires Sound(preset)
      ensures Valid() && fresh(ring) && fresh(slots)
      ensures this.preset == preset && this.width == width && this.height == height
      ensures radius == RadiusFor(width, height) && loudness == 0.0
      ensures forall k :: 0 <= k < RingSize ==>
        ring[k] == RingPoint(RingAngle(k), Center(width) * trig.cos(-RingAngle(k)),
                             Center(height) * trig.sin(-RingAngle(k)), 1.0)
      ensures forall i :: 0 <= i < SlotCount ==> slots[i] == Slot(SlotAngle(i), [])
    {
      this.preset := preset;
      this.width := width;
      this.height := height;
      radius := RadiusFor(width, height);
      loudness := 0.0;

      var particleSlots := new Slot[SlotCount];
      var angle := 90.0;
      var i := 0;
      while angle < 450.0
        invariant 0 <= i <= SlotCount && angle == SlotAngle(i)
        invariant forall n :: 0 <= n < i ==> particleSlots[n] == Slot(SlotAngle(n), [])
        decreases SlotCount - i
      {
        particleSlots[i] := Slot(angle, []);
        angle := angle + 1.0;
        i := i + 1;
      }

      var points := new RingPoint[RingSize];
      angle := 90.0;
      var k := 0;
      while angle < 450.0
        invariant 0 <= k <= RingSize && angle == RingAngle(k)
        invariant forall n :: 0 <= n < k ==>
          points[n] == RingPoint(RingAngle(n), Center(width) * trig.cos(-RingAngle(n)),
                                 Center(height) * trig.sin(-RingAngle(n)), 1.0)
        modifies points
        decreases RingSize - k
      {
        points[k] := RingPoint(angle, Center(width) * trig.cos(-angle), Center(height) * trig.sin(-angle), 1.0);
        angle := angle + 360.0 / RingSize as real;
        k := k + 1;
      }

      assert i == SlotCount && k == RingSize;
      EmptySlotsValid(particleSlots[..]);
      ring := points;
      slots := particleSlots;
    }

    /** `updateCoordinates()`: ring update from the snapshot and the previous
        loudness, the new loudness as the mean factor, then the particle tick
        with the new loudness. */
    method UpdateCoordinates(snapshot: seq<Level>, trig: Trig, rnd: nat -> real, cursor: nat)
      returns (next: nat)
      requires Valid() && |snapshot| == preset.bins && RandomStream(rnd)
      modifies ring, slots, this`loudness
      ensures Valid()
      ensures ring[..] == RingAfter(old(ring[..]), Factors(snapshot, old(loudness), preset),
                                    Center(old(width)), Center(old(height)), old(radius), trig)
      ensures Mirrored(ring[..], Center(old(width)))
      ensures loudness == Loudness(ring[..])
      ensures loudness >= (25.0 * old(loudness) + 23.0) / 48.0
      ensures var f := Frame(Center(old(width)), Center(old(height)), old(radius), old(width), old(height), loudness, trig, rnd);
              var t := Tick(old(slots[..]), OwnedSlots, cursor, preset.speedExponent, preset.sizeByRadius, f);
              slots[..] == t.slots && next == t.cursor
      ensures ReflectedSlots(old(slots[..]), Center(old(width))) ==> ReflectedSlots(slots[..], Center(old(width)))
    {
      var newLoudness;
      newLoudness, next := Update(ring, slots, preset, snapshot, loudness, width, height, radius, trig, rnd, cursor);
      assert Valid();
      loudness := newLoudness;
    }

    /** The canvas-size part of `draw`: take the new size and recompute the
        radius as a quarter of the smaller side. */
    method Resize(newWidth: real, newHeight: real)
      requires Valid()
      modifies this`width, this`height, this`radius
      ensures Valid()
      ensures width == newWidth && height == newHeight && radius == RadiusFor(newWidth, newHeight)
    {
      width, height, radius := newWidth, newHeight, RadiusFor(newWidth, newHeight);
    }

    /** One animation frame (`draw` without rendering): resize, then update
        ring and particles around the new centre and radius. */
    method Draw(newWidth: real, newHeight: real, snapshot: seq<Level>, trig: Trig,
                rnd: nat -> real, cursor: nat) returns (next: nat)
      requires Valid() && |snapshot| == preset.bins && RandomStream(rnd)
      modifies this`width, this`height, this`radius, this`loudness, ring, slots
      ensures Valid()
      ensures width == newWidth && height == newHeight && radius == RadiusFor(newWidth, newHeight)
      ensures loudness == Loudness(ring[..])
      ensures loudness >= (25.0 * old(loudness) + 23.0) / 48.0
      ensures ReflectedSlots(old(slots[..]), Center(newWidth)) ==> ReflectedSlots(slots[..], Center(newWidth))
    {
      Resize(newWidth, newHeight);
      next := UpdateCoordinates(snapshot, trig, rnd, cursor);
    }
  }
}
