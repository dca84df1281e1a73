/** The nucleus of the atom scene: a Fibonacci spiral of points on a sphere
    (one per nucleon) and the tagging of those points as protons or
    neutrons. Coordinates other than the latitude are trigonometry and are
    not modelled; a point keeps its index, the size of its spiral and its
    latitude on the unit sphere. */
module Nucleus {
  import opened Bounds

  /** A floating-point result: a finite value or NaN. */
  datatype Float = Finite(value: real) | NaN

  /** The latitude formula as written, y = 1 - (i / (n - 1)) * 2. With a
      single point the quotient is 0 / 0, which is NaN. */
  function WrittenLatitude(i: nat, n: nat): (y: Float)
    requires i < n
    ensures y == NaN <==> n == 1
    ensures y.Finite? ==> -1.0 <= y.value <= 1.0
    ensures y.Finite? && i == 0 ==> y.value == 1.0
    ensures y.Finite? && i == n - 1 ==> y.value == -1.0
  {
    if n == 1 then NaN
    else
      QuotientInUnit(i as real, (n - 1) as real);
      Finite(1.0 - (i as real / (n - 1) as real) * 2.0)
  }

  /** A nucleus of one nucleon (hydrogen) gets a NaN latitude. */
  lemma WrittenLatitudeSingleNucleon()
    ensures WrittenLatitude(0, 1) == NaN
  {
  }

  /** The latitude of point i of n, with the single point of a one-point
      spiral placed at the pole. It lies in [-1, 1], the first point is the
      north pole and the last the south pole. */
  function Latitude(i: nat, n: nat): (y: real)
    requires i < n
    ensures -1.0 <= y <= 1.0
    ensures i == 0 ==> y == 1.0
    ensures n > 1 && i == n - 1 ==> y == -1.0
  {
    if n == 1 then 1.0
    else
      QuotientInUnit(i as real, (n - 1) as real);
      1.0 - (i as real / (n - 1) as real) * 2.0
  }

  /** a / d lies in [0, 1] when 0 <= a <= d, and is 1 when a == d. */
  lemma QuotientInUnit(a: real, d: real)
    requires 0.0 <= a <= d && d > 0.0
    ensures 0.0 <= a / d <= 1.0
    ensures a == d ==> a / d == 1.0
  {
    assert (a / d) * d == a;
  }

  /** Division by a positive d keeps a strict order. */
  lemma QuotientLess(a: real, b: real, d: real)
    requires a < b && d > 0.0
    ensures a / d < b / d
  {
    assert (a / d) * d == a && (b / d) * d == b;
  }

  /** Wherever the formula as written is defined it agrees with Latitude,
      and it is undefined only for a one-point spiral. */
  lemma LatitudeAgrees(i: nat, n: nat)
    requires i < n
    ensures WrittenLatitude(i, n) == NaN <==> n == 1
    ensures n > 1 ==> WrittenLatitude(i, n) == Finite(Latitude(i, n))
  {
  }

  /** Later points of the spiral lie strictly further south. */
  lemma LatitudeDescending(i: nat, j: nat, n: nat)
    requires i < j < n
    ensures Latitude(j, n) < Latitude(i, n)
  {
    QuotientLess(i as real, j as real, (n - 1) as real);
  }

  /** Point `index` of a spiral of `count` points, at latitude y. */
  datatype Point = SpiralPoint(index: nat, count: nat, y: real)

  /** The spiral of n points (none for n <= 0). */
  function Spiral(n: int): (points: seq<Point>)
    ensures |points| == Max(n, 0)
  {
    seq(Max(n, 0), i requires 0 <= i < Max(n, 0) => SpiralPoint(i, n, Latitude(i, n)))
  }

  /** The spiral agrees with the formula as written wherever that formula is
      defined. For a one-point spiral the formula gives NaN, and the spiral
      puts the point at the north pole instead. */
  lemma SpiralVersusWritten(n: int, i: nat)
    requires i < n
    ensures n > 1 ==> WrittenLatitude(i, n) == Finite(Spiral(n)[i].y)
    ensures n == 1 ==> WrittenLatitude(i, n) == NaN && Spiral(n)[i].y == 1.0
  {
    LatitudeAgrees(i, n);
  }

  /** The point loop of the sphere-points helper: one point per index
      0 <= i < n, in order, at the corrected latitude. */
  method SpherePoints(n: int) returns (points: seq<Point>)
    ensures |points| == Max(n, 0)
    ensures forall i :: 0 <= i < |points| ==> points[i] == SpiralPoint(i, n, Latitude(i, n))
  {
    points := [];
    var i := 0;
    while i < n
      invariant 0 <= i <= Max(n, 0)
      invariant |points| == i
      invariant forall k :: 0 <= k < i ==> points[k] == SpiralPoint(k, n, Latitude(k, n))
    {
      var y := Latitude(i, n);
      points := points + [SpiralPoint(i, n, y)];
      i := i + 1;
    }
  }

  datatype Kind = Proton | Neutron

  datatype Particle = Particle(position: Point, kind: Kind)

  /** The nucleon tagging: position i carries a proton exactly when
      i < protons. */
  function Tag(positions: seq<Point>, protons: int): (particles: seq<Particle>)
    ensures |particles| == |positions|
    ensures forall i :: 0 <= i < |particles| ==> particles[i].position == positions[i]
    ensures forall i :: 0 <= i < |particles| ==> (particles[i].kind == Proton <==> i < protons)
  {
    seq(|positions|, i requires 0 <= i < |positions| => Particle(positions[i], if i < protons then Proton else Neutron))
  }

  /** Particles of kind k. */
  function CountKind(particles: seq<Particle>, k: Kind): (c: nat)
    ensures c <= |particles|
  {
    if particles == [] then 0
    else CountKind(particles[..|particles| - 1], k) + (if particles[|particles| - 1].kind == k then 1 else 0)
  }

  /** Every particle is a proton or a neutron. */
  lemma {:induction false} KindsPartition(particles: seq<Particle>)
    ensures CountKind(particles, Proton) + CountKind(particles, Neutron) == |particles|
    decreases |particles|
  {
    if particles != [] {
      KindsPartition(particles[..|particles| - 1]);
    }
  }

  /** A sequence tagged by a proton threshold holds the threshold's number
      of protons, clamped to its length. */
  lemma {:induction false} ThresholdCount(particles: seq<Particle>, protons: int)
    requires forall i :: 0 <= i < |particles| ==> (particles[i].kind == Proton <==> i < protons)
    ensures CountKind(particles, Proton) == Min(Max(protons, 0), |particles|)
    decreases |particles|
  {
    if particles != [] {
      ThresholdCount(particles[..|particles| - 1], protons);
    }
  }

  /** The tagging keeps the proton count: min(max(protons, 0), n) protons,
      the rest neutrons, and every proton comes before every neutron. */
  lemma TagCounts(positions: seq<Point>, protons: int)
    ensures CountKind(Tag(positions, protons), Proton) == Min(Max(protons, 0), |positions|)
    ensures CountKind(Tag(positions, protons), Neutron) == |positions| - Min(Max(protons, 0), |positions|)
    ensures forall i, j :: 0 <= i < j < |positions| && Tag(positions, protons)[j].kind == Proton ==>
              Tag(positions, protons)[i].kind == Proton
  {
    var particles := Tag(positions, protons);
    ThresholdCount(particles, protons);
    KindsPartition(particles);
  }

  /** The nucleus of `protons` protons and `neutrons` neutrons. */
  function NucleusParticles(protons: int, neutrons: int): seq<Particle>
  {
    Tag(Spiral(protons + neutrons), protons)
  }

  /** The particle memo of the nucleus component: a spiral of
      protons + neutrons points, the first `protons` of them protons. */
  method LayoutNucleus(protons: int, neutrons: int) returns (particles: seq<Particle>)
    ensures particles == NucleusParticles(protons, neutrons)
  {
    var totalParticles := protons + neutrons;
    var positions := SpherePoints(totalParticles);
    assert positions == Spiral(totalParticles);
    particles := Tag(positions, protons);
  }

  /** For non-negative counts the nucleus holds exactly `protons` protons and
      `neutrons` neutrons. */
  lemma NucleusComposition(protons: nat, neutrons: nat)
    ensures |NucleusParticles(protons, neutrons)| == protons + neutrons
    ensures CountKind(NucleusParticles(protons, neutrons), Proton) == protons
    ensures CountKind(NucleusParticles(protons, neutrons), Neutron) == neutrons
  {
    TagCounts(Spiral(protons + neutrons), protons);
  }
}
