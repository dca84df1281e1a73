/** The electron shell allocator of the atom scene: a greedy fill of a fixed
    capacity table, innermost shell first, emitting one orbit record per
    electron.

    The specification is split in two. Placements(count, n) says WHERE each
    electron goes (which shell, which number within it, in which order);
    Record says WHAT record an electron gets from its placement (radius,
    speed, offset, tilt, id). The allocation is the records of the
    placements, in order. */
module ElectronShells {
  import opened Decimal
  import opened Bounds

  /** Math.PI (a double), written out as a real. */
  const Pi: real := 3.141592653589793

  /** Electrons each shell can hold, innermost shell first. */
  const Capacities: seq<nat> := [2, 8, 18, 32, 32, 18, 8]

  /** The sum of Capacities: no count places more electrons than this. */
  const MaxElectrons: nat := 118

  type Positive = n: nat | n > 0 witness 1

  /** The three Euler angles of an orbital plane. */
  datatype Tilt = Tilt(x: real, y: real, z: real)

  /** One record of the allocator's output. */
  datatype ElectronSlot = ElectronSlot(radius: real, speed: real, offset: real, tilt: Tilt, id: string)

  /** Electron number `index` of the `shellSize` electrons of shell `shell`,
      emitted as number `order` overall. */
  datatype Placement = Placement(shell: nat, index: nat, shellSize: Positive, order: nat)

  // ---------------------------------------------------------------------
  // Capacities

  /** Electrons that the shells inside shell i can hold together. */
  function CapacityBefore(i: nat): nat
    requires i <= |Capacities|
  {
    if i == 0 then 0 else CapacityBefore(i - 1) + Capacities[i - 1]
  }

  lemma CapacityTable()
    ensures CapacityBefore(0) == 0 && CapacityBefore(1) == 2 && CapacityBefore(2) == 10
    ensures CapacityBefore(3) == 28 && CapacityBefore(4) == 60 && CapacityBefore(5) == 92
    ensures CapacityBefore(6) == 110 && CapacityBefore(7) == MaxElectrons
  {
  }

  /** CapacityBefore grows with the shell index. */
  lemma {:induction false} CapacityBeforeMonotone(i: nat, j: nat)
    requires i <= j <= |Capacities|
    ensures CapacityBefore(i) <= CapacityBefore(j)
    decreases j
  {
    if i < j {
      CapacityBeforeMonotone(i, j - 1);
    }
  }

  /** The shell whose range of output positions holds position p; the
      ranges of the seven shells are disjoint, so it is the only one. */
  function ShellOf(p: nat): (s: nat)
    requires p < MaxElectrons
    ensures s < |Capacities| && CapacityBefore(s) <= p < CapacityBefore(s + 1)
    ensures forall t: nat :: t < |Capacities| && CapacityBefore(t) <= p < CapacityBefore(t + 1) ==> t == s
  {
    CapacityTable();
    var s := ShellFrom(p, 0);
    assert forall t: nat :: t < |Capacities| && CapacityBefore(t) <= p < CapacityBefore(t + 1) ==> t == s by {
      forall t: nat | t < |Capacities| && CapacityBefore(t) <= p < CapacityBefore(t + 1)
        ensures t == s
      {
        if t < s {
          CapacityBeforeMonotone(t + 1, s);
        } else if s < t {
          CapacityBeforeMonotone(s + 1, t);
        }
      }
    }
    s
  }

  function ShellFrom(p: nat, s: nat): (r: nat)
    requires s < |Capacities| && CapacityBefore(s) <= p < MaxElectrons
    ensures s <= r < |Capacities| && CapacityBefore(r) <= p < CapacityBefore(r + 1)
    decreases |Capacities| - s
  {
    CapacityTable();
    if p < CapacityBefore(s + 1) then s else ShellFrom(p, s + 1)
  }

  // ---------------------------------------------------------------------
  // Where electrons go

  /** Closed form of the number of electrons placed in shell i: whatever the
      inner shells cannot hold, capped by the shell's own capacity. */
  function InShell(count: int, i: nat): nat
    requires i < |Capacities|
  {
    Min(Max(count - CapacityBefore(i), 0), Capacities[i])
  }

  /** Electrons placed in the shells inside shell i, summed shell by shell. */
  function AllocatedBefore(count: int, i: nat): nat
    requires i <= |Capacities|
  {
    if i == 0 then 0 else AllocatedBefore(count, i - 1) + InShell(count, i - 1)
  }

  /** `acc` followed by the first n electrons of shell `shell`, which holds
      k: what the inner loop has emitted after n turns. */
  function PlaceShell(acc: seq<Placement>, shell: nat, k: nat, n: nat): seq<Placement>
    requires n <= k
  {
    if n == 0 then acc
    else
      var before := PlaceShell(acc, shell, k, n - 1);
      before + [Placement(shell, n - 1, k, |before|)]
  }

  /** The placements of the electrons of the n innermost shells, in the
      order they are emitted. */
  function Placements(count: int, n: nat): seq<Placement>
    requires n <= |Capacities|
  {
    if n == 0 then []
    else
      var k := InShell(count, n - 1);
      PlaceShell(Placements(count, n - 1), n - 1, k, k)
  }

  // ---------------------------------------------------------------------
  // What each electron gets

  /** Radius of the orbits of shell i. */
  function ShellRadius(shell: nat): real
  {
    2.5 + shell as real * 1.5
  }

  /** Angular speed of the electrons of shell i. */
  function ShellSpeed(shell: nat, speedMultiplier: real): real
  {
    (1.5 - shell as real * 0.2) * speedMultiplier
  }

  /** Starting angle of electron j of a shell holding k electrons. */
  function Offset(j: nat, k: Positive): real
  {
    (Pi * 2.0 * j as real) / k as real
  }

  /** The tilt of the electron emitted g-th overall: it consumes the random
      draws 3g, 3g+1 and 3g+2, each scaled by pi. */
  function TiltAt(draw: nat -> real, g: nat): Tilt
  {
    Tilt(draw(3 * g) * Pi, draw(3 * g + 1) * Pi, draw(3 * g + 2) * Pi)
  }

  /** Draws in [0, 1) give tilt angles in [0, pi). */
  lemma TiltRange(draw: nat -> real, g: nat)
    ensures (forall k :: 0.0 <= draw(k) < 1.0) ==>
              var t := TiltAt(draw, g);
              0.0 <= t.x < Pi && 0.0 <= t.y < Pi && 0.0 <= t.z < Pi
  {
    if forall k :: 0.0 <= draw(k) < 1.0 {
      var d0, d1, d2 := draw(3 * g), draw(3 * g + 1), draw(3 * g + 2);
      assert d0 * Pi < Pi && d1 * Pi < Pi && d2 * Pi < Pi;
    }
  }

  /** The id of electron j of shell `shell`: `e-<shell>-<j>`. */
  function ElectronId(shell: nat, j: nat): string
  {
    "e-" + NatToString(shell) + "-" + NatToString(j)
  }

  /** The record of the electron at placement pl. */
  function Record(pl: Placement, speedMultiplier: real, draw: nat -> real): (e: ElectronSlot)
    ensures e.radius >= 2.5
    ensures pl.shell < |Capacities| && speedMultiplier > 0.0 ==> e.speed > 0.0
    ensures pl.index < pl.shellSize ==> 0.0 <= e.offset < 2.0 * Pi
    ensures (forall k :: 0.0 <= draw(k) < 1.0) ==>
              0.0 <= e.tilt.x < Pi && 0.0 <= e.tilt.y < Pi && 0.0 <= e.tilt.z < Pi
  {
    TiltRange(draw, pl.order);
    assert pl.shell < |Capacities| ==> 1.5 - pl.shell as real * 0.2 > 0.0;
    var e := ElectronSlot(ShellRadius(pl.shell), ShellSpeed(pl.shell, speedMultiplier), Offset(pl.index, pl.shellSize),
                          TiltAt(draw, pl.order), ElectronId(pl.shell, pl.index));
    if pl.index < pl.shellSize then OffsetsEvenlySpaced(pl.index, pl.shellSize); e else e
  }

  /** The records of a sequence of placements, in order. */
  function Records(pls: seq<Placement>, speedMultiplier: real, draw: nat -> real): (r: seq<ElectronSlot>)
  {
    seq(|pls|, p requires 0 <= p < |pls| => Record(pls[p], speedMultiplier, draw))
  }

  /** What the allocator returns for `count` electrons. */
  function Allocation(count: int, speedMultiplier: real, draw: nat -> real): seq<ElectronSlot>
  {
    Records(Placements(count, |Capacities|), speedMultiplier, draw)
  }

  // ---------------------------------------------------------------------
  // The allocation loop

  /** The allocation memo of the electron shells component. `draw` is the
      stream of Math.random() results, in the order they are requested. */
  method AllocateElectrons(count: int, speedMultiplier: real, draw: nat -> real)
    returns (electrons: seq<ElectronSlot>)
    ensures electrons == Allocation(count, speedMultiplier, draw)
    ensures |electrons| == Min(Max(count, 0), MaxElectrons)
  {
    var shells := Capacities;
    var remaining := count;
    electrons := [];
    var shellIndex := 0;
    ghost var placed: seq<Placement> := [];
    while remaining > 0 && shellIndex < |shells|
      invariant 0 <= shellIndex <= |shells|
      invariant placed == Placements(count, shellIndex)
      invariant electrons == Records(placed, speedMultiplier, draw)
      invariant remaining > 0 ==> remaining == count - CapacityBefore(shellIndex) == count - |placed|
      invariant remaining <= 0 ==> count <= CapacityBefore(shellIndex)
    {
      var inThisShell := Min(remaining, shells[shellIndex]);
      ghost var before := placed;
      electrons, placed := FillShell(electrons, placed, shellIndex, inThisShell, speedMultiplier, draw);
      ShellStep(count, shellIndex, remaining, before, placed);
      remaining := remaining - inThisShell;
      shellIndex := shellIndex + 1;
    }
    AllocationDone(count, shellIndex);
  }

  /** The inner loop of the allocation: the records of the k electrons of
      shell `shellIndex`, appended to `electrons`, which holds the records of
      the placements `placed`. */
  method FillShell(electrons: seq<ElectronSlot>, ghost placed: seq<Placement>, shellIndex: nat, inThisShell: Positive,
                   speedMultiplier: real, draw: nat -> real)
    returns (result: seq<ElectronSlot>, ghost placedAfter: seq<Placement>)
    requires electrons == Records(placed, speedMultiplier, draw)
    ensures placedAfter == PlaceShell(placed, shellIndex, inThisShell, inThisShell)
    ensures result == Records(PlaceShell(placed, shellIndex, inThisShell, inThisShell), speedMultiplier, draw)
  {
    result, placedAfter := electrons, placed;
    var radius := ShellRadius(shellIndex);
    for i := 0 to inThisShell
      invariant placedAfter == PlaceShell(placed, shellIndex, inThisShell, i)
      invariant |result| == |placedAfter|
      invariant forall p :: 0 <= p < |result| ==> result[p] == Record(placedAfter[p], speedMultiplier, draw)
    {
      var g := |result|;
      var e := ElectronSlot(radius, ShellSpeed(shellIndex, speedMultiplier), Offset(i, inThisShell),
                            TiltAt(draw, g), ElectronId(shellIndex, i));
      EmitStep(placed, shellIndex, inThisShell, i);
      placedAfter := placedAfter + [Placement(shellIndex, i, inThisShell, g)];
      result := result + [e];
    }
  }

  /** The end of the allocation loop: whether it stopped for want of
      electrons or of shells, the placements are those of all seven shells,
      min(count, 118) of them. */
  lemma AllocationDone(count: int, shellIndex: nat)
    requires shellIndex <= |Capacities|
    requires shellIndex < |Capacities| ==> count <= CapacityBefore(shellIndex)
    ensures Placements(count, shellIndex) == Placements(count, |Capacities|)
    ensures |Placements(count, |Capacities|)| == Min(Max(count, 0), MaxElectrons)
  {
    if shellIndex < |Capacities| {
      PlacementsSettled(count, shellIndex);
    }
    PlacementsLength(count, |Capacities|);
    CapacityTable();
  }

  /** One turn of the inner loop appends the placement of electron i. */
  lemma EmitStep(before: seq<Placement>, shell: nat, k: Positive, i: nat)
    requires i < k
    ensures var placed := PlaceShell(before, shell, k, i);
            var pl := Placement(shell, i, k, |placed|);
            PlaceShell(before, shell, k, i + 1) == placed + [pl]
  {
  }

  /** The end of one turn of the outer loop: shell `shell` has received its
      share, and what remains of the count is what the outer shells get. */
  lemma ShellStep(count: int, shell: nat, remaining: int, before: seq<Placement>, placed: seq<Placement>)
    requires shell < |Capacities| && remaining > 0
    requires before == Placements(count, shell)
    requires remaining == count - CapacityBefore(shell) == count - |before|
    requires placed == PlaceShell(before, shell, Min(remaining, Capacities[shell]), Min(remaining, Capacities[shell]))
    ensures placed == Placements(count, shell + 1)
    ensures var left := remaining - Min(remaining, Capacities[shell]);
            && (left > 0 ==> left == count - CapacityBefore(shell + 1) == count - |placed|)
            && (left <= 0 ==> count <= CapacityBefore(shell + 1))
  {
    var k := Min(remaining, Capacities[shell]);
    PlaceShellLength(before, shell, k, k);
  }

  // ---------------------------------------------------------------------
  // Structure of the placements

  lemma {:induction false} PlaceShellLength(acc: seq<Placement>, shell: nat, k: nat, n: nat)
    requires n <= k
    ensures |PlaceShell(acc, shell, k, n)| == |acc| + n
    ensures acc <= PlaceShell(acc, shell, k, n)
  {
    if n > 0 {
      PlaceShellLength(acc, shell, k, n - 1);
    }
  }

  /** Electron j of the shell is placed right after the j before it, and
      its emission order is its position. */
  lemma {:induction false} PlaceShellAt(acc: seq<Placement>, shell: nat, k: nat, n: nat, j: nat)
    requires j < n <= k
    ensures |PlaceShell(acc, shell, k, n)| == |acc| + n
    ensures PlaceShell(acc, shell, k, n)[|acc| + j] == Placement(shell, j, k, |acc| + j)
  {
    PlaceShellLength(acc, shell, k, n - 1);
    if j < n - 1 {
      PlaceShellAt(acc, shell, k, n - 1, j);
    }
  }

  /** Once the count is used up, the outer shells add nothing. */
  lemma {:induction false} PlacementsSettled(count: int, n: nat)
    requires n <= |Capacities| && count <= CapacityBefore(n)
    ensures Placements(count, n) == Placements(count, |Capacities|)
    decreases |Capacities| - n
  {
    if n < |Capacities| {
      assert InShell(count, n) == 0;
      PlacementsSettled(count, n + 1);
    }
  }

  /** The n innermost shells hold the count, clamped to their total capacity. */
  lemma {:induction false} PlacementsLength(count: int, n: nat)
    requires n <= |Capacities|
    ensures |Placements(count, n)| == Min(Max(count, 0), CapacityBefore(n))
  {
    if n > 0 {
      var k := InShell(count, n - 1);
      PlacementsLength(count, n - 1);
      PlaceShellLength(Placements(count, n - 1), n - 1, k, k);
    }
  }

  /** The shells are emitted in order: the placements of fewer shells are a
      prefix of the placements of more. */
  lemma {:induction false} PlacementsPrefix(count: int, m: nat, n: nat)
    requires m <= n <= |Capacities|
    ensures Placements(count, m) <= Placements(count, n)
    decreases n
  {
    if m < n {
      var k := InShell(count, n - 1);
      PlacementsPrefix(count, m, n - 1);
      PlaceShellLength(Placements(count, n - 1), n - 1, k, k);
    }
  }

  /** Electron j of shell `shell` is placed at position CapacityBefore(shell) + j. */
  lemma PlacementOfElectron(count: int, shell: nat, j: nat)
    requires shell < |Capacities| && j < InShell(count, shell)
    ensures CapacityBefore(shell) + j < |Placements(count, |Capacities|)|
    ensures Placements(count, |Capacities|)[CapacityBefore(shell) + j]
            == Placement(shell, j, InShell(count, shell), CapacityBefore(shell) + j)
  {
    var k := InShell(count, shell);
    PlacementsLength(count, shell);
    PlaceShellAt(Placements(count, shell), shell, k, k, j);
    PlacementsPrefix(count, shell + 1, |Capacities|);
  }

  /** Every position p of the output is electron p - CapacityBefore(s) of
      shell s = ShellOf(p), and it is emitted p-th. */
  lemma PlacementAt(count: int, p: nat)
    requires p < |Placements(count, |Capacities|)|
    ensures p < MaxElectrons
    ensures p - CapacityBefore(ShellOf(p)) < InShell(count, ShellOf(p))
    ensures Placements(count, |Capacities|)[p]
            == Placement(ShellOf(p), p - CapacityBefore(ShellOf(p)), InShell(count, ShellOf(p)), p)
  {
    PlacementsLength(count, |Capacities|);
    CapacityTable();
    var s := ShellOf(p);
    assert CapacityBefore(s + 1) == CapacityBefore(s) + Capacities[s];
    PlacementOfElectron(count, s, p - CapacityBefore(s));
  }

  // ---------------------------------------------------------------------
  // Properties of the allocation

  /** Count conservation: the allocator returns min(count, 118) records,
      none for a count of zero or less. */
  lemma AllocationLength(count: int, speedMultiplier: real, draw: nat -> real)
    ensures |Allocation(count, speedMultiplier, draw)| == Min(Max(count, 0), MaxElectrons)
  {
    var pls := Placements(count, |Capacities|);
    PlacementsLength(count, |Capacities|);
    CapacityTable();
  }

  /** The greedy step: with `remaining` the part of the count the inner
      shells did not take, shell i receives min(remaining, capacity) while
      remaining is positive and nothing after. Hence no shell exceeds its
      capacity and the shells together take min(count, 118). */
  lemma {:induction false} GreedyShare(count: int, i: nat)
    requires i <= |Capacities|
    ensures AllocatedBefore(count, i) == Min(Max(count, 0), CapacityBefore(i))
    ensures i < |Capacities| ==>
              var remaining := count - AllocatedBefore(count, i);
              InShell(count, i) == (if remaining > 0 then Min(remaining, Capacities[i]) else 0)
    ensures i < |Capacities| ==> InShell(count, i) <= Capacities[i]
  {
    if i > 0 {
      GreedyShare(count, i - 1);
    }
  }

  /** Inner shells fill first: a shell receives electrons only when every
      shell inside it is full. */
  lemma PrefixFull(count: int, i: nat, j: nat)
    requires j < i < |Capacities| && InShell(count, i) > 0
    ensures InShell(count, j) == Capacities[j]
  {
    CapacityBeforeMonotone(j + 1, i);
  }

  /** Electron j of shell `shell`, which holds k electrons, is record
      CapacityBefore(shell) + j of the output: it has that shell's radius
      and speed, offset 2*pi*j/k, the id e-<shell>-<j> and the tilt of its
      own three draws. */
  lemma ElectronAt(count: int, speedMultiplier: real, draw: nat -> real, shell: nat, j: nat)
    requires shell < |Capacities| && j < InShell(count, shell)
    ensures CapacityBefore(shell) + j < |Allocation(count, speedMultiplier, draw)|
    ensures var e := Allocation(count, speedMultiplier, draw)[CapacityBefore(shell) + j];
            && e.radius == ShellRadius(shell)
            && e.speed == ShellSpeed(shell, speedMultiplier)
            && e.offset == Offset(j, InShell(count, shell))
            && e.tilt == TiltAt(draw, CapacityBefore(shell) + j)
            && e.id == ElectronId(shell, j)
  {
    PlacementOfElectron(count, shell, j);
  }

  /** Ids of the form e-<shell>-<j> name one electron each. */
  lemma ElectronIdInjective(s1: nat, j1: nat, s2: nat, j2: nat)
    requires ElectronId(s1, j1) == ElectronId(s2, j2)
    ensures s1 == s2 && j1 == j2
  {
    var a1, b1 := NatToString(s1), NatToString(j1);
    var a2, b2 := NatToString(s2), NatToString(j2);
    var x := ElectronId(s1, j1);
    if |a1| < |a2| {
      DashPositionDiffers(a1, b1, a2, b2);
      assert false;
    } else if |a2| < |a1| {
      DashPositionDiffers(a2, b2, a1, b1);
      assert false;
    }
    assert a1 == x[2..2 + |a1|] == a2;
    assert b1 == x[3 + |a1|..] == b2;
    NatToStringInjective(s1, s2);
    NatToStringInjective(j1, j2);
  }

  /** The dash after the shell number sits where a longer numeral still has
      a digit. */
  lemma DashPositionDiffers(a1: string, b1: string, a2: string, b2: string)
    requires forall i :: 0 <= i < |a2| ==> '0' <= a2[i] <= '9'
    requires |a1| < |a2|
    ensures "e-" + a1 + "-" + b1 != "e-" + a2 + "-" + b2
  {
    var x, y := "e-" + a1 + "-" + b1, "e-" + a2 + "-" + b2;
    assert x[2 + |a1|] == '-';
    assert y[2 + |a1|] == a2[|a1|];
  }

  /** No two records share an id. */
  lemma AllocationIdsDistinct(count: int, speedMultiplier: real, draw: nat -> real, p: nat, q: nat)
    requires p < q < |Allocation(count, speedMultiplier, draw)|
    ensures Allocation(count, speedMultiplier, draw)[p].id != Allocation(count, speedMultiplier, draw)[q].id
  {
    var pls := Placements(count, |Capacities|);
    PlacementAt(count, p);
    PlacementAt(count, q);
    if ElectronId(pls[p].shell, pls[p].index) == ElectronId(pls[q].shell, pls[q].index) {
      ElectronIdInjective(pls[p].shell, pls[p].index, pls[q].shell, pls[q].index);
    }
  }

  /** Record p consumes the draws 3p, 3p+1 and 3p+2; when every draw lies in
      [0, 1), every tilt angle lies in [0, pi). */
  lemma AllocationTilts(count: int, speedMultiplier: real, draw: nat -> real, p: nat)
    requires forall k :: 0.0 <= draw(k) < 1.0
    requires p < |Allocation(count, speedMultiplier, draw)|
    ensures Allocation(count, speedMultiplier, draw)[p].tilt == TiltAt(draw, p)
    ensures var t := Allocation(count, speedMultiplier, draw)[p].tilt;
            0.0 <= t.x < Pi && 0.0 <= t.y < Pi && 0.0 <= t.z < Pi
  {
    var pls := Placements(count, |Capacities|);
    PlacementAt(count, p);
    var d0, d1, d2 := draw(3 * p), draw(3 * p + 1), draw(3 * p + 2);
    assert d0 * Pi < Pi && d1 * Pi < Pi && d2 * Pi < Pi;
  }

  /** Within a shell of k electrons the offsets lie in [0, 2*pi), start at 0
      and are spaced 2*pi/k apart, so they are pairwise distinct. */
  lemma OffsetsEvenlySpaced(j: nat, k: Positive)
    requires j < k
    ensures Offset(0, k) == 0.0
    ensures 0.0 <= Offset(j, k) < 2.0 * Pi
    ensures j + 1 < k ==> Offset(j + 1, k) - Offset(j, k) == 2.0 * Pi / k as real
  {
    var kr := k as real;
    assert Pi * 2.0 * j as real < 2.0 * Pi * kr;
    QuotientBelow(Pi * 2.0 * j as real, kr, 2.0 * Pi);
  }

  /** x / y < b when x < b * y and y is positive. */
  lemma QuotientBelow(x: real, y: real, b: real)
    requires y > 0.0 && x < b * y
    ensures x / y < b
  {
    var q := x / y;
    assert q * y == x;
    if q >= b {
      assert q * y >= b * y;
    }
  }

  /** Outer shells have strictly larger radii; for the seven shells and a
      positive multiplier, the speed is positive and strictly smaller
      further out. */
  lemma ShellOrdering(a: nat, b: nat, speedMultiplier: real)
    requires a < b
    ensures ShellRadius(a) < ShellRadius(b)
    ensures b < |Capacities| && speedMultiplier > 0.0 ==>
              0.0 < ShellSpeed(b, speedMultiplier) < ShellSpeed(a, speedMultiplier)
  {
    if b < |Capacities| && speedMultiplier > 0.0 {
      var da, db := 1.5 - a as real * 0.2, 1.5 - b as real * 0.2;
      assert 0.0 < db < da;
      assert db * speedMultiplier < da * speedMultiplier;
    }
  }

  /** A gold atom (79 electrons) fills the shells as 2, 8, 18, 32, 19. */
  lemma GoldShells()
    ensures InShell(79, 0) == 2 && InShell(79, 1) == 8 && InShell(79, 2) == 18
    ensures InShell(79, 3) == 32 && InShell(79, 4) == 19
    ensures InShell(79, 5) == 0 && InShell(79, 6) == 0
  {
    CapacityTable();
  }
}
