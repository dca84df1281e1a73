/** The atom scene component: a neutron estimate from the atomic number, a
    nucleus of that many protons and neutrons, and the electron shells of
    that many electrons. */
module AtomScene {
  import Shells = ElectronShells
  import N = Nucleus
  import opened Bounds

  /** The `speed` prop when the caller gives none. */
  const DefaultSpeed: real := 1.0

  /** Math.round on a value: the nearest integer, halves rounding up. */
  function Round(x: real): (r: int)
    ensures r as real - 0.5 <= x < r as real + 0.5
  {
    (x + 0.5).Floor
  }

  /** The rough neutron count of the scene: none for hydrogen, otherwise
      1.2 times the atomic number, rounded. */
  function NeutronEstimate(atomicNumber: int): (neutrons: int)
    ensures atomicNumber == 1 ==> neutrons == 0
    ensures atomicNumber != 1 ==>
              neutrons as real - 0.5 <= atomicNumber as real * 1.2 < neutrons as real + 0.5
  {
    if atomicNumber == 1 then 0 else Round(atomicNumber as real * 1.2)
  }

  /** The estimate in integer arithmetic: 1.2 * z is never within 0.1 of a
      half, so rounding it is (6z + 2) div 5. */
  lemma NeutronEstimateClosedForm(z: int)
    ensures NeutronEstimate(z) == if z == 1 then 0 else (6 * z + 2) / 5
  {
    if z != 1 {
      var r := Round(z as real * 1.2);
      var q := (6 * z + 2) / 5;
      assert 5 * q <= 6 * z + 2 < 5 * q + 5;
      assert (r as real - 0.5) * 5.0 <= (z as real * 1.2) * 5.0 < (r as real + 0.5) * 5.0;
      assert 10 * r - 5 <= 12 * z < 10 * r + 5;
    }
  }

  /** From helium on, a nucleus has at least as many neutrons as protons. */
  lemma NeutronsAtLeastProtons(z: int)
    requires z >= 2
    ensures NeutronEstimate(z) >= z
  {
    NeutronEstimateClosedForm(z);
  }

  /** What the scene shows for an atomic number. */
  datatype Scene = Scene(nucleus: seq<N.Particle>, electrons: seq<Shells.ElectronSlot>)

  /** The scene of atomic number z: a nucleus of z protons and the
      estimated neutrons, and z electrons in shells. */
  function SceneOf(atomicNumber: int, speed: real, draw: nat -> real): Scene
  {
    Scene(N.NucleusParticles(atomicNumber, NeutronEstimate(atomicNumber)),
          Shells.Allocation(atomicNumber, speed, draw))
  }

  /** The atom scene component: the neutron memo, the nucleus and the
      electron shells, each given the atomic number. */
  method BuildScene(atomicNumber: int, speed: real, draw: nat -> real) returns (scene: Scene)
    ensures scene == SceneOf(atomicNumber, speed, draw)
  {
    var neutrons := NeutronEstimate(atomicNumber);
    var nucleus := N.LayoutNucleus(atomicNumber, neutrons);
    var electrons := Shells.AllocateElectrons(atomicNumber, speed, draw);
    scene := Scene(nucleus, electrons);
  }

  /** For a positive atomic number z the nucleus holds z protons and the
      estimated neutrons, and z electrons orbit it, up to the 118 the
      shells can hold: up to oganesson the atom is neutral. */
  lemma SceneComposition(z: nat, speed: real, draw: nat -> real)
    ensures var s := SceneOf(z, speed, draw);
            && N.CountKind(s.nucleus, N.Proton) == z
            && N.CountKind(s.nucleus, N.Neutron) == NeutronEstimate(z)
            && |s.electrons| == Min(z, Shells.MaxElectrons)
            && (z <= Shells.MaxElectrons ==> |s.electrons| == N.CountKind(s.nucleus, N.Proton))
  {
    NeutronEstimateClosedForm(z);
    N.NucleusComposition(z, NeutronEstimate(z));
    Shells.AllocationLength(z, speed, draw);
  }

  /** Gold (z = 79): 79 protons, 95 neutrons and 79 electrons. */
  lemma GoldScene(speed: real, draw: nat -> real)
    ensures NeutronEstimate(79) == 95
    ensures var s := SceneOf(79, speed, draw);
            && |s.nucleus| == 174
            && N.CountKind(s.nucleus, N.Proton) == 79
            && |s.electrons| == 79
  {
    NeutronEstimateClosedForm(79);
    SceneComposition(79, speed, draw);
    N.NucleusComposition(79, 95);
  }

  /** Hydrogen (z = 1): one proton, no neutron, one electron. */
  lemma HydrogenScene(speed: real, draw: nat -> real)
    ensures NeutronEstimate(1) == 0
    ensures var s := SceneOf(1, speed, draw);
            && |s.nucleus| == 1 && s.nucleus[0].kind == N.Proton
            && |s.electrons| == 1
  {
    SceneComposition(1, speed, draw);
  }
}
