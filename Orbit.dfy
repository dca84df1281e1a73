/** The per-electron orbit integrator of the atom scene: each electron keeps
    an angle that starts at the offset it was mounted with and advances by
    speed * delta on every animation frame whose mesh is mounted, at the
    speed of its latest render. Positions on the orbit (cos/sin of the
    angle) are trigonometry and are not modelled. */
module Orbit {
  import opened ElectronShells

  /** Total elapsed time of a sequence of frame deltas. */
  function Sum(deltas: seq<real>): real
  {
    if deltas == [] then 0.0 else Sum(deltas[..|deltas| - 1]) + deltas[|deltas| - 1]
  }

  /** The angle reached from `angle` after the frames `deltas`, each adding
      speed * delta: the frame update folded over the frames. */
  function AngleAfter(angle: real, speed: real, deltas: seq<real>): real
  {
    if deltas == [] then angle
    else AngleAfter(angle, speed, deltas[..|deltas| - 1]) + speed * deltas[|deltas| - 1]
  }

  /** The accumulated angle is the offset plus speed times the elapsed
      time, whatever the frames in between. */
  lemma {:induction false} AngleAfterSum(angle: real, speed: real, deltas: seq<real>)
    ensures AngleAfter(angle, speed, deltas) == angle + speed * Sum(deltas)
    decreases |deltas|
  {
    if deltas != [] {
      var init := deltas[..|deltas| - 1];
      AngleAfterSum(angle, speed, init);
      assert speed * (Sum(init) + deltas[|deltas| - 1]) == speed * Sum(init) + speed * deltas[|deltas| - 1];
    }
  }

  /** Frame-rate independence: two frame sequences of the same total
      elapsed time reach the same angle. */
  lemma SameElapsedSameAngle(angle: real, speed: real, xs: seq<real>, ys: seq<real>)
    requires Sum(xs) == Sum(ys)
    ensures AngleAfter(angle, speed, xs) == AngleAfter(angle, speed, ys)
  {
    AngleAfterSum(angle, speed, xs);
    AngleAfterSum(angle, speed, ys);
  }

  /** Running the frames xs and then ys is running xs + ys. */
  lemma {:induction false} AngleAfterConcat(angle: real, speed: real, xs: seq<real>, ys: seq<real>)
    ensures AngleAfter(AngleAfter(angle, speed, xs), speed, ys) == AngleAfter(angle, speed, xs + ys)
    decreases |ys|
  {
    if ys == [] {
      assert xs + ys == xs;
    } else {
      var init := ys[..|ys| - 1];
      assert (xs + ys)[..|xs + ys| - 1] == xs + init;
      AngleAfterConcat(angle, speed, xs, init);
    }
  }

  lemma {:induction false} SumNonNegative(deltas: seq<real>)
    requires forall i :: 0 <= i < |deltas| ==> deltas[i] >= 0.0
    ensures Sum(deltas) >= 0.0
    decreases |deltas|
  {
    if deltas != [] {
      SumNonNegative(deltas[..|deltas| - 1]);
    }
  }

  /** With a non-negative speed and non-negative frame deltas the angle
      never decreases (no wrap-around is applied). */
  lemma AngleNeverDecreases(angle: real, speed: real, deltas: seq<real>)
    requires speed >= 0.0
    requires forall i :: 0 <= i < |deltas| ==> deltas[i] >= 0.0
    ensures AngleAfter(angle, speed, deltas) >= angle
  {
    AngleAfterSum(angle, speed, deltas);
    SumNonNegative(deltas);
    assert speed * Sum(deltas) >= 0.0;
  }

  /** A frame that advanced an electron: the speed in force during the
      frame and the frame's delta. */
  datatype Frame = Frame(speed: real, delta: real)

  /** The angle reached from `angle` after the frames, each adding its own
      speed * delta. */
  function Advance(angle: real, frames: seq<Frame>): real
  {
    if frames == [] then angle
    else Advance(angle, frames[..|frames| - 1]) + frames[|frames| - 1].speed * frames[|frames| - 1].delta
  }

  /** The frames `deltas`, all run at one speed. */
  function AtSpeed(speed: real, deltas: seq<real>): (frames: seq<Frame>)
    ensures |frames| == |deltas|
    ensures forall i :: 0 <= i < |deltas| ==> frames[i] == Frame(speed, deltas[i])
  {
    seq(|deltas|, i requires 0 <= i < |deltas| => Frame(speed, deltas[i]))
  }

  /** While the speed stays the same, advancing frame by frame is the
      single-speed fold. */
  lemma {:induction false} AdvanceAtSpeed(angle: real, speed: real, deltas: seq<real>)
    ensures Advance(angle, AtSpeed(speed, deltas)) == AngleAfter(angle, speed, deltas)
    decreases |deltas|
  {
    if deltas != [] {
      var init := deltas[..|deltas| - 1];
      assert AtSpeed(speed, deltas)[..|deltas| - 1] == AtSpeed(speed, init);
      AdvanceAtSpeed(angle, speed, init);
    }
  }

  /** Advancing through xs and then ys is advancing through xs + ys. */
  lemma {:induction false} AdvanceConcat(angle: real, xs: seq<Frame>, ys: seq<Frame>)
    ensures Advance(Advance(angle, xs), ys) == Advance(angle, xs + ys)
    decreases |ys|
  {
    if ys == [] {
      assert xs + ys == xs;
    } else {
      var init := ys[..|ys| - 1];
      assert (xs + ys)[..|xs + ys| - 1] == xs + init;
      AdvanceConcat(angle, xs, init);
    }
  }

  /** A speed change part-way through: the time run at the old speed keeps
      the distance it covered, and only the time after the change runs at
      the new speed. */
  lemma SpeedChange(angle: real, s1: real, xs: seq<real>, s2: real, ys: seq<real>)
    ensures Advance(angle, AtSpeed(s1, xs) + AtSpeed(s2, ys)) == angle + s1 * Sum(xs) + s2 * Sum(ys)
  {
    AdvanceConcat(angle, AtSpeed(s1, xs), AtSpeed(s2, ys));
    AdvanceAtSpeed(angle, s1, xs);
    AngleAfterSum(angle, s1, xs);
    var mid := Advance(angle, AtSpeed(s1, xs));
    AdvanceAtSpeed(mid, s2, ys);
    AngleAfterSum(mid, s2, ys);
  }

  /** One mounted electron: the props of its latest render and the angle it
      has reached. The angle starts at the offset of the first render and
      is never reset while the electron stays mounted under its key. */
  class ElectronOrbit {
    var radius: real
    var speed: real
    var offset: real
    var tilt: Tilt
    var angle: real
    /** The offset of the first render: the angle's starting value. */
    ghost const start: real
    /** The frames that advanced the angle, each with the speed then in force. */
    ghost var frames: seq<Frame>

    ghost predicate Valid()
      reads this
    {
      angle == Advance(start, frames)
    }

    /** Mounting: the angle starts at the record's offset. */
    constructor (slot: ElectronSlot)
      ensures radius == slot.radius && speed == slot.speed && offset == slot.offset && tilt == slot.tilt
      ensures start == slot.offset && angle == slot.offset && frames == []
      ensures Valid()
    {
      radius, speed, offset, tilt := slot.radius, slot.speed, slot.offset, slot.tilt;
      start := slot.offset;
      angle := slot.offset;
      frames := [];
    }

    /** One animation frame of `delta` seconds at the current speed.
        `meshMounted` says whether the electron's mesh ref is set; a frame
        without it changes nothing. */
    method Tick(delta: real, meshMounted: bool)
      requires Valid()
      modifies this
      ensures Valid()
      ensures meshMounted ==> frames == old(frames) + [Frame(speed, delta)] && angle == old(angle) + speed * delta
      ensures !meshMounted ==> frames == old(frames) && angle == old(angle)
      ensures radius == old(radius) && speed == old(speed) && offset == old(offset) && tilt == old(tilt)
    {
      if meshMounted {
        angle := angle + speed * delta;
        frames := frames + [Frame(speed, delta)];
        assert frames[..|frames| - 1] == old(frames);
      }
    }

    /** A re-render under the same key, with the record the allocator now
        gives this id: the props are replaced, the angle is kept, and the
        new offset has no effect on it. */
    method Update(slot: ElectronSlot)
      requires Valid()
      modifies this
      ensures Valid()
      ensures radius == slot.radius && speed == slot.speed && offset == slot.offset && tilt == slot.tilt
      ensures angle == old(angle) && frames == old(frames)
    {
      radius, speed, offset, tilt := slot.radius, slot.speed, slot.offset, slot.tilt;
    }
  }

  /** Two half frames and one whole frame move an electron equally far. */
  method HalfFramesExample(slot: ElectronSlot, delta: real) returns (a: real, b: real)
    ensures a == b == slot.offset + slot.speed * delta
  {
    var split := new ElectronOrbit(slot);
    split.Tick(delta / 2.0, true);
    split.Tick(delta / 2.0, true);
    var whole := new ElectronOrbit(slot);
    whole.Tick(delta, true);
    a, b := split.angle, whole.angle;
  }

  /** A speed-slider move between two frames: the electron, re-rendered
      with its new record, keeps the angle it reached, takes the new speed
      for later frames and ignores the new offset. */
  method SliderMoveExample(before: ElectronSlot, after: ElectronSlot, t1: real, t2: real)
    returns (angle: real)
    ensures angle == before.offset + before.speed * t1 + after.speed * t2
  {
    var e := new ElectronOrbit(before);
    e.Tick(t1, true);
    e.Update(after);
    e.Tick(t2, true);
    angle := e.angle;
  }

  /** Carbon to oxygen: electron e-1-1 stays mounted. Carbon's record gave
      it the offset pi/2 (electron 1 of a shell of 4); oxygen's record has
      pi/3 (electron 1 of a shell of 6). The electron keeps the angle it
      started at, not the new offset. */
  method ElementSwitchExample(speedMultiplier: real, draw: nat -> real)
    returns (id: string, angle: real, newOffset: real)
    ensures id == ElectronId(1, 1)
    ensures angle == Offset(1, 4) && newOffset == Offset(1, 6)
    ensures angle != newOffset
  {
    var carbon := AllocateElectrons(6, speedMultiplier, draw);
    var oxygen := AllocateElectrons(8, speedMultiplier, draw);
    CapacityTable();
    ElectronAt(6, speedMultiplier, draw, 1, 1);
    ElectronAt(8, speedMultiplier, draw, 1, 1);
    var e := new ElectronOrbit(carbon[3]);
    e.Update(oxygen[3]);
    id, angle, newOffset := oxygen[3].id, e.angle, e.offset;
    assert carbon[3].id == id;
  }
}
