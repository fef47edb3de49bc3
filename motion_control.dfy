// The turret's motion primitives (class Turret of the sketch).
//
// The turret drives three servos: yaw (continuous rotation, horizontal),
// pitch (positional, vertical) and roll (continuous rotation, the firing
// mechanism).  The only state it keeps is the tracked pitch angle; everything
// else it does is a servo write or a blocking delay.  Those side effects are
// recorded, in order, in a ghost trace `effects`.
//
// `Step` is the meaning of one primitive on (pitch, trace); each method of
// the class is proved to do what `Step` says, and the lemmas about `Step` and
// its fold `Run` state the safety and saturation properties.

module MotionControl {

  /** An Arduino pin number (uint8_t). */
  newtype Pin = x: int | 0 <= x < 256

  datatype Axis = Yaw | Pitch | Roll

  /** One observable side effect of a primitive. */
  datatype Effect = ServoWrite(axis: Axis, value: int) | Delay(ms: int)

  /** The servo calibration speeds and the pitch safety bounds.  The sketch
      keeps them in separate int fields that only the constructor sets. */
  datatype Calibration = Calibration(
    yawStop: int, yawMove: int, pitchStep: int,
    rollStop: int, rollMove: int,
    pitchMin: int, pitchMax: int)

  /** The values the constructor's initializer list gives them. */
  const Factory := Calibration(90, 90, 8, 90, 90, 33, 150)

  /** The pitch `home` always returns to, and the pitch at construction. */
  const HomePitch := 100

  /** Default durations of the primitives, in milliseconds. */
  const DefaultYawMs := 150
  const DefaultPitchMs := 50
  const DefaultFireOneMs := 158
  const DefaultFireAllMs := 948

  /** One call of a motion primitive, with its argument. */
  datatype Primitive =
    | MoveLeft(durationMs: int)
    | MoveRight(durationMs: int)
    | MoveUp(durationMs: int)
    | MoveDown(durationMs: int)
    | FireOne(durationMs: int)
    | FireAll(durationMs: int)
    | Home
    | SetPitchDeg(angle: int)

  /** The tracked pitch after a primitive, and the effects it issued. */
  datatype After = After(pitch: int, effects: seq<Effect>)

  predicate InBounds(c: Calibration, p: int)
  {
    c.pitchMin <= p <= c.pitchMax
  }

  /** Calibrations for which the safety argument goes through: steps do not
      go backwards and the home pitch is itself safe. */
  predicate Sane(c: Calibration)
  {
    0 <= c.pitchStep && InBounds(c, HomePitch)
  }

  /** The bounds-checked setter: out-of-range angles saturate to the nearest
      bound (lower bound tested first). */
  function Clamp(c: Calibration, angle: int): (r: int)
    ensures c.pitchMin <= c.pitchMax ==> InBounds(c, r)
    ensures InBounds(c, angle) ==> r == angle
    ensures c.pitchMin <= c.pitchMax && angle < c.pitchMin ==> r == c.pitchMin
    ensures angle > c.pitchMax ==> r == c.pitchMax
  {
    var a := if angle < c.pitchMin then c.pitchMin else angle;
    if a > c.pitchMax then c.pitchMax else a
  }

  /** A yaw or roll pulse: run at `speed` for `ms`, then stop. */
  function Pulse(axis: Axis, speed: int, ms: int, stop: int): seq<Effect>
  {
    [ServoWrite(axis, speed), Delay(ms), ServoWrite(axis, stop)]
  }

  /** The effects of `home`, whatever the state before. */
  function HomeEffects(c: Calibration): seq<Effect>
  {
    [ServoWrite(Yaw, c.yawStop), Delay(20), ServoWrite(Roll, c.rollStop), Delay(100),
     ServoWrite(Pitch, HomePitch), Delay(100)]
  }

  /** The meaning of one primitive, from tracked pitch `p`. */
  function Step(c: Calibration, p: int, prim: Primitive): (r: After)
    ensures prim.MoveLeft? || prim.MoveRight? || prim.FireOne? || prim.FireAll? ==> r.pitch == p
    ensures Sane(c) && InBounds(c, p) ==> InBounds(c, r.pitch)
  {
    match prim
    case MoveLeft(d) => After(p, Pulse(Yaw, c.yawStop + c.yawMove, d, c.yawStop))
    case MoveRight(d) => After(p, Pulse(Yaw, c.yawStop - c.yawMove, d, c.yawStop))
    case MoveUp(d) =>
      if p + c.pitchStep < c.pitchMax then After(p + c.pitchStep, [ServoWrite(Pitch, p + c.pitchStep), Delay(d)])
      else After(p, [])
    case MoveDown(d) =>
      if p - c.pitchStep > c.pitchMin then After(p - c.pitchStep, [ServoWrite(Pitch, p - c.pitchStep), Delay(d)])
      else After(p, [])
    case FireOne(d) => After(p, Pulse(Roll, c.rollStop + c.rollMove, d, c.rollStop))
    case FireAll(d) => After(p, Pulse(Roll, c.rollStop + c.rollMove, d, c.rollStop))
    case Home => After(HomePitch, HomeEffects(c))
    case SetPitchDeg(a) => After(Clamp(c, a), [ServoWrite(Pitch, Clamp(c, a))])
  }

  /** The primitives `ps` called one after another from pitch `p`. */
  function Run(c: Calibration, p: int, ps: seq<Primitive>): After
    decreases |ps|
  {
    if ps == [] then After(p, [])
    else
      var first := Step(c, p, ps[0]);
      var rest := Run(c, first.pitch, ps[1..]);
      After(rest.pitch, first.effects + rest.effects)
  }

  /** `n` calls of the same primitive. */
  function Repeat(prim: Primitive, n: nat): seq<Primitive>
  {
    if n == 0 then [] else [prim] + Repeat(prim, n - 1)
  }

  function Min(a: int, b: int): int
  {
    if a <= b then a else b
  }

  function Max0(a: int): int
  {
    if a < 0 then 0 else a
  }

  // ---------------------------------------------------------------------
  // Pitch safety
  // ---------------------------------------------------------------------

  /** Every value written to the pitch servo in `effects` is within bounds. */
  ghost predicate PitchWritesSafe(c: Calibration, effects: seq<Effect>)
  {
    forall i :: 0 <= i < |effects| && effects[i].ServoWrite? && effects[i].axis == Pitch ==>
      InBounds(c, effects[i].value)
  }

  /** A single up or down step is taken whole or not at all: a step that
      would reach or cross a bound leaves pitch unchanged (it is not clamped
      to the bound) and writes nothing. */
  lemma PitchStepWholeOrNothing(c: Calibration, p: int, d: int)
    requires 0 < c.pitchStep
    ensures var r := Step(c, p, MoveUp(d));
      (r.pitch == p + c.pitchStep && r.pitch < c.pitchMax) || (r == After(p, []) && p + c.pitchStep >= c.pitchMax)
    ensures var r := Step(c, p, MoveDown(d));
      (r.pitch == p - c.pitchStep && r.pitch > c.pitchMin) || (r == After(p, []) && p - c.pitchStep <= c.pitchMin)
  {
  }

  /** From a safe pitch, any sequence of primitives keeps pitch safe. */
  lemma {:induction false} RunKeepsPitchInBounds(c: Calibration, p: int, ps: seq<Primitive>)
    requires Sane(c) && InBounds(c, p)
    ensures InBounds(c, Run(c, p, ps).pitch)
    decreases |ps|
  {
    if ps != [] {
      RunKeepsPitchInBounds(c, Step(c, p, ps[0]).pitch, ps[1..]);
    }
  }

  /** From a safe pitch, the pitch servo is never sent an unsafe angle by
      any sequence of primitives. */
  lemma {:induction false} RunWritesOnlySafePitch(c: Calibration, p: int, ps: seq<Primitive>)
    requires Sane(c) && InBounds(c, p)
    ensures PitchWritesSafe(c, Run(c, p, ps).effects)
    decreases |ps|
  {
    if ps != [] {
      var first := Step(c, p, ps[0]);
      RunWritesOnlySafePitch(c, first.pitch, ps[1..]);
      var rest := Run(c, first.pitch, ps[1..]);
      assert PitchWritesSafe(c, first.effects);
      assert Run(c, p, ps).effects == first.effects + rest.effects;
      forall i | 0 <= i < |first.effects + rest.effects|
        ensures var e := (first.effects + rest.effects)[i]; e.ServoWrite? && e.axis == Pitch ==> InBounds(c, e.value)
      {
        if i >= |first.effects| {
          assert (first.effects + rest.effects)[i] == rest.effects[i - |first.effects|];
        }
      }
    }
  }

  /** Repeated `up` from pitch `p` (Factory calibration) climbs by 8 until
      one more step would reach 150, then stays there (from 150 itself, every
      step is refused). */
  lemma {:induction false} RepeatedUpSaturates(p: int, d: int, n: nat)
    requires p <= 150
    ensures Run(Factory, p, Repeat(MoveUp(d), n)).pitch == p + 8 * Min(n, Max0((149 - p) / 8))
    decreases n
  {
    if n > 0 {
      RepeatedUpSaturates(Step(Factory, p, MoveUp(d)).pitch, d, n - 1);
    }
  }

  /** Repeated `down` from pitch `p` (Factory calibration) descends by 8
      until one more step would reach 33, then stays there (from 33 itself,
      every step is refused). */
  lemma {:induction false} RepeatedDownSaturates(p: int, d: int, n: nat)
    requires p >= 33
    ensures Run(Factory, p, Repeat(MoveDown(d), n)).pitch == p - 8 * Min(n, Max0((p - 34) / 8))
    decreases n
  {
    if n > 0 {
      RepeatedDownSaturates(Step(Factory, p, MoveDown(d)).pitch, d, n - 1);
    }
  }

  /** From the home pitch 100, `up` reaches 148 after six steps and stays at
      148 (the seventh step, to 156, is refused); `down` reaches 36 after
      eight steps and stays at 36. */
  lemma UpAndDownFromHome(d: int, n: nat)
    ensures n >= 6 ==> Run(Factory, HomePitch, Repeat(MoveUp(d), n)).pitch == 148
    ensures n >= 8 ==> Run(Factory, HomePitch, Repeat(MoveDown(d), n)).pitch == 36
  {
    RepeatedUpSaturates(HomePitch, d, n);
    RepeatedDownSaturates(HomePitch, d, n);
  }

  /** An accepted `up` is undone by a `down` unless `down` would touch the
      lower bound. */
  lemma UpThenDownReturns(c: Calibration, p: int, d1: int, d2: int)
    requires p + c.pitchStep < c.pitchMax && c.pitchMin < p
    ensures Run(c, p, [MoveUp(d1), MoveDown(d2)]).pitch == p
  {
    assert [MoveUp(d1), MoveDown(d2)][1..] == [MoveDown(d2)];
    var p1 := Step(c, p, MoveUp(d1)).pitch;
    assert Run(c, p1, [MoveDown(d2)]).pitch == Step(c, p1, MoveDown(d2)).pitch by {
      assert [MoveDown(d2)][1..] == [];
    }
  }

  /** `setPitchDeg` saturates, and calling it again with the same angle
      changes nothing further (it writes the same angle again). */
  lemma SetPitchIdempotent(c: Calibration, p: int, a: int)
    requires c.pitchMin <= c.pitchMax
    ensures Run(c, p, [SetPitchDeg(a), SetPitchDeg(a)]).pitch == Step(c, p, SetPitchDeg(a)).pitch
    ensures Step(c, Step(c, p, SetPitchDeg(a)).pitch, SetPitchDeg(a)) == Step(c, p, SetPitchDeg(a))
  {
    assert [SetPitchDeg(a), SetPitchDeg(a)][1..] == [SetPitchDeg(a)];
    var p1 := Step(c, p, SetPitchDeg(a)).pitch;
    assert Run(c, p1, [SetPitchDeg(a)]).pitch == Step(c, p1, SetPitchDeg(a)).pitch by {
      assert [SetPitchDeg(a)][1..] == [];
    }
  }

  // ---------------------------------------------------------------------
  // Yaw and roll
  // ---------------------------------------------------------------------

  datatype Option<T> = None | Some(value: T)

  /** The value last written to `axis` in `effects`, if any. */
  function LastWrite(effects: seq<Effect>, axis: Axis): Option<int>
  {
    if effects == [] then None
    else
      var later := LastWrite(effects[1..], axis);
      if later.Some? then later
      else if effects[0].ServoWrite? && effects[0].axis == axis then Some(effects[0].value)
      else None
  }

  /** The last write of a concatenation comes from its second part when that
      part writes the axis at all. */
  lemma {:induction false} LastWriteAppend(a: seq<Effect>, b: seq<Effect>, axis: Axis)
    ensures LastWrite(a + b, axis) == if LastWrite(b, axis).Some? then LastWrite(b, axis) else LastWrite(a, axis)
    decreases |a|
  {
    if a == [] {
      assert a + b == b;
    } else {
      assert (a + b)[1..] == a[1..] + b;
      LastWriteAppend(a[1..], b, axis);
    }
  }

  /** A pulse leaves its axis stopped and does not write any other axis. */
  lemma PulseEndsStopped(axis: Axis, speed: int, ms: int, stop: int, a: Axis)
    ensures LastWrite(Pulse(axis, speed, ms, stop), a) == if a == axis then Some(stop) else None
  {
    var e := Pulse(axis, speed, ms, stop);
    assert e[1..][1..][1..] == [];
    assert LastWrite(e[1..][1..], a) == if a == axis then Some(stop) else None;
    assert LastWrite(e[1..], a) == LastWrite(e[1..][1..], a);
  }

  /** `home` last tells yaw and roll to stop. */
  lemma HomeEndsStopped(c: Calibration)
    ensures LastWrite(HomeEffects(c), Yaw) == Some(c.yawStop)
    ensures LastWrite(HomeEffects(c), Roll) == Some(c.rollStop)
  {
    var e := HomeEffects(c);
    var t2 := e[1..][1..];
    assert t2[1..][1..] == [ServoWrite(Pitch, HomePitch), Delay(100)];
    assert t2[1..][1..][1..][1..] == [];
    assert LastWrite(t2[1..][1..], Yaw) == None && LastWrite(t2[1..][1..], Roll) == None by {
      assert LastWrite(t2[1..][1..][1..], Yaw) == None && LastWrite(t2[1..][1..][1..], Roll) == None;
    }
    assert LastWrite(t2, Roll) == Some(c.rollStop);
    assert LastWrite(t2, Yaw) == None;
  }

  /** Every primitive that starts the yaw or roll servo also stops it. */
  lemma StepLeavesYawAndRollStopped(c: Calibration, p: int, prim: Primitive)
    ensures LastWrite(Step(c, p, prim).effects, Yaw) in {None, Some(c.yawStop)}
    ensures LastWrite(Step(c, p, prim).effects, Roll) in {None, Some(c.rollStop)}
  {
    var e := Step(c, p, prim).effects;
    match prim
    case MoveLeft(d) =>
      PulseEndsStopped(Yaw, c.yawStop + c.yawMove, d, c.yawStop, Yaw);
      PulseEndsStopped(Yaw, c.yawStop + c.yawMove, d, c.yawStop, Roll);
    case MoveRight(d) =>
      PulseEndsStopped(Yaw, c.yawStop - c.yawMove, d, c.yawStop, Yaw);
      PulseEndsStopped(Yaw, c.yawStop - c.yawMove, d, c.yawStop, Roll);
    case FireOne(d) =>
      PulseEndsStopped(Roll, c.rollStop + c.rollMove, d, c.rollStop, Yaw);
      PulseEndsStopped(Roll, c.rollStop + c.rollMove, d, c.rollStop, Roll);
    case FireAll(d) =>
      PulseEndsStopped(Roll, c.rollStop + c.rollMove, d, c.rollStop, Yaw);
      PulseEndsStopped(Roll, c.rollStop + c.rollMove, d, c.rollStop, Roll);
    case Home =>
      HomeEndsStopped(c);
    case MoveUp(_) =>
      if e != [] {
        assert e[1..][1..] == [];
        assert LastWrite(e[1..], Yaw) == None && LastWrite(e[1..], Roll) == None;
      }
    case MoveDown(_) =>
      if e != [] {
        assert e[1..][1..] == [];
        assert LastWrite(e[1..], Yaw) == None && LastWrite(e[1..], Roll) == None;
      }
    case SetPitchDeg(_) =>
      assert e[1..] == [];
  }

  /** Yaw and roll are continuous-rotation servos: after any sequence of
      primitives, each of them was last told to stop (or never written). */
  lemma {:induction false} RunLeavesYawAndRollStopped(c: Calibration, p: int, ps: seq<Primitive>)
    ensures LastWrite(Run(c, p, ps).effects, Yaw) in {None, Some(c.yawStop)}
    ensures LastWrite(Run(c, p, ps).effects, Roll) in {None, Some(c.rollStop)}
    decreases |ps|
  {
    if ps != [] {
      var first := Step(c, p, ps[0]);
      var rest := Run(c, first.pitch, ps[1..]);
      RunLeavesYawAndRollStopped(c, first.pitch, ps[1..]);
      StepLeavesYawAndRollStopped(c, p, ps[0]);
      LastWriteAppend(first.effects, rest.effects, Yaw);
      LastWriteAppend(first.effects, rest.effects, Roll);
    }
  }

  /** `fireAll` is `fireOne` with a longer default: for the same duration the
      two issue identical effects, and the default `fireAll` delay is exactly
      six default `fireOne` delays. */
  lemma FireAllIsLongFireOne(c: Calibration, p: int, d: int)
    ensures Step(c, p, FireAll(d)) == Step(c, p, FireOne(d))
    ensures Step(c, p, FireAll(DefaultFireAllMs)).effects[1] == Delay(6 * DefaultFireOneMs)
  {
  }

  /** With the factory calibration: `left` drives yaw at 180 then stops it
      at 90, `right` drives it at 0 then stops it, both fire primitives
      drive roll at 180 then stop it at 90, and `home` writes yaw 90, roll
      90 and pitch 100, in that order. */
  lemma FactoryPrimitiveEffects(p: int, d: int)
    ensures Step(Factory, p, MoveLeft(d)).effects == [ServoWrite(Yaw, 180), Delay(d), ServoWrite(Yaw, 90)]
    ensures Step(Factory, p, MoveRight(d)).effects == [ServoWrite(Yaw, 0), Delay(d), ServoWrite(Yaw, 90)]
    ensures Step(Factory, p, FireOne(d)).effects == [ServoWrite(Roll, 180), Delay(d), ServoWrite(Roll, 90)]
    ensures Step(Factory, p, FireAll(d)).effects == [ServoWrite(Roll, 180), Delay(d), ServoWrite(Roll, 90)]
    ensures Step(Factory, p, Home).effects ==
      [ServoWrite(Yaw, 90), Delay(20), ServoWrite(Roll, 90), Delay(100), ServoWrite(Pitch, 100), Delay(100)]
  {
  }

  /** `home` ends in the same state whatever the state before. */
  lemma HomeForgetsPriorPitch(c: Calibration, p: int, q: int)
    ensures Step(c, p, Home) == Step(c, q, Home)
    ensures Step(c, p, Home).pitch == HomePitch
  {
  }

  // ---------------------------------------------------------------------
  // The turret object
  // ---------------------------------------------------------------------

  class Turret {
    const yawPin: Pin
    const pitchPin: Pin
    const rollPin: Pin
    // calibration speeds and safety bounds, fixed by the initializer list
    const cal: Calibration := Factory
    var pitchVal: int
    ghost var effects: seq<Effect>

    /** The safety invariant the class promises to keep. */
    predicate Safe()
      reads this
    {
      InBounds(cal, pitchVal)
    }

    constructor (yawPin: Pin, pitchPin: Pin, rollPin: Pin)
      ensures this.yawPin == yawPin && this.pitchPin == pitchPin && this.rollPin == rollPin
      ensures cal == Factory
      ensures pitchVal == HomePitch && Safe()
      ensures effects == []
    {
      this.yawPin := yawPin;
      this.pitchPin := pitchPin;
      this.rollPin := rollPin;
      pitchVal := HomePitch;
      effects := [];
    }

    method Left(durationMs: int := DefaultYawMs)
      modifies this
      ensures pitchVal == old(pitchVal)
      ensures effects == old(effects) + Step(cal, old(pitchVal), MoveLeft(durationMs)).effects
    {
      effects := effects + [ServoWrite(Yaw, cal.yawStop + cal.yawMove)];
      effects := effects + [Delay(durationMs)];
      effects := effects + [ServoWrite(Yaw, cal.yawStop)];
    }

    method Right(durationMs: int := DefaultYawMs)
      modifies this
      ensures pitchVal == old(pitchVal)
      ensures effects == old(effects) + Step(cal, old(pitchVal), MoveRight(durationMs)).effects
    {
      effects := effects + [ServoWrite(Yaw, cal.yawStop - cal.yawMove)];
      effects := effects + [Delay(durationMs)];
      effects := effects + [ServoWrite(Yaw, cal.yawStop)];
    }

    method Up(durationMs: int := DefaultPitchMs)
      modifies this
      ensures pitchVal == Step(cal, old(pitchVal), MoveUp(durationMs)).pitch
      ensures effects == old(effects) + Step(cal, old(pitchVal), MoveUp(durationMs)).effects
      ensures old(Safe()) ==> Safe()
    {
      if pitchVal + cal.pitchStep < cal.pitchMax {
        pitchVal := pitchVal + cal.pitchStep;
        effects := effects + [ServoWrite(Pitch, pitchVal)];
        effects := effects + [Delay(durationMs)];
      }
    }

    method Down(durationMs: int := DefaultPitchMs)
      modifies this
      ensures pitchVal == Step(cal, old(pitchVal), MoveDown(durationMs)).pitch
      ensures effects == old(effects) + Step(cal, old(pitchVal), MoveDown(durationMs)).effects
      ensures old(Safe()) ==> Safe()
    {
      if pitchVal - cal.pitchStep > cal.pitchMin {
        pitchVal := pitchVal - cal.pitchStep;
        effects := effects + [ServoWrite(Pitch, pitchVal)];
        effects := effects + [Delay(durationMs)];
      }
    }

    method FireOne(durationMs: int := DefaultFireOneMs)
      modifies this
      ensures pitchVal == old(pitchVal)
      ensures effects == old(effects) + Step(cal, old(pitchVal), Primitive.FireOne(durationMs)).effects
    {
      effects := effects + [ServoWrite(Roll, cal.rollStop + cal.rollMove)];
      effects := effects + [Delay(durationMs)];
      effects := effects + [ServoWrite(Roll, cal.rollStop)];
    }

    method FireAll(durationMs: int := DefaultFireAllMs)
      modifies this
      ensures pitchVal == old(pitchVal)
      ensures effects == old(effects) + Step(cal, old(pitchVal), Primitive.FireAll(durationMs)).effects
    {
      effects := effects + [ServoWrite(Roll, cal.rollStop + cal.rollMove)];
      effects := effects + [Delay(durationMs)];
      effects := effects + [ServoWrite(Roll, cal.rollStop)];
    }

    method Home()
      modifies this
      ensures pitchVal == HomePitch
      ensures Safe()
      ensures effects == old(effects) + Step(cal, old(pitchVal), Primitive.Home).effects
    {
      effects := effects + [ServoWrite(Yaw, cal.yawStop)];
      effects := effects + [Delay(20)];
      effects := effects + [ServoWrite(Roll, cal.rollStop)];
      effects := effects + [Delay(100)];
      pitchVal := HomePitch;
      effects := effects + [ServoWrite(Pitch, pitchVal)];
      effects := effects + [Delay(100)];
    }

    method SetPitchDeg(angle: int)
      modifies this
      ensures pitchVal == Step(cal, old(pitchVal), Primitive.SetPitchDeg(angle)).pitch
      ensures effects == old(effects) + Step(cal, old(pitchVal), Primitive.SetPitchDeg(angle)).effects
      ensures Safe()
    {
      var a := angle;
      if a < cal.pitchMin { a := cal.pitchMin; }
      if a > cal.pitchMax { a := cal.pitchMax; }
      pitchVal := a;
      effects := effects + [ServoWrite(Pitch, pitchVal)];
    }

    /** The tracked pitch; reads the object and changes nothing. */
    function GetPitchDeg(): (r: int)
      reads this
      ensures r == pitchVal
      ensures Safe() ==> InBounds(cal, r)
    {
      pitchVal
    }
  }

  /** A freshly built turret sits at pitch 100; seven default `up` calls
      raise it to 148 (the seventh, to 156, is refused and writes
      nothing). */
  method SevenUpsScenario() returns (pitch: int)
    ensures pitch == 148
  {
    var t := new Turret(9, 10, 11);
    t.Up();
    t.Up();
    t.Up();
    t.Up();
    t.Up();
    t.Up();
    assert t.pitchVal == 148;
    ghost var before := t.effects;
    t.Up();
    assert t.effects == before;
    pitch := t.GetPitchDeg();
  }
}
