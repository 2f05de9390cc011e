/** The fixed-rate drag step shared by the free camera (Willow/Camera/Camera.cs)
    and the movement controller (Willow/Movement.cs).

    Each update adds the elapsed time to an accumulator and then, while the
    accumulator holds at least one sixtieth of a second, applies the drag to
    the velocity once, removes a sixtieth from the accumulator and zeroes the
    acceleration. The functions below say what that loop computes; the two
    `Drain` methods are the loop itself. */
module Motion {
  import opened Positions

  /** The length of one drag step: 1/60 s. */
  const Step: real := 1.0 / 60.0

  /** How many times the drain loop runs on an accumulator holding `t`:
      none below one step, otherwise once per whole sixtieth of a second. */
  function Ticks(t: real): nat {
    if t < Step then 0 else (t * 60.0).Floor
  }

  /** One pass of the loop removes exactly one tick. */
  lemma TickDown(t: real)
    requires t >= Step
    ensures Ticks(t - Step) == Ticks(t) - 1
  {
    assert (t - Step) * 60.0 == t * 60.0 - 1.0;
  }

  /** The accumulator after the loop. */
  function Drained(t: real): real {
    t - Ticks(t) as real / 60.0
  }

  /** `v` after `n` steps of the per-component drag `drag`. */
  function Dragged(v: Vector3, drag: Vector3, n: nat): Vector3 {
    if n == 0 then v else Modulate(Dragged(v, drag, n - 1), drag)
  }

  /** `v` after `n` steps of the scalar drag `drag`. */
  function Damped(v: Vector3, drag: real, n: nat): Vector3 {
    if n == 0 then v else Times(Damped(v, drag, n - 1), drag)
  }

  function Abs(x: real): real { if x < 0.0 then -x else x }

  /** The loop leaves the accumulator below one step, and never below zero
      when it started non-negative; below one step it does not run at all. */
  lemma DrainedInRange(t: real)
    ensures Drained(t) < Step
    ensures t >= 0.0 ==> 0.0 <= Drained(t)
    ensures t < Step ==> Ticks(t) == 0 && Drained(t) == t
  {
  }

  /** No component of `w` is larger in magnitude than the same one of `v`. */
  predicate NoFaster(w: Vector3, v: Vector3) {
    Abs(w.X) <= Abs(v.X) && Abs(w.Y) <= Abs(v.Y) && Abs(w.Z) <= Abs(v.Z)
  }

  /** A drag factor in [0, 1] never speeds a component up, however many
      steps run. */
  lemma {:induction false} DampingNeverAccelerates(v: Vector3, drag: real, n: nat)
    requires 0.0 <= drag <= 1.0
    ensures NoFaster(Damped(v, drag, n), v)
  {
    if n > 0 {
      var u := Damped(v, drag, n - 1);
      DampingNeverAccelerates(v, drag, n - 1);
      ScalingNeverAccelerates(u, drag);
    }
  }

  /** The same for a per-component drag whose components are in [0, 1]. */
  lemma {:induction false} DraggingNeverAccelerates(v: Vector3, drag: Vector3, n: nat)
    requires 0.0 <= drag.X <= 1.0 && 0.0 <= drag.Y <= 1.0 && 0.0 <= drag.Z <= 1.0
    ensures NoFaster(Dragged(v, drag, n), v)
  {
    if n > 0 {
      var u := Dragged(v, drag, n - 1);
      DraggingNeverAccelerates(v, drag, n - 1);
      ModulatingNeverAccelerates(u, drag);
    }
  }

  lemma ModulatingNeverAccelerates(u: Vector3, drag: Vector3)
    requires 0.0 <= drag.X <= 1.0 && 0.0 <= drag.Y <= 1.0 && 0.0 <= drag.Z <= 1.0
    ensures NoFaster(Modulate(u, drag), u)
  {
    ScaleShrinks(u.X, u.X * drag.X, drag.X);
    ScaleShrinks(u.Y, u.Y * drag.Y, drag.Y);
    ScaleShrinks(u.Z, u.Z * drag.Z, drag.Z);
  }

  lemma ScalingNeverAccelerates(u: Vector3, drag: real)
    requires 0.0 <= drag <= 1.0
    ensures NoFaster(Times(u, drag), u)
  {
    ScaleShrinks(u.X, u.X * drag, drag);
    ScaleShrinks(u.Y, u.Y * drag, drag);
    ScaleShrinks(u.Z, u.Z * drag, drag);
  }

  lemma ScaleShrinks(x: real, y: real, drag: real)
    requires 0.0 <= drag <= 1.0 && y == x * drag
    ensures Abs(y) <= Abs(x)
  {
    if x >= 0.0 {
      assert x * drag <= x * 1.0;
    } else {
      assert -(x * drag) == (-x) * drag <= (-x) * 1.0;
    }
  }

  /** The accumulator after `elapsed` is added and the loop has run. */
  function ClockAfter(time: real, elapsed: real): real {
    Drained(time + elapsed)
  }

  /** The velocity after `acceleration * elapsed` is added and the loop has
      applied the per-component drag once per step. */
  function RotationAfter(time: real, elapsed: real, velocity: Vector3, acceleration: Vector3, drag: Vector3): Vector3 {
    Dragged(Plus(velocity, Times(acceleration, elapsed)), drag, Ticks(time + elapsed))
  }

  /** The same with one scalar drag. */
  function VelocityAfter(time: real, elapsed: real, velocity: Vector3, acceleration: Vector3, drag: real): Vector3 {
    Damped(Plus(velocity, Times(acceleration, elapsed)), drag, Ticks(time + elapsed))
  }

  /** The loop clears the acceleration as soon as it runs once. */
  function AccelerationAfter(time: real, elapsed: real, acceleration: Vector3): Vector3 {
    if Ticks(time + elapsed) == 0 then acceleration else Zero
  }

  /** The rotational block of an update: accumulate, then drain with a
      per-component drag. */
  method DrainRotation(time: real, elapsed: real, velocity: Vector3, acceleration: Vector3, drag: Vector3)
    returns (t: real, v: Vector3, a: Vector3)
    ensures t == ClockAfter(time, elapsed)
    ensures v == RotationAfter(time, elapsed, velocity, acceleration, drag)
    ensures a == AccelerationAfter(time, elapsed, acceleration)
  {
    v := Plus(velocity, Times(acceleration, elapsed));
    t := time + elapsed;
    a := acceleration;
    ghost var v0, t0 := v, t;
    ghost var n: nat := 0;
    while t >= Step
      invariant n + Ticks(t) == Ticks(t0)
      invariant t == t0 - n as real / 60.0
      invariant v == Dragged(v0, drag, n)
      invariant a == if n == 0 then acceleration else Zero
      decreases (t * 60.0).Floor
    {
      TickDown(t);
      v := Modulate(v, drag);
      t := t - Step;
      a := Zero;
      n := n + 1;
    }
  }

  /** The linear block of an update: accumulate, then drain with one scalar
      drag. */
  method DrainLinear(time: real, elapsed: real, velocity: Vector3, acceleration: Vector3, drag: real)
    returns (t: real, v: Vector3, a: Vector3)
    ensures t == ClockAfter(time, elapsed)
    ensures v == VelocityAfter(time, elapsed, velocity, acceleration, drag)
    ensures a == AccelerationAfter(time, elapsed, acceleration)
  {
    v := Plus(velocity, Times(acceleration, elapsed));
    t := time + elapsed;
    a := acceleration;
    ghost var v0, t0 := v, t;
    ghost var n: nat := 0;
    while t >= Step
      invariant n + Ticks(t) == Ticks(t0)
      invariant t == t0 - n as real / 60.0
      invariant v == Damped(v0, drag, n)
      invariant a == if n == 0 then acceleration else Zero
      decreases (t * 60.0).Floor
    {
      TickDown(t);
      v := Times(v, drag);
      t := t - Step;
      a := Zero;
      n := n + 1;
    }
  }

  /** `SpeedChange`: grow or shrink the speed factor by a tenth of `amount`
      of itself, then clamp it to [0.000001, 100000]. */
  function ChangedSpeed(speed: real, amount: real): (r: real)
    ensures MinSpeed <= r <= MaxSpeed
    ensures MinSpeed <= speed + speed * amount * 0.1 <= MaxSpeed ==> r == speed + speed * amount * 0.1
  {
    var s := speed + speed * amount * 0.1;
    var s' := if s < MinSpeed then MinSpeed else s;
    if s' > MaxSpeed then MaxSpeed else s'
  }

  const MinSpeed: real := 0.000001
  const MaxSpeed: real := 100000.0
}
