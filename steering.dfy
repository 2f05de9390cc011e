/** The keyboard, gamepad and mouse response shared by the free camera
    (Willow/Camera/Camera.cs) and the movement controller
    (Willow/Movement.cs): the `Move*` methods add thrust along the world axes,
    the `Roll*`, `Yaw*` and `Pitch*` methods overwrite one component of the
    rotational acceleration, in the order `HandleInput` calls them. */
module Steering {
  import opened Positions

  /** The world up, forward and right vectors the orientation yields. */
  datatype Axes = Axes(up: Vector3, forward: Vector3, right: Vector3)

  /** What `HandleInput` reads from the input manager in one frame: which
      movement keys are down, and the mouse deltas. */
  datatype Controls = Controls(
    right: bool, left: bool, forward: bool, backward: bool, up: bool, down: bool,
    rollLeft: bool, rollRight: bool, yawLeft: bool, yawRight: bool,
    deltaX: real, deltaY: real, scroll: real)

  /** The thrust `axis * force * speed` of one `Move*` call. */
  function Push(axis: Vector3, force: real, speed: real): Vector3 {
    Times(Times(axis, force), speed)
  }

  /** The linear acceleration after `MoveRight`, `MoveLeft`, `MoveForward`,
      `MoveBackward`, `MoveUp` and `MoveDown` have run, in that order, for
      the keys that are down. `MoveLeft` and `MoveBackward` add a thrust with
      a negated force; `MoveDown` subtracts the upward thrust. */
  function Thrusted(acc: Vector3, axes: Axes, forwardForce: real, reverseForce: real, speed: real, c: Controls): Vector3 {
    var a1 := if c.right then Plus(acc, Push(axes.right, forwardForce, speed)) else acc;
    var a2 := if c.left then Plus(a1, Push(axes.right, -forwardForce, speed)) else a1;
    var a3 := if c.forward then Plus(a2, Push(axes.forward, forwardForce, speed)) else a2;
    var a4 := if c.backward then Plus(a3, Push(axes.forward, -reverseForce, speed)) else a3;
    var a5 := if c.up then Plus(a4, Push(axes.up, forwardForce, speed)) else a4;
    if c.down then Minus(a5, Push(axes.up, forwardForce, speed)) else a5
  }

  /** The rotational acceleration after `RollLeft`, `RollRight`, `YawLeft`,
      `YawRight`, the mouse `YawChange` and the mouse `PitchChange`, in that
      order, for the controls that are active. */
  function Turned(rot: Vector3, force: Vector3, c: Controls): Vector3 {
    var r1 := if c.rollLeft then rot.(Z := force.Z) else rot;
    var r2 := if c.rollRight then r1.(Z := -force.Z) else r1;
    var r3 := if c.yawLeft then r2.(Y := force.Y) else r2;
    var r4 := if c.yawRight then r3.(Y := -force.Y) else r3;
    var r5 := if c.deltaX != 0.0 then r4.(Y := -c.deltaX * 100.0) else r4;
    if c.deltaY != 0.0 then r5.(X := -c.deltaY * 100.0) else r5
  }

  /** The thrust with a negated force points the other way. */
  lemma PushNegated(axis: Vector3, force: real, speed: real)
    ensures Push(axis, -force, speed) == Negate(Push(axis, force, speed))
  {
    assert (axis.X * -force) * speed == -((axis.X * force) * speed);
    assert (axis.Y * -force) * speed == -((axis.Y * force) * speed);
    assert (axis.Z * -force) * speed == -((axis.Z * force) * speed);
  }

  /** Adding a vector and then its negation changes nothing. */
  lemma PlusNegateCancels(acc: Vector3, p: Vector3)
    ensures Plus(Plus(acc, p), Negate(p)) == acc
    ensures Minus(Plus(acc, p), p) == acc
  {
  }

  /** Holding both Right and Left is the same as holding neither. */
  lemma SideKeysCancel(acc: Vector3, axes: Axes, forwardForce: real, reverseForce: real, speed: real, c: Controls)
    ensures Thrusted(acc, axes, forwardForce, reverseForce, speed, c.(right := true, left := true))
         == Thrusted(acc, axes, forwardForce, reverseForce, speed, c.(right := false, left := false))
  {
    PushNegated(axes.right, forwardForce, speed);
    PlusNegateCancels(acc, Push(axes.right, forwardForce, speed));
  }

  /** Holding both Insert and Delete is the same as holding neither. */
  lemma VerticalKeysCancel(acc: Vector3, axes: Axes, forwardForce: real, reverseForce: real, speed: real, c: Controls)
    ensures Thrusted(acc, axes, forwardForce, reverseForce, speed, c.(up := true, down := true))
         == Thrusted(acc, axes, forwardForce, reverseForce, speed, c.(up := false, down := false))
  {
    var a4 := Thrusted(acc, axes, forwardForce, reverseForce, speed, c.(up := false, down := false));
    PlusNegateCancels(a4, Push(axes.up, forwardForce, speed));
  }

  /** Holding both forward and back is the same as holding neither when the
      forward and reverse forces are equal, as they are in both controllers. */
  lemma AheadKeysCancel(acc: Vector3, axes: Axes, forwardForce: real, reverseForce: real, speed: real, c: Controls)
    requires forwardForce == reverseForce
    ensures Thrusted(acc, axes, forwardForce, reverseForce, speed, c.(forward := true, backward := true))
         == Thrusted(acc, axes, forwardForce, reverseForce, speed, c.(forward := false, backward := false))
  {
    var a2 := Thrusted(acc, axes, forwardForce, reverseForce, speed, c.(forward := false, backward := false, up := false, down := false));
    PushNegated(axes.forward, forwardForce, speed);
    PlusNegateCancels(a2, Push(axes.forward, forwardForce, speed));
  }

  /** Later calls win: the mouse overrides the yaw keys, `YawRight` overrides
      `YawLeft`, and `RollRight` overrides `RollLeft`. */
  lemma TurnedPrecedence(rot: Vector3, force: Vector3, c: Controls)
    ensures Turned(rot, force, c).X == if c.deltaY != 0.0 then -c.deltaY * 100.0 else rot.X
    ensures Turned(rot, force, c).Y ==
      if c.deltaX != 0.0 then -c.deltaX * 100.0
      else if c.yawRight then -force.Y
      else if c.yawLeft then force.Y
      else rot.Y
    ensures Turned(rot, force, c).Z ==
      if c.rollRight then -force.Z else if c.rollLeft then force.Z else rot.Z
  {
  }
}
