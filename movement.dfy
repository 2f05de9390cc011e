/** The movement controller (Willow/Movement.cs): the same thrust, drag and
    speed clamp as the free camera, driven by the keyboard alone, with yaw
    keys, a smaller starting speed and no projection.

    Orientation is a quaternion in the source; it is not modelled. The world
    axes it yields are kept as a field and handed to `UpdateMovement` by its
    caller. */
module Movements {
  import opened Positions
  import opened Motion
  import opened Input
  import opened Steering

  /** What `HandleInput` reads: D/A, W/S, Q/E, Insert/Delete and the
      Left/Right arrows on the keyboard, and the mouse deltas. */
  function MovementControls(input: InputManager): (c: Controls)
    reads input, input.keyboard, input.mouse
    ensures c.right <==> D in input.keyboard.current.down
    ensures c.yawLeft <==> Left in input.keyboard.current.down
    ensures c.yawRight <==> Right in input.keyboard.current.down
  {
    var k := input.keyboard;
    Controls(
      k.KeyDown(D), k.KeyDown(A), k.KeyDown(W), k.KeyDown(S), k.KeyDown(Insert), k.KeyDown(Delete),
      k.KeyDown(Q), k.KeyDown(E), k.KeyDown(Left), k.KeyDown(Right),
      input.mouse.DeltaX, input.mouse.DeltaY, input.mouse.DeltaScrollWheel)
  }

  class Movement {
    const input: InputManager

    var Position: Position3
    var localPosition: Position3
    var AttachedPosition: Position3
    var axes: Axes

    const rotationalForce: Vector3 := Position3(955.0, 955.0, 955.0)
    const rotationalDrag: Vector3 := Position3(0.85, 0.85, 0.85)
    const forwardForce: real := 10.0
    const reverseForce: real := 10.0
    const linearDrag: real := 0.90

    var rotationTime: real
    var linearTime: real
    var speedFactor: real
    var rotationalAcceleration: Vector3
    var linearAcceleration: Vector3
    var rotationalVelocity: Vector3
    var linearVelocity: Vector3
    var AcceptInput: bool

    /** The field initialisers of the class. */
    constructor (input: InputManager)
      ensures this.input == input
      ensures Position == Position3(0.0, 0.0, 6436.1369)
      ensures localPosition == Zero && AttachedPosition == Zero
      ensures rotationTime == 0.0 && linearTime == 0.0 && speedFactor == 0.001
      ensures rotationalAcceleration == Zero && linearAcceleration == Zero
      ensures rotationalVelocity == Zero && linearVelocity == Zero
      ensures !AcceptInput
    {
      this.input := input;
      Position := Position3(0.0, 0.0, 6436.1369);
      localPosition, AttachedPosition := Zero, Zero;
      axes := Axes(Zero, Zero, Zero);
      rotationTime, linearTime, speedFactor := 0.0, 0.0, 0.001;
      rotationalAcceleration, linearAcceleration := Zero, Zero;
      rotationalVelocity, linearVelocity := Zero, Zero;
      AcceptInput := false;
    }

    /** The accumulators are within one drag step and the speed factor within
        its clamp. */
    ghost predicate Steady()
      reads this
    {
      && 0.0 <= rotationTime < Step && 0.0 <= linearTime < Step
      && MinSpeed <= speedFactor <= MaxSpeed
    }

    method SpeedChange(amount: real)
      modifies this
      ensures speedFactor == ChangedSpeed(old(speedFactor), amount)
      ensures MinSpeed <= speedFactor <= MaxSpeed
      ensures Position == old(Position) && localPosition == old(localPosition) && axes == old(axes)
      ensures rotationTime == old(rotationTime) && linearTime == old(linearTime)
      ensures linearAcceleration == old(linearAcceleration) && rotationalAcceleration == old(rotationalAcceleration)
      ensures linearVelocity == old(linearVelocity) && rotationalVelocity == old(rotationalVelocity)
      ensures AcceptInput == old(AcceptInput) && AttachedPosition == old(AttachedPosition)
    {
      speedFactor := speedFactor + speedFactor * amount * 0.1;
      if speedFactor < MinSpeed {
        speedFactor := MinSpeed;
      }
      if speedFactor > MaxSpeed {
        speedFactor := MaxSpeed;
      }
    }

    /** Reads the keyboard and mouse and turns them into thrust, rotation and
        speed changes. Does nothing unless `AcceptInput` is set. */
    method HandleInput()
      modifies this
      ensures !old(AcceptInput) ==> unchanged(this)
      ensures Position == old(Position) && localPosition == old(localPosition) && axes == old(axes)
      ensures rotationTime == old(rotationTime) && linearTime == old(linearTime)
      ensures linearVelocity == old(linearVelocity) && rotationalVelocity == old(rotationalVelocity)
      ensures AcceptInput == old(AcceptInput) && AttachedPosition == old(AttachedPosition)
      ensures old(AcceptInput) ==>
        var c := old(MovementControls(input));
        && linearAcceleration == Thrusted(old(linearAcceleration), axes, forwardForce, reverseForce, old(speedFactor), c)
        && rotationalAcceleration == Turned(old(rotationalAcceleration), rotationalForce, c)
        && speedFactor == if c.scroll != 0.0 then ChangedSpeed(old(speedFactor), c.scroll / 120.0) else old(speedFactor)
    {
      if !AcceptInput {
        return;
      }
      var c := MovementControls(input);
      Steer(c);
    }

    /** The movement keys, roll and yaw keys, mouse deltas and scroll wheel,
        for the controls read in this frame. */
    method Steer(c: Controls)
      modifies this
      ensures linearAcceleration == Thrusted(old(linearAcceleration), axes, forwardForce, reverseForce, old(speedFactor), c)
      ensures rotationalAcceleration == Turned(old(rotationalAcceleration), rotationalForce, c)
      ensures speedFactor == if c.scroll != 0.0 then ChangedSpeed(old(speedFactor), c.scroll / 120.0) else old(speedFactor)
      ensures Position == old(Position) && localPosition == old(localPosition) && axes == old(axes)
      ensures rotationTime == old(rotationTime) && linearTime == old(linearTime)
      ensures linearVelocity == old(linearVelocity) && rotationalVelocity == old(rotationalVelocity)
      ensures AcceptInput == old(AcceptInput) && AttachedPosition == old(AttachedPosition)
    {
      linearAcceleration := Thrusted(linearAcceleration, axes, forwardForce, reverseForce, speedFactor, c);
      rotationalAcceleration := Turned(rotationalAcceleration, rotationalForce, c);
      if c.scroll != 0.0 {
        SpeedChange(c.scroll / 120.0);
      }
    }

    /** One frame of motion: accumulate acceleration into velocity, run the
        drag steps for the time accumulated, take the new world axes, and move
        the local position by the linear velocity. */
    method UpdateMovement(elapsed: real, newAxes: Axes)
      modifies this
      ensures rotationTime == ClockAfter(old(rotationTime), elapsed)
      ensures rotationalVelocity == RotationAfter(old(rotationTime), elapsed, old(rotationalVelocity), old(rotationalAcceleration), rotationalDrag)
      ensures rotationalAcceleration == AccelerationAfter(old(rotationTime), elapsed, old(rotationalAcceleration))
      ensures linearTime == ClockAfter(old(linearTime), elapsed)
      ensures linearVelocity == VelocityAfter(old(linearTime), elapsed, old(linearVelocity), old(linearAcceleration), linearDrag)
      ensures linearAcceleration == AccelerationAfter(old(linearTime), elapsed, old(linearAcceleration))
      ensures localPosition == Plus(old(localPosition), linearVelocity)
      ensures Position == Plus(localPosition, AttachedPosition)
      ensures axes == newAxes
      ensures old(Steady()) && elapsed >= 0.0 ==> Steady()
      ensures speedFactor == old(speedFactor)
      ensures AcceptInput == old(AcceptInput) && AttachedPosition == old(AttachedPosition)
    {
      Rotate(elapsed);
      axes := newAxes;
      Accelerate(elapsed);
      localPosition := Plus(localPosition, linearVelocity);
      Position := Plus(localPosition, AttachedPosition);
    }

    /** The rotational block of `UpdateMovement`. */
    method Rotate(elapsed: real)
      modifies this
      ensures rotationTime == ClockAfter(old(rotationTime), elapsed)
      ensures rotationalVelocity == RotationAfter(old(rotationTime), elapsed, old(rotationalVelocity), old(rotationalAcceleration), rotationalDrag)
      ensures rotationalAcceleration == AccelerationAfter(old(rotationTime), elapsed, old(rotationalAcceleration))
      ensures 0.0 <= old(rotationTime) && 0.0 <= elapsed ==> 0.0 <= rotationTime < Step
      ensures linearTime == old(linearTime) && linearVelocity == old(linearVelocity) && linearAcceleration == old(linearAcceleration)
      ensures localPosition == old(localPosition) && axes == old(axes) && speedFactor == old(speedFactor)
      ensures AcceptInput == old(AcceptInput) && AttachedPosition == old(AttachedPosition)
    {
      DrainedInRange(rotationTime + elapsed);
      rotationTime, rotationalVelocity, rotationalAcceleration :=
        DrainRotation(rotationTime, elapsed, rotationalVelocity, rotationalAcceleration, rotationalDrag);
    }

    /** The linear block of `UpdateMovement`. */
    method Accelerate(elapsed: real)
      modifies this
      ensures linearTime == ClockAfter(old(linearTime), elapsed)
      ensures linearVelocity == VelocityAfter(old(linearTime), elapsed, old(linearVelocity), old(linearAcceleration), linearDrag)
      ensures linearAcceleration == AccelerationAfter(old(linearTime), elapsed, old(linearAcceleration))
      ensures 0.0 <= old(linearTime) && 0.0 <= elapsed ==> 0.0 <= linearTime < Step
      ensures rotationTime == old(rotationTime) && rotationalVelocity == old(rotationalVelocity) && rotationalAcceleration == old(rotationalAcceleration)
      ensures localPosition == old(localPosition) && axes == old(axes) && speedFactor == old(speedFactor)
      ensures AcceptInput == old(AcceptInput) && AttachedPosition == old(AttachedPosition)
    {
      DrainedInRange(linearTime + elapsed);
      linearTime, linearVelocity, linearAcceleration :=
        DrainLinear(linearTime, elapsed, linearVelocity, linearAcceleration, linearDrag);
    }

    /** Copies the other controller's local position (and orientation, which
        is not modelled) and runs a zero-length update. */
    method Clone(other: Movement, newAxes: Axes)
      modifies this
      ensures localPosition == Plus(old(other.localPosition), linearVelocity)
      ensures Position == Plus(localPosition, AttachedPosition)
      ensures axes == newAxes
      ensures linearTime == ClockAfter(old(linearTime), 0.0)
      ensures linearVelocity == Damped(old(linearVelocity), linearDrag, Ticks(old(linearTime)))
      ensures linearAcceleration == AccelerationAfter(old(linearTime), 0.0, old(linearAcceleration))
      ensures rotationTime == ClockAfter(old(rotationTime), 0.0)
      ensures rotationalVelocity == Dragged(old(rotationalVelocity), rotationalDrag, Ticks(old(rotationTime)))
      ensures rotationalAcceleration == AccelerationAfter(old(rotationTime), 0.0, old(rotationalAcceleration))
      ensures speedFactor == old(speedFactor)
      ensures AcceptInput == old(AcceptInput) && AttachedPosition == old(AttachedPosition)
      ensures old(Steady()) ==>
        && Steady() && linearTime == old(linearTime) && rotationTime == old(rotationTime)
        && linearVelocity == old(linearVelocity) && rotationalVelocity == old(rotationalVelocity)
        && linearAcceleration == old(linearAcceleration) && rotationalAcceleration == old(rotationalAcceleration)
    {
      localPosition := other.localPosition;
      DrainedInRange(linearTime);
      DrainedInRange(rotationTime);
      UpdateMovement(0.0, newAxes);
      assert Plus(old(linearVelocity), Times(old(linearAcceleration), 0.0)) == old(linearVelocity);
      assert Plus(old(rotationalVelocity), Times(old(rotationalAcceleration), 0.0)) == old(rotationalVelocity);
    }
  }
}
