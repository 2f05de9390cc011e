/** The free-flying camera (Willow/Camera/Camera.cs): input handling, the
    speed and field-of-view clamps, and the fixed-rate drag update.

    Orientation is a quaternion in the source; it is not modelled. The world
    axes it yields (`fUp`, `fForward`, `fRight`) are kept as a field and are
    handed to `UpdateCamera` by its caller. */
module Cameras {
  import opened Positions
  import opened Motion
  import opened Input
  import opened Steering

  const DefaultFieldOfView: real := 60.0
  const MinFieldOfView: real := 10.0
  const MaxFieldOfView: real := 130.0
  /** How far one PageUp or PageDown changes the field of view, in degrees. */
  const FieldOfViewStep: real := 5.0

  /** The field of view after the PageUp, PageDown and End handling of
      `HandleInput`, applied in that order. */
  function FieldOfViewAfter(fov: real, pageUp: bool, pageDown: bool, end: bool): (r: real)
    ensures end ==> r == DefaultFieldOfView
    ensures !pageUp && !pageDown && !end ==> r == fov
    ensures pageUp && !pageDown && !end ==> r >= MinFieldOfView && (r == fov - FieldOfViewStep || r == MinFieldOfView)
    ensures pageUp && !pageDown && !end && fov - FieldOfViewStep >= MinFieldOfView ==> r == fov - FieldOfViewStep
    ensures pageDown && !end ==> r <= MaxFieldOfView
    ensures !pageUp && pageDown && !end && fov + FieldOfViewStep <= MaxFieldOfView ==> r == fov + FieldOfViewStep
    ensures MinFieldOfView <= fov <= MaxFieldOfView ==> MinFieldOfView <= r <= MaxFieldOfView
  {
    var lowered := if pageUp then (if fov - FieldOfViewStep < MinFieldOfView then MinFieldOfView else fov - FieldOfViewStep) else fov;
    var raised := if pageDown then (if lowered + FieldOfViewStep > MaxFieldOfView then MaxFieldOfView else lowered + FieldOfViewStep) else lowered;
    if end then DefaultFieldOfView else raised
  }

  /** What the camera's `HandleInput` reads: D/A, W/S and Q/E or the
      matching gamepad-one buttons, Insert/Delete on the keyboard only, and
      the mouse deltas. The camera has no yaw keys. */
  function CameraControls(input: InputManager): (c: Controls)
    requires input.Valid()
    reads input, input.keyboard, input.mouse, input.gamePad, input.gamePad.current
    ensures !c.yawLeft && !c.yawRight
    ensures c.right <==> D in input.keyboard.current.down || DPadRight in input.gamePad.current[PlayerOne].down
    ensures c.up <==> Insert in input.keyboard.current.down
  {
    Controls(
      input.KeyOrButtonDown(PlayerOne, D, DPadRight), input.KeyOrButtonDown(PlayerOne, A, DPadLeft),
      input.KeyOrButtonDown(PlayerOne, W, DPadUp), input.KeyOrButtonDown(PlayerOne, S, DPadDown),
      input.keyboard.KeyDown(Insert), input.keyboard.KeyDown(Delete),
      input.KeyOrButtonDown(PlayerOne, Q, RightShoulder), input.KeyOrButtonDown(PlayerOne, E, LeftShoulder),
      false, false,
      input.mouse.DeltaX, input.mouse.DeltaY, input.mouse.DeltaScrollWheel)
  }

  class Camera {
    const input: InputManager

    var Position: Position3
    var localPosition: Position3
    var AttachedPosition: Position3
    var axes: Axes

    const rotationalForce: Vector3 := Position3(955.0, 955.0, 955.0)
    const rotationalDrag: Vector3 := Position3(0.85, 0.85, 0.85)
    const forwardForce: real := 10.0
    const reverseForce: real := 10.0
    const linearDrag: real := 0.90

    var rotationTime: real
    var linearTime: real
    var speedFactor: real
    var rotationalAcceleration: Vector3
    var linearAcceleration: Vector3
    var rotationalVelocity: Vector3
    var linearVelocity: Vector3

    var nearClip: real
    var farClip: real
    var fieldOfView: real
    var AcceptInput: bool

    /** The field initialisers of the class. */
    constructor (input: InputManager)
      ensures this.input == input
      ensures Position == Position3(0.0, 0.0, 6436.1369)
      ensures localPosition == Zero && AttachedPosition == Zero
      ensures rotationTime == 0.0 && linearTime == 0.0 && speedFactor == 1.0
      ensures rotationalAcceleration == Zero && linearAcceleration == Zero
      ensures rotationalVelocity == Zero && linearVelocity == Zero
      ensures nearClip == 0.1 && farClip == 20000.0 && fieldOfView == DefaultFieldOfView && !AcceptInput
      ensures Initial()
    {
      this.input := input;
      Position := Position3(0.0, 0.0, 6436.1369);
      localPosition, AttachedPosition := Zero, Zero;
      axes := Axes(Zero, Zero, Zero);
      rotationTime, linearTime, speedFactor := 0.0, 0.0, 1.0;
      rotationalAcceleration, linearAcceleration := Zero, Zero;
      rotationalVelocity, linearVelocity := Zero, Zero;
      nearClip, farClip, fieldOfView := 0.1, 20000.0, DefaultFieldOfView;
      AcceptInput := false;
    }

    /** The state the field initialisers leave, `AcceptInput` aside. */
    ghost predicate Initial()
      reads this
    {
      && Position == Position3(0.0, 0.0, 6436.1369) && localPosition == Zero && AttachedPosition == Zero
      && rotationTime == 0.0 && linearTime == 0.0 && speedFactor == 1.0
      && rotationalAcceleration == Zero && linearAcceleration == Zero
      && rotationalVelocity == Zero && linearVelocity == Zero
      && nearClip == 0.1 && farClip == 20000.0 && fieldOfView == DefaultFieldOfView
    }

    /** The accumulators are within one drag step and the speed factor within
        its clamp. */
    ghost predicate Steady()
      reads this
    {
      && 0.0 <= rotationTime < Step && 0.0 <= linearTime < Step
      && MinSpeed <= speedFactor <= MaxSpeed
    }

    method SpeedChange(amount: real)
      modifies this
      ensures speedFactor == ChangedSpeed(old(speedFactor), amount)
      ensures MinSpeed <= speedFactor <= MaxSpeed
      ensures Position == old(Position) && localPosition == old(localPosition) && axes == old(axes)
      ensures rotationTime == old(rotationTime) && linearTime == old(linearTime)
      ensures linearAcceleration == old(linearAcceleration) && rotationalAcceleration == old(rotationalAcceleration)
      ensures linearVelocity == old(linearVelocity) && rotationalVelocity == old(rotationalVelocity)
      ensures fieldOfView == old(fieldOfView) && AcceptInput == old(AcceptInput) && AttachedPosition == old(AttachedPosition)
      ensures nearClip == old(nearClip) && farClip == old(farClip)
    {
      speedFactor := speedFactor + speedFactor * amount * 0.1;
      if speedFactor < MinSpeed {
        speedFactor := MinSpeed;
      }
      if speedFactor > MaxSpeed {
        speedFactor := MaxSpeed;
      }
    }

    /** The PageUp, PageDown and End handling of `HandleInput`. */
    method Zoom(pageUp: bool, pageDown: bool, end: bool)
      modifies this
      ensures fieldOfView == FieldOfViewAfter(old(fieldOfView), pageUp, pageDown, end)
      ensures Position == old(Position) && localPosition == old(localPosition) && axes == old(axes)
      ensures rotationTime == old(rotationTime) && linearTime == old(linearTime) && speedFactor == old(speedFactor)
      ensures linearVelocity == old(linearVelocity) && rotationalVelocity == old(rotationalVelocity)
      ensures linearAcceleration == old(linearAcceleration) && rotationalAcceleration == old(rotationalAcceleration)
      ensures AcceptInput == old(AcceptInput) && AttachedPosition == old(AttachedPosition)
      ensures nearClip == old(nearClip) && farClip == old(farClip)
    {
      if pageUp {
        fieldOfView := fieldOfView - FieldOfViewStep;
        if fieldOfView < MinFieldOfView {
          fieldOfView := MinFieldOfView;
        }
      }
      if pageDown {
        fieldOfView := fieldOfView + FieldOfViewStep;
        if fieldOfView > MaxFieldOfView {
          fieldOfView := MaxFieldOfView;
        }
      }
      if end {
        fieldOfView := DefaultFieldOfView;
      }
    }

    /** Reads the keyboard, gamepad one and mouse through the input manager
        and turns them into field-of-view changes, thrust, rotation and speed
        changes. Does nothing unless `AcceptInput` is set. */
    method HandleInput()
      requires input.Valid()
      modifies this
      ensures !old(AcceptInput) ==> unchanged(this)
      ensures Position == old(Position) && localPosition == old(localPosition) && axes == old(axes)
      ensures rotationTime == old(rotationTime) && linearTime == old(linearTime)
      ensures linearVelocity == old(linearVelocity) && rotationalVelocity == old(rotationalVelocity)
      ensures AcceptInput == old(AcceptInput) && AttachedPosition == old(AttachedPosition)
      ensures nearClip == old(nearClip) && farClip == old(farClip)
      ensures old(AcceptInput) ==>
        var c := old(CameraControls(input));
        && fieldOfView == FieldOfViewAfter(old(fieldOfView),
             old(input.keyboard.KeyPressed(PageUp)), old(input.keyboard.KeyPressed(PageDown)), old(input.keyboard.KeyPressed(End)))
        && linearAcceleration == Thrusted(old(linearAcceleration), axes, forwardForce, reverseForce, old(speedFactor), c)
        && rotationalAcceleration == Turned(old(rotationalAcceleration), rotationalForce, c)
        && speedFactor == if c.scroll != 0.0 then ChangedSpeed(old(speedFactor), c.scroll / 120.0) else old(speedFactor)
    {
      if !AcceptInput {
        return;
      }
      var pageUp, pageDown, end := input.keyboard.KeyPressed(PageUp), input.keyboard.KeyPressed(PageDown), input.keyboard.KeyPressed(End);
      var c := CameraControls(input);
      Zoom(pageUp, pageDown, end);
      Steer(c);
    }

    /** The movement keys, roll keys, mouse deltas and scroll wheel part of
        `HandleInput`, for the controls read in this frame. */
    method Steer(c: Controls)
      modifies this
      ensures linearAcceleration == Thrusted(old(linearAcceleration), axes, forwardForce, reverseForce, old(speedFactor), c)
      ensures rotationalAcceleration == Turned(old(rotationalAcceleration), rotationalForce, c)
      ensures speedFactor == if c.scroll != 0.0 then ChangedSpeed(old(speedFactor), c.scroll / 120.0) else old(speedFactor)
      ensures Position == old(Position) && localPosition == old(localPosition) && axes == old(axes)
      ensures rotationTime == old(rotationTime) && linearTime == old(linearTime) && fieldOfView == old(fieldOfView)
      ensures linearVelocity == old(linearVelocity) && rotationalVelocity == old(rotationalVelocity)
      ensures AcceptInput == old(AcceptInput) && AttachedPosition == old(AttachedPosition)
      ensures nearClip == old(nearClip) && farClip == old(farClip)
    {
      linearAcceleration := Thrusted(linearAcceleration, axes, forwardForce, reverseForce, speedFactor, c);
      rotationalAcceleration := Turned(rotationalAcceleration, rotationalForce, c);
      if c.scroll != 0.0 {
        SpeedChange(c.scroll / 120.0);
      }
    }

    /** One frame of motion: accumulate acceleration into velocity, run the
        drag steps for the time accumulated, take the new world axes, and move
        the local position by the linear velocity. */
    method UpdateCamera(elapsed: real, newAxes: Axes)
      modifies this
      ensures rotationTime == ClockAfter(old(rotationTime), elapsed)
      ensures rotationalVelocity == RotationAfter(old(rotationTime), elapsed, old(rotationalVelocity), old(rotationalAcceleration), rotationalDrag)
      ensures rotationalAcceleration == AccelerationAfter(old(rotationTime), elapsed, old(rotationalAcceleration))
      ensures linearTime == ClockAfter(old(linearTime), elapsed)
      ensures linearVelocity == VelocityAfter(old(linearTime), elapsed, old(linearVelocity), old(linearAcceleration), linearDrag)
      ensures linearAcceleration == AccelerationAfter(old(linearTime), elapsed, old(linearAcceleration))
      ensures localPosition == Plus(old(localPosition), linearVelocity)
      ensures Position == Plus(localPosition, AttachedPosition)
      ensures axes == newAxes
      ensures old(Steady()) && elapsed >= 0.0 ==> Steady()
      ensures speedFactor == old(speedFactor) && fieldOfView == old(fieldOfView)
      ensures AcceptInput == old(AcceptInput) && AttachedPosition == old(AttachedPosition)
      ensures nearClip == old(nearClip) && farClip == old(farClip)
    {
      Rotate(elapsed);
      axes := newAxes;
      Accelerate(elapsed);
      localPosition := Plus(localPosition, linearVelocity);
      Position := Plus(localPosition, AttachedPosition);
    }

    /** The rotational block of `UpdateCamera`. */
    method Rotate(elapsed: real)
      modifies this
      ensures rotationTime == ClockAfter(old(rotationTime), elapsed)
      ensures rotationalVelocity == RotationAfter(old(rotationTime), elapsed, old(rotationalVelocity), old(rotationalAcceleration), rotationalDrag)
      ensures rotationalAcceleration == AccelerationAfter(old(rotationTime), elapsed, old(rotationalAcceleration))
      ensures 0.0 <= old(rotationTime) && 0.0 <= elapsed ==> 0.0 <= rotationTime < Step
      ensures linearTime == old(linearTime) && linearVelocity == old(linearVelocity) && linearAcceleration == old(linearAcceleration)
      ensures localPosition == old(localPosition) && axes == old(axes) && speedFactor == old(speedFactor) && fieldOfView == old(fieldOfView)
      ensures AcceptInput == old(AcceptInput) && AttachedPosition == old(AttachedPosition)
      ensures nearClip == old(nearClip) && farClip == old(farClip)
    {
      DrainedInRange(rotationTime + elapsed);
      rotationTime, rotationalVelocity, rotationalAcceleration :=
        DrainRotation(rotationTime, elapsed, rotationalVelocity, rotationalAcceleration, rotationalDrag);
    }

    /** The linear block of `UpdateCamera`. */
    method Accelerate(elapsed: real)
      modifies this
      ensures linearTime == ClockAfter(old(linearTime), elapsed)
      ensures linearVelocity == VelocityAfter(old(linearTime), elapsed, old(linearVelocity), old(linearAcceleration), linearDrag)
      ensures linearAcceleration == AccelerationAfter(old(linearTime), elapsed, old(linearAcceleration))
      ensures 0.0 <= old(linearTime) && 0.0 <= elapsed ==> 0.0 <= linearTime < Step
      ensures rotationTime == old(rotationTime) && rotationalVelocity == old(rotationalVelocity) && rotationalAcceleration == old(rotationalAcceleration)
      ensures localPosition == old(localPosition) && axes == old(axes) && speedFactor == old(speedFactor) && fieldOfView == old(fieldOfView)
      ensures AcceptInput == old(AcceptInput) && AttachedPosition == old(AttachedPosition)
      ensures nearClip == old(nearClip) && farClip == old(farClip)
    {
      DrainedInRange(linearTime + elapsed);
      linearTime, linearVelocity, linearAcceleration :=
        DrainLinear(linearTime, elapsed, linearVelocity, linearAcceleration, linearDrag);
    }

    /** Copies the other camera's local position (and orientation, which is
        not modelled) and runs a zero-length update. */
    method Clone(other: Camera, newAxes: Axes)
      modifies this
      ensures localPosition == Plus(old(other.localPosition), linearVelocity)
      ensures Position == Plus(localPosition, AttachedPosition)
      ensures axes == newAxes
      ensures linearTime == ClockAfter(old(linearTime), 0.0)
      ensures linearVelocity == Damped(old(linearVelocity), linearDrag, Ticks(old(linearTime)))
      ensures linearAcceleration == AccelerationAfter(old(linearTime), 0.0, old(linearAcceleration))
      ensures rotationTime == ClockAfter(old(rotationTime), 0.0)
      ensures rotationalVelocity == Dragged(old(rotationalVelocity), rotationalDrag, Ticks(old(rotationTime)))
      ensures rotationalAcceleration == AccelerationAfter(old(rotationTime), 0.0, old(rotationalAcceleration))
      ensures speedFactor == old(speedFactor) && fieldOfView == old(fieldOfView) && nearClip == old(nearClip) && farClip == old(farClip)
      ensures AcceptInput == old(AcceptInput) && AttachedPosition == old(AttachedPosition)
      ensures old(Steady()) ==>
        && Steady() && linearTime == old(linearTime) && rotationTime == old(rotationTime)
        && linearVelocity == old(linearVelocity) && rotationalVelocity == old(rotationalVelocity)
        && linearAcceleration == old(linearAcceleration) && rotationalAcceleration == old(rotationalAcceleration)
    {
      localPosition := other.localPosition;
      DrainedInRange(linearTime);
      DrainedInRange(rotationTime);
      UpdateCamera(0.0, newAxes);
      assert Plus(old(linearVelocity), Times(old(linearAcceleration), 0.0)) == old(linearVelocity);
      assert Plus(old(rotationalVelocity), Times(old(rotationalAcceleration), 0.0)) == old(rotationalVelocity);
    }
  }
}
