# Planet_40 terrain engine: a verified model of its sequential core

Planet_40 is an XNA planet renderer. A quadtree of terrain nodes covers the six
faces of a cube-sphere, is split and culled as the camera moves, and is drawn
leaf by leaf. This project models, in Dafny, the logic around that engine that
runs on one thread, and proves what each piece promises.

| file | module | models |
|---|---|---|
| `wrappers.dfy` | `Wrappers` | `Option`, `Result` and `Outcome`, for nulls and exceptions |
| `positions.dfy` | `Positions` | the `Position3` struct: its operators as functions over reals; its mutating members (`Add`, `Subtract`, `SubtractFrom`, `Transform`, ...) as methods of `PositionCell`, a variable holding a `Position3` |
| `pool.dfy` | `Pools` | `Pool<T>`: one array split by `InvalidCount` into a free prefix and a leased suffix; `New` grows it by 20 slots, and `CleanUp` partitions it in place with swaps |
| `input.dfy` | `Input` | the keyboard, mouse and game-pad handlers (current and previous snapshots, edge predicates, sticky connection flags) and the `InputManager` that combines them |
| `motion.dfy`, `steering.dfy` | `Motion`, `Steering` | what the camera and the movement share: the fixed 1/60 s drag loops and speed clamp, and the thrust and turn handlers driven by the controls |
| `camera.dfy`, `movement.dfy` | `Cameras`, `Movements` | the free camera and the movement component: field of view, speed factor, accelerations, velocities, time accumulators and position |
| `camera_manager.dfy` | `CameraManagers` | the name-to-camera registry with its active and frustum camera |
| `planet_game.dfy` | `PlanetGame` | the render-mode cycle, near-clip selection, the culling guard, the leaf-drawing traversal with split cancellation, node counting, and the render counters |
| `tools.dfy` | `Tools` | angle wrapping, the segment box test, HSV to RGB, and the Möller–Trumbore ray/triangle test |
| `noise.dfy` | `Noise` | the gradient and permutation tables, `perm`, `grad`, `fade`, `lerp`, and the `fBm`, `Turbulence`, ridged and hybrid multifractal loops |
| `frame_rate.dfy` | `FrameRates` | the frames-per-second counter |
| `sprite_sheet.dfy` | `SpriteSheets` | the sprite-sheet dictionary built from a list, its indexer and `Dispose` |
| `vertex_definition.dfy` | `VertexDefinitions` | the vertex element table of the terrain mesh |

Code that changes state stays imperative:
- the pool is a class over an `array` and swaps its entries in place;
- the handlers, cameras, registry, counters and sprite sheet are classes whose
  methods update their fields;
- the table builders fill arrays in loops;
- the drag loops and octave loops are `while` loops with invariants.

Each such method is proved against a function that states its outcome, for
example:
- `Released` and `CleanUpInvariant` for the pool;
- `Traverse` and `Highest` for the traversal;
- `Drawn` for the counter;
- `SumAfter`, `RidgedAfter` and `HybridAfter` for the noise loops.

Lemmas prove what those functions promise: permutation, conservation, bounds,
idempotence and round trips.

All arithmetic is over `real` and unbounded `int`.

## Model

| member | source | states |
|---|---|---|
| Positions.EqualityOperators | Planet_40/Planet_40/Willow/Position.cs:74-82 | `==` holds exactly when the three coordinates agree, and `!=` is its negation |
| Positions.TransformedDividesByW | Planet_40/Planet_40/Willow/Position.cs:351-375 | a homogeneous W inside the epsilon band gives the zero vector; otherwise the result times W is the matrix row product |
| Positions.PlusMinusRoundTrip | Planet_40/Planet_40/Willow/Position.cs:91-111 | subtracting what was added, or adding what was subtracted, gives the original vector back |
| Positions.DotSymmetric | Planet_40/Planet_40/Willow/Position.cs:233-236 | the dot product does not depend on operand order |
| Positions.CrossOrthogonal | Planet_40/Planet_40/Willow/Position.cs:233-243 | the cross product is orthogonal to both operands |
| Positions.CrossAntisymmetric | Planet_40/Planet_40/Willow/Position.cs:238-243 | swapping the operands negates the cross product, and a vector crossed with itself is zero |
| Positions.DivisionOperatorsAgree | Planet_40/Planet_40/Willow/Position.cs:127-135 | `s / V` divides each coordinate of V by s, like `V / s`, and multiplying back by a non-zero s restores V |
| Positions.MultiplicationOperatorsAgree | Planet_40/Planet_40/Willow/Position.cs:115-123 | `V * s` and `s * V` are the same vector |
| Positions.PositionCell.Clear | Planet_40/Planet_40/Willow/Position.cs:53-58 | the vector becomes the origin |
| Positions.PositionCell.AddScalar | Planet_40/Planet_40/Willow/Position.cs:171-176 | the in-place scalar add gives the same vector as the `+` operator |
| Positions.PositionCell.Add | Planet_40/Planet_40/Willow/Position.cs:178-183 | the in-place add gives the same vector as `this + V` |
| Positions.PositionCell.SubtractScalar | Planet_40/Planet_40/Willow/Position.cs:185-190 | the in-place scalar subtract gives the same vector as the `-` operator |
| Positions.PositionCell.Subtract | Planet_40/Planet_40/Willow/Position.cs:192-197 | the in-place subtract gives the same vector as `this - V` |
| Positions.PositionCell.Multiply | Planet_40/Planet_40/Willow/Position.cs:199-204 | the in-place scale gives the same vector as `this * s` |
| Positions.PositionCell.Divide | Planet_40/Planet_40/Willow/Position.cs:207-212 | the in-place divide gives the same vector as `this / s` |
| Positions.PositionCell.AddPair | Planet_40/Planet_40/Willow/Position.cs:251-263 | the result is the sum of the two operands |
| Positions.PositionCell.SubtractPair | Planet_40/Planet_40/Willow/Position.cs:265-270 | the result is the first operand minus the second |
| Positions.PositionCell.SubtractFrom | Planet_40/Planet_40/Willow/Position.cs:279-284 | the vector becomes `V - this`, the opposite order from Subtract |
| Positions.PositionCell.Transform | Planet_40/Planet_40/Willow/Position.cs:351-375 | the vector becomes its perspective transform by the matrix |
| Positions.PositionCell.constructor | Planet_40/Planet_40/Willow/Position.cs:22-27 | a new vector holds the given coordinates |
| Pools.ReleasedKeptPartition | Planet_40/Planet_40/Willow/Pool.cs:128-149 | the entries a clean-up releases and the ones it keeps are, together, a permutation of the leased entries it checks |
| Pools.ReleasedExactly | Planet_40/Planet_40/Willow/Pool.cs:133-146 | an entry is released exactly when it is one of the checked leased entries and fails the validation delegate |
| Pools.Grown | Planet_40/Planet_40/Willow/Pool.cs:159-172 | with no free slot left, the array grows by 20 slots: old slot k moves to slot k + 20, the 20 new low slots are empty and the free count rises by 20; with a free slot the pool is left as it was |
| Pools.CleanUpOutcome | Planet_40/Planet_40/Willow/Pool.cs:126-150 | once every leased slot has been checked, the free prefix is untouched, the released entries follow it in their original order, and the leased region holds exactly the entries that pass validation (as a multiset), all of which pass |
| Pools.CleanUpKeep | Planet_40/Planet_40/Willow/Pool.cs:131-134 | a leased entry that passes validation stays where it is, and the loop invariant holds for the next slot |
| Pools.CleanUpRelease | Planet_40/Planet_40/Willow/Pool.cs:136-148 | swapping a failing entry into slot InvalidCount appends it to the released block, keeps the array a permutation of the original, and keeps the loop invariant |
| Pools.SwapPermutes | Planet_40/Planet_40/Willow/Pool.cs:138-142 | the three-assignment swap is a permutation of the array |
| Pools.Pool.ValidCount | Planet_40/Planet_40/Willow/Pool.cs:46 | under the pool invariant the leased count, the array length less the free count, is never negative |
| Pools.Pool.At | Planet_40/Planet_40/Willow/Pool.cs:58-69 | an index is accepted exactly when 0 <= index < ValidCount, and then yields the slot InvalidCount + index; any other index gives IndexOutOfRange |
| Pools.Pool.Init | Planet_40/Planet_40/Willow/Pool.cs:98-103 | a new pool of the given size has every slot free and no delegates attached |
| Pools.Pool.Create | Planet_40/Planet_40/Willow/Pool.cs:90-121 | a negative size is refused; size 0 means 10 slots; a type without a parameterless constructor and no allocator is refused; otherwise every slot is free |
| Pools.Pool.SetInitialize | Planet_40/Planet_40/Willow/Pool.cs:35 | attaching the Initialize delegate changes nothing else |
| Pools.Pool.SetDeinitialize | Planet_40/Planet_40/Willow/Pool.cs:41 | attaching the Deinitialize delegate changes nothing else |
| Pools.Pool.New | Planet_40/Planet_40/Willow/Pool.cs:156-196 | hands out the last free slot (growing first when none is free), reuses its object or calls the allocator only for an empty slot, fails with AllocateReturnedNull when the allocator yields nothing, calls Initialize when it is attached, and leaves one fewer free slot |
| Pools.Pool.CheckSlot | Planet_40/Planet_40/Willow/Pool.cs:131-148 | one pass of the clean-up loop: a passing entry is kept, a failing one is swapped to the front of the leased region and the free count grows by one |
| Pools.Pool.Exchange | Planet_40/Planet_40/Willow/Pool.cs:138-142 | the array afterwards is the old one with slots i and j exchanged |
| Pools.Pool.CleanUp | Planet_40/Planet_40/Willow/Pool.cs:126-150 | releases exactly the leased entries that fail validation, in order, moving them into the free region, keeps the others, and passes the released ones to Deinitialize when it is attached |
| Pools.Released | Planet_40/Planet_40/Willow/Pool.cs:133-146 | every entry a clean-up releases fails validation, and there are no more of them than entries checked |
| Pools.Kept | Planet_40/Planet_40/Willow/Pool.cs:133-134 | every entry a clean-up keeps passes validation |
| Pools.Swapped | Planet_40/Planet_40/Willow/Pool.cs:138-142 | the swap exchanges the two slots and leaves every other slot as it was |
| Input.EdgesExclusive | Planet_40/Planet_40/Willow/Input/InputManager.cs:569-585 | for one key, pressed, released and held are mutually exclusive, and pressed or held together mean exactly "down now" |
| Input.NoEdgesWhenUnchanged | Planet_40/Planet_40/Willow/Input/InputManager.cs:554-585 | when a key's state did not change between polls it is neither pressed nor released, and held exactly when down |
| Input.CombinationNeedsTwoKeys | Planet_40/Planet_40/Willow/Input/InputManager.cs:587-590 | a combination can never fire with the same key for both halves, because one must be held and the other newly pressed |
| Input.KeyboardHandler.constructor | Planet_40/Planet_40/Willow/Input/InputManager.cs:546-551 | current and previous state both start as the first poll |
| Input.KeyboardHandler.Update | Planet_40/Planet_40/Willow/Input/InputManager.cs:554-559 | the previous state always becomes the old current state; the current state is re-polled only while the game is active, so an inactive frame reports no key as pressed or released |
| Input.KeyboardHandler.KeyCombinationPressed | Planet_40/Planet_40/Willow/Input/InputManager.cs:587-590 | a combination fires only for two different keys that are both down, the first already down at the previous poll and the second not |
| Input.GamePadHandler.constructor | Planet_40/Planet_40/Willow/Input/InputManager.cs:443-458 | four pads, each with current and previous state set to the first poll, none yet seen connected |
| Input.GamePadHandler.Reset | Planet_40/Planet_40/Willow/Input/InputManager.cs:460-465 | the previous state of every pad becomes its current state, so no button reads as pressed or released |
| Input.GamePadHandler.Update | Planet_40/Planet_40/Willow/Input/InputManager.cs:467-490 | the previous state becomes the old current state; while active, the pads are re-polled, a pad once connected stays "was connected", and its connection flag follows the poll only after it has been seen connected |
| Input.GamePadHandler.IsDisconnected | Planet_40/Planet_40/Willow/Input/InputManager.cs:492-495 | a pad reads as disconnected only if it was connected at some point |
| Input.GamePadHandler.KeyCombinationPressed | Planet_40/Planet_40/Willow/Input/InputManager.cs:523-526 | a button combination fires only for two different buttons that are both down, the first already down before and the second not |
| Input.MouseHandler.constructor | Planet_40/Planet_40/Willow/Input/InputManager.cs:297-305 | all three mouse states start as the first poll, deltas are zero, delta tracking is on and the mouse is not yet active |
| Input.MouseHandler.Update | Planet_40/Planet_40/Willow/Input/InputManager.cs:315-363 | an inactive frame zeroes the deltas and marks the mouse inactive; the first active frame after that reports zero deltas; otherwise the deltas are the change since the previous state, and with tracking on the cursor is re-centred |
| Input.InputManager.constructor | Planet_40/Planet_40/Willow/Input/InputManager.cs:72-81 | builds the three device handlers from their first polls |
| Input.InputManager.KeyOrButtonDown | Planet_40/Planet_40/Willow/Input/InputManager.cs:120-123 | true exactly when the key is down or the player's button is down |
| Input.InputManager.KeyOrButtonPressed | Planet_40/Planet_40/Willow/Input/InputManager.cs:125-128 | true exactly when the key or the button was just pressed, and then one of them is down |
| Input.InputManager.KeyOrButtonReleased | Planet_40/Planet_40/Willow/Input/InputManager.cs:130-133 | true exactly when the key or the button was just released, and then one of them is up |
| Input.InputManager.KeyOrButtonHeld | Planet_40/Planet_40/Willow/Input/InputManager.cs:135-138 | true exactly when the key or the button is held, and then the pair reads as down |
| Input.InputManager.LeftThumbstickDPadVector | Planet_40/Planet_40/Willow/Input/InputManager.cs:247-276 | a moved stick wins; otherwise the D-pad direction, normalised, with left overriding right and down overriding up; nothing pressed gives zero |
| Input.InputManager.Update | Planet_40/Planet_40/Willow/Input/InputManager.cs:95-115 | updates the keyboard, mouse and pads in that order: each takes the new state its own Update states (snapshots shifted, mouse deltas and re-centring, sticky pad connection flags); then it asks to exit when Escape or Back is down and to toggle full screen on Alt+Enter, which cannot happen in an inactive frame |
| Motion.TickDown | Planet_40/Planet_40/Willow/Camera/Camera.cs:362-367 | each pass of the drag loop removes exactly one whole step from the accumulator |
| Motion.DrainedInRange | Planet_40/Planet_40/Willow/Camera/Camera.cs:361-367 | the drag loop leaves its time accumulator below one 1/60 s step and, when it started non-negative, not below zero; below one step it does not run |
| Motion.DampingNeverAccelerates | Planet_40/Planet_40/Willow/Camera/Camera.cs:393-398 | a scalar drag factor in [0, 1] never makes any velocity component larger in magnitude, however many steps run |
| Motion.DraggingNeverAccelerates | Planet_40/Planet_40/Willow/Camera/Camera.cs:362-367 | a per-component drag in [0, 1] never makes any rotational velocity component larger in magnitude |
| Motion.DrainRotation | Planet_40/Planet_40/Willow/Camera/Camera.cs:359-367 | the rotational block adds acceleration times elapsed, applies the drag once per whole step, keeps the remainder of the clock, and clears the acceleration when a step ran |
| Motion.DrainLinear | Planet_40/Planet_40/Willow/Camera/Camera.cs:390-398 | the linear block does the same with one scalar drag |
| Motion.ChangedSpeed | Planet_40/Planet_40/Willow/Camera/Camera.cs:238-243 | the speed factor ends within [0.000001, 100000] and is the 10%-per-unit change whenever that already lies in range |
| Motion.ModulatingNeverAccelerates | Planet_40/Planet_40/Willow/Camera/Camera.cs:364 | one per-component drag step in [0, 1] never makes a component larger in magnitude |
| Motion.ScalingNeverAccelerates | Planet_40/Planet_40/Willow/Camera/Camera.cs:395 | one scalar drag step in [0, 1] never makes a component larger in magnitude |
| Steering.PushNegated | Planet_40/Planet_40/Willow/Camera/Camera.cs:213-226 | the thrust of MoveLeft and MoveBackward, with a negated force, is the opposite of the positive thrust |
| Steering.SideKeysCancel | Planet_40/Planet_40/Willow/Camera/Camera.cs:299-307 | holding the right and left keys together leaves the linear acceleration as if neither were held |
| Steering.VerticalKeysCancel | Planet_40/Planet_40/Willow/Camera/Camera.cs:329-333 | holding Insert and Delete together leaves the linear acceleration as if neither were held |
| Steering.AheadKeysCancel | Planet_40/Planet_40/Willow/Camera/Camera.cs:309-317 | with equal forward and reverse forces, holding forward and backward together cancels |
| Steering.TurnedPrecedence | Planet_40/Planet_40/Willow/Camera/Camera.cs:319-345 | for each rotation axis the last handler wins: mouse movement overrides the yaw keys, the right-hand key overrides the left |
| Steering.PlusNegateCancels | Planet_40/Planet_40/Willow/Camera/Camera.cs:197-205 | adding a thrust and then its opposite, or adding and then subtracting it, leaves the acceleration unchanged |
| Cameras.FieldOfViewAfter | Planet_40/Planet_40/Willow/Camera/Camera.cs:280-297 | PageUp narrows by 5 down to 10, PageDown widens by 5 up to 130, End resets to 60; a field of view inside [10, 130] stays inside it |
| Cameras.CameraControls | Planet_40/Planet_40/Willow/Camera/Camera.cs:299-353 | the camera reads each movement from its key or pad button, and Insert and Delete from the keyboard only; it has no yaw keys |
| Cameras.Camera.constructor | Planet_40/Planet_40/Willow/Camera/Camera.cs:26-65 | a new camera starts at (0, 0, 6436.1369), at rest, with speed factor 1, clip planes 0.1 and 20000, a 60 degree field of view, and input switched off |
| Cameras.Camera.SpeedChange | Planet_40/Planet_40/Willow/Camera/Camera.cs:238-243 | the speed factor is changed and clamped to its range; nothing else changes |
| Cameras.Camera.Zoom | Planet_40/Planet_40/Willow/Camera/Camera.cs:280-297 | only the field of view changes, as FieldOfViewAfter says |
| Cameras.Camera.HandleInput | Planet_40/Planet_40/Willow/Camera/Camera.cs:276-354 | with input switched off nothing changes; otherwise the field of view, the accelerations and the speed factor follow the pressed keys and the mouse, and the position and velocities are untouched |
| Cameras.Camera.Steer | Planet_40/Planet_40/Willow/Camera/Camera.cs:299-353 | the accelerations and speed factor follow the controls, and nothing else changes |
| Cameras.Camera.UpdateCamera | Planet_40/Planet_40/Willow/Camera/Camera.cs:357-408 | both velocity blocks run as DrainRotation and DrainLinear say, the local position moves by the new linear velocity, the world position is local plus attached, and a camera with its clocks in range keeps them in range |
| Cameras.Camera.Rotate | Planet_40/Planet_40/Willow/Camera/Camera.cs:359-367 | the rotational block updates only the rotational state, and leaves its clock in [0, 1/60) |
| Cameras.Camera.Accelerate | Planet_40/Planet_40/Willow/Camera/Camera.cs:390-398 | the linear block updates only the linear state, and leaves its clock in [0, 1/60) |
| Cameras.Camera.Clone | Planet_40/Planet_40/Willow/Camera/Camera.cs:189-194 | the local position is the other camera's, moved by the velocity a zero-length update leaves; the clocks, velocities and accelerations are what UpdateCamera gives at elapsed 0, and the axes are the new ones; the speed factor, field of view, clip planes, input flag and attachment stay; a camera with its clocks in range keeps its clocks, velocities and accelerations |
| Movements.MovementControls | Planet_40/Planet_40/Willow/Movement.cs:220-281 | the movement reads each control from the keyboard only, including the Left and Right yaw keys the camera lacks |
| Movements.Movement.constructor | Planet_40/Planet_40/Willow/Movement.cs:26-57 | a new movement starts at (0, 0, 6436.1369), at rest, with speed factor 0.001 and input switched off |
| Movements.Movement.SpeedChange | Planet_40/Planet_40/Willow/Movement.cs:160-165 | the speed factor is changed and clamped to [0.000001, 100000]; nothing else changes |
| Movements.Movement.HandleInput | Planet_40/Planet_40/Willow/Movement.cs:218-282 | with input switched off nothing changes; otherwise the accelerations and speed factor follow the keys and the mouse |
| Movements.Movement.Steer | Planet_40/Planet_40/Willow/Movement.cs:222-281 | the accelerations and speed factor follow the controls, and nothing else changes |
| Movements.Movement.UpdateMovement | Planet_40/Planet_40/Willow/Movement.cs:298-339 | the same drag-and-drain update as the camera's, and a movement with its clocks in range keeps them in range |
| Movements.Movement.Rotate | Planet_40/Planet_40/Willow/Movement.cs:300-308 | the rotational block updates only the rotational state |
| Movements.Movement.Accelerate | Planet_40/Planet_40/Willow/Movement.cs:323-331 | the linear block updates only the linear state |
| Movements.Movement.Clone | Planet_40/Planet_40/Willow/Movement.cs:111-116 | the local position is the other movement's, moved by the velocity a zero-length update leaves; the clocks, velocities and accelerations are what UpdateMovement gives at elapsed 0, and the axes are the new ones; the speed factor, input flag and attachment stay; with its clocks in range it keeps its clocks, velocities and accelerations |
| CameraManagers.CameraManager.constructor | Planet_40/Planet_40/Willow/Camera/CameraManager.cs:42-50 | a new manager has no cameras and neither an active nor a frustum camera |
| CameraManagers.CameraManager.GetCamera | Planet_40/Planet_40/Willow/Camera/CameraManager.cs:107-112 | the camera registered under the name, or null exactly when no camera has that name |
| CameraManagers.CameraManager.AddCamera | Planet_40/Planet_40/Willow/Camera/CameraManager.cs:79-92 | a name already registered is refused, changing nothing; otherwise the camera is registered, and the first camera added to an empty manager becomes active, takes input and, if none is set, becomes the frustum camera; no other field of the camera changes; an active camera stays registered |
| CameraManagers.CameraManager.CreateCamera | Planet_40/Planet_40/Willow/Camera/CameraManager.cs:72-77 | creates a fresh camera in its initial state and registers it as AddCamera does: a taken name is refused, changing nothing and leaving the camera without input; the first camera of an empty manager with no active camera becomes active, takes input and, if none is set, becomes the frustum camera; otherwise the selections stay and the camera takes no input |
| CameraManagers.CameraManager.RemoveCamera | Planet_40/Planet_40/Willow/Camera/CameraManager.cs:94-105 | the name is unregistered; if its camera was active, the active selection is cleared, and so is the frustum selection when it was the same camera |
| CameraManagers.CameraManager.ActivateCamera | Planet_40/Planet_40/Willow/Camera/CameraManager.cs:114-126 | the active camera becomes the named one (null for an unknown name), and an unset frustum camera follows it |
| CameraManagers.CameraManager.ActivateFrustumCamera | Planet_40/Planet_40/Willow/Camera/CameraManager.cs:128-131 | only the frustum selection changes, to the named camera or null |
| CameraManagers.DanglingFrustum | Planet_40/Planet_40/Willow/Camera/CameraManager.cs:94-105 | removing the frustum camera while a different camera is active leaves the frustum selection pointing at a camera that is no longer registered |
| PlanetGame.NextEffect | Planet_40/Planet_40/PlanetGame.cs:483-492 | the cycle never selects "none" or the space-bump effect: none and space-bump go to Bump, Bump to Texture, Texture to Basic, Basic to BumpMaps, anything else to Bump |
| PlanetGame.ValidatedIsAvailable | Planet_40/Planet_40/PlanetGame.cs:499-509 | validation always ends on an effect whose normal maps and textures are generated, and leaves such an effect alone |
| PlanetGame.RenderModeCycle | Planet_40/Planet_40/PlanetGame.cs:476-509 | with both generators enabled, repeated selection from Bump cycles Texture, Basic, BumpMaps and back to Bump |
| PlanetGame.NearClipFor | Planet_40/Planet_40/PlanetGame.cs:680-712 | the near clip is 0.001, 0.01 or 0.1 divided by the planet radius within 10, 20 and 50 units of the surface distance, and 0.001 beyond that |
| PlanetGame.NearClipGrowsWithAltitude | Planet_40/Planet_40/PlanetGame.cs:683-700 | below the 50-unit band the near clip is positive and never shrinks as the camera rises |
| PlanetGame.SplittingTopNeverCulled | Planet_40/Planet_40/PlanetGame.cs:722-725 | a splitting node at level 2 or above the tree is never culled, whatever the geometry says |
| PlanetGame.Traverse | Planet_40/Planet_40/PlanetGame.cs:794-825 | every entry in the drawn list is a real node |
| PlanetGame.DrawnAreVisibleLeaves | Planet_40/Planet_40/PlanetGame.cs:794-825 | every node drawn is not culled and is either splitting or childless |
| PlanetGame.TraversalWithinTree | Planet_40/Planet_40/PlanetGame.cs:794-825 | one traversal draws and culls at most as many nodes as the tree holds, and cancels at most that many splits |
| PlanetGame.HighestIsMaximum | Planet_40/Planet_40/PlanetGame.cs:820-824 | the tracked draw level is at least its start and every drawn level, and is the start or one of those levels |
| PlanetGame.HighestAppend | Planet_40/Planet_40/PlanetGame.cs:813-816 | tracking the level over two runs of draws one after the other equals tracking it over both together |
| PlanetGame.HighestOfChildren | Planet_40/Planet_40/PlanetGame.cs:811-817 | the level tracked through a node is the level tracked through its four children in order |
| PlanetGame.HighestOfFaces | Planet_40/Planet_40/PlanetGame.cs:935-945 | the level tracked over the sphere is the level tracked over the six faces in order, from 0 |
| PlanetGame.Globals.constructor | Planet_40/Planet_40/Globals.cs:17-21 | every render counter starts at zero and no split is cancelled |
| PlanetGame.Game.constructor | Planet_40/Planet_40/PlanetGame.cs:253 | the game starts with no render effect selected |
| PlanetGame.Game.SelectNextRenderMode | Planet_40/Planet_40/PlanetGame.cs:476-496 | the effect becomes the validated successor of the old one, which is always available |
| PlanetGame.Game.ValidateRenderMode | Planet_40/Planet_40/PlanetGame.cs:499-509 | the effect becomes the validated one |
| PlanetGame.Game.CalculateProjection | Planet_40/Planet_40/PlanetGame.cs:676-713 | the camera's near clip is NearClipFor the distance and its far clip 20000; no other field of the camera changes |
| PlanetGame.Game.CullTerrainNode | Planet_40/Planet_40/PlanetGame.cs:722-790 | the answer is Culls, and exactly one of the horizon and frustum counters rises by one when the node is culled |
| PlanetGame.Game.DrawTerrainNode | Planet_40/Planet_40/PlanetGame.cs:794-825 | the draw count rises by the number of leaves Traverse draws, the draw level is raised to the highest of them, the cull counters rise by Traverse's counts and the cancelled splits grow by its set |
| PlanetGame.Game.DrawSphere | Planet_40/Planet_40/PlanetGame.cs:930-946 | the counters are reset and then reflect the traversal of the six faces in order; the node count stays |
| PlanetGame.Game.CountTerrainNodes | Planet_40/Planet_40/PlanetGame.cs:646-657 | the node count rises by the size of the subtree reached through HasChildren links; the draw and cull counters and the cancelled splits stay |
| PlanetGame.Game.CountSphere | Planet_40/Planet_40/PlanetGame.cs:605-615 | the node count is the total size of the six faces; the draw and cull counters and the cancelled splits stay |
| Tools.WrapAngleDegrees | Planet_40/Planet_40/Willow/Tools.cs:219-228 | the angle changes by 0 or ±360, lands in [-180, 180] for inputs in [-540, 540], and is left alone inside [-180, 180] |
| Tools.WrapAngle | Planet_40/Planet_40/Willow/Tools.cs:231-242 | the angle changes by 0 or ±2π, lands in [-π, π] for inputs in [-3π, 3π], and is left alone inside [-π, π] |
| Tools.WrapIdempotent | Planet_40/Planet_40/Willow/Tools.cs:219-242 | wrapping an already wrapped angle changes nothing |
| Tools.PointWithinSegment | Planet_40/Planet_40/Willow/Tools.cs:299-334 | true exactly when the point lies in the closed axis-aligned box spanned by the two end points |
| Tools.PointWithinSegmentSymmetric | Planet_40/Planet_40/Willow/Tools.cs:299-334 | the test does not depend on which end point comes first, and both end points pass it |
| Tools.HSVtoRGB | Planet_40/Planet_40/Willow/Tools.cs:456-510 | zero saturation gives the grey (v, v, v); in every sector, the default one included, one channel equals v; alpha is 1 |
| Tools.HSVChannelsWithinValue | Planet_40/Planet_40/Willow/Tools.cs:469-508 | for a saturation in [0, 1] and a non-negative value, every channel lies in [0, v] |
| Tools.RayIntersectsTriangle | Planet_40/Planet_40/Willow/Tools.cs:564-646 | a hit has u >= 0, v >= 0, u + v <= 1 and a non-negative distance; a miss has no distance and u = v = 0 |
| Tools.HitLiesOnTriangle | Planet_40/Planet_40/Willow/Tools.cs:593-645 | on a hit, the point at the returned distance along the ray is the point at barycentric coordinates (u, v) of the triangle |
| Tools.Sector | Planet_40/Planet_40/Willow/Tools.cs:476-508 | in every branch of the sector switch, the default included, one channel is v and alpha is 1 |
| Noise.PermEntry | Planet_40/Planet_40/Willow/Noise/Noise.cs:81-88 | each of the four corner hashes of a map entry is a permutation value, so it lies in [0, 256) |
| Noise.LowByte | Planet_40/Planet_40/Willow/Noise/Noise.cs:106 | masking with 255 gives a value in [0, 256) and leaves such a value alone |
| Noise.PermIndex | Planet_40/Planet_40/Willow/Noise/Noise.cs:104-108 | the index perm reads is always inside the 65536-entry map, with the masked X as its column and the masked Y as its row |
| Noise.EndPoints | Planet_40/Planet_40/Willow/Noise/Noise.cs:94-128 | the fade curve maps 0 to 0 and 1 to 1, and the interpolation gives a at t = 0 and b at t = 1 |
| Noise.Tables.constructor | Planet_40/Planet_40/Willow/Noise/Noise.cs:53-57 | the static constructor builds both maps from the stock tables |
| Noise.Tables.CreateGradientMap | Planet_40/Planet_40/Willow/Noise/Noise.cs:59-70 | entry x of the gradient map is gradients[permutation[x] % 16], for every x in 0..255 |
| Noise.Tables.CreatePermutationMap | Planet_40/Planet_40/Willow/Noise/Noise.cs:73-91 | the map has 65536 entries and entry y * 256 + x holds the four corner hashes of column x and row y |
| Noise.Tables.Perm | Planet_40/Planet_40/Willow/Noise/Noise.cs:104-108 | the entry read for a point is the corner hashes of its truncated, masked cell |
| Noise.Tables.Grad | Planet_40/Planet_40/Willow/Noise/Noise.cs:110-113 | the gradient used for hash x is the one the permutation picks for the truncated, masked x, dotted with p |
| Noise.OctaveCount | Planet_40/Planet_40/Willow/Noise/Noise.cs:183 | a non-positive octave count runs no octave |
| Noise.OctaveTest | Planet_40/Planet_40/Willow/Noise/Noise.cs:183 | the loop test i < octaves holds exactly for the first OctaveCount(octaves) values of i |
| Noise.Divide | Planet_40/Planet_40/Willow/Noise/Noise.cs:197 | dividing by a zero amplitude sum is reported as such; otherwise the quotient times the divisor is the dividend |
| Noise.FBm | Planet_40/Planet_40/Willow/Noise/Noise.cs:177-198 | the result is the accumulated sum after the octaves run, divided by the sum of their amplitudes |
| Noise.FBmStandard | Planet_40/Planet_40/Willow/Noise/Noise.cs:172-175 | the short overload is fBm with lacunarity 2 and gain 0.5 |
| Noise.Turbulence | Planet_40/Planet_40/Willow/Noise/Noise.cs:201-222 | the same with the absolute value of every noise sample |
| Noise.NoOctavesDividesByZero | Planet_40/Planet_40/Willow/Noise/Noise.cs:177-222 | with octaves <= 0 no amplitude is added, so fBm and Turbulence divide by zero |
| Noise.AmplitudesAreGeometric | Planet_40/Planet_40/Willow/Noise/Noise.cs:183-188 | after k octaves the amplitude is gain^k and the divisor is 1 + gain + ... + gain^(k-1) |
| Noise.SumBounds | Planet_40/Planet_40/Willow/Noise/Noise.cs:183-192 | with a positive gain and noise in [-1, 1], the running result stays within plus or minus the amplitude sum, and non-negative for absolute samples |
| Noise.FractalSumWithinUnit | Planet_40/Planet_40/Willow/Noise/Noise.cs:196-197 | with a positive gain, at least one octave and noise in [-1, 1], fBm lies in [-1, 1] and Turbulence in [0, 1] |
| Noise.TurbulenceSumNonNegative | Planet_40/Planet_40/Willow/Noise/Noise.cs:207-218 | with a positive gain the Turbulence sum is non-negative whatever the noise, and its divisor is positive after one octave |
| Noise.TurbulenceNonNegative | Planet_40/Planet_40/Willow/Noise/Noise.cs:201-222 | with a positive gain and at least one octave, Turbulence returns a non-negative value whatever the noise |
| Noise.RidgedMultiFractal | Planet_40/Planet_40/Willow/Noise/Noise.cs:248-289 | the result is the ridged sum after the octaves run |
| Noise.RidgedWeightInUnit | Planet_40/Planet_40/Willow/Noise/Noise.cs:256-286 | the weight stays in [0, 1] after every octave, whatever the noise, the spectral weights and the parameters |
| Noise.RidgedResultNonNegative | Planet_40/Planet_40/Willow/Noise/Noise.cs:256-286 | with a positive lacunarity the frequency stays positive, and when `pow` is non-negative on positive bases, as `Math.Pow` is, the result never falls below 0 |
| Noise.RidgedOctaveBounds | Planet_40/Planet_40/Willow/Noise/Noise.cs:258-285 | one ridged octave keeps the weight in [0, 1] and the result non-negative |
| Noise.HybridMultiFractal | Planet_40/Planet_40/Willow/Noise/Noise.cs:292-315 | the result is the hybrid sum after the octaves run |
| Noise.HybridWeightAtMostOne | Planet_40/Planet_40/Willow/Noise/Noise.cs:310-311 | the hybrid weight never exceeds 1 after any number of octaves |
| FrameRates.TimeConserved | Planet_40/Planet_40/Willow/FrameRateComponent.cs:35-42 | over any run of frames the accumulator ends at its start plus all elapsed time, less one second per published rate |
| FrameRates.FramesConserved | Planet_40/Planet_40/Willow/FrameRateComponent.cs:36-41 | over any run of frames, the running count plus all published rates equals the starting count plus the number of frames |
| FrameRates.ShortFramesStayBelowOne | Planet_40/Planet_40/Willow/FrameRateComponent.cs:35-43 | while every frame takes at most a second, the accumulator stays in [0, 1) |
| FrameRates.LongFrameLeavesBacklog | Planet_40/Planet_40/Willow/FrameRateComponent.cs:38-43 | a frame of two seconds or more leaves the accumulator at one second or more, so the next frame publishes again at once |
| FrameRates.RateChangesOnlyOnRollover | Planet_40/Planet_40/Willow/FrameRateComponent.cs:38-43 | the published rate changes only on a frame that closes a second, and that frame restarts the count at zero |
| FrameRates.FrameRate.constructor | Planet_40/Planet_40/Willow/FrameRateComponent.cs:10-12 | every counter starts at zero |
| FrameRates.FrameRate.Draw | Planet_40/Planet_40/Willow/FrameRateComponent.cs:31-46 | the counters move to Drawn of the old ones: elapsed added, one frame counted, and at one second the count published, restarted and one second taken off |
| SpriteSheets.RepeatOrDistinct | Planet_40/Planet_40/Willow/Sprites/SpriteSheet.cs:135-139 | a list's names are all distinct exactly when no name repeats an earlier one |
| SpriteSheets.FirstRepeatUnique | Planet_40/Planet_40/Willow/Sprites/SpriteSheet.cs:135-139 | there is only one first repeated name, so a failed load names one definition |
| SpriteSheets.FirstRepeatExists | Planet_40/Planet_40/Willow/Sprites/SpriteSheet.cs:135-139 | names that are not all distinct have a first repeat |
| SpriteSheets.LoadedStep | Planet_40/Planet_40/Willow/Sprites/SpriteSheet.cs:137-138 | adding the next definition under a new name extends the loaded prefix by one entry |
| SpriteSheets.SpriteDefinition.constructor | Planet_40/Planet_40/Willow/Sprites/SpriteSheet.cs:51-56 | the definition holds the given name, bounds and texture |
| SpriteSheets.SpriteSheet.constructor | Planet_40/Planet_40/Willow/Sprites/SpriteSheet.cs:88-90 | a new sheet has no texture and no sprites |
| SpriteSheets.SpriteSheet.Get | Planet_40/Planet_40/Willow/Sprites/SpriteSheet.cs:83 | the indexer returns the definition registered under the name, and fails exactly for a name the sheet does not hold |
| SpriteSheets.SpriteSheet.Load | Planet_40/Planet_40/Willow/Sprites/SpriteSheet.cs:130-140 | the sheet takes the texture; a list with distinct names loads completely, every name mapping to a fresh definition with that item's bounds and the texture; a repeated name fails at its first repeat, keeping the definitions before it |
| SpriteSheets.SpriteSheet.Add | Planet_40/Planet_40/Willow/Sprites/SpriteSheet.cs:138 | a name already present fails and changes nothing; otherwise one fresh definition is added under it |
| SpriteSheets.SpriteSheet.Dispose | Planet_40/Planet_40/Willow/Sprites/SpriteSheet.cs:181-186 | a held texture is disposed, the sheet forgets it, and a second call changes nothing |
| VertexDefinitions.Floats | Planet_40/Planet_40/Willow/VertexDefinition.cs:20-25 | each element format takes between one and four floats |
| VertexDefinitions.LayoutIsPacked | Planet_40/Planet_40/Willow/VertexDefinition.cs:17-26 | each element starts where the previous one ends, the first at 0, and a vertex takes 14 floats (56 bytes) |
| VertexDefinitions.LayoutOffsets | Planet_40/Planet_40/Willow/VertexDefinition.cs:20-25 | the offsets are 0, 3, 6, 8, 9 and 10 floats |
| VertexDefinitions.PackedElementsDisjoint | Planet_40/Planet_40/Willow/VertexDefinition.cs:20-25 | in a packed layout no two elements overlap |
| VertexDefinitions.PackedElementsWithinStride | Planet_40/Planet_40/Willow/VertexDefinition.cs:17-26 | in a packed layout every element lies inside the vertex |
| VertexDefinitions.UsagesDistinct | Planet_40/Planet_40/Willow/VertexDefinition.cs:20-25 | no two elements share a usage and usage index, and the three texture coordinates use indices 0, 1 and 2 |

## Left out

- Quaternions, view, world and projection matrices, and bounding frustums (`LookAt`, `SetViewMatrix`, `OrientUp`, `UpdateViewMatrix`, `UpdateProjectionMatrix`, Slerp) are thin wrappers over XNA and are not modelled. The camera's and movement's world axes enter the update as a parameter.
- Cameras.Camera.UpdateCamera: takes the new world axes as a parameter instead of rotating the orientation quaternion by the yaw, pitch and roll of the step; Movements.Movement.UpdateMovement does the same.
- Cameras.Camera.Clone: the orientation it copies besides the local position is a quaternion and is not modelled; the new world axes are a parameter. The same holds for Movements.Movement.Clone.
- The single-key handlers (`MoveUp`, `MoveLeft`, `YawLeft`, `RollRight`, `YawChange`, `PitchChange`, ...) are not separate methods. Their effects are the steps of `Steering.Thrusted` and `Steering.Turned`, which `Steer` applies. `PitchUp` and `PitchDown` are never called by either input handler and are not modelled.
- Device polling (`Keyboard.GetState`, `GamePad.GetState`, `Mouse.GetState`, `Mouse.SetPosition`), `Game.IsActive`, `Game.Exit` and `ToggleFullScreen` are not modelled as calls. The polled states and the activity flag are parameters. `InputManager.Update` returns whether it would exit or toggle full screen.
- Input.MouseHandler.Update: the cursor position read after re-centring is the parameter `recentred`, so that position is not tied to the window centre.
- IEEE single and double rounding, NaN, infinities and `float.Epsilon` are not captured: every quantity is a real. Tools.RayIntersectsTriangle treats the parallel-ray band as |determinant| < 1.401298e-45 over reals.
- Noise.Divide: a zero divisor gives `DividedByZero` and does not distinguish the NaN (0/0) and the infinity (x/0) that double division would produce.
- Integer counters (`InvalidCount`, `DrawCount`, `NodeCount`, the cull counters) are unbounded, so 32-bit overflow is not modelled; it needs more than two billion nodes or slots.
- The terrain quadtree's own behaviour (`TerrainNode` splitting and merging, `Sphere`, `TerrainNodeSplitManager`, the split queue and the mesh thread) is outside this model: it is mesh generation and concurrency. A node is modelled by what the traversals read: id, level, the `Splitting` flag, whether the child array is present, and four child links; `HasChildren` is derived from them as in TerrainNode.cs, so a splitting node never reports children.
- PlanetGame.Game.CullTerrainNode: the horizon test (`Math.Acos` of a dot product against the horizon angle) and the frustum containment test are the predicates `beyondHorizon` and `outsideFrustum` of `Culling`. Only the guards, the order of the tests and the counters are modelled.
- PlanetGame.Game.DrawTerrainNode: setting `CancelSplitting` on a culled node is modelled as adding the node's id to the set `Globals.cancelled`. The draw calls, effect parameters and buffers of a drawn leaf are not modelled.
- GPU and rendering code in PlanetGame.cs (effects, buffers, the sun and bounding-box drawing, the HUD), `LensFlareComponent`, `AtmosphereShader`, `SpaceDome` and `ExceptionGame` are not modelled: they are drawing, random star generation and message boxes.
- From Tools.cs, `CalcTangent`, `LineCircleIntersect`, `CubeToSphereMapping`, `RGBtoHSV`, `DeepClone*`, `Run` and the drawing helpers are not modelled. They depend on square roots and normalisation, serialization or exception plumbing.
- Tools.HSVtoRGB: returns the channels as reals; the byte quantisation of the XNA `Color` constructor is not modelled.
- The gradient noise itself (`inoise`, `GetNoise`) and `Math.Pow` are function parameters of the noise loops. `HeterogeneousTerrain` and `PerlinNoiseRidged` are not modelled; they are further loops over the same uninterpreted noise.
- Noise.Tables.Grad: the `(int)` conversion of a float outside the 32-bit range is not modelled; truncation toward zero is exact over reals.
- The octave loops keep their variables (result, amplitude or frequency, weight, and the point) in one `Sum` or `Fractal` value that the loop reassigns. The Ridged and Hybrid loops take the spectral weight `Math.Pow(frequency, -h)` from the `pow` parameter.
- The `Pool<T>` delegates are not stored. `validate` is a function value. `allocate` is reduced to its result, passed to `New`. `Initialize` and `Deinitialize` are presence flags: `New` reports whether Initialize would be called, and `CleanUp` returns the entries passed to Deinitialize, in order. The reflection lookup of a parameterless constructor is the flag `allocatorAvailable` of `Create`.
- The XML `SpriteSheet.Load(ContentManager, ...)` overload is file I/O and is not modelled. The texture is modelled only by its disposed flag.
- SpriteSheets.SpriteSheet.Get: a sheet that was never loaded holds an empty map here, so its indexer reports `MissingName` where the source's null dictionary throws `NullReferenceException`.
- A null `SpriteDefinition.Name` (which `Dictionary.Add` rejects with `ArgumentNullException`) is not modelled: names are strings.
- `CameraManager.Initialize` and `Update` only forward to each registered camera, and `FrameRate.CreateFrameRate`, `InputManager.CreateInputManager` and `CameraManager.CreateCameraManager` only register components with the game; none is modelled.
- `Constants.cs` and `Globals.cs` hold no logic. Their values appear as constants (`DisableFrustumCulling`, `DisableHorizonCulling`) and as the fields of the `Globals` class; the two generation switches are parameters of `Game`.
