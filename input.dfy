/** Input edge detection (Willow/Input/InputManager.cs).

    Each device handler keeps the state polled this frame and the one before;
    a key or button is "pressed" when it went down between the two, "released"
    when it went up, and "held" when it stayed down. Polling the devices is
    not modelled: the states a poll returns, and whether the game window is
    active, are parameters of the `Update` methods. */
module Input {
  import opened Positions

  /** A keyboard key, by its XNA `Keys` value. */
  type Key = nat
  /** A gamepad button, by its XNA `Buttons` flag value. */
  type Button = nat
  /** `PlayerIndex.One` .. `PlayerIndex.Four`. */
  type PlayerIndex = p: nat | p < 4

  const PlayerOne: PlayerIndex := 0

  const Enter: Key := 13
  const Escape: Key := 27
  const PageUp: Key := 33
  const PageDown: Key := 34
  const End: Key := 35
  const Left: Key := 37
  const Right: Key := 39
  const Insert: Key := 45
  const Delete: Key := 46
  const A: Key := 65
  const D: Key := 68
  const E: Key := 69
  const Q: Key := 81
  const S: Key := 83
  const W: Key := 87
  const LeftAlt: Key := 164

  const DPadUp: Button := 1
  const DPadDown: Button := 2
  const DPadLeft: Button := 4
  const DPadRight: Button := 8
  const Back: Button := 32
  const LeftShoulder: Button := 256
  const RightShoulder: Button := 512

  /** The keys held down at the moment of a poll. */
  datatype KeyboardState = KeyboardState(down: set<Key>)

  datatype GamePadState = GamePadState(IsConnected: bool, down: set<Button>, leftStick: Vec2, rightStick: Vec2)

  datatype ButtonState = Released | Pressed

  datatype MouseButton = LeftButton | RightButton | MiddleButton

  datatype MouseState = MouseState(X: int, Y: int, ScrollWheelValue: int,
                                   left: ButtonState, right: ButtonState, middle: ButtonState)
  {
    function Button(b: MouseButton): ButtonState {
      match b
      case LeftButton => left
      case RightButton => right
      case MiddleButton => middle
    }
  }

  // ---- the edge rules shared by every device ----

  /** Down now, up at the previous poll. */
  predicate WentDown(now: bool, before: bool) { now && !before }

  /** Up now, down at the previous poll. */
  predicate WentUp(now: bool, before: bool) { !now && before }

  /** Down now and at the previous poll. */
  predicate StayedDown(now: bool, before: bool) { now && before }

  /** At most one of pressed, released and held holds for one key; pressed
      and held together are exactly "down". */
  lemma EdgesExclusive(now: bool, before: bool)
    ensures !(WentDown(now, before) && WentUp(now, before))
    ensures !(WentDown(now, before) && StayedDown(now, before))
    ensures !(WentUp(now, before) && StayedDown(now, before))
    ensures WentDown(now, before) || StayedDown(now, before) <==> now
  {
  }

  /** With no change between the two polls, nothing is pressed or released. */
  lemma NoEdgesWhenUnchanged(now: bool)
    ensures !WentDown(now, now) && !WentUp(now, now)
    ensures StayedDown(now, now) == now
  {
  }

  /** A combination needs its first key held and its second pressed, so one
      key can never complete a combination with itself. */
  lemma CombinationNeedsTwoKeys(now: bool, before: bool)
    ensures !(StayedDown(now, before) && WentDown(now, before))
  {
  }

  class KeyboardHandler {
    var current: KeyboardState
    var previous: KeyboardState

    /** Both snapshots start as the first poll. */
    constructor (polled: KeyboardState)
      ensures current == polled && previous == polled
    {
      current := polled;
      previous := polled;
    }

    /** Shifts the current state into the previous one, then polls unless
        the game is inactive. */
    method Update(isActive: bool, polled: KeyboardState)
      modifies this
      ensures previous == old(current)
      ensures current == if isActive then polled else old(current)
      ensures !isActive ==> forall k :: !KeyPressed(k) && !KeyReleased(k)
    {
      previous := current;
      if !isActive {
        return;
      }
      current := polled;
    }

    function KeyDown(k: Key): bool
      reads this
    {
      k in current.down
    }

    function KeyPressed(k: Key): bool
      reads this
    {
      WentDown(k in current.down, k in previous.down)
    }

    function KeyReleased(k: Key): bool
      reads this
    {
      WentUp(k in current.down, k in previous.down)
    }

    function KeyHeld(k: Key): bool
      reads this
    {
      StayedDown(k in current.down, k in previous.down)
    }

    /** `k1` held and `k2` just pressed. */
    function KeyCombinationPressed(k1: Key, k2: Key): (r: bool)
      reads this
      ensures r ==> k1 != k2 && k1 in current.down && k2 in current.down
      ensures r ==> k1 in previous.down && k2 !in previous.down
    {
      KeyHeld(k1) && KeyPressed(k2)
    }
  }

  class GamePadHandler {
    var current: array<GamePadState>
    var previous: array<GamePadState>
    /** Sticky: set once a pad has been seen connected. */
    var wasConnected: array<bool>
    var isConnected: array<bool>

    ghost predicate Valid()
      reads this
    {
      && current.Length == 4 && previous.Length == 4
      && wasConnected.Length == 4 && isConnected.Length == 4
      && current != previous && wasConnected != isConnected
    }

    /** Polls all four pads; the flag arrays start false. */
    constructor (polled: seq<GamePadState>)
      requires |polled| == 4
      ensures Valid() && fresh(current) && fresh(previous) && fresh(wasConnected) && fresh(isConnected)
      ensures current[..] == polled && previous[..] == polled
      ensures forall i :: 0 <= i < 4 ==> !wasConnected[i] && !isConnected[i]
    {
      var cur := new GamePadState[4](i requires 0 <= i < 4 => polled[i]);
      var prev := new GamePadState[4](i requires 0 <= i < 4 => polled[i]);
      current := cur;
      previous := prev;
      wasConnected := new bool[4](_ => false);
      isConnected := new bool[4](_ => false);
    }

    /** Makes the previous state equal the current one for every pad. */
    method Reset()
      requires Valid()
      modifies previous
      ensures previous[..] == current[..]
      ensures forall p: PlayerIndex, b :: !KeyPressed(p, b) && !KeyReleased(p, b)
    {
      for i := 0 to 4
        invariant forall k :: 0 <= k < i ==> previous[k] == current[k]
      {
        previous[i] := current[i];
      }
    }

    /** Shifts current into previous for all pads; when the game is active,
        polls all four and updates the connection flags. */
    method Update(isActive: bool, polled: seq<GamePadState>)
      requires Valid() && |polled| == 4
      modifies previous, current, wasConnected, isConnected
      ensures previous[..] == old(current[..])
      ensures !isActive ==> current[..] == old(current[..])
      ensures !isActive ==> wasConnected[..] == old(wasConnected[..]) && isConnected[..] == old(isConnected[..])
      ensures isActive ==> current[..] == polled
      ensures isActive ==> forall i :: 0 <= i < 4 ==>
        && wasConnected[i] == (old(wasConnected[i]) || polled[i].IsConnected)
        && isConnected[i] == if wasConnected[i] then polled[i].IsConnected else old(isConnected[i])
      ensures forall i :: 0 <= i < 4 && old(wasConnected[i]) ==> wasConnected[i]
    {
      for i := 0 to 4
        modifies previous
        invariant forall k :: 0 <= k < i ==> previous[k] == old(current[k])
        invariant forall k :: i <= k < 4 ==> previous[k] == old(previous[k])
        invariant current[..] == old(current[..])
      {
        previous[i] := current[i];
      }
      if !isActive {
        return;
      }
      for i := 0 to 4
        modifies current
        invariant forall k :: 0 <= k < i ==> current[k] == polled[k]
        invariant previous[..] == old(current[..])
      {
        current[i] := polled[i];
      }
      for i := 0 to 4
        modifies wasConnected, isConnected
        invariant forall k :: 0 <= k < i ==>
          && wasConnected[k] == (old(wasConnected[k]) || polled[k].IsConnected)
          && isConnected[k] == if wasConnected[k] then polled[k].IsConnected else old(isConnected[k])
        invariant forall k :: i <= k < 4 ==> wasConnected[k] == old(wasConnected[k]) && isConnected[k] == old(isConnected[k])
        invariant current[..] == polled && previous[..] == old(current[..])
      {
        if current[i].IsConnected {
          wasConnected[i] := true;
        }
        if wasConnected[i] {
          isConnected[i] := current[i].IsConnected;
        }
      }
    }

    /** A pad that was connected at some point and is not connected now. */
    predicate IsDisconnected(p: PlayerIndex)
      requires Valid()
      reads this, wasConnected, isConnected
      ensures IsDisconnected(p) ==> wasConnected[p]
    {
      wasConnected[p] && !isConnected[p]
    }

    function KeyDown(p: PlayerIndex, b: Button): bool
      requires Valid()
      reads this, current
    {
      b in current[p].down
    }

    function KeyPressed(p: PlayerIndex, b: Button): bool
      requires Valid()
      reads this, current, previous
    {
      WentDown(b in current[p].down, b in previous[p].down)
    }

    function KeyReleased(p: PlayerIndex, b: Button): bool
      requires Valid()
      reads this, current, previous
    {
      WentUp(b in current[p].down, b in previous[p].down)
    }

    function KeyHeld(p: PlayerIndex, b: Button): bool
      requires Valid()
      reads this, current, previous
    {
      StayedDown(b in current[p].down, b in previous[p].down)
    }

    function KeyCombinationPressed(p: PlayerIndex, b1: Button, b2: Button): (r: bool)
      requires Valid()
      reads this, current, previous
      ensures r ==> b1 != b2 && b1 in current[p].down && b2 in current[p].down
      ensures r ==> b1 in previous[p].down && b2 !in previous[p].down
    {
      KeyHeld(p, b1) && KeyPressed(p, b2)
    }

    function LeftThumbStickPosition(p: PlayerIndex): Vec2
      requires Valid()
      reads this, current
    {
      current[p].leftStick
    }

    function RightThumbStickPosition(p: PlayerIndex): Vec2
      requires Valid()
      reads this, current
    {
      current[p].rightStick
    }
  }

  class MouseHandler {
    var state: MouseState
    var previousState: MouseState
    var previousButtonState: MouseState
    var DeltaX: real
    var DeltaY: real
    var MouseX: int
    var MouseY: int
    var DeltaScrollWheel: real
    var wasActive: bool
    var TrackDeltas: bool

    /** The first poll (taken after centring the cursor) fills all three
        snapshots. */
    constructor (polled: MouseState)
      ensures state == polled && previousState == polled && previousButtonState == polled
      ensures !wasActive && TrackDeltas
      ensures DeltaX == 0.0 && DeltaY == 0.0 && DeltaScrollWheel == 0.0
    {
      state, previousState, previousButtonState := polled, polled, polled;
      DeltaX, DeltaY, DeltaScrollWheel := 0.0, 0.0, 0.0;
      MouseX, MouseY := 0, 0;
      wasActive, TrackDeltas := false, true;
    }

    /** One frame. `polled` is what the poll inside the update returns,
        `recentred` what the poll after re-centring the cursor returns (it
        is taken only when deltas are tracked). */
    method Update(isActive: bool, polled: MouseState, recentred: MouseState)
      modifies this
      ensures TrackDeltas == old(TrackDeltas)
      ensures !isActive ==>
        && DeltaX == 0.0 && DeltaY == 0.0 && DeltaScrollWheel == 0.0 && !wasActive
        && state == old(state) && previousState == old(previousState)
        && previousButtonState == old(previousButtonState)
        && MouseX == old(MouseX) && MouseY == old(MouseY)
      ensures isActive ==> wasActive
      ensures isActive && !old(wasActive) ==> DeltaX == 0.0 && DeltaY == 0.0 && DeltaScrollWheel == 0.0
      ensures isActive ==> state == if old(wasActive) then polled else old(previousState)
      ensures isActive ==> previousButtonState == if old(wasActive) then old(state) else old(previousButtonState)
      ensures isActive ==>
        var prev := if old(wasActive) && !TrackDeltas then old(state) else old(previousState);
        && DeltaScrollWheel == (state.ScrollWheelValue - prev.ScrollWheelValue) as real
        && (TrackDeltas ==>
              && DeltaX == (state.X - prev.X) as real && DeltaY == (state.Y - prev.Y) as real
              && previousState == recentred
              && MouseX == old(MouseX) && MouseY == old(MouseY))
        && (!TrackDeltas ==>
              && DeltaX == 0.0 && DeltaY == 0.0 && previousState == prev
              && MouseX == state.X && MouseY == state.Y)
    {
      DeltaX, DeltaY, DeltaScrollWheel := 0.0, 0.0, 0.0;
      if !isActive {
        wasActive := false;
        return;
      }
      if wasActive {
        if !TrackDeltas {
          previousState := state;
        }
        previousButtonState := state;
        state := polled;
      } else {
        state := previousState;
      }
      wasActive := true;
      if TrackDeltas {
        DeltaX := (state.X - previousState.X) as real;
        DeltaY := (state.Y - previousState.Y) as real;
      } else {
        MouseX := state.X;
        MouseY := state.Y;
      }
      DeltaScrollWheel := (state.ScrollWheelValue - previousState.ScrollWheelValue) as real;
      if TrackDeltas {
        previousState := recentred;
      }
    }

    function ButtonDown(b: MouseButton): bool
      reads this
    {
      state.Button(b) == Pressed
    }

    function ButtonPressed(b: MouseButton): bool
      reads this
    {
      WentDown(state.Button(b) == Pressed, previousButtonState.Button(b) == Pressed)
    }

    function ButtonReleased(b: MouseButton): bool
      reads this
    {
      WentUp(state.Button(b) == Pressed, previousButtonState.Button(b) == Pressed)
    }

    function ButtonHeld(b: MouseButton): bool
      reads this
    {
      StayedDown(state.Button(b) == Pressed, previousButtonState.Button(b) == Pressed)
    }
  }

  class InputManager {
    const keyboard: KeyboardHandler
    const mouse: MouseHandler
    const gamePad: GamePadHandler

    ghost predicate Valid()
      reads this, gamePad
    {
      gamePad.Valid()
    }

    constructor (keys: KeyboardState, cursor: MouseState, pads: seq<GamePadState>)
      requires |pads| == 4
      ensures Valid() && fresh(keyboard) && fresh(mouse) && fresh(gamePad)
      ensures fresh(gamePad.current) && fresh(gamePad.previous)
      ensures fresh(gamePad.wasConnected) && fresh(gamePad.isConnected)
      ensures keyboard.current == keys && keyboard.previous == keys
      ensures mouse.state == cursor && mouse.TrackDeltas && !mouse.wasActive
      ensures gamePad.current[..] == pads && gamePad.previous[..] == pads
    {
      keyboard := new KeyboardHandler(keys);
      mouse := new MouseHandler(cursor);
      gamePad := new GamePadHandler(pads);
    }

    function KeyOrButtonDown(p: PlayerIndex, k: Key, b: Button): (r: bool)
      requires Valid()
      reads this, keyboard, gamePad, gamePad.current
      ensures r <==> k in keyboard.current.down || b in gamePad.current[p].down
    {
      keyboard.KeyDown(k) || gamePad.KeyDown(p, b)
    }

    function KeyOrButtonPressed(p: PlayerIndex, k: Key, b: Button): (r: bool)
      requires Valid()
      reads this, keyboard, gamePad, gamePad.current, gamePad.previous
      ensures r <==> keyboard.KeyPressed(k) || gamePad.KeyPressed(p, b)
      ensures r ==> k in keyboard.current.down || b in gamePad.current[p].down
    {
      keyboard.KeyPressed(k) || gamePad.KeyPressed(p, b)
    }

    function KeyOrButtonReleased(p: PlayerIndex, k: Key, b: Button): (r: bool)
      requires Valid()
      reads this, keyboard, gamePad, gamePad.current, gamePad.previous
      ensures r <==> keyboard.KeyReleased(k) || gamePad.KeyReleased(p, b)
      ensures r ==> k !in keyboard.current.down || b !in gamePad.current[p].down
    {
      keyboard.KeyReleased(k) || gamePad.KeyReleased(p, b)
    }

    function KeyOrButtonHeld(p: PlayerIndex, k: Key, b: Button): (r: bool)
      requires Valid()
      reads this, keyboard, gamePad, gamePad.current, gamePad.previous
      ensures r <==> keyboard.KeyHeld(k) || gamePad.KeyHeld(p, b)
      ensures r ==> KeyOrButtonDown(p, k, b)
    {
      keyboard.KeyHeld(k) || gamePad.KeyHeld(p, b)
    }

    /** The d-pad direction, normalised when non-zero, unless the left
        thumbstick is off centre, in which case the stick position wins.
        `normalize` is XNA's `Vector2.Normalize`. */
    function LeftThumbstickDPadVector(p: PlayerIndex, normalize: Vec2 -> Vec2): (r: Vec2)
      requires Valid()
      reads this, gamePad, gamePad.current
      ensures var stick := gamePad.current[p].leftStick;
        var pad := gamePad.current[p].down;
        var dir := Vec2(if DPadLeft in pad then -1.0 else if DPadRight in pad then 1.0 else 0.0,
                        if DPadDown in pad then 1.0 else if DPadUp in pad then -1.0 else 0.0);
        && (stick != Zero2 ==> r == stick)
        && (stick == Zero2 && dir == Zero2 ==> r == Zero2)
        && (stick == Zero2 && dir != Zero2 ==> r == normalize(dir))
    {
      var up := if gamePad.KeyDown(p, DPadUp) then Vec2(0.0, -1.0) else Zero2;
      var right := if gamePad.KeyDown(p, DPadRight) then Vec2(1.0, up.Y) else up;
      var down := if gamePad.KeyDown(p, DPadDown) then Vec2(right.X, 1.0) else right;
      var left := if gamePad.KeyDown(p, DPadLeft) then Vec2(-1.0, down.Y) else down;
      var result := if left != Zero2 then normalize(left) else left;
      var v := gamePad.LeftThumbStickPosition(p);
      if v != Zero2 then v else result
    }

    /** One frame: updates the keyboard, mouse and gamepads in that order and
        reports whether Escape/Back asks to exit (debug builds) and whether
        Alt+Enter asks to toggle full screen. */
    method Update(isActive: bool, keys: KeyboardState, cursor: MouseState, recentred: MouseState,
                  pads: seq<GamePadState>)
      returns (exit: bool, toggleFullScreen: bool)
      requires Valid() && |pads| == 4
      modifies keyboard, mouse, gamePad.previous, gamePad.current, gamePad.wasConnected, gamePad.isConnected
      ensures Valid()
      ensures keyboard.previous == old(keyboard.current)
      ensures keyboard.current == if isActive then keys else old(keyboard.current)
      ensures mouse.TrackDeltas == old(mouse.TrackDeltas)
      ensures !isActive ==>
        && mouse.DeltaX == 0.0 && mouse.DeltaY == 0.0 && mouse.DeltaScrollWheel == 0.0 && !mouse.wasActive
        && mouse.state == old(mouse.state) && mouse.previousState == old(mouse.previousState)
        && mouse.previousButtonState == old(mouse.previousButtonState)
        && mouse.MouseX == old(mouse.MouseX) && mouse.MouseY == old(mouse.MouseY)
      ensures isActive ==> mouse.wasActive
      ensures isActive && !old(mouse.wasActive) ==> mouse.DeltaX == 0.0 && mouse.DeltaY == 0.0 && mouse.DeltaScrollWheel == 0.0
      ensures isActive ==> mouse.state == if old(mouse.wasActive) then cursor else old(mouse.previousState)
      ensures isActive ==> mouse.previousButtonState == if old(mouse.wasActive) then old(mouse.state) else old(mouse.previousButtonState)
      ensures isActive ==>
        var prev := if old(mouse.wasActive) && !mouse.TrackDeltas then old(mouse.state) else old(mouse.previousState);
        && mouse.DeltaScrollWheel == (mouse.state.ScrollWheelValue - prev.ScrollWheelValue) as real
        && (mouse.TrackDeltas ==>
              && mouse.DeltaX == (mouse.state.X - prev.X) as real && mouse.DeltaY == (mouse.state.Y - prev.Y) as real
              && mouse.previousState == recentred
              && mouse.MouseX == old(mouse.MouseX) && mouse.MouseY == old(mouse.MouseY))
        && (!mouse.TrackDeltas ==>
              && mouse.DeltaX == 0.0 && mouse.DeltaY == 0.0 && mouse.previousState == prev
              && mouse.MouseX == mouse.state.X && mouse.MouseY == mouse.state.Y)
      ensures gamePad.previous[..] == old(gamePad.current[..])
      ensures gamePad.current[..] == if isActive then pads else old(gamePad.current[..])
      ensures !isActive ==>
        gamePad.wasConnected[..] == old(gamePad.wasConnected[..]) && gamePad.isConnected[..] == old(gamePad.isConnected[..])
      ensures isActive ==> forall i :: 0 <= i < 4 ==>
        && gamePad.wasConnected[i] == (old(gamePad.wasConnected[i]) || pads[i].IsConnected)
        && gamePad.isConnected[i] == if gamePad.wasConnected[i] then pads[i].IsConnected else old(gamePad.isConnected[i])
      ensures exit == KeyOrButtonDown(PlayerOne, Escape, Back)
      ensures toggleFullScreen == keyboard.KeyCombinationPressed(LeftAlt, Enter)
      ensures !isActive ==> !toggleFullScreen
    {
      keyboard.Update(isActive, keys);
      mouse.Update(isActive, cursor, recentred);
      gamePad.Update(isActive, pads);
      exit := KeyOrButtonDown(PlayerOne, Escape, Back);
      toggleFullScreen := keyboard.KeyCombinationPressed(LeftAlt, Enter);
    }
  }
}
