/** The camera registry (Willow/Camera/CameraManager.cs): cameras by name,
    one active camera (the one that takes input) and one frustum camera (the
    one the terrain is culled against). Both selections are references that
    may be null. */
module CameraManagers {
  import opened Wrappers
  import opened Input
  import opened Cameras

  datatype RegistryError = DuplicateName   // ArgumentException from Dictionary.Add

  class CameraManager {
    var cameras: map<string, Camera>
    var active: Camera?
    var frustum: Camera?

    /** The active camera, when there is one, is registered under some name.
        Every operation keeps this; the frustum camera has no such guarantee
        (see `RemoveCamera`). */
    ghost predicate ActiveRegistered()
      reads this
    {
      active == null || active in cameras.Values
    }

    constructor ()
      ensures cameras == map[] && active == null && frustum == null
      ensures ActiveRegistered()
    {
      cameras := map[];
      active := null;
      frustum := null;
    }

    /** The camera registered as `name`, or null. */
    function GetCamera(name: string): (c: Camera?)
      reads this
      ensures c == null <==> name !in cameras
      ensures c != null ==> c == cameras[name] && c in cameras.Values
    {
      if name in cameras then cameras[name] else null
    }

    /** Registers `c` as `name`. A name already in use is an error and changes
        nothing. The first camera added while none is active becomes the
        active camera, starts taking input, and becomes the frustum camera
        unless one is already set. */
    method AddCamera(name: string, c: Camera) returns (r: Outcome<RegistryError>)
      modifies this, c`AcceptInput
      ensures r.Fail? <==> name in old(cameras)
      ensures r.Fail? ==> unchanged(this) && unchanged(c)
      ensures r.Pass? ==> cameras == old(cameras)[name := c]
      ensures r.Pass? && old(active) == null && old(cameras) == map[] ==>
        && active == c && c.AcceptInput
        && frustum == (if old(frustum) == null then c else old(frustum))
      ensures !(r.Pass? && old(active) == null && old(cameras) == map[]) ==>
        active == old(active) && frustum == old(frustum) && c.AcceptInput == old(c.AcceptInput)
      ensures old(ActiveRegistered()) ==> ActiveRegistered()
    {
      if name in cameras {
        return Fail(DuplicateName);
      }
      ghost var before := cameras;
      cameras := cameras[name := c];
      assert before == map[] <==> |cameras| == 1 by {
        assert |cameras| == |before| + 1 by {
          assert cameras.Keys == before.Keys + {name};
        }
      }
      if active == null && |cameras| == 1 {
        active := c;
        active.AcceptInput := true;
        if frustum == null {
          frustum := active;
        }
      }
      assert name in cameras && cameras[name] == c;
      if active != null && active != c && old(ActiveRegistered()) {
        var n :| n in before && before[n] == active;
        assert n in cameras && cameras[n] == active;
      }
      return Pass;
    }

    /** A fresh camera, in its initial state, registered as `name` by
        `AddCamera`: it becomes the active camera (taking input) and, if none
        is set, the frustum camera exactly when the manager was empty and had
        no active camera. The camera is returned even when its name is taken. */
    method CreateCamera(name: string, input: InputManager) returns (c: Camera, r: Outcome<RegistryError>)
      modifies this
      ensures fresh(c) && c.input == input && c.Initial()
      ensures r.Fail? <==> name in old(cameras)
      ensures r.Fail? ==> unchanged(this) && !c.AcceptInput
      ensures r.Pass? ==> cameras == old(cameras)[name := c]
      ensures r.Pass? && old(active) == null && old(cameras) == map[] ==>
        && active == c && c.AcceptInput
        && frustum == (if old(frustum) == null then c else old(frustum))
      ensures !(r.Pass? && old(active) == null && old(cameras) == map[]) ==>
        active == old(active) && frustum == old(frustum) && !c.AcceptInput
      ensures old(ActiveRegistered()) ==> ActiveRegistered()
    {
      c := new Camera(input);
      r := AddCamera(name, c);
    }

    /** Forgets `name`. If its camera is the active one, no camera is active
        afterwards, and the frustum camera is cleared too when it is the same
        camera. A frustum camera that is not the active one stays selected
        even when it is the camera removed. */
    method RemoveCamera(name: string)
      modifies this
      ensures cameras == old(cameras) - {name}
      ensures var c := old(GetCamera(name));
        && active == (if old(active) == c then null else old(active))
        && frustum == (if old(active) == c && old(frustum) == c then null else old(frustum))
      ensures old(ActiveRegistered()) ==> ActiveRegistered()
    {
      var c := GetCamera(name);
      if active == c {
        active := null;
        if frustum == c {
          frustum := null;
        }
      }
      cameras := cameras - {name};
      if active != null && old(ActiveRegistered()) {
        var n :| n in old(cameras) && old(cameras)[n] == active;
        assert n != name;
        assert n in cameras && cameras[n] == active;
      }
    }

    /** Makes the camera registered as `name` (or null) the active camera,
        and also the frustum camera when none is set. */
    method ActivateCamera(name: string)
      modifies this
      ensures active == old(GetCamera(name))
      ensures frustum == if old(frustum) == null then active else old(frustum)
      ensures cameras == old(cameras)
      ensures ActiveRegistered()
    {
      active := GetCamera(name);
      if frustum == null {
        frustum := active;
      }
    }

    /** Makes the camera registered as `name` (or null) the frustum camera. */
    method ActivateFrustumCamera(name: string)
      modifies this
      ensures frustum == old(GetCamera(name))
      ensures active == old(active) && cameras == old(cameras)
    {
      frustum := GetCamera(name);
    }
  }

  /** Removing the frustum camera while another camera is active leaves the
      frustum selection pointing at a camera the registry no longer holds. */
  method DanglingFrustum(input: InputManager) returns (m: CameraManager)
    ensures m.frustum != null && m.frustum !in m.cameras.Values
    ensures m.active != null && m.active in m.cameras.Values
  {
    m := new CameraManager();
    var first := new Camera(input);
    var r1 := m.AddCamera("main", first);
    var second := new Camera(input);
    var r2 := m.AddCamera("probe", second);
    m.ActivateFrustumCamera("probe");
    m.RemoveCamera("probe");
    assert m.cameras == map["main" := first];
    assert m.cameras.Values == {first};
  }
}
