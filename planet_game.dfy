/** The game's own sequential logic around the terrain engine (PlanetGame.cs):
    the render-mode cycle, the near-clip choice by altitude, and the
    quadtree traversals that count nodes and pick the leaves to draw.

    The terrain node is a value here: its identity, level, `Splitting` flag,
    whether its child array is present, and four child links (a null link is `Null`). The
    horizon and frustum tests that decide culling are geometry this model does
    not compute; they are given as two predicates. Setting `CancelSplitting` on
    a node is recorded as adding the node's id to a set. */
module PlanetGame {
  import opened Cameras

  // Constants.cs:19-22; the program is built with every one of them false.
  const DisableFrustumCulling := false
  const DisableHorizonCulling := false

  /** The planet effects the render mode cycles through; `NoEffect` is the
      null reference before the first selection. */
  datatype Effect = NoEffect | BumpSpace | Bump | Texture | Basic | BumpMaps

  /** The if-chain of `SelectNextRenderMode` (the `atmosphere` symbol is not
      defined, so its extra branch is not compiled). */
  function NextEffect(e: Effect): (r: Effect)
    ensures r != NoEffect && r != BumpSpace
  {
    match e
    case NoEffect => Bump
    case BumpSpace => Bump
    case Bump => Texture
    case Texture => Basic
    case Basic => BumpMaps
    case BumpMaps => Bump
  }

  /** Needs generated normal maps. */
  predicate NeedsNormalMaps(e: Effect) { e == BumpSpace || e == BumpMaps }

  /** Needs generated diffuse textures. */
  predicate NeedsTextures(e: Effect) { e == Texture || e == BumpSpace || e == BumpMaps }

  /** What `ValidateRenderMode` leaves in place of `e`: the next mode that
      does not need disabled generation. */
  function Validated(e: Effect, noNormalMaps: bool, noTextures: bool): Effect {
    if (noNormalMaps || noTextures) && NeedsNormalMaps(e) then Bump
    else if noTextures && e == Texture then Basic
    else e
  }

  /** An effect whose inputs are all generated. */
  predicate Available(e: Effect, noNormalMaps: bool, noTextures: bool) {
    !(noNormalMaps && NeedsNormalMaps(e)) && !(noTextures && NeedsTextures(e))
  }

  /** The effects that may make validation select again. */
  function Rank(e: Effect): nat {
    if NeedsTextures(e) then 1 else 0
  }

  /** Validation always ends on an available effect (when it starts on one
      that is set), and leaves an available effect alone. */
  lemma ValidatedIsAvailable(e: Effect, noNormalMaps: bool, noTextures: bool)
    requires e != NoEffect
    ensures Available(Validated(e, noNormalMaps, noTextures), noNormalMaps, noTextures)
    ensures Available(e, noNormalMaps, noTextures) ==> Validated(e, noNormalMaps, noTextures) == e
  {
  }

  /** With the shipped settings, four selections from `Bump` visit
      `Texture`, `Basic` and `BumpMaps` and come back to `Bump`. */
  lemma RenderModeCycle()
    ensures var e1 := Validated(NextEffect(Bump), false, false);
      var e2 := Validated(NextEffect(e1), false, false);
      var e3 := Validated(NextEffect(e2), false, false);
      && [e1, e2, e3] == [Texture, Basic, BumpMaps]
      && Validated(NextEffect(e3), false, false) == Bump
  {
  }

  /** The near clip plane for a camera at distance `distance` from the centre
      of a planet of radius `radius`: finer the closer the camera is to the
      surface, bands of 10, 20 and 50 units, first match wins. */
  function NearClipFor(distance: real, radius: real): (r: real)
    requires radius != 0.0
    ensures distance < radius + 10.0 ==> r == 0.001 / radius
    ensures radius + 10.0 <= distance < radius + 20.0 ==> r == 0.01 / radius
    ensures radius + 20.0 <= distance < radius + 50.0 ==> r == 0.1 / radius
    ensures radius + 50.0 <= distance ==> r == 0.001
  {
    if distance < radius + 10.0 then 0.001 / radius
    else if distance < radius + 20.0 then 0.01 / radius
    else if distance < radius + 50.0 then 0.1 / radius
    else if distance < radius + 6000.0 then 0.001
    else 0.001
  }

  const FarClip: real := 20000.0

  /** Within the three surface bands, a camera further out never gets a
      nearer clip plane. */
  lemma NearClipGrowsWithAltitude(d1: real, d2: real, radius: real)
    requires 0.0 < radius && d1 <= d2 < radius + 50.0
    ensures 0.0 < NearClipFor(d1, radius) <= NearClipFor(d2, radius)
  {
    assert 0.001 / radius <= 0.01 / radius <= 0.1 / radius by {
      assert 0.01 / radius == 10.0 * (0.001 / radius);
      assert 0.1 / radius == 10.0 * (0.01 / radius);
    }
  }

  /** A quadtree node of the terrain, or a null link. `linked` is whether the
      node holds its child array (`children != null`). */
  datatype TerrainNode =
    | Null
    | Node(id: nat, level: int, splitting: bool, linked: bool,
           c0: TerrainNode, c1: TerrainNode, c2: TerrainNode, c3: TerrainNode)

  /** `HasChildren` (TerrainNode.cs): the child array is present and the node
      is not splitting, so a splitting node never reports children. */
  predicate HasChildren(n: TerrainNode)
    requires n.Node?
  {
    n.linked && !n.splitting
  }

  /** The six faces of the cube sphere. */
  datatype Sphere = Sphere(front: TerrainNode, back: TerrainNode, left: TerrainNode,
                           right: TerrainNode, top: TerrainNode, bottom: TerrainNode)

  /** The geometric tests of `CullTerrainNode`, for one camera: whether the
      horizon angle is non-zero, and for each node whether it lies beyond the
      horizon and whether its box is disjoint from the view frustum. */
  datatype Culling = Culling(horizonAngleSet: bool,
                             beyondHorizon: TerrainNode -> bool,
                             outsideFrustum: TerrainNode -> bool)

  /** The horizon test culls `n`. */
  predicate HorizonCulls(n: TerrainNode, cull: Culling)
    requires n.Node?
  {
    !DisableHorizonCulling && cull.horizonAngleSet && n.level >= 2 && cull.beyondHorizon(n)
  }

  /** `CullTerrainNode`: never cull a splitting node of level 2 or less;
      otherwise cull beyond the horizon (from level 2), then outside the
      frustum. */
  predicate Culls(n: TerrainNode, cull: Culling)
    requires n.Node?
  {
    if n.splitting && n.level <= 2 then false
    else HorizonCulls(n, cull) || (!DisableFrustumCulling && cull.outsideFrustum(n))
  }

  /** The top of the tree is kept while it splits, whatever the geometry. */
  lemma SplittingTopNeverCulled(n: TerrainNode, cull: Culling)
    requires n.Node? && n.splitting && n.level <= 2
    ensures !Culls(n, cull)
  {
  }

  /** The nodes reachable through `HasChildren` links. */
  function Size(n: TerrainNode): nat {
    if n.Null? then 0
    else 1 + if HasChildren(n) then Size(n.c0) + Size(n.c1) + Size(n.c2) + Size(n.c3) else 0
  }

  /** What one traversal does: the leaves drawn, in order, the nodes culled by
      the horizon and by the frustum, and the ids whose split is cancelled. */
  datatype Tally = Tally(drawn: seq<TerrainNode>, horizonCulls: nat, frustumCulls: nat, cancelled: set<nat>)

  function Join(a: Tally, b: Tally): Tally {
    Tally(a.drawn + b.drawn, a.horizonCulls + b.horizonCulls, a.frustumCulls + b.frustumCulls,
          a.cancelled + b.cancelled)
  }

  /** `DrawTerrainNode` on a value: a null link does nothing; a culled node is
      cancelled and not descended into; a node that is splitting or has no
      children is drawn; any other node visits its four children in order. */
  function Traverse(n: TerrainNode, cull: Culling): (r: Tally)
    ensures forall d <- r.drawn :: d.Node?
  {
    if n.Null? then Tally([], 0, 0, {})
    else if Culls(n, cull) then
      if HorizonCulls(n, cull) then Tally([], 1, 0, {n.id}) else Tally([], 0, 1, {n.id})
    else if !n.splitting && HasChildren(n) then
      Join(Join(Join(Traverse(n.c0, cull), Traverse(n.c1, cull)), Traverse(n.c2, cull)), Traverse(n.c3, cull))
    else Tally([n], 0, 0, {})
  }

  /** Every drawn node is a visible leaf: not culled, and splitting or
      childless. */
  lemma {:induction false} DrawnAreVisibleLeaves(n: TerrainNode, cull: Culling)
    ensures forall d <- Traverse(n, cull).drawn :: d.Node? && !Culls(d, cull) && (d.splitting || !HasChildren(d))
  {
    if n.Node? && !Culls(n, cull) && !n.splitting && HasChildren(n) {
      DrawnAreVisibleLeaves(n.c0, cull);
      DrawnAreVisibleLeaves(n.c1, cull);
      DrawnAreVisibleLeaves(n.c2, cull);
      DrawnAreVisibleLeaves(n.c3, cull);
    }
  }

  /** Each reachable node is drawn or culled at most once: the traversal
      never does more than the tree holds. */
  lemma {:induction false} TraversalWithinTree(n: TerrainNode, cull: Culling)
    ensures var t := Traverse(n, cull); |t.drawn| + t.horizonCulls + t.frustumCulls <= Size(n)
    ensures |Traverse(n, cull).cancelled| <= Size(n)
  {
    if n.Node? && !Culls(n, cull) && !n.splitting && HasChildren(n) {
      TraversalWithinTree(n.c0, cull);
      TraversalWithinTree(n.c1, cull);
      TraversalWithinTree(n.c2, cull);
      TraversalWithinTree(n.c3, cull);
      var t0, t1, t2, t3 := Traverse(n.c0, cull), Traverse(n.c1, cull), Traverse(n.c2, cull), Traverse(n.c3, cull);
      CardinalityOfUnion(t0.cancelled, t1.cancelled);
      CardinalityOfUnion(t0.cancelled + t1.cancelled, t2.cancelled);
      CardinalityOfUnion(t0.cancelled + t1.cancelled + t2.cancelled, t3.cancelled);
    }
  }

  lemma CardinalityOfUnion(a: set<nat>, b: set<nat>)
    ensures |a + b| <= |a| + |b|
  {
    if b != {} {
      var x :| x in b;
      CardinalityOfUnion(a, b - {x});
      assert a + b == (a + (b - {x})) + {x};
    }
  }

  function Max(a: int, b: int): int { if a < b then b else a }

  /** The `DrawLevel` bookkeeping: start from `start` and raise it to each
      drawn node's level in turn. */
  function Highest(start: int, s: seq<TerrainNode>): int
    requires forall d <- s :: d.Node?
    decreases s
  {
    if |s| == 0 then start else Highest(Max(start, s[0].level), s[1..])
  }

  /** The bookkeeping yields the maximum of the start value and the drawn
      levels. */
  lemma {:induction false} HighestIsMaximum(start: int, s: seq<TerrainNode>)
    requires forall d <- s :: d.Node?
    ensures Highest(start, s) >= start
    ensures forall d <- s :: Highest(start, s) >= d.level
    ensures Highest(start, s) == start || exists d <- s :: Highest(start, s) == d.level
    decreases s
  {
    if |s| > 0 {
      HighestIsMaximum(Max(start, s[0].level), s[1..]);
      assert forall d <- s :: d == s[0] || d in s[1..];
      if Highest(start, s) != start && Highest(start, s) != s[0].level {
        var d :| d in s[1..] && Highest(start, s) == d.level;
        assert d in s;
      }
    }
  }

  /** Raising the level over two runs of drawing is raising it over both. */
  lemma {:induction false} HighestAppend(start: int, s: seq<TerrainNode>, t: seq<TerrainNode>)
    requires forall d <- s :: d.Node?
    requires forall d <- t :: d.Node?
    ensures forall d <- s + t :: d.Node?
    ensures Highest(start, s + t) == Highest(Highest(start, s), t)
    decreases s
  {
    if |s| > 0 {
      assert (s + t)[0] == s[0] && (s + t)[1..] == s[1..] + t;
      HighestAppend(Max(start, s[0].level), s[1..], t);
    } else {
      assert s + t == t;
    }
  }

  /** The global counters of the renderer (Globals.cs), and the set of nodes
      whose split has been cancelled. */
  class Globals {
    var DrawLevel: int
    var DrawCount: int
    var FrustumCullCount: int
    var HorizonCullCount: int
    var NodeCount: int
    var cancelled: set<nat>

    constructor ()
      ensures DrawLevel == 0 && DrawCount == 0 && FrustumCullCount == 0 && HorizonCullCount == 0
      ensures NodeCount == 0 && cancelled == {}
    {
      DrawLevel, DrawCount, FrustumCullCount, HorizonCullCount, NodeCount := 0, 0, 0, 0, 0;
      cancelled := {};
    }
  }

  class Game {
    const globals: Globals
    var planetEffect: Effect
    // Constants.DisableNormalMapGeneration and DisableDiffuseTextureGeneration.
    const disableNormalMaps: bool
    const disableTextures: bool

    constructor (noNormalMaps: bool, noTextures: bool)
      ensures planetEffect == NoEffect
      ensures disableNormalMaps == noNormalMaps && disableTextures == noTextures
      ensures fresh(globals)
    {
      globals := new Globals();
      planetEffect := NoEffect;
      disableNormalMaps, disableTextures := noNormalMaps, noTextures;
    }

    /** Steps the render mode to the next one in the cycle and validates it;
        the result is always an available effect. */
    method SelectNextRenderMode()
      modifies this
      decreases Rank(NextEffect(planetEffect)) + 1, 0
      ensures planetEffect == Validated(NextEffect(old(planetEffect)), disableNormalMaps, disableTextures)
      ensures Available(planetEffect, disableNormalMaps, disableTextures)
    {
      if planetEffect == NoEffect || planetEffect == BumpSpace {
        planetEffect := Bump;
      } else if planetEffect == Bump {
        planetEffect := Texture;
      } else if planetEffect == Texture {
        planetEffect := Basic;
      } else if planetEffect == Basic {
        planetEffect := BumpMaps;
      } else {
        planetEffect := Bump;
      }
      ValidateRenderMode();
      ValidatedIsAvailable(old(NextEffect(planetEffect)), disableNormalMaps, disableTextures);
    }

    /** Selects again while the effect needs generation that is disabled. */
    method ValidateRenderMode()
      modifies this
      decreases Rank(planetEffect), 1
      ensures planetEffect == Validated(old(planetEffect), disableNormalMaps, disableTextures)
    {
      if disableNormalMaps {
        if planetEffect == BumpSpace || planetEffect == BumpMaps {
          SelectNextRenderMode();
        }
      }
      if disableTextures {
        if planetEffect == Texture || planetEffect == BumpSpace || planetEffect == BumpMaps {
          SelectNextRenderMode();
        }
      }
    }

    /** `CalculateProjection` for a camera at `distance` from the planet
        centre: only the clip planes change. */
    method CalculateProjection(camera: Camera, distance: real, radius: real)
      requires radius != 0.0
      modifies camera`nearClip, camera`farClip
      ensures camera.nearClip == NearClipFor(distance, radius)
      ensures camera.farClip == FarClip
      ensures camera.fieldOfView == old(camera.fieldOfView) && camera.Position == old(camera.Position)
      ensures camera.AcceptInput == old(camera.AcceptInput) && camera.speedFactor == old(camera.speedFactor)
    {
      var r := radius;
      if distance < r + 10.0 {
        camera.nearClip := 0.001 / r;
        camera.farClip := 20000.0;
      } else if distance < r + 20.0 {
        camera.nearClip := 0.01 / r;
        camera.farClip := 20000.0;
      } else if distance < r + 50.0 {
        camera.nearClip := 0.1 / r;
        camera.farClip := 20000.0;
      } else if distance < r + 6000.0 {
        camera.nearClip := 0.001;
        camera.farClip := 20000.0;
      } else {
        camera.nearClip := 0.001;
        camera.farClip := 20000.0;
      }
    }

    /** `CullTerrainNode`, with its counters. */
    method CullTerrainNode(n: TerrainNode, cull: Culling) returns (culled: bool)
      requires n.Node?
      modifies globals`HorizonCullCount, globals`FrustumCullCount
      ensures culled == Culls(n, cull)
      ensures globals.HorizonCullCount == old(globals.HorizonCullCount) + (if culled && HorizonCulls(n, cull) then 1 else 0)
      ensures globals.FrustumCullCount == old(globals.FrustumCullCount) + (if culled && !HorizonCulls(n, cull) then 1 else 0)
      ensures globals.DrawCount == old(globals.DrawCount) && globals.DrawLevel == old(globals.DrawLevel)
      ensures globals.NodeCount == old(globals.NodeCount) && globals.cancelled == old(globals.cancelled)
    {
      if n.splitting && n.level <= 2 {
        return false;
      }
      if !DisableHorizonCulling && cull.horizonAngleSet {
        if n.level >= 2 {
          if cull.beyondHorizon(n) {
            globals.HorizonCullCount := globals.HorizonCullCount + 1;
            return true;
          }
        }
      }
      if !DisableFrustumCulling {
        if cull.outsideFrustum(n) {
          globals.FrustumCullCount := globals.FrustumCullCount + 1;
          return true;
        }
      }
      return false;
    }

    /** Draws the visible leaves under `n`: the counters grow by what
        `Traverse` says. */
    method DrawTerrainNode(n: TerrainNode, cull: Culling)
      modifies globals`DrawCount, globals`DrawLevel, globals`HorizonCullCount, globals`FrustumCullCount, globals`cancelled
      decreases n
      ensures var t := Traverse(n, cull);
        && globals.DrawCount == old(globals.DrawCount) + |t.drawn|
        && globals.DrawLevel == Highest(old(globals.DrawLevel), t.drawn)
        && globals.HorizonCullCount == old(globals.HorizonCullCount) + t.horizonCulls
        && globals.FrustumCullCount == old(globals.FrustumCullCount) + t.frustumCulls
        && globals.cancelled == old(globals.cancelled) + t.cancelled
      ensures globals.NodeCount == old(globals.NodeCount)
    {
      if n.Null? {
        return;
      }
      var culled := CullTerrainNode(n, cull);
      if culled {
        globals.cancelled := globals.cancelled + {n.id};
        return;
      }
      if !n.splitting && HasChildren(n) {
        HighestOfChildren(n, cull, globals.DrawLevel);
        DrawTerrainNode(n.c0, cull);
        DrawTerrainNode(n.c1, cull);
        DrawTerrainNode(n.c2, cull);
        DrawTerrainNode(n.c3, cull);
      } else {
        globals.DrawCount := globals.DrawCount + 1;
        if n.level > globals.DrawLevel {
          globals.DrawLevel := n.level;
        }
      }
    }

    /** `DrawSphere`: reset the counters, then draw the six faces. */
    method DrawSphere(s: Sphere, cull: Culling)
      modifies globals`DrawCount, globals`DrawLevel, globals`HorizonCullCount, globals`FrustumCullCount, globals`cancelled
      ensures var t := Join(Join(Join(Join(Join(Traverse(s.front, cull), Traverse(s.back, cull)),
                Traverse(s.left, cull)), Traverse(s.right, cull)), Traverse(s.top, cull)), Traverse(s.bottom, cull));
        && globals.DrawCount == |t.drawn|
        && globals.DrawLevel == Highest(0, t.drawn)
        && globals.HorizonCullCount == t.horizonCulls
        && globals.FrustumCullCount == t.frustumCulls
        && globals.cancelled == old(globals.cancelled) + t.cancelled
      ensures globals.NodeCount == old(globals.NodeCount)
    {
      globals.DrawLevel := 0;
      globals.DrawCount := 0;
      globals.HorizonCullCount := 0;
      globals.FrustumCullCount := 0;
      HighestOfFaces(s, cull);
      DrawTerrainNode(s.front, cull);
      DrawTerrainNode(s.back, cull);
      DrawTerrainNode(s.left, cull);
      DrawTerrainNode(s.right, cull);
      DrawTerrainNode(s.top, cull);
      DrawTerrainNode(s.bottom, cull);
    }

    /** Adds one per node reachable from `n` through `HasChildren` links,
        skipping null children. */
    method CountTerrainNodes(n: TerrainNode)
      requires n.Node?
      modifies globals`NodeCount
      decreases n
      ensures globals.NodeCount == old(globals.NodeCount) + Size(n)
      ensures globals.DrawCount == old(globals.DrawCount) && globals.DrawLevel == old(globals.DrawLevel)
      ensures globals.HorizonCullCount == old(globals.HorizonCullCount)
      ensures globals.FrustumCullCount == old(globals.FrustumCullCount)
      ensures globals.cancelled == old(globals.cancelled)
    {
      globals.NodeCount := globals.NodeCount + 1;
      if HasChildren(n) {
        if !n.c0.Null? { CountTerrainNodes(n.c0); }
        if !n.c1.Null? { CountTerrainNodes(n.c1); }
        if !n.c2.Null? { CountTerrainNodes(n.c2); }
        if !n.c3.Null? { CountTerrainNodes(n.c3); }
      }
    }

    /** The node count of `Update`: reset, then count the six faces. */
    method CountSphere(s: Sphere)
      requires s.front.Node? && s.back.Node? && s.left.Node? && s.right.Node? && s.top.Node? && s.bottom.Node?
      modifies globals`NodeCount
      ensures globals.NodeCount == Size(s.front) + Size(s.back) + Size(s.left) + Size(s.right) + Size(s.top) + Size(s.bottom)
      ensures globals.DrawCount == old(globals.DrawCount) && globals.DrawLevel == old(globals.DrawLevel)
      ensures globals.HorizonCullCount == old(globals.HorizonCullCount)
      ensures globals.FrustumCullCount == old(globals.FrustumCullCount)
      ensures globals.cancelled == old(globals.cancelled)
    {
      globals.NodeCount := 0;
      CountTerrainNodes(s.front);
      CountTerrainNodes(s.back);
      CountTerrainNodes(s.left);
      CountTerrainNodes(s.right);
      CountTerrainNodes(s.top);
      CountTerrainNodes(s.bottom);
    }
  }

  /** The level bookkeeping over a node that descends is the bookkeeping
      over its four children in turn. */
  lemma HighestOfChildren(n: TerrainNode, cull: Culling, start: int)
    requires n.Node? && !Culls(n, cull) && !n.splitting && HasChildren(n)
    ensures Highest(start, Traverse(n, cull).drawn)
      == Highest(Highest(Highest(Highest(start, Traverse(n.c0, cull).drawn), Traverse(n.c1, cull).drawn),
                         Traverse(n.c2, cull).drawn), Traverse(n.c3, cull).drawn)
  {
    var d0, d1, d2, d3 := Traverse(n.c0, cull).drawn, Traverse(n.c1, cull).drawn, Traverse(n.c2, cull).drawn, Traverse(n.c3, cull).drawn;
    HighestAppend(start, d0, d1);
    HighestAppend(start, d0 + d1, d2);
    HighestAppend(start, d0 + d1 + d2, d3);
  }

  /** The same for the six faces of `DrawSphere`, from level 0. */
  lemma HighestOfFaces(s: Sphere, cull: Culling)
    ensures var t := Join(Join(Join(Join(Join(Traverse(s.front, cull), Traverse(s.back, cull)),
              Traverse(s.left, cull)), Traverse(s.right, cull)), Traverse(s.top, cull)), Traverse(s.bottom, cull));
      Highest(0, t.drawn)
         == Highest(Highest(Highest(Highest(Highest(Highest(0, Traverse(s.front, cull).drawn), Traverse(s.back, cull).drawn),
              Traverse(s.left, cull).drawn), Traverse(s.right, cull).drawn), Traverse(s.top, cull).drawn), Traverse(s.bottom, cull).drawn)
  {
    var d0, d1, d2 := Traverse(s.front, cull).drawn, Traverse(s.back, cull).drawn, Traverse(s.left, cull).drawn;
    var d3, d4, d5 := Traverse(s.right, cull).drawn, Traverse(s.top, cull).drawn, Traverse(s.bottom, cull).drawn;
    HighestAppend(0, d0, d1);
    HighestAppend(0, d0 + d1, d2);
    HighestAppend(0, d0 + d1 + d2, d3);
    HighestAppend(0, d0 + d1 + d2 + d3, d4);
    HighestAppend(0, d0 + d1 + d2 + d3 + d4, d5);
  }
}
