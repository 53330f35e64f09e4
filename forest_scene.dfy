// ForestSceneBuilder of the forest revision (js/floresta/cenaFloresta.js):
// the data `createWorld1` hands back (collision limits, trigger zones, the
// door hitbox), the rule that places trees from random draws, and the
// ghost fade.

module ForestScene {
  import opened Common
  import opened ForestControls
  import opened ForestInteraction

  /** A trigger volume: the box of an invisible mesh and its `userData.type`. */
  datatype Zone = Zone(box: Box, triggerType: string)

  const LoopTriggerType: string := "loop_trigger"
  const GhostTriggerType: string := "ghost_trigger"

  /** `worldLimits`: road and path width, the door end and the far end of the road. */
  const WorldLimits: Limits := Limits(-4.5, 4.5, 20.5, 78.0)

  /** The loop trigger: a 10 x 5 x 1 box centred on (0, 2.5, 79). */
  const LoopTriggerBox: Box := Box(Vec3(0.0, 2.5, 79.0), Vec3(10.0, 5.0, 1.0))

  /** The ghost trigger: a 10 x 5 x 1 box centred on (0, 2.5, 60). */
  const GhostTriggerBox: Box := Box(Vec3(0.0, 2.5, 60.0), Vec3(10.0, 5.0, 1.0))

  /** `triggerZones`, loop first and ghost second. */
  const TriggerZones: seq<Zone> :=
    [Zone(LoopTriggerBox, LoopTriggerType), Zone(GhostTriggerBox, GhostTriggerType)]

  /** The door hitbox: a 4 x 3 x 1 box centred on (0, 1.5, 20). */
  const DoorHitbox: Box := Box(Vec3(0.0, 1.5, 20.0), Vec3(4.0, 3.0, 1.0))

  /** The door hitbox mesh, the one object of the world marked interactive. */
  const Door: SceneObject := SceneObject("hitbox", UserData(true, "gothic_door"))

  /** The world limits suit the collision rule: it is idempotent under them. */
  lemma WorldLimitsCoherent()
    ensures Coherent(WorldLimits)
    ensures forall p: Vec3 :: ApplyCollisions(ApplyCollisions(p, WorldLimits), WorldLimits)
                              == ApplyCollisions(p, WorldLimits)
  {
    forall p: Vec3 {
      ApplyCollisionsIdempotent(p, WorldLimits);
    }
  }

  /**
   * As written, no position the collision rule produces under the world
   * limits lies in the loop trigger: the road stops at z = 78 and the box
   * starts at z = 78.5.
   */
  lemma LoopTriggerUnreachable(p: Vec3)
    ensures ApplyCollisions(p, WorldLimits).z <= WorldLimits.maxZ < MinCorner(LoopTriggerBox).z
    ensures !Contains(LoopTriggerBox, ApplyCollisions(p, WorldLimits))
  {
  }

  /** Limits whose far end of the road reaches into the loop trigger. */
  const ReachableLimits: Limits := WorldLimits.(maxZ := 79.0)

  /**
   * With the far end at z = 79, walking past the end of the road at eye
   * height stops inside the loop trigger, and the limits stay coherent.
   */
  lemma LoopTriggerReachable(p: Vec3)
    requires p.z >= 79.0 && -5.0 <= p.x <= 5.0 && 0.0 <= p.y <= 5.0
    ensures Coherent(ReachableLimits)
    ensures Contains(LoopTriggerBox, ApplyCollisions(p, ReachableLimits))
  {
  }

  /** The two `Math.random()` draws of one iteration of the tree loop. */
  datatype Sample = Sample(rx: real, rz: real)

  /** The tree loop runs this many times. */
  const TreeAttempts: nat := 80

  predicate IsUnit(r: real) {
    0.0 <= r < 1.0
  }

  /** The tree x: a draw over [-25, 25), pushed 3 m outwards when inside (-3, 3). */
  function TreeX(rx: real): (x: real)
    requires IsUnit(rx)
    ensures !(-3.0 < x < 3.0)
    ensures -25.0 <= x < 25.0
  {
    var x := (rx - 0.5) * 50.0;
    if -3.0 < x && x < 3.0 then (if x > 0.0 then x + 3.0 else x - 3.0) else x
  }

  /** The tree z: a draw over [10, 50). */
  function TreeZ(rz: real): (z: real)
    requires IsUnit(rz)
    ensures 10.0 <= z < 50.0
  {
    rz * 40.0 + 10.0
  }

  /** The region next to the road where the loop `continue`s. */
  predicate NearRoad(x: real, z: real) {
    -6.0 < x < 6.0 && z > 39.0
  }

  /** A placed tree: off the path, clear of the road, at height 4, inside the draw ranges. */
  predicate TreeOk(t: Vec3) {
    t.y == 4.0 && !(-3.0 < t.x < 3.0) && !NearRoad(t.x, t.z)
    && -25.0 <= t.x < 25.0 && 10.0 <= t.z < 50.0
  }

  predicate AllUnit(samples: seq<Sample>) {
    forall k :: 0 <= k < |samples| ==> IsUnit(samples[k].rx) && IsUnit(samples[k].rz)
  }

  /** The trees the loop places for the given draws, in order. */
  function Forest(samples: seq<Sample>): (trees: seq<Vec3>)
    requires AllUnit(samples)
    ensures |trees| <= |samples|
    ensures forall k :: 0 <= k < |trees| ==> TreeOk(trees[k])
    decreases |samples|
  {
    if samples == [] then []
    else
      var init := samples[..|samples| - 1];
      var s := samples[|samples| - 1];
      var x, z := TreeX(s.rx), TreeZ(s.rz);
      if NearRoad(x, z) then Forest(init) else Forest(init) + [Vec3(x, 4.0, z)]
  }

  /**
   * The tree loop of `createWorld1` over its 80 pairs of draws: each draw
   * pair gives one tree unless it falls next to the road.
   */
  method PlaceTrees(samples: seq<Sample>) returns (trees: seq<Vec3>)
    requires |samples| == TreeAttempts && AllUnit(samples)
    ensures trees == Forest(samples)
    ensures |trees| <= TreeAttempts
    ensures forall k :: 0 <= k < |trees| ==> TreeOk(trees[k])
  {
    trees := [];
    for i := 0 to TreeAttempts
      invariant trees == Forest(samples[..i])
      invariant |trees| <= i
      invariant forall k :: 0 <= k < |trees| ==> TreeOk(trees[k])
    {
      assert samples[..i + 1][..i] == samples[..i];
      var x := (samples[i].rx - 0.5) * 50.0;
      if -3.0 < x && x < 3.0 {
        x := x + (if x > 0.0 then 3.0 else -3.0);
      }
      var z := samples[i].rz * 40.0 + 10.0;
      if -6.0 < x && x < 6.0 && z > 39.0 {
        continue;
      }
      trees := trees + [Vec3(x, 4.0, z)];
    }
    assert samples[..TreeAttempts] == samples;
  }

  /** A ghost billboard; only its material opacity changes. */
  class Ghost {
    const position: Vec3
    var opacity: real

    constructor (position: Vec3)
      ensures this.position == position && opacity == 0.0
    {
      this.position := position;
      opacity := 0.0;
    }
  }

  /** What `createWorld1` returns, without the render group. */
  datatype World = World(collisionLimits: Limits, triggerZones: seq<Zone>,
                         door: SceneObject, doorBox: Box, trees: seq<Vec3>)

  class ForestSceneBuilder {
    var lady: Ghost?
    var child: Ghost?

    ghost predicate Valid()
      reads this
    {
      lady != null && child != null ==> lady != child
    }

    constructor ()
      ensures Valid() && lady == null && child == null
    {
      lady, child := null, null;
    }

    /** `createWorld1`: builds both ghosts invisible and returns the world data. */
    method CreateWorld1(samples: seq<Sample>) returns (w: World)
      requires |samples| == TreeAttempts && AllUnit(samples)
      modifies this
      ensures Valid()
      ensures lady != null && child != null && fresh(lady) && fresh(child)
      ensures lady.opacity == 0.0 && child.opacity == 0.0
      ensures lady.position == Vec3(1.5, 1.25, 50.0) && child.position == Vec3(0.5, 0.75, 50.0)
      ensures w == World(WorldLimits, TriggerZones, Door, DoorHitbox, Forest(samples))
    {
      var trees := PlaceTrees(samples);
      lady := new Ghost(Vec3(1.5, 1.25, 50.0));
      child := new Ghost(Vec3(0.5, 0.75, 50.0));
      w := World(WorldLimits, TriggerZones, Door, DoorHitbox, trees);
    }

    /**
     * `showGhosts`: when both ghosts exist, make both fully visible and
     * report that the fade-out is scheduled; otherwise do nothing.
     */
    method ShowGhosts() returns (fadeScheduled: bool)
      requires Valid()
      modifies lady, child
      ensures fadeScheduled <==> lady != null && child != null
      ensures fadeScheduled ==> lady.opacity == 1.0 && child.opacity == 1.0
      ensures !fadeScheduled && lady != null ==> lady.opacity == old(lady.opacity)
      ensures !fadeScheduled && child != null ==> child.opacity == old(child.opacity)
    {
      fadeScheduled := lady != null && child != null;
      if fadeScheduled {
        lady.opacity := 1.0;
        child.opacity := 1.0;
      }
    }

    /** The callback scheduled by `showGhosts`, run 4000 ms later: hide both ghosts. */
    method HideGhosts()
      requires Valid() && lady != null && child != null
      modifies lady, child
      ensures lady.opacity == 0.0 && child.opacity == 0.0
    {
      lady.opacity := 0.0;
      child.opacity := 0.0;
    }
  }

  /** The fade-out delay of `showGhosts`, in milliseconds. */
  const GhostFadeDelay: nat := 4000
}
