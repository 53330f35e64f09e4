// SungApp of the forest revision (js/geral/main.js): the frame gate, the
// per-frame order of probe, walk and trigger check, the trigger evaluator
// (a repeatable loop teleport with a counter and a one-shot ghost event)
// and the guarded start of the game end.

module ForestApp {
  import opened Common
  import opened ForestControls
  import opened ForestInteraction
  import opened ForestScene

  /** The `settings` object: walking speed, look speeds and eye height. */
  const AppSettings: Settings := Settings(1.8, 0.0008, 0.0025, 1.6)

  /** Where the camera starts: on the road at z = 70. */
  const CameraStart: Vec3 := Vec3(0.0, 1.6, 70.0)

  /** Where the loop trigger sends the camera back to, at the given eye height. */
  function LoopWaypoint(height: real): Vec3 {
    Vec3(0.0, height, 50.0)
  }

  /** The number of completed loops after which the ghost trigger may fire. */
  const GhostLoopThreshold: nat := 2

  /** What the trigger evaluator reads and writes: camera position, loop count, ghost flag. */
  datatype TriggerState = TriggerState(position: Vec3, loops: nat, ghostsTriggered: bool)

  /** One zone of `checkWorldTriggers`, tested against the live camera position. */
  function ZoneStep(st: TriggerState, zone: Zone, height: real): (r: TriggerState)
    ensures !Contains(zone.box, st.position) ==> r == st
    ensures st.loops <= r.loops <= st.loops + 1
    ensures st.ghostsTriggered ==> r.ghostsTriggered
    ensures r.ghostsTriggered && !st.ghostsTriggered ==> r.loops >= GhostLoopThreshold
    ensures r.loops == st.loops ==> r.position == st.position
  {
    if !Contains(zone.box, st.position) then st
    else if zone.triggerType == LoopTriggerType then
      st.(position := LoopWaypoint(height), loops := st.loops + 1)
    else if zone.triggerType == GhostTriggerType && st.loops >= GhostLoopThreshold && !st.ghostsTriggered then
      st.(ghostsTriggered := true)
    else st
  }

  /**
   * One pass of `checkWorldTriggers` over the zones in list order. The
   * loop count never falls and grows by at most one per zone; once set,
   * the ghost flag stays set, and it is only ever set with at least two loops.
   */
  function TriggerPass(st: TriggerState, zones: seq<Zone>, height: real): (r: TriggerState)
    ensures st.loops <= r.loops <= st.loops + |zones|
    ensures st.ghostsTriggered ==> r.ghostsTriggered
    ensures r.ghostsTriggered && !st.ghostsTriggered ==> r.loops >= GhostLoopThreshold
    decreases |zones|
  {
    if zones == [] then st
    else ZoneStep(TriggerPass(st, zones[..|zones| - 1], height), zones[|zones| - 1], height)
  }

  /** Entering the loop trigger teleports to the waypoint and counts exactly one loop. */
  lemma LoopTeleports(st: TriggerState, height: real)
    requires Contains(LoopTriggerBox, st.position)
    ensures ZoneStep(st, Zone(LoopTriggerBox, LoopTriggerType), height)
            == TriggerState(LoopWaypoint(height), st.loops + 1, st.ghostsTriggered)
  {
  }

  /**
   * Zones see the live position: a camera teleported by the loop trigger
   * is tested by the ghost trigger at the waypoint, which lies outside it,
   * so that pass counts one loop and leaves the ghost flag alone.
   */
  lemma {:induction false} TeleportSeenByLaterZones(st: TriggerState)
    requires Contains(LoopTriggerBox, st.position)
    ensures TriggerPass(st, TriggerZones, 1.6)
            == TriggerState(LoopWaypoint(1.6), st.loops + 1, st.ghostsTriggered)
  {
    var first := TriggerZones[..1];
    assert |first| == 1 && first[..0] == [] && first[0] == Zone(LoopTriggerBox, LoopTriggerType);
    assert TriggerPass(st, first[..0], 1.6) == st;
    var mid := TriggerPass(st, first, 1.6);
    assert mid == ZoneStep(st, first[0], 1.6);
    assert mid == TriggerState(LoopWaypoint(1.6), st.loops + 1, st.ghostsTriggered);
    assert !Contains(GhostTriggerBox, LoopWaypoint(1.6));
  }

  /** The ghost trigger fires, setting the flag, exactly when the camera is inside and the gate is open. */
  lemma GhostFiresOnce(st: TriggerState, height: real)
    ensures ZoneStep(st, Zone(GhostTriggerBox, GhostTriggerType), height).ghostsTriggered
            <==> st.ghostsTriggered
                 || (Contains(GhostTriggerBox, st.position) && st.loops >= GhostLoopThreshold)
  {
  }

  /**
   * Under the world limits as written, a camera that has been through the
   * collision rule never sets off the loop trigger, so a pass leaves the
   * loop count as it is and, below two loops, the ghost gate stays as it
   * was: shut if it was shut.
   */
  lemma {:induction false} NoLoopUnderWorldLimits(p: Vec3, loops: nat, ghosts: bool, zones: seq<Zone>)
    requires forall k :: 0 <= k < |zones| ==>
               zones[k] == Zone(LoopTriggerBox, LoopTriggerType) || zones[k].triggerType != LoopTriggerType
    ensures TriggerPass(TriggerState(Settle(p, Some(WorldLimits), 1.6), loops, ghosts), zones, 1.6).loops == loops
    ensures loops < GhostLoopThreshold ==>
              TriggerPass(TriggerState(Settle(p, Some(WorldLimits), 1.6), loops, ghosts), zones, 1.6).ghostsTriggered
              == ghosts
    decreases |zones|
  {
    var q := Settle(p, Some(WorldLimits), 1.6);
    LoopTriggerUnreachable(p);
    assert !Contains(LoopTriggerBox, q);
    if zones != [] {
      NoLoopUnderWorldLimits(p, loops, ghosts, zones[..|zones| - 1]);
      PassKeepsPosition(TriggerState(q, loops, ghosts), zones[..|zones| - 1], 1.6);
    }
  }

  /** A pass that counts no loop leaves the camera where it was. */
  lemma {:induction false} PassKeepsPosition(st: TriggerState, zones: seq<Zone>, height: real)
    requires TriggerPass(st, zones, height).loops == st.loops
    ensures TriggerPass(st, zones, height).position == st.position
    decreases |zones|
  {
    if zones != [] {
      var mid := TriggerPass(st, zones[..|zones| - 1], height);
      assert mid.loops == st.loops;
      PassKeepsPosition(st, zones[..|zones| - 1], height);
    }
  }

  class SungApp {
    const settings: Settings
    const isMobile: bool
    const forestBuilder: ForestSceneBuilder
    var controls: PlayerControls?
    var interaction: InteractionHandler?
    var triggerZones: seq<Zone>
    var isLoaded: bool
    var isTransitioning: bool
    var highwayLoopCount: nat
    var ghostsTriggered: bool

    ghost predicate Valid()
      reads this, controls, forestBuilder
    {
      forestBuilder.Valid()
      && (controls != null ==> controls.Valid() && forestBuilder.lady != null && forestBuilder.child != null)
      && (isLoaded ==> controls != null && interaction != null)
    }

    /** The trigger evaluator's view of the game: camera position, loop count, ghost flag. */
    ghost function Triggers(): TriggerState
      reads this, controls
      requires controls != null
    {
      TriggerState(controls.position, highwayLoopCount, ghostsTriggered)
    }

    /** The constructor together with `init`: nothing is loaded yet. */
    constructor (isMobile: bool)
      ensures Valid() && fresh(forestBuilder)
      ensures settings == AppSettings && this.isMobile == isMobile
      ensures controls == null && interaction == null && triggerZones == []
      ensures !isLoaded && !isTransitioning && highwayLoopCount == 0 && !ghostsTriggered
    {
      settings := AppSettings;
      this.isMobile := isMobile;
      forestBuilder := new ForestSceneBuilder();
      controls, interaction := null, null;
      triggerZones := [];
      isLoaded, isTransitioning := false, false;
      highwayLoopCount, ghostsTriggered := 0, false;
    }

    /**
     * `startExperience`, run once the textures are loaded: build world 1,
     * create the controls on the camera at its start position with the
     * world's limits, create the interaction handler, and open the gate.
     */
    method StartExperience(samples: seq<Sample>)
      requires Valid() && controls == null
      requires |samples| == TreeAttempts && AllUnit(samples)
      modifies this, forestBuilder
      ensures Valid() && isLoaded
      ensures triggerZones == TriggerZones
      ensures controls != null && fresh(controls) && interaction != null && fresh(interaction)
      ensures controls.collisionLimits == Some(WorldLimits) && controls.currentWorld == 1
      ensures controls.position == CameraStart && controls.moveState == Still
      ensures controls.settings == settings && controls.isMobile == isMobile
      ensures controls.sensitivity == if isMobile then settings.mobileCameraSpeed else settings.desktopCameraSpeed
      ensures controls.pitch == 0.0 && controls.yaw == 0.0 && controls.rotation == Vec3(0.0, 0.0, 0.0)
      ensures controls.lookTouchId == None && controls.lastLookX == 0.0 && controls.lastLookY == 0.0
      ensures forestBuilder.lady.opacity == 0.0 && forestBuilder.child.opacity == 0.0
      ensures forestBuilder.lady.position == Vec3(1.5, 1.25, 50.0)
      ensures forestBuilder.child.position == Vec3(0.5, 0.75, 50.0)
      ensures interaction.currentTarget == None
      ensures isTransitioning == old(isTransitioning)
      ensures highwayLoopCount == old(highwayLoopCount) && ghostsTriggered == old(ghostsTriggered)
    {
      var world := forestBuilder.CreateWorld1(samples);
      triggerZones := world.triggerZones;
      var c := new PlayerControls(settings, isMobile, CameraStart);
      c.SetWorld(1, Some(world.collisionLimits));
      controls := c;
      interaction := new InteractionHandler();
      isLoaded := true;
    }

    /**
     * `checkWorldTriggers`: nothing without controls or while
     * transitioning; otherwise one pass over the zones, showing the ghosts
     * when the ghost flag is set by this pass.
     */
    method CheckWorldTriggers()
      requires Valid()
      modifies this`highwayLoopCount, this`ghostsTriggered, {controls}`position, forestBuilder.lady, forestBuilder.child
      ensures Valid()
      ensures controls == null || isTransitioning ==>
                highwayLoopCount == old(highwayLoopCount) && ghostsTriggered == old(ghostsTriggered)
      ensures controls != null && isTransitioning ==> controls.position == old(controls.position)
      ensures controls != null && !isTransitioning ==>
                Triggers() == TriggerPass(old(Triggers()), triggerZones, settings.playerHeight)
      ensures controls != null && ghostsTriggered && !old(ghostsTriggered) ==>
                forestBuilder.lady.opacity == 1.0 && forestBuilder.child.opacity == 1.0
      ensures controls != null && ghostsTriggered == old(ghostsTriggered) ==>
                unchanged(forestBuilder.lady, forestBuilder.child)
    {
      if controls == null {
        return;
      }
      if isTransitioning {
        return;
      }
      var i := 0;
      while i < |triggerZones|
        invariant 0 <= i <= |triggerZones|
        invariant Valid()
        invariant Triggers() == TriggerPass(old(Triggers()), triggerZones[..i], settings.playerHeight)
        invariant ghostsTriggered && !old(ghostsTriggered) ==>
                    forestBuilder.lady.opacity == 1.0 && forestBuilder.child.opacity == 1.0
        invariant ghostsTriggered == old(ghostsTriggered) ==> unchanged(forestBuilder.lady, forestBuilder.child)
      {
        CheckZone(triggerZones[i]);
        assert triggerZones[..i + 1][..i] == triggerZones[..i];
        i := i + 1;
      }
      assert triggerZones[..i] == triggerZones;
    }

    /** The body of the `checkWorldTriggers` loop for one zone. */
    method CheckZone(zone: Zone)
      requires Valid() && controls != null
      modifies this`highwayLoopCount, this`ghostsTriggered, controls`position, forestBuilder.lady, forestBuilder.child
      ensures Valid()
      ensures Triggers() == ZoneStep(old(Triggers()), zone, settings.playerHeight)
      ensures ghostsTriggered && !old(ghostsTriggered) ==>
                forestBuilder.lady.opacity == 1.0 && forestBuilder.child.opacity == 1.0
      ensures ghostsTriggered == old(ghostsTriggered) ==> unchanged(forestBuilder.lady, forestBuilder.child)
    {
      if Contains(zone.box, controls.position) {
        if zone.triggerType == LoopTriggerType {
          controls.position := LoopWaypoint(settings.playerHeight);
          highwayLoopCount := highwayLoopCount + 1;
        } else if zone.triggerType == GhostTriggerType && highwayLoopCount >= GhostLoopThreshold && !ghostsTriggered {
          ghostsTriggered := true;
          TriggerGhostEvent();
        }
      }
    }

    /** `triggerGhostEvent`: the ghosts fade in (the audio cue is left out). */
    method TriggerGhostEvent()
      requires Valid() && controls != null
      modifies forestBuilder.lady, forestBuilder.child
      ensures forestBuilder.lady.opacity == 1.0 && forestBuilder.child.opacity == 1.0
    {
      var _ := forestBuilder.ShowGhosts();
    }

    /**
     * `animate`: while not loaded or while transitioning the frame only
     * schedules the next one; otherwise it probes for a target with the
     * hits cast from the pose at the start of the frame, walks the camera,
     * then checks the triggers against the walked position.
     */
    method Animate(delta: real, hits: seq<Hit>, axisX: Vec3, axisZ: Vec3) returns (rendered: bool)
      requires Valid()
      modifies this`highwayLoopCount, this`ghostsTriggered, {controls}`position, {interaction}`currentTarget,
               forestBuilder.lady, forestBuilder.child
      ensures Valid()
      ensures rendered <==> isLoaded && !isTransitioning
      ensures !rendered ==> highwayLoopCount == old(highwayLoopCount) && ghostsTriggered == old(ghostsTriggered)
      ensures !rendered && controls != null ==> controls.position == old(controls.position)
      ensures !rendered && interaction != null ==> interaction.currentTarget == old(interaction.currentTarget)
      ensures !rendered && forestBuilder.lady != null ==> unchanged(forestBuilder.lady)
      ensures !rendered && forestBuilder.child != null ==> unchanged(forestBuilder.child)
      ensures rendered ==> interaction.currentTarget == Target(hits)
      ensures rendered && ghostsTriggered && !old(ghostsTriggered) ==>
                forestBuilder.lady.opacity == 1.0 && forestBuilder.child.opacity == 1.0
      ensures rendered && ghostsTriggered == old(ghostsTriggered) ==>
                unchanged(forestBuilder.lady, forestBuilder.child)
      ensures rendered ==>
                Triggers() == TriggerPass(
                  TriggerState(
                    Settle(Walk(old(controls.position), old(controls.moveState),
                                FrameDistance(controls.settings, delta), axisX, axisZ),
                           old(controls.collisionLimits), controls.settings.playerHeight),
                    old(highwayLoopCount), old(ghostsTriggered)),
                  triggerZones, settings.playerHeight)
    {
      if !isLoaded || isTransitioning {
        return false;
      }
      interaction.Update(hits);
      controls.Update(delta, axisX, axisZ);
      CheckWorldTriggers();
      rendered := true;
    }

    /** `handleInteraction`: only the gothic door ends the game. */
    method HandleInteraction(userData: UserData)
      modifies this`isTransitioning
      ensures userData.kind == "gothic_door" ==> isTransitioning
      ensures userData.kind != "gothic_door" ==> isTransitioning == old(isTransitioning)
    {
      if userData.kind == "gothic_door" {
        TriggerGameEnd();
      }
    }

    /**
     * `triggerGameEnd`: a no-op while transitioning; otherwise it sets the
     * flag, which freezes `animate` and is never cleared (fade, message
     * and pointer-lock release are left out).
     */
    method TriggerGameEnd()
      modifies this`isTransitioning
      ensures isTransitioning
    {
      if isTransitioning {
        return;
      }
      isTransitioning := true;
    }

    /**
     * The action wired to `controls.onInteract`: the handler's
     * `triggerInteraction`, whose callback is `handleInteraction`.
     */
    method Interact()
      requires interaction != null
      modifies this`isTransitioning
      ensures interaction.currentTarget.Some? && interaction.currentTarget.value.userData.kind == "gothic_door"
              ==> isTransitioning
      ensures (interaction.currentTarget.None? || interaction.currentTarget.value.userData.kind != "gothic_door")
              ==> isTransitioning == old(isTransitioning)
    {
      var dispatched := interaction.TriggerInteraction();
      if dispatched.Some? {
        HandleInteraction(dispatched.value);
      }
    }
  }
}
