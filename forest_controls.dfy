// PlayerControls of the forest revision (js/geral/controls.js): key and
// D-pad move flags, pointer-lock and touch-drag look with a pitch clamp,
// a single captured look touch, and the per-frame walk followed by the
// road/path collision rule.

module ForestControls {
  import opened Common

  /** The `settings` object handed in by the application. */
  datatype Settings = Settings(movementSpeed: real, desktopCameraSpeed: real,
                               mobileCameraSpeed: real, playerHeight: real)

  /** The `collisionLimits` object of a world. */
  datatype Limits = Limits(minX: real, maxX: real, minZ: real, maxZ: real)

  /** The z plane that separates the road (beyond it) from the forest path. */
  const RoadEdgeZ: real := 40.0

  /** Half the width of the path into the forest. */
  const PathHalfWidth: real := 1.5

  /**
   * `applyCollisions`: on the road (z > 40) x is clamped into the limits
   * and z may not pass maxZ; off the road x is left alone, and z may go
   * down to minZ only inside the path (|x| < 1.5), otherwise it is pushed
   * back to the road edge. y is not touched.
   */
  function ApplyCollisions(p: Vec3, lim: Limits): (r: Vec3)
    ensures r.y == p.y
    ensures p.z > RoadEdgeZ && lim.minX <= lim.maxX ==> lim.minX <= r.x <= lim.maxX
    ensures p.z > RoadEdgeZ && lim.minX <= p.x <= lim.maxX ==> r.x == p.x
    ensures p.z > RoadEdgeZ && lim.minX <= lim.maxX && p.x > lim.maxX ==> r.x == lim.maxX
    ensures p.z > RoadEdgeZ && lim.minX <= lim.maxX && p.x < lim.minX ==> r.x == lim.minX
    ensures p.z > RoadEdgeZ ==> r.z <= lim.maxZ && (p.z <= lim.maxZ ==> r.z == p.z)
    ensures p.z > RoadEdgeZ && p.z > lim.maxZ ==> r.z == lim.maxZ
    ensures p.z <= RoadEdgeZ ==> r.x == p.x
    ensures p.z <= RoadEdgeZ && -PathHalfWidth < p.x < PathHalfWidth ==>
              r.z >= lim.minZ && (p.z >= lim.minZ ==> r.z == p.z)
    ensures p.z <= RoadEdgeZ && -PathHalfWidth < p.x < PathHalfWidth && p.z < lim.minZ ==> r.z == lim.minZ
    ensures p.z <= RoadEdgeZ && !(-PathHalfWidth < p.x < PathHalfWidth) ==> r.z == RoadEdgeZ
  {
    if p.z > RoadEdgeZ then
      var x := if lim.maxX < p.x then lim.maxX else p.x;
      var x' := if x < lim.minX then lim.minX else x;
      Vec3(x', p.y, if p.z < lim.maxZ then p.z else lim.maxZ)
    else if -PathHalfWidth < p.x && p.x < PathHalfWidth then
      Vec3(p.x, p.y, if lim.minZ < p.z then p.z else lim.minZ)
    else
      Vec3(p.x, p.y, RoadEdgeZ)
  }

  /** Limits under which the collision rule never moves a position it produced. */
  predicate Coherent(lim: Limits) {
    lim.minX <= lim.maxX && lim.minZ <= RoadEdgeZ < lim.maxZ
  }

  /** Applying the collision rule twice is the same as applying it once. */
  lemma ApplyCollisionsIdempotent(p: Vec3, lim: Limits)
    requires Coherent(lim)
    ensures ApplyCollisions(ApplyCollisions(p, lim), lim) == ApplyCollisions(p, lim)
  {
    var q := ApplyCollisions(p, lim);
    if p.z > RoadEdgeZ {
      assert q.z > RoadEdgeZ;
    } else {
      assert q.z <= RoadEdgeZ && q.x == p.x;
    }
  }

  /**
   * The two translate calls of `update`: along the camera's local z axis
   * by `-heading.z * speed` when forward or backward is held, then along
   * its local x axis by `-heading.x * speed` when left or right is held.
   * `axisX` and `axisZ` are those local axes in world space.
   */
  function Walk(pos: Vec3, m: MoveFlags, speed: real, axisX: Vec3, axisZ: Vec3): (r: Vec3)
    ensures m == Still ==> r == pos
  {
    var h := Heading(m);
    var p := if m.forward || m.backward then Add(pos, Scale(axisZ, -h.z * speed)) else pos;
    if m.left || m.right then Add(p, Scale(axisX, -h.x * speed)) else p
  }

  /** Holding forward alone moves the camera along its local -z axis, its view direction. */
  lemma ForwardFollowsView(pos: Vec3, speed: real, axisX: Vec3, axisZ: Vec3)
    ensures Walk(pos, MoveFlags(true, false, false, false), speed, axisX, axisZ)
            == Add(pos, Scale(axisZ, -speed))
  {
  }

  /** Holding left alone moves the camera along its local -x axis. */
  lemma LeftFollowsView(pos: Vec3, speed: real, axisX: Vec3, axisZ: Vec3)
    ensures Walk(pos, MoveFlags(false, false, true, false), speed, axisX, axisZ)
            == Add(pos, Scale(axisX, -speed))
  {
  }

  /**
   * Whatever keys are held, a frame's walk is the normalised heading laid
   * along the camera's axes: a straight or diagonal step covers `speed`
   * (up to the rounding of the diagonal component) and never more.
   */
  lemma {:induction false} WalkLength(pos: Vec3, m: MoveFlags, speed: real, axisX: Vec3, axisZ: Vec3)
    requires Orthonormal(axisX, axisZ)
    ensures var d := Sub(Walk(pos, m, speed, axisX, axisZ), pos);
            Dot(d, d) <= speed * speed &&
            (!Cancels(m) ==> (1.0 - 0.000000000000001) * (speed * speed) <= Dot(d, d))
  {
    WalkDisplacement(pos, m, speed, axisX, axisZ, Heading(m));
    HeadingStepLength(m, speed, axisX, axisZ);
  }

  /** How far a frame's walk moves the camera, for the heading `h` of the held flags. */
  lemma WalkDisplacement(pos: Vec3, m: MoveFlags, speed: real, axisX: Vec3, axisZ: Vec3, h: Planar)
    requires h == Heading(m)
    ensures Sub(Walk(pos, m, speed, axisX, axisZ), pos)
            == Add(Scale(axisX, -h.x * speed), Scale(axisZ, -h.z * speed))
  {
    WalkUnfolds(pos, m, speed, axisX, axisZ);
    HeadingIdleAxes(m);
    TwoAxisStep(pos, h, m.left || m.right, m.forward || m.backward, speed, axisX, axisZ);
  }

  /** `translateZ` then `translateX` by the heading, each only when its keys are held. */
  lemma TwoAxisStep(pos: Vec3, h: Planar, l: bool, f: bool, speed: real, axisX: Vec3, axisZ: Vec3)
    requires !l ==> h.x == 0.0
    requires !f ==> h.z == 0.0
    ensures var p := if f then Add(pos, Scale(axisZ, -h.z * speed)) else pos;
            Sub(if l then Add(p, Scale(axisX, -h.x * speed)) else p, pos)
            == Add(Scale(axisX, -h.x * speed), Scale(axisZ, -h.z * speed))
  {
    var zero := Vec3(0.0, 0.0, 0.0);
    if !l {
      assert Scale(axisX, -h.x * speed) == zero;
    }
    if !f {
      assert Scale(axisZ, -h.z * speed) == zero;
    }
  }

  lemma WalkUnfolds(pos: Vec3, m: MoveFlags, speed: real, axisX: Vec3, axisZ: Vec3)
    ensures var h := Heading(m);
            var p := if m.forward || m.backward then Add(pos, Scale(axisZ, -h.z * speed)) else pos;
            Walk(pos, m, speed, axisX, axisZ) == if m.left || m.right then Add(p, Scale(axisX, -h.x * speed)) else p
  {
  }

  /** `settings.movementSpeed * delta`, the distance walked in one frame along a held axis. */
  function FrameDistance(s: Settings, delta: real): real {
    s.movementSpeed * delta
  }

  /** The position at the end of `update`: collisions when limits are set, then eye height. */
  function Settle(p: Vec3, limits: Option<Limits>, height: real): (r: Vec3)
    ensures r.y == height
    ensures limits.None? ==> r.x == p.x && r.z == p.z
    ensures limits.Some? ==>
              r.x == ApplyCollisions(p, limits.value).x && r.z == ApplyCollisions(p, limits.value).z
  {
    var q := if limits.Some? then ApplyCollisions(p, limits.value) else p;
    q.(y := height)
  }

  /** The look-related state: captured touch, last touch point, pitch and yaw. */
  datatype Look = Look(touchId: Option<int>, lastX: real, lastY: real, pitch: real, yaw: real)

  /** One touch of `onMobileTouchStart`: a right-half touch claims a free look slot. */
  function StartStep(l: Look, t: Touch, half: real): Look {
    if t.clientX > half && l.touchId.None? then
      l.(touchId := Some(t.identifier), lastX := t.clientX, lastY := t.clientY)
    else l
  }

  /** `onMobileTouchStart` over a whole `changedTouches` list, in order. */
  function StartLook(l: Look, ts: seq<Touch>, half: real): (r: Look)
    ensures r.pitch == l.pitch && r.yaw == l.yaw
    decreases |ts|
  {
    if ts == [] then l else StartStep(StartLook(l, ts[..|ts| - 1], half), ts[|ts| - 1], half)
  }

  /** A captured look touch is never replaced by a later touch start. */
  lemma {:induction false} StartLookKeepsCapture(l: Look, ts: seq<Touch>, half: real)
    requires l.touchId.Some?
    ensures StartLook(l, ts, half) == l
    decreases |ts|
  {
    if ts != [] {
      StartLookKeepsCapture(l, ts[..|ts| - 1], half);
    }
  }

  /** With no touch in the right half, a touch start changes nothing. */
  lemma {:induction false} StartLookNeedsRightHalf(l: Look, ts: seq<Touch>, half: real)
    requires forall k :: 0 <= k < |ts| ==> ts[k].clientX <= half
    ensures StartLook(l, ts, half) == l
    decreases |ts|
  {
    if ts != [] {
      StartLookNeedsRightHalf(l, ts[..|ts| - 1], half);
    }
  }

  /** With the slot free, the first right-half touch is the one captured. */
  lemma {:induction false} StartLookCapturesFirst(l: Look, ts: seq<Touch>, half: real, k: int)
    requires l.touchId.None?
    requires 0 <= k < |ts| && ts[k].clientX > half
    requires forall j :: 0 <= j < k ==> ts[j].clientX <= half
    ensures StartLook(l, ts, half)
            == l.(touchId := Some(ts[k].identifier), lastX := ts[k].clientX, lastY := ts[k].clientY)
    decreases |ts|
  {
    var init := ts[..|ts| - 1];
    if k == |ts| - 1 {
      StartLookNeedsRightHalf(l, init, half);
    } else {
      StartLookCapturesFirst(l, init, half, k);
      StartLookKeepsCapture(StartLook(l, init, half), [], half);
    }
  }

  /**
   * One touch of `onMobileTouchMove`: a move of the captured touch turns
   * the view by the distance from the last point and records the new point.
   */
  function MoveStep(l: Look, t: Touch, sens: real): Look {
    if Some(t.identifier) == l.touchId then
      l.(lastX := t.clientX, lastY := t.clientY,
         yaw := Turn(l.yaw, t.clientX - l.lastX, sens),
         pitch := ClampPitch(Turn(l.pitch, t.clientY - l.lastY, sens)))
    else l
  }

  /** `onMobileTouchMove` over a whole `changedTouches` list, in order. */
  function MoveLook(l: Look, ts: seq<Touch>, sens: real): (r: Look)
    requires -HalfPi <= l.pitch <= HalfPi
    ensures r.touchId == l.touchId
    ensures -HalfPi <= r.pitch <= HalfPi
    decreases |ts|
  {
    if ts == [] then l else MoveStep(MoveLook(l, ts[..|ts| - 1], sens), ts[|ts| - 1], sens)
  }

  /** Moves of touches other than the captured one leave the look unchanged. */
  lemma {:induction false} MoveLookIgnoresOthers(l: Look, ts: seq<Touch>, sens: real)
    requires -HalfPi <= l.pitch <= HalfPi
    requires forall k :: 0 <= k < |ts| ==> Some(ts[k].identifier) != l.touchId
    ensures MoveLook(l, ts, sens) == l
    decreases |ts|
  {
    if ts != [] {
      MoveLookIgnoresOthers(l, ts[..|ts| - 1], sens);
    }
  }

  /** After a move, the last look point is the latest point of the captured touch. */
  lemma {:induction false} MoveLookTracksLatest(l: Look, ts: seq<Touch>, sens: real, k: int)
    requires -HalfPi <= l.pitch <= HalfPi
    requires 0 <= k < |ts| && Some(ts[k].identifier) == l.touchId
    requires forall j :: k < j < |ts| ==> Some(ts[j].identifier) != l.touchId
    ensures MoveLook(l, ts, sens).lastX == ts[k].clientX
    ensures MoveLook(l, ts, sens).lastY == ts[k].clientY
    decreases |ts|
  {
    if k < |ts| - 1 {
      MoveLookTracksLatest(l, ts[..|ts| - 1], sens, k);
    }
  }

  /** One touch of `onMobileTouchEnd`: the end of the captured touch frees the slot. */
  function EndStep(id: Option<int>, t: Touch): Option<int> {
    if Some(t.identifier) == id then None else id
  }

  /** `onMobileTouchEnd` over a whole `changedTouches` list, in order. */
  function EndLook(id: Option<int>, ts: seq<Touch>): (r: Option<int>)
    ensures r == id || r == None
    decreases |ts|
  {
    if ts == [] then id else EndStep(EndLook(id, ts[..|ts| - 1]), ts[|ts| - 1])
  }

  /** The slot is freed exactly when the captured touch is among the ended ones. */
  lemma {:induction false} EndLookFreesOwnTouch(id: Option<int>, ts: seq<Touch>)
    ensures EndLook(id, ts) == (if exists k :: 0 <= k < |ts| && Some(ts[k].identifier) == id
                                then None else id)
    decreases |ts|
  {
    if ts != [] {
      var init := ts[..|ts| - 1];
      EndLookFreesOwnTouch(id, init);
      if exists k :: 0 <= k < |init| && Some(init[k].identifier) == id {
        var k :| 0 <= k < |init| && Some(init[k].identifier) == id;
        assert ts[k] == init[k];
      } else if Some(ts[|ts| - 1].identifier) == id {
      } else {
        forall k | 0 <= k < |ts|
          ensures Some(ts[k].identifier) != id
        {
          if k < |init| {
            assert ts[k] == init[k];
          }
        }
      }
    }
  }

  class PlayerControls {
    const settings: Settings
    const isMobile: bool
    /** Look sensitivity: the mobile speed on touch devices, the desktop speed otherwise. */
    const sensitivity: real

    var moveState: MoveFlags
    var pitch: real
    var yaw: real
    /** `camera.rotation` (x, y, z) in the 'YXZ' order. */
    var rotation: Vec3
    /** `camera.position`. */
    var position: Vec3
    var currentWorld: int
    var collisionLimits: Option<Limits>
    var lookTouchId: Option<int>
    var lastLookX: real
    var lastLookY: real

    ghost predicate Valid()
      reads this
    {
      -HalfPi <= pitch <= HalfPi && rotation == Vec3(pitch, yaw, 0.0)
    }

    function LookState(): Look
      reads this
    {
      Look(lookTouchId, lastLookX, lastLookY, pitch, yaw)
    }

    constructor (settings: Settings, isMobile: bool, position: Vec3)
      ensures Valid()
      ensures this.settings == settings && this.isMobile == isMobile
      ensures sensitivity == if isMobile then settings.mobileCameraSpeed else settings.desktopCameraSpeed
      ensures moveState == Still && pitch == 0.0 && yaw == 0.0 && rotation == Vec3(0.0, 0.0, 0.0)
      ensures currentWorld == 1 && collisionLimits == None
      ensures lookTouchId == None && lastLookX == 0.0 && lastLookY == 0.0
      ensures this.position == position
    {
      this.settings := settings;
      this.isMobile := isMobile;
      sensitivity := if isMobile then settings.mobileCameraSpeed else settings.desktopCameraSpeed;
      moveState := Still;
      pitch, yaw := 0.0, 0.0;
      rotation := Vec3(0.0, 0.0, 0.0);
      this.position := position;
      currentWorld := 1;
      collisionLimits := None;
      lookTouchId := None;
      lastLookX, lastLookY := 0.0, 0.0;
    }

    /** A D-pad button: touchstart holds its direction, touchend releases it. */
    method OnDpad(d: Direction, pressed: bool)
      modifies this`moveState
      ensures moveState == SetFlag(old(moveState), d, pressed)
    {
      moveState := SetFlag(moveState, d, pressed);
    }

    /** `onKeyDown`; `interact` reports whether `onInteract` is called (KeyE). */
    method OnKeyDown(code: string) returns (interact: bool)
      modifies this`moveState
      ensures moveState == ApplyKey(old(moveState), code, true)
      ensures interact <==> code == "KeyE"
      ensures interact ==> moveState == old(moveState)
    {
      interact := false;
      match KeyDirection(code)
      case Some(d) =>
        moveState := SetFlag(moveState, d, true);
      case None =>
        interact := code == "KeyE";
    }

    method OnKeyUp(code: string)
      modifies this`moveState
      ensures moveState == ApplyKey(old(moveState), code, false)
    {
      match KeyDirection(code)
      case Some(d) =>
        moveState := SetFlag(moveState, d, false);
      case None =>
    }

    /**
     * `onMouseMove`; `locked` is whether the canvas holds pointer lock and
     * a missing `movementX`/`movementY` counts as 0.
     */
    method OnMouseMove(locked: bool, movementX: Option<real>, movementY: Option<real>)
      requires Valid()
      modifies this`pitch, this`yaw, this`rotation
      ensures Valid()
      ensures !locked ==> pitch == old(pitch) && yaw == old(yaw)
      ensures locked ==> yaw == Turn(old(yaw), OrZero(movementX), sensitivity)
      ensures locked ==> pitch == ClampPitch(Turn(old(pitch), OrZero(movementY), sensitivity))
    {
      if !locked {
        return;
      }
      yaw := Turn(yaw, OrZero(movementX), sensitivity);
      pitch := ClampPitch(Turn(pitch, OrZero(movementY), sensitivity));
      rotation := Vec3(pitch, yaw, 0.0);
    }

    method OnMobileTouchStart(touches: seq<Touch>, innerWidth: real)
      modifies this`lookTouchId, this`lastLookX, this`lastLookY
      ensures LookState() == StartLook(old(LookState()), touches, innerWidth / 2.0)
    {
      var i := 0;
      while i < |touches|
        invariant 0 <= i <= |touches|
        invariant LookState() == StartLook(old(LookState()), touches[..i], innerWidth / 2.0)
      {
        var t := touches[i];
        if t.clientX > innerWidth / 2.0 && lookTouchId == None {
          lookTouchId := Some(t.identifier);
          lastLookX, lastLookY := t.clientX, t.clientY;
        }
        assert touches[..i + 1][..i] == touches[..i];
        i := i + 1;
      }
      assert touches[..i] == touches;
    }

    /** The body of the `onMobileTouchMove` loop for one touch. */
    method TouchMoveStep(t: Touch)
      requires Valid()
      modifies this`lastLookX, this`lastLookY, this`pitch, this`yaw, this`rotation
      ensures Valid()
      ensures LookState() == MoveStep(old(LookState()), t, sensitivity)
    {
      if Some(t.identifier) == lookTouchId {
        var deltaX := t.clientX - lastLookX;
        var deltaY := t.clientY - lastLookY;
        lastLookX, lastLookY := t.clientX, t.clientY;
        yaw := Turn(yaw, deltaX, sensitivity);
        pitch := ClampPitch(Turn(pitch, deltaY, sensitivity));
        rotation := Vec3(pitch, yaw, 0.0);
      }
    }

    method OnMobileTouchMove(touches: seq<Touch>)
      requires Valid()
      modifies this`lastLookX, this`lastLookY, this`pitch, this`yaw, this`rotation
      ensures Valid()
      ensures LookState() == MoveLook(old(LookState()), touches, sensitivity)
    {
      var i := 0;
      while i < |touches|
        invariant 0 <= i <= |touches|
        invariant Valid()
        invariant LookState() == MoveLook(old(LookState()), touches[..i], sensitivity)
      {
        TouchMoveStep(touches[i]);
        assert touches[..i + 1][..i] == touches[..i];
        i := i + 1;
      }
      assert touches[..i] == touches;
    }

    method OnMobileTouchEnd(touches: seq<Touch>)
      modifies this`lookTouchId
      ensures lookTouchId == EndLook(old(lookTouchId), touches)
    {
      var i := 0;
      while i < |touches|
        invariant 0 <= i <= |touches|
        invariant lookTouchId == EndLook(old(lookTouchId), touches[..i])
      {
        if Some(touches[i].identifier) == lookTouchId {
          lookTouchId := None;
        }
        assert touches[..i + 1][..i] == touches[..i];
        i := i + 1;
      }
      assert touches[..i] == touches;
    }

    method SetWorld(worldId: int, limits: Option<Limits>)
      modifies this`currentWorld, this`collisionLimits
      ensures currentWorld == worldId && collisionLimits == limits
    {
      currentWorld := worldId;
      collisionLimits := limits;
    }

    method ResetRotation()
      modifies this`pitch, this`yaw, this`rotation
      ensures Valid()
      ensures pitch == 0.0 && yaw == 0.0 && rotation == Vec3(0.0, 0.0, 0.0)
    {
      pitch, yaw := 0.0, 0.0;
      rotation := Vec3(0.0, 0.0, 0.0);
    }

    /**
     * `update(delta)`: walk by `movementSpeed * delta` along the camera's
     * axes (there is no guard on `delta`), apply the collision rule when
     * limits are set, then fix the eye height.
     */
    method Update(delta: real, axisX: Vec3, axisZ: Vec3)
      modifies this`position
      ensures position == Settle(Walk(old(position), moveState, FrameDistance(settings, delta), axisX, axisZ),
                                 collisionLimits, settings.playerHeight)
      ensures position.y == settings.playerHeight
    {
      var moveSpeed := FrameDistance(settings, delta);
      var h := Heading(moveState);
      var p := position;
      if moveState.forward || moveState.backward {
        p := Add(p, Scale(axisZ, -h.z * moveSpeed));
      }
      if moveState.left || moveState.right {
        p := Add(p, Scale(axisX, -h.x * moveSpeed));
      }
      assert p == Walk(position, moveState, moveSpeed, axisX, axisZ);
      if collisionLimits.Some? {
        p := ApplyCollisions(p, collisionLimits.value);
      }
      position := p;
      position := position.(y := settings.playerHeight);
    }
  }

}
