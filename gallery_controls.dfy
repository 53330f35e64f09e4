// ControlsManager of the gallery revision (js/controls.js): keys and a
// pointer-lock mouse look on desktop, a virtual joystick (left half of the
// screen) and a camera drag (right half) on touch devices, and the
// per-frame walk clamped to the corridor.

module GalleryControls {
  import opened Common

  /** `moveSpeed`, metres per second. */
  const MoveSpeed: real := 4.0

  /** `pointerSpeed`. */
  const PointerSpeed: real := 1.0

  /** Radians per pixel of mouse movement under pointer lock. */
  const MouseSpeed: real := 0.002 * PointerSpeed

  /** Radians per pixel of camera drag on a touch device. */
  const DragSpeed: real := 0.005 * PointerSpeed

  /** `joystick.maxRadius`, in pixels. */
  const JoystickRadius: real := 50.0

  /** A normalised stick component must pass this to set a move flag. */
  const StickThreshold: real := 0.3

  /** Frames longer than this many seconds are skipped by `update`. */
  const MaxFrameTime: real := 0.1

  /** The fixed eye height, in metres. */
  const EyeHeight: real := 1.6

  /** The corridor walls are at |x| = 2.5 and it runs from z = 10 down to z = -18. */
  const WallX: real := 2.5
  const EntranceZ: real := 10.0
  const EndZ: real := -18.0

  /** A pair of screen or normalised device coordinates. */
  datatype Point = Point(x: real, y: real)

  /**
   * Pixel coordinates to the [-1, 1] coordinates of the raycaster: x
   * grows to the right and y grows upwards.
   */
  function Ndc(clientX: real, clientY: real, width: real, height: real): Point
    requires width > 0.0 && height > 0.0
  {
    Point(clientX / width * 2.0 - 1.0, -(clientY / height) * 2.0 + 1.0)
  }

  /** Every point of the window maps into the unit square; the centre maps to (0, 0). */
  lemma NdcInSquare(clientX: real, clientY: real, width: real, height: real)
    requires width > 0.0 && height > 0.0
    requires 0.0 <= clientX <= width && 0.0 <= clientY <= height
    ensures -1.0 <= Ndc(clientX, clientY, width, height).x <= 1.0
    ensures -1.0 <= Ndc(clientX, clientY, width, height).y <= 1.0
    ensures Ndc(width / 2.0, height / 2.0, width, height) == Point(0.0, 0.0)
  {
  }

  /**
   * The joystick slot or the camera-drag slot: whether it holds a touch,
   * the identifier of the last touch it claimed (kept after release) and
   * the point it measures from.
   */
  datatype Slot = Slot(active: bool, touchId: Option<int>, origin: Point)

  const FreeSlot: Slot := Slot(false, None, Point(0.0, 0.0))

  /**
   * Whether one stick component `v` (pixels from the origin) passes the
   * threshold, with `d2` the squared drag length. The handle follows the
   * finger up to 50 px, so inside the radius the component is `v / 50`;
   * beyond it the handle sits on the rim and the component is `v / d`.
   * `v / d > 0.3` is written without the square root as `v > 0` and
   * `v * v > 0.09 * d2`.
   */
  predicate StickPasses(v: real, d2: real): (b: bool)
    ensures b ==> v > 0.0
  {
    if d2 <= JoystickRadius * JoystickRadius then v > StickThreshold * JoystickRadius
    else v > 0.0 && v * v > StickThreshold * StickThreshold * d2
  }

  /**
   * The move flags a joystick drag of (dx, dy) pixels sets. Screen y
   * grows downwards, so dragging down sets forward.
   */
  function StickFlags(dx: real, dy: real): (m: MoveFlags)
    ensures !(m.forward && m.backward) && !(m.left && m.right)
  {
    var d2 := dx * dx + dy * dy;
    MoveFlags(StickPasses(dy, d2), StickPasses(-dy, d2), StickPasses(-dx, d2), StickPasses(dx, d2))
  }

  /** A drag of at most 15 px (the 0.3 dead zone of a 50 px stick) sets no flag. */
  lemma StickDeadZone(dx: real, dy: real)
    requires dx * dx + dy * dy <= 225.0
    ensures StickFlags(dx, dy) == Still
  {
  }

  /**
   * A drag straight up by more than 15 px sets backward and nothing else;
   * `GalleryWalk` then moves along the camera's -z axis, the way it looks.
   */
  lemma StickUpIsBackward(dy: real)
    requires dy < -15.0
    ensures StickFlags(0.0, dy) == MoveFlags(false, true, false, false)
  {
    if dy * dy > 2500.0 {
      assert dy * dy > 0.09 * (dy * dy);
    }
  }

  /** As written, walking with that flag moves along the camera's -z axis, the way it looks. */
  lemma StickUpFollowsView(dy: real, pos: Vec3, speed: real, axisX: Vec3, axisZ: Vec3)
    requires dy < -15.0
    ensures GalleryWalk(pos, StickFlags(0.0, dy), speed, axisX, axisZ)
            == Add(Add(pos, Scale(axisX, 0.0)), Scale(axisZ, -speed))
  {
    StickUpIsBackward(dy);
  }

  /** A drag straight down by more than 15 px sets forward and nothing else. */
  lemma StickDownIsForward(dy: real)
    requires dy > 15.0
    ensures StickFlags(0.0, dy) == MoveFlags(true, false, false, false)
  {
    if dy * dy > 2500.0 {
      assert dy * dy > 0.09 * (dy * dy);
    }
  }

  /**
   * The state the touch handlers read and write: both slots, the move
   * flags, pitch and yaw, the normalised last touch point and the two
   * tutorial flags.
   */
  datatype TouchState = TouchState(joystick: Slot, drag: Slot, move: MoveFlags,
                                   pitch: real, yaw: real, lastTouch: Point,
                                   hasMoved: bool, hasLooked: bool)

  /** An active slot knows its touch. */
  predicate SlotOk(s: Slot) {
    s.active ==> s.touchId.Some?
  }

  /** On a touch device the player walks only while the joystick is held. */
  predicate WalksOnlyWhenHeld(s: TouchState) {
    !s.joystick.active ==> s.move == Still
  }

  /**
   * One touch of `onTouchStart`: record it as the last touch, then a
   * touch in the left half claims the joystick if it is free, and
   * otherwise a touch in the right half claims the camera drag if it is
   * free.
   */
  function StartStep(s: TouchState, t: Touch, width: real, height: real): TouchState
    requires width > 0.0 && height > 0.0
  {
    var s1 := s.(lastTouch := Ndc(t.clientX, t.clientY, width, height));
    var here := Point(t.clientX, t.clientY);
    if t.clientX < width / 2.0 && !s.joystick.active then
      s1.(joystick := Slot(true, Some(t.identifier), here))
    else if t.clientX >= width / 2.0 && !s.drag.active then
      s1.(drag := Slot(true, Some(t.identifier), here))
    else s1
  }

  /** `onTouchStart` over a whole `changedTouches` list, in order. */
  function Start(s: TouchState, ts: seq<Touch>, width: real, height: real): (r: TouchState)
    requires width > 0.0 && height > 0.0
    ensures r.move == s.move && r.pitch == s.pitch && r.yaw == s.yaw
    ensures r.hasMoved == s.hasMoved && r.hasLooked == s.hasLooked
    ensures s.joystick.active ==> r.joystick == s.joystick
    ensures s.drag.active ==> r.drag == s.drag
    ensures SlotOk(s.joystick) ==> SlotOk(r.joystick)
    ensures SlotOk(s.drag) ==> SlotOk(r.drag)
    ensures WalksOnlyWhenHeld(s) ==> WalksOnlyWhenHeld(r)
    decreases |ts|
  {
    if ts == [] then s
    else StartStep(Start(s, ts[..|ts| - 1], width, height), ts[|ts| - 1], width, height)
  }

  /** With the joystick free, the first touch in the left half is the one it claims. */
  lemma {:induction false} StartClaimsFirstLeft(s: TouchState, ts: seq<Touch>, width: real, height: real, k: int)
    requires width > 0.0 && height > 0.0
    requires !s.joystick.active
    requires 0 <= k < |ts| && ts[k].clientX < width / 2.0
    requires forall j :: 0 <= j < k ==> ts[j].clientX >= width / 2.0
    ensures Start(s, ts, width, height).joystick
            == Slot(true, Some(ts[k].identifier), Point(ts[k].clientX, ts[k].clientY))
    decreases |ts|
  {
    var init := ts[..|ts| - 1];
    if k == |ts| - 1 {
      StartLeavesJoystick(s, init, width, height);
    } else {
      StartClaimsFirstLeft(s, init, width, height, k);
    }
  }

  /** Touches all in the right half leave the joystick as it was. */
  lemma {:induction false} StartLeavesJoystick(s: TouchState, ts: seq<Touch>, width: real, height: real)
    requires width > 0.0 && height > 0.0
    requires forall j :: 0 <= j < |ts| ==> ts[j].clientX >= width / 2.0
    ensures Start(s, ts, width, height).joystick == s.joystick
    decreases |ts|
  {
    if ts != [] {
      StartLeavesJoystick(s, ts[..|ts| - 1], width, height);
    }
  }

  /** With the camera drag free, the first touch in the right half is the one it claims. */
  lemma {:induction false} StartClaimsFirstRight(s: TouchState, ts: seq<Touch>, width: real, height: real, k: int)
    requires width > 0.0 && height > 0.0
    requires !s.drag.active
    requires 0 <= k < |ts| && ts[k].clientX >= width / 2.0
    requires forall j :: 0 <= j < k ==> ts[j].clientX < width / 2.0
    ensures Start(s, ts, width, height).drag
            == Slot(true, Some(ts[k].identifier), Point(ts[k].clientX, ts[k].clientY))
    decreases |ts|
  {
    var init := ts[..|ts| - 1];
    if k == |ts| - 1 {
      StartLeavesDrag(s, init, width, height);
    } else {
      StartClaimsFirstRight(s, init, width, height, k);
    }
  }

  /** Touches all in the left half leave the camera drag as it was. */
  lemma {:induction false} StartLeavesDrag(s: TouchState, ts: seq<Touch>, width: real, height: real)
    requires width > 0.0 && height > 0.0
    requires forall j :: 0 <= j < |ts| ==> ts[j].clientX < width / 2.0
    ensures Start(s, ts, width, height).drag == s.drag
    decreases |ts|
  {
    if ts != [] {
      StartLeavesDrag(s, ts[..|ts| - 1], width, height);
    }
  }

  /** After a touch start, the last touch point is that of the last touch in the list. */
  lemma StartRecordsLastTouch(s: TouchState, ts: seq<Touch>, width: real, height: real)
    requires width > 0.0 && height > 0.0
    requires ts != []
    ensures Start(s, ts, width, height).lastTouch
            == Ndc(ts[|ts| - 1].clientX, ts[|ts| - 1].clientY, width, height)
  {
  }

  /** The joystick half of one `onTouchMove` touch: a move of its touch sets the flags from the drag. */
  function StickStep(s: TouchState, t: Touch): (r: TouchState)
    ensures r.drag == s.drag && r.pitch == s.pitch && r.yaw == s.yaw && r.hasLooked == s.hasLooked
  {
    if s.joystick.active && Some(t.identifier) == s.joystick.touchId then
      s.(move := StickFlags(t.clientX - s.joystick.origin.x, t.clientY - s.joystick.origin.y),
         hasMoved := true)
    else s
  }

  /**
   * The camera-drag half: a move of the drag's touch turns the view by the
   * distance from its origin, clamps the pitch and moves the origin to
   * the new point.
   */
  function DragStep(s: TouchState, t: Touch): (r: TouchState)
    ensures r.joystick == s.joystick && r.move == s.move && r.hasMoved == s.hasMoved
  {
    if s.drag.active && Some(t.identifier) == s.drag.touchId then
      s.(yaw := Turn(s.yaw, t.clientX - s.drag.origin.x, DragSpeed),
         pitch := ClampPitch(Turn(s.pitch, t.clientY - s.drag.origin.y, DragSpeed)),
         drag := s.drag.(origin := Point(t.clientX, t.clientY)),
         hasLooked := true)
    else s
  }

  /** One touch of `onTouchMove`: the joystick half, then the camera-drag half. */
  function MoveStep(s: TouchState, t: Touch): TouchState {
    DragStep(StickStep(s, t), t)
  }

  /** `onTouchMove` over a whole `changedTouches` list, in order. */
  function Move(s: TouchState, ts: seq<Touch>): (r: TouchState)
    requires -HalfPi <= s.pitch <= HalfPi
    ensures -HalfPi <= r.pitch <= HalfPi
    ensures r.joystick == s.joystick && r.lastTouch == s.lastTouch
    ensures r.drag.active == s.drag.active && r.drag.touchId == s.drag.touchId
    ensures !s.joystick.active ==> r.move == s.move && r.hasMoved == s.hasMoved
    ensures !s.drag.active ==> r.pitch == s.pitch && r.yaw == s.yaw && r.hasLooked == s.hasLooked
    ensures !(r.move.forward && r.move.backward) || r.move == s.move
    decreases |ts|
  {
    if ts == [] then s else MoveStep(Move(s, ts[..|ts| - 1]), ts[|ts| - 1])
  }

  /**
   * The move flags are those of the joystick touch's latest position,
   * measured from where the joystick was claimed, and the move is recorded
   * for the tutorial.
   */
  lemma {:induction false} MoveSetsStick(s: TouchState, ts: seq<Touch>, k: int)
    requires -HalfPi <= s.pitch <= HalfPi
    requires s.joystick.active
    requires 0 <= k < |ts| && Some(ts[k].identifier) == s.joystick.touchId
    requires forall j :: k < j < |ts| ==> Some(ts[j].identifier) != s.joystick.touchId
    ensures Move(s, ts).move
            == StickFlags(ts[k].clientX - s.joystick.origin.x, ts[k].clientY - s.joystick.origin.y)
    ensures Move(s, ts).hasMoved
    decreases |ts|
  {
    if k < |ts| - 1 {
      MoveSetsStick(s, ts[..|ts| - 1], k);
    }
  }

  /**
   * The yaw turns by the whole distance the drag origin has travelled,
   * however the moves are split and whatever other touches come between:
   * each drag move turns by its step from the previous origin, and the
   * steps add up.
   */
  lemma {:induction false} MoveYawFollowsDrag(s: TouchState, ts: seq<Touch>)
    requires -HalfPi <= s.pitch <= HalfPi
    ensures Move(s, ts).yaw == Turn(s.yaw, Move(s, ts).drag.origin.x - s.drag.origin.x, DragSpeed)
    decreases |ts|
  {
    if ts != [] {
      MoveYawFollowsDrag(s, ts[..|ts| - 1]);
    }
  }

  /** The drag origin is the latest point of the drag's touch, and the look is recorded. */
  lemma {:induction false} MoveDragTracksLatest(s: TouchState, ts: seq<Touch>, k: int)
    requires -HalfPi <= s.pitch <= HalfPi
    requires s.drag.active
    requires 0 <= k < |ts| && Some(ts[k].identifier) == s.drag.touchId
    requires forall j :: k < j < |ts| ==> Some(ts[j].identifier) != s.drag.touchId
    ensures Move(s, ts).drag.origin == Point(ts[k].clientX, ts[k].clientY)
    ensures Move(s, ts).hasLooked
    decreases |ts|
  {
    if k < |ts| - 1 {
      MoveDragTracksLatest(s, ts[..|ts| - 1], k);
    }
  }

  /**
   * A single move of the drag's touch turns yaw and pitch by its distance
   * from the drag origin, clamps the pitch and moves the origin there.
   */
  lemma MoveTurnsByDrag(s: TouchState, t: Touch)
    requires -HalfPi <= s.pitch <= HalfPi
    requires s.drag.active && Some(t.identifier) == s.drag.touchId
    ensures Move(s, [t]).yaw == Turn(s.yaw, t.clientX - s.drag.origin.x, DragSpeed)
    ensures Move(s, [t]).pitch == ClampPitch(Turn(s.pitch, t.clientY - s.drag.origin.y, DragSpeed))
    ensures Move(s, [t]).drag == s.drag.(origin := Point(t.clientX, t.clientY))
    ensures Move(s, [t]).hasLooked
  {
    assert [t][..0] == [];
    assert Move(s, [t]) == DragStep(StickStep(s, t), t);
    StickThenDrag(s, t);
  }

  lemma StickThenDrag(s: TouchState, t: Touch)
    requires s.drag.active && Some(t.identifier) == s.drag.touchId
    ensures DragStep(StickStep(s, t), t).yaw == Turn(s.yaw, t.clientX - s.drag.origin.x, DragSpeed)
    ensures DragStep(StickStep(s, t), t).pitch
            == ClampPitch(Turn(s.pitch, t.clientY - s.drag.origin.y, DragSpeed))
    ensures DragStep(StickStep(s, t), t).drag == s.drag.(origin := Point(t.clientX, t.clientY))
    ensures DragStep(StickStep(s, t), t).hasLooked
  {
    DragStepTurns(StickStep(s, t), t);
  }

  lemma DragStepTurns(s: TouchState, t: Touch)
    requires s.drag.active && Some(t.identifier) == s.drag.touchId
    ensures DragStep(s, t).yaw == Turn(s.yaw, t.clientX - s.drag.origin.x, DragSpeed)
    ensures DragStep(s, t).pitch == ClampPitch(Turn(s.pitch, t.clientY - s.drag.origin.y, DragSpeed))
    ensures DragStep(s, t).drag == s.drag.(origin := Point(t.clientX, t.clientY))
    ensures DragStep(s, t).hasLooked
  {
  }

  /**
   * One touch of `onTouchEnd`: the end of the joystick's touch releases
   * the joystick and clears every move flag; the end of the camera drag's
   * touch releases the drag. Identifiers are not cleared.
   */
  function EndStep(s: TouchState, t: Touch): TouchState {
    var s1 :=
      if Some(t.identifier) == s.joystick.touchId then
        s.(joystick := s.joystick.(active := false), move := Still)
      else s;
    if Some(t.identifier) == s1.drag.touchId then s1.(drag := s1.drag.(active := false)) else s1
  }

  /** `onTouchEnd` over a whole `changedTouches` list, in order. */
  function End(s: TouchState, ts: seq<Touch>): (r: TouchState)
    ensures r.joystick.touchId == s.joystick.touchId && r.drag.touchId == s.drag.touchId
    ensures r.pitch == s.pitch && r.yaw == s.yaw && r.lastTouch == s.lastTouch
    ensures r.hasMoved == s.hasMoved && r.hasLooked == s.hasLooked
    ensures SlotOk(s.joystick) ==> SlotOk(r.joystick)
    ensures SlotOk(s.drag) ==> SlotOk(r.drag)
    ensures WalksOnlyWhenHeld(s) ==> WalksOnlyWhenHeld(r)
    decreases |ts|
  {
    if ts == [] then s else EndStep(End(s, ts[..|ts| - 1]), ts[|ts| - 1])
  }

  /** Some touch of the list carries the identifier `id`. */
  predicate Ends(ts: seq<Touch>, id: Option<int>) {
    exists k :: 0 <= k < |ts| && Some(ts[k].identifier) == id
  }

  /**
   * The joystick is released and all movement stops exactly when its
   * touch is among the ended ones; otherwise joystick and flags are kept.
   */
  lemma {:induction false} EndReleasesJoystick(s: TouchState, ts: seq<Touch>)
    ensures Ends(ts, s.joystick.touchId) ==>
              !End(s, ts).joystick.active && End(s, ts).move == Still
    ensures !Ends(ts, s.joystick.touchId) ==>
              End(s, ts).joystick == s.joystick && End(s, ts).move == s.move
    decreases |ts|
  {
    if ts != [] {
      var init := ts[..|ts| - 1];
      EndReleasesJoystick(s, init);
      if Ends(init, s.joystick.touchId) {
        var k :| 0 <= k < |init| && Some(init[k].identifier) == s.joystick.touchId;
        assert ts[k] == init[k];
      } else if Some(ts[|ts| - 1].identifier) == s.joystick.touchId {
      } else {
        forall k | 0 <= k < |ts|
          ensures Some(ts[k].identifier) != s.joystick.touchId
        {
          if k < |init| {
            assert ts[k] == init[k];
          }
        }
      }
    }
  }

  /** The camera drag is released exactly when its touch is among the ended ones. */
  lemma {:induction false} EndReleasesDrag(s: TouchState, ts: seq<Touch>)
    ensures Ends(ts, s.drag.touchId) ==> !End(s, ts).drag.active
    ensures !Ends(ts, s.drag.touchId) ==> End(s, ts).drag == s.drag
    decreases |ts|
  {
    if ts != [] {
      var init := ts[..|ts| - 1];
      EndReleasesDrag(s, init);
      if Ends(init, s.drag.touchId) {
        var k :| 0 <= k < |init| && Some(init[k].identifier) == s.drag.touchId;
        assert ts[k] == init[k];
      } else if Some(ts[|ts| - 1].identifier) == s.drag.touchId {
      } else {
        forall k | 0 <= k < |ts|
          ensures Some(ts[k].identifier) != s.drag.touchId
        {
          if k < |init| {
            assert ts[k] == init[k];
          }
        }
      }
    }
  }

  /**
   * The two translate calls of `update`: `translateX(velocity.x)` then
   * `translateZ(velocity.z)`, where each velocity component is
   * `direction * speed` when one of its keys is held and 0 otherwise.
   * `axisX` and `axisZ` are the camera's local axes in world space.
   */
  function GalleryWalk(pos: Vec3, m: MoveFlags, speed: real, axisX: Vec3, axisZ: Vec3): (r: Vec3)
    ensures m == Still ==> r == pos
  {
    var h := Heading(m);
    var vx := if m.left || m.right then h.x * speed else 0.0;
    var vz := if m.forward || m.backward then h.z * speed else 0.0;
    Add(Add(pos, Scale(axisX, vx)), Scale(axisZ, vz))
  }

  /**
   * The step's length is right though its sign is not: laid along
   * orthonormal camera axes, a straight or diagonal step covers `speed`
   * (up to the rounding of the diagonal component) and never more.
   */
  lemma {:induction false} GalleryWalkLength(pos: Vec3, m: MoveFlags, speed: real, axisX: Vec3, axisZ: Vec3)
    requires Orthonormal(axisX, axisZ)
    ensures var d := Sub(GalleryWalk(pos, m, speed, axisX, axisZ), pos);
            Dot(d, d) <= speed * speed &&
            (!Cancels(m) ==> (1.0 - 0.000000000000001) * (speed * speed) <= Dot(d, d))
  {
    GalleryWalkDisplacement(pos, m, speed, axisX, axisZ, Heading(m));
    HeadingForwardStepLength(m, speed, axisX, axisZ);
  }

  lemma {:induction false} HeadingForwardStepLength(m: MoveFlags, speed: real, u: Vec3, v: Vec3)
    requires Orthonormal(u, v)
    ensures var d := Add(Scale(u, Heading(m).x * speed), Scale(v, Heading(m).z * speed));
            Dot(d, d) <= speed * speed &&
            (!Cancels(m) ==> (1.0 - 0.000000000000001) * (speed * speed) <= Dot(d, d))
  {
    HeadingLength(m);
    ForwardStepLength(Heading(m), speed, u, v);
  }

  /** `PlanarStepLength` for a step along +heading, the sign this revision uses. */
  lemma {:induction false} ForwardStepLength(h: Planar, speed: real, u: Vec3, v: Vec3)
    requires Orthonormal(u, v)
    ensures var d := Add(Scale(u, h.x * speed), Scale(v, h.z * speed));
            (LengthSq(h) <= 1.0 ==> Dot(d, d) <= speed * speed) &&
            (1.0 - 0.000000000000001 <= LengthSq(h) ==>
               (1.0 - 0.000000000000001) * (speed * speed) <= Dot(d, d))
  {
    var a, b := h.x * speed, h.z * speed;
    assert a * a + b * b == LengthSq(h) * (speed * speed);
    assert speed * speed >= 0.0;
    StepBounds(u, v, a, b, LengthSq(h), speed * speed);
  }

  /** How far a frame's walk moves the camera, for the heading `h` of the held flags. */
  lemma GalleryWalkDisplacement(pos: Vec3, m: MoveFlags, speed: real, axisX: Vec3, axisZ: Vec3, h: Planar)
    requires h == Heading(m)
    ensures Sub(GalleryWalk(pos, m, speed, axisX, axisZ), pos)
            == Add(Scale(axisX, h.x * speed), Scale(axisZ, h.z * speed))
  {
    GalleryWalkUnfolds(pos, m, speed, axisX, axisZ);
    HeadingIdleAxes(m);
    GatedHeading(pos, h, m.left || m.right, m.forward || m.backward, speed, axisX, axisZ);
  }

  lemma GalleryWalkUnfolds(pos: Vec3, m: MoveFlags, speed: real, axisX: Vec3, axisZ: Vec3)
    ensures var h := Heading(m);
            GalleryWalk(pos, m, speed, axisX, axisZ)
            == Add(Add(pos, Scale(axisX, if m.left || m.right then h.x * speed else 0.0)),
                   Scale(axisZ, if m.forward || m.backward then h.z * speed else 0.0))
  {
  }

  lemma GatedHeading(pos: Vec3, h: Planar, l: bool, f: bool, speed: real, axisX: Vec3, axisZ: Vec3)
    requires !l ==> h.x == 0.0
    requires !f ==> h.z == 0.0
    ensures Sub(Add(Add(pos, Scale(axisX, if l then h.x * speed else 0.0)),
                    Scale(axisZ, if f then h.z * speed else 0.0)), pos)
            == Add(Scale(axisX, h.x * speed), Scale(axisZ, h.z * speed))
  {
    GatedSteps(pos, axisX, axisZ, h.x * speed, h.z * speed, l, f);
  }

  /**
   * The collision of `update`: x into [-2.5, 2.5], then z into
   * [-18, 10], each by the source's pair of `if`s. y is not touched.
   */
  function Corridor(p: Vec3): (r: Vec3)
    ensures -WallX <= r.x <= WallX && EndZ <= r.z <= EntranceZ && r.y == p.y
    ensures -WallX <= p.x <= WallX ==> r.x == p.x
    ensures EndZ <= p.z <= EntranceZ ==> r.z == p.z
    ensures p.x < -WallX ==> r.x == -WallX
    ensures p.x > WallX ==> r.x == WallX
    ensures p.z > EntranceZ ==> r.z == EntranceZ
    ensures p.z < EndZ ==> r.z == EndZ
  {
    var x := if p.x < -WallX then -WallX else p.x;
    var x' := if x > WallX then WallX else x;
    var z := if p.z > EntranceZ then EntranceZ else p.z;
    var z' := if z < EndZ then EndZ else z;
    Vec3(x', p.y, z')
  }

  lemma CorridorIdempotent(p: Vec3)
    ensures Corridor(Corridor(p)) == Corridor(p)
  {
  }

  /** The position after one accepted frame of `dt` seconds. */
  function Step(pos: Vec3, m: MoveFlags, dt: real, axisX: Vec3, axisZ: Vec3): (r: Vec3)
    ensures r.y == EyeHeight
    ensures -WallX <= r.x <= WallX && EndZ <= r.z <= EntranceZ
  {
    Corridor(GalleryWalk(pos, m, MoveSpeed * dt, axisX, axisZ)).(y := EyeHeight)
  }

  /** The pair of `if`s per axis at the end of `update`, in their order. */
  method ClampToCorridor(w: Vec3) returns (p: Vec3)
    ensures p == Corridor(w)
  {
    p := w;
    if p.x < -WallX {
      p := p.(x := -WallX);
    }
    if p.x > WallX {
      p := p.(x := WallX);
    }
    if p.z > EntranceZ {
      p := p.(z := EntranceZ);
    }
    if p.z < EndZ {
      p := p.(z := EndZ);
    }
  }

  /** Standing still inside the corridor at eye height, a frame moves nothing. */
  lemma StillStays(pos: Vec3, dt: real, axisX: Vec3, axisZ: Vec3)
    requires -WallX <= pos.x <= WallX && EndZ <= pos.z <= EntranceZ && pos.y == EyeHeight
    ensures Step(pos, Still, dt, axisX, axisZ) == pos
  {
  }

  /** The camera's start, at the corridor entrance, and its unrotated local axes. */
  const Entrance: Vec3 := Vec3(0.0, EyeHeight, EntranceZ)
  const UnitX: Vec3 := Vec3(1.0, 0.0, 0.0)
  const UnitZ: Vec3 := Vec3(0.0, 0.0, 1.0)

  /**
   * As written, holding forward moves the camera along its local +z axis,
   * away from where it looks (-z): at the entrance, facing down the
   * corridor, forward is stopped by the entrance clamp and backward walks
   * into the corridor.
   */
  lemma ForwardBacksAway(dt: real)
    requires 0.0 < dt <= MaxFrameTime
    ensures Step(Entrance, MoveFlags(true, false, false, false), dt, UnitX, UnitZ) == Entrance
    ensures Step(Entrance, MoveFlags(false, true, false, false), dt, UnitX, UnitZ).z < EntranceZ
  {
  }

  /** As written, holding left moves the camera along its local +x axis, to its right. */
  lemma LeftGoesRight(pos: Vec3, speed: real, axisX: Vec3, axisZ: Vec3)
    ensures GalleryWalk(pos, MoveFlags(false, false, true, false), speed, axisX, axisZ)
            == Add(Add(pos, Scale(axisX, speed)), Scale(axisZ, 0.0))
  {
  }

  /** As written, a joystick drag to the right sets `right`, which walks along -x, to the left. */
  lemma StickRightGoesLeft(dx: real, pos: Vec3, speed: real, axisX: Vec3, axisZ: Vec3)
    requires dx > 15.0
    ensures StickFlags(dx, 0.0) == MoveFlags(false, false, false, true)
    ensures GalleryWalk(pos, StickFlags(dx, 0.0), speed, axisX, axisZ)
            == Add(Add(pos, Scale(axisX, -speed)), Scale(axisZ, 0.0))
  {
    if dx * dx > 2500.0 {
      assert dx * dx > 0.09 * (dx * dx);
    }
  }

  /**
   * The intended walk: both translations negated, as the forest
   * revision's `update` does, so forward follows the view.
   */
  function IntendedWalk(pos: Vec3, m: MoveFlags, speed: real, axisX: Vec3, axisZ: Vec3): (r: Vec3)
    ensures m == Still ==> r == pos
  {
    GalleryWalk(pos, m, -speed, axisX, axisZ)
  }

  /**
   * The intended stick: a drag up (negative screen y) sets forward, so
   * that, with the walk corrected, pushing the stick up still walks the
   * way the camera looks.
   */
  function IntendedStickFlags(dx: real, dy: real): (m: MoveFlags)
    ensures !(m.forward && m.backward) && !(m.left && m.right)
  {
    StickFlags(dx, -dy)
  }

  /** The intended frame: the corrected walk, then the same clamp and eye height. */
  function IntendedStep(pos: Vec3, m: MoveFlags, dt: real, axisX: Vec3, axisZ: Vec3): (r: Vec3)
    ensures r.y == EyeHeight
    ensures -WallX <= r.x <= WallX && EndZ <= r.z <= EntranceZ
  {
    Corridor(IntendedWalk(pos, m, MoveSpeed * dt, axisX, axisZ)).(y := EyeHeight)
  }

  /** Corrected, forward walks along the view and left to the left. */
  lemma IntendedFollowsView(pos: Vec3, speed: real, axisX: Vec3, axisZ: Vec3)
    ensures IntendedWalk(pos, MoveFlags(true, false, false, false), speed, axisX, axisZ)
            == Add(Add(pos, Scale(axisX, 0.0)), Scale(axisZ, -speed))
    ensures IntendedWalk(pos, MoveFlags(false, false, true, false), speed, axisX, axisZ)
            == Add(Add(pos, Scale(axisX, -speed)), Scale(axisZ, 0.0))
  {
  }

  /** Corrected, forward at the entrance walks into the corridor. */
  lemma IntendedForwardEnters(dt: real)
    requires 0.0 < dt <= MaxFrameTime
    ensures IntendedStep(Entrance, MoveFlags(true, false, false, false), dt, UnitX, UnitZ).z < EntranceZ
  {
  }

  /** Corrected, a joystick drag to the right walks to the right. */
  lemma IntendedStickRightGoesRight(dx: real, pos: Vec3, speed: real, axisX: Vec3, axisZ: Vec3)
    requires dx > 15.0
    ensures IntendedWalk(pos, IntendedStickFlags(dx, 0.0), speed, axisX, axisZ)
            == Add(Add(pos, Scale(axisX, speed)), Scale(axisZ, 0.0))
  {
    StickRightGoesLeft(dx, pos, speed, axisX, axisZ);
  }

  /**
   * The correction leaves the joystick's vertical axis as it already
   * behaves: for every vertical drag, the corrected stick and walk move
   * the camera exactly where the written ones do.
   */
  lemma IntendedKeepsStickVertical(dy: real, pos: Vec3, speed: real, axisX: Vec3, axisZ: Vec3)
    ensures IntendedWalk(pos, IntendedStickFlags(0.0, dy), speed, axisX, axisZ)
            == GalleryWalk(pos, StickFlags(0.0, dy), speed, axisX, axisZ)
  {
    var m := StickFlags(0.0, dy);
    assert !m.left && !m.right;
    assert IntendedStickFlags(0.0, dy) == m.(forward := m.backward, backward := m.forward);
  }

  class ControlsManager {
    const isMobile: bool

    /** `move`. */
    var move: MoveFlags
    var joystick: Slot
    /** `cameraDrag`. */
    var drag: Slot
    /** `lastTouchCoords` and `mouseCoords`, both normalised. */
    var lastTouch: Point
    var mouse: Point
    /** `euler.x` and `euler.y`, read back from the camera quaternion by each look handler. */
    var pitch: real
    var yaw: real
    /** The field `isPointerLocked`; it hides the method of the same name. */
    var isPointerLocked: bool
    /** `camera.position`. */
    var position: Vec3
    /** `tutorialState`. */
    var hasMoved: bool
    var hasLooked: bool

    ghost predicate Valid()
      reads this
    {
      -HalfPi <= pitch <= HalfPi && SlotOk(joystick) && SlotOk(drag)
      && (isMobile ==> WalksOnlyWhenHeld(Touches()))
    }

    function Touches(): TouchState
      reads this
    {
      TouchState(joystick, drag, move, pitch, yaw, lastTouch, hasMoved, hasLooked)
    }

    /** The constructor; `position` is where the scene put the camera. */
    constructor (isMobile: bool, position: Vec3)
      ensures Valid()
      ensures this.isMobile == isMobile && this.position == position
      ensures move == Still && joystick == FreeSlot && drag == FreeSlot
      ensures lastTouch == Point(0.0, 0.0) && mouse == Point(0.0, 0.0)
      ensures pitch == 0.0 && yaw == 0.0 && !isPointerLocked
      ensures !hasMoved && !hasLooked
    {
      this.isMobile := isMobile;
      this.position := position;
      move := Still;
      joystick, drag := FreeSlot, FreeSlot;
      lastTouch, mouse := Point(0.0, 0.0), Point(0.0, 0.0);
      pitch, yaw := 0.0, 0.0;
      isPointerLocked := false;
      hasMoved, hasLooked := false, false;
    }

    /** `onKeyDown`, registered on desktop only: any key counts as having moved. */
    method OnKeyDown(code: string)
      requires !isMobile
      modifies this`move, this`hasMoved
      ensures move == ApplyKey(old(move), code, true)
      ensures hasMoved
    {
      move := ApplyKey(move, code, true);
      hasMoved := true;
    }

    /** `onKeyUp`, registered on desktop only. */
    method OnKeyUp(code: string)
      requires !isMobile
      modifies this`move
      ensures move == ApplyKey(old(move), code, false)
    {
      move := ApplyKey(move, code, false);
    }

    /**
     * `onMouseMove`, registered on desktop only: always record the
     * normalised pointer; under pointer lock turn the view (a missing
     * `movementX`/`movementY` counts as 0) and mark the look step done.
     */
    method OnMouseMove(clientX: real, clientY: real, width: real, height: real,
                       movementX: Option<real>, movementY: Option<real>)
      requires !isMobile && Valid()
      requires width > 0.0 && height > 0.0
      modifies this`mouse, this`pitch, this`yaw, this`hasLooked
      ensures Valid()
      ensures mouse == Ndc(clientX, clientY, width, height)
      ensures !isPointerLocked ==> pitch == old(pitch) && yaw == old(yaw) && hasLooked == old(hasLooked)
      ensures isPointerLocked ==> yaw == Turn(old(yaw), OrZero(movementX), MouseSpeed)
      ensures isPointerLocked ==> pitch == ClampPitch(Turn(old(pitch), OrZero(movementY), MouseSpeed))
      ensures isPointerLocked ==> hasLooked
    {
      mouse := Ndc(clientX, clientY, width, height);
      if !isPointerLocked {
        return;
      }
      yaw := Turn(yaw, OrZero(movementX), MouseSpeed);
      pitch := ClampPitch(Turn(pitch, OrZero(movementY), MouseSpeed));
      hasLooked := true;
    }

    /** `onPointerLockChange`: locked exactly when the canvas is the lock element. */
    method OnPointerLockChange(canvasHasLock: bool)
      modifies this`isPointerLocked
      ensures isPointerLocked == canvasHasLock
    {
      isPointerLocked := canvasHasLock;
    }

    /** `onMouseDown`, registered on desktop only: record the normalised click point. */
    method OnMouseDown(clientX: real, clientY: real, width: real, height: real)
      requires !isMobile
      requires width > 0.0 && height > 0.0
      modifies this`mouse
      ensures mouse == Ndc(clientX, clientY, width, height)
    {
      mouse := Ndc(clientX, clientY, width, height);
    }

    /** `onTouchStart`, registered on touch devices only. */
    method OnTouchStart(touches: seq<Touch>, width: real, height: real)
      requires isMobile && Valid()
      requires width > 0.0 && height > 0.0
      modifies this`joystick, this`drag, this`lastTouch
      ensures Valid()
      ensures Touches() == Start(old(Touches()), touches, width, height)
    {
      var i := 0;
      while i < |touches|
        invariant 0 <= i <= |touches|
        invariant Touches() == Start(old(Touches()), touches[..i], width, height)
      {
        var t := touches[i];
        lastTouch := Ndc(t.clientX, t.clientY, width, height);
        if t.clientX < width / 2.0 && !joystick.active {
          joystick := Slot(true, Some(t.identifier), Point(t.clientX, t.clientY));
        } else if t.clientX >= width / 2.0 && !drag.active {
          drag := Slot(true, Some(t.identifier), Point(t.clientX, t.clientY));
        }
        assert touches[..i + 1][..i] == touches[..i];
        i := i + 1;
      }
      assert touches[..i] == touches;
    }

    /** The body of the `onTouchMove` loop for one touch. */
    method TouchMoveStep(t: Touch)
      modifies this`move, this`hasMoved, this`pitch, this`yaw, this`drag, this`hasLooked
      ensures Touches() == MoveStep(old(Touches()), t)
    {
      if joystick.active && Some(t.identifier) == joystick.touchId {
        move := StickFlags(t.clientX - joystick.origin.x, t.clientY - joystick.origin.y);
        hasMoved := true;
      }
      if drag.active && Some(t.identifier) == drag.touchId {
        yaw := Turn(yaw, t.clientX - drag.origin.x, DragSpeed);
        pitch := ClampPitch(Turn(pitch, t.clientY - drag.origin.y, DragSpeed));
        drag := drag.(origin := Point(t.clientX, t.clientY));
        hasLooked := true;
      }
    }

    /** `onTouchMove`, registered on touch devices only. */
    method OnTouchMove(touches: seq<Touch>)
      requires isMobile && Valid()
      modifies this`move, this`hasMoved, this`pitch, this`yaw, this`drag, this`hasLooked
      ensures Valid()
      ensures Touches() == Move(old(Touches()), touches)
    {
      var i := 0;
      while i < |touches|
        invariant 0 <= i <= |touches|
        invariant -HalfPi <= old(pitch) <= HalfPi
        invariant Touches() == Move(old(Touches()), touches[..i])
      {
        TouchMoveStep(touches[i]);
        assert touches[..i + 1][..i] == touches[..i];
        i := i + 1;
      }
      assert touches[..i] == touches;
    }

    /** `onTouchEnd`, registered on touch devices only. */
    method OnTouchEnd(touches: seq<Touch>)
      requires isMobile && Valid()
      modifies this`joystick, this`drag, this`move
      ensures Valid()
      ensures Touches() == End(old(Touches()), touches)
    {
      var i := 0;
      while i < |touches|
        invariant 0 <= i <= |touches|
        invariant Touches() == End(old(Touches()), touches[..i])
      {
        var t := touches[i];
        if Some(t.identifier) == joystick.touchId {
          joystick := joystick.(active := false);
          move := Still;
        }
        if Some(t.identifier) == drag.touchId {
          drag := drag.(active := false);
        }
        assert touches[..i + 1][..i] == touches[..i];
        i := i + 1;
      }
      assert touches[..i] == touches;
    }

    /**
     * `update(deltaTime)`: a frame longer than 0.1 s is skipped; otherwise
     * walk `4 * dt` metres per held axis, clamp to the corridor and fix
     * the eye height.
     */
    method Update(dt: real, axisX: Vec3, axisZ: Vec3)
      requires Valid()
      modifies this`position
      ensures Valid()
      ensures dt > MaxFrameTime ==> position == old(position)
      ensures dt <= MaxFrameTime ==> position == Step(old(position), move, dt, axisX, axisZ)
    {
      if dt > MaxFrameTime {
        return;
      }
      var w := GalleryWalk(position, move, MoveSpeed * dt, axisX, axisZ);
      var p := ClampToCorridor(w);
      position := p.(y := EyeHeight);
    }

    /** `lockPointer`: the pointer lock is requested on desktop only. */
    method LockPointer() returns (requested: bool)
      ensures requested <==> !isMobile
    {
      requested := !isMobile;
    }

    /** `unlockPointer`: the pointer lock is released on desktop only. */
    method UnlockPointer() returns (released: bool)
      ensures released <==> !isMobile
    {
      released := !isMobile;
    }
  }

}
