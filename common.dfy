// Values shared by both revisions of the walking demo: optional values,
// 3-D points, axis-aligned boxes, the four walking directions and the
// pitch clamp applied by every look handler.

module Common {

  datatype Option<T> = None | Some(value: T)

  /** A point or displacement in world space (metres). */
  datatype Vec3 = Vec3(x: real, y: real, z: real)

  function Add(a: Vec3, b: Vec3): Vec3 {
    Vec3(a.x + b.x, a.y + b.y, a.z + b.z)
  }

  function Scale(v: Vec3, k: real): Vec3 {
    Vec3(v.x * k, v.y * k, v.z * k)
  }

  /**
   * An axis-aligned box given by centre and full size, the box that
   * `Box3.setFromObject` yields for an unrotated `BoxGeometry` mesh.
   */
  datatype Box = Box(center: Vec3, size: Vec3)

  function MinCorner(b: Box): Vec3 {
    Vec3(b.center.x - b.size.x / 2.0, b.center.y - b.size.y / 2.0, b.center.z - b.size.z / 2.0)
  }

  function MaxCorner(b: Box): Vec3 {
    Vec3(b.center.x + b.size.x / 2.0, b.center.y + b.size.y / 2.0, b.center.z + b.size.z / 2.0)
  }

  /** `Box3.containsPoint`: the bounds are inclusive on every axis. */
  predicate Contains(b: Box, p: Vec3) {
    var lo, hi := MinCorner(b), MaxCorner(b);
    lo.x <= p.x <= hi.x && lo.y <= p.y <= hi.y && lo.z <= p.z <= hi.z
  }

  lemma ContainsCentre(b: Box)
    requires b.size.x >= 0.0 && b.size.y >= 0.0 && b.size.z >= 0.0
    ensures Contains(b, b.center)
  {
  }

  /** Math.PI / 2; only its sign matters to the model. */
  const HalfPi: real := 1.5707963267948966

  /** Math.max(-PI/2, Math.min(PI/2, v)), the pitch clamp of both revisions. */
  function ClampPitch(v: real): (r: real)
    ensures -HalfPi <= r <= HalfPi
    ensures -HalfPi <= v <= HalfPi ==> r == v
    ensures v < -HalfPi ==> r == -HalfPi
    ensures v > HalfPi ==> r == HalfPi
  {
    if HalfPi < v then HalfPi else if v < -HalfPi then -HalfPi else v
  }

  lemma ClampPitchIdempotent(v: real)
    ensures ClampPitch(ClampPitch(v)) == ClampPitch(v)
  {
  }

  /** An angle after a pointer or touch movement of `delta` pixels: `angle -= delta * sens`. */
  function Turn(angle: real, delta: real, sens: real): real {
    angle - delta * sens
  }

  /** `value || 0` for an optional number. */
  function OrZero(v: Option<real>): (r: real)
    ensures v.Some? ==> r == v.value
    ensures v.None? ==> r == 0.0
  {
    if v.Some? then v.value else 0.0
  }

  /** The four walking directions named by the move flags. */
  datatype Direction = Forward | Backward | Left | Right

  datatype MoveFlags = MoveFlags(forward: bool, backward: bool, left: bool, right: bool)

  const Still: MoveFlags := MoveFlags(false, false, false, false)

  function Flag(m: MoveFlags, d: Direction): bool {
    match d
    case Forward => m.forward
    case Backward => m.backward
    case Left => m.left
    case Right => m.right
  }

  /** The flags with the one for `d` set to `v`. */
  function SetFlag(m: MoveFlags, d: Direction, v: bool): (r: MoveFlags)
    ensures Flag(r, d) == v
    ensures forall e: Direction :: e != d ==> Flag(r, e) == Flag(m, e)
  {
    match d
    case Forward => m.(forward := v)
    case Backward => m.(backward := v)
    case Left => m.(left := v)
    case Right => m.(right := v)
  }

  /**
   * The `switch (event.code)` shared by the key handlers of both
   * revisions: arrows and WASD name a direction, any other code none.
   */
  function KeyDirection(code: string): (r: Option<Direction>)
    ensures r == Some(Forward) <==> code == "ArrowUp" || code == "KeyW"
    ensures r == Some(Left) <==> code == "ArrowLeft" || code == "KeyA"
    ensures r == Some(Backward) <==> code == "ArrowDown" || code == "KeyS"
    ensures r == Some(Right) <==> code == "ArrowRight" || code == "KeyD"
  {
    if code == "ArrowUp" || code == "KeyW" then Some(Forward)
    else if code == "ArrowLeft" || code == "KeyA" then Some(Left)
    else if code == "ArrowDown" || code == "KeyS" then Some(Backward)
    else if code == "ArrowRight" || code == "KeyD" then Some(Right)
    else None
  }

  /** The flags after a key event: its direction set to `pressed`, if any. */
  function ApplyKey(m: MoveFlags, code: string, pressed: bool): (r: MoveFlags)
    ensures KeyDirection(code).None? ==> r == m
    ensures KeyDirection(code).Some? ==> r == SetFlag(m, KeyDirection(code).value, pressed)
  {
    match KeyDirection(code)
    case None => m
    case Some(d) => SetFlag(m, d, pressed)
  }

  /** Pressing and then releasing the same key restores the flag it names. */
  lemma PressReleaseRestores(m: MoveFlags, code: string)
    requires KeyDirection(code).Some?
    requires !Flag(m, KeyDirection(code).value)
    ensures ApplyKey(ApplyKey(m, code, true), code, false) == m
  {
    var d := KeyDirection(code).value;
    var r := ApplyKey(ApplyKey(m, code, true), code, false);
    assert forall e: Direction :: Flag(r, e) == Flag(m, e);
    assert Flag(r, Forward) == Flag(m, Forward) && Flag(r, Backward) == Flag(m, Backward);
    assert Flag(r, Left) == Flag(m, Left) && Flag(r, Right) == Flag(m, Right);
  }

  /** A direction in the camera's horizontal plane: x to the left, z forward. */
  datatype Planar = Planar(x: real, z: real)

  /**
   * The component `Vector3.normalize` gives a diagonal: it multiplies by
   * 1 / length, and 1 divided by the double nearest sqrt(2) is the double
   * 0.7071067811865475, a little under the exact 1/sqrt(2).
   */
  const Diagonal: real := 0.7071067811865475

  /**
   * `direction.z = forward - backward`, `direction.x = left - right`,
   * then `direction.normalize()`: a unit vector, or zero when the flags
   * cancel out.
   */
  function Heading(m: MoveFlags): Planar {
    var x := (if m.left then 1.0 else 0.0) - (if m.right then 1.0 else 0.0);
    var z := (if m.forward then 1.0 else 0.0) - (if m.backward then 1.0 else 0.0);
    if x != 0.0 && z != 0.0 then
      Planar(if x > 0.0 then Diagonal else -Diagonal, if z > 0.0 then Diagonal else -Diagonal)
    else Planar(x, z)
  }

  /**
   * Each axis of the heading points the way of the one key held on it and
   * is zero when both or neither are held; no component exceeds 1.
   */
  lemma HeadingSigns(m: MoveFlags)
    ensures Heading(m).x > 0.0 <==> m.left && !m.right
    ensures Heading(m).x < 0.0 <==> m.right && !m.left
    ensures Heading(m).z > 0.0 <==> m.forward && !m.backward
    ensures Heading(m).z < 0.0 <==> m.backward && !m.forward
    ensures -1.0 <= Heading(m).x <= 1.0 && -1.0 <= Heading(m).z <= 1.0
  {
  }

  /** An axis with neither of its keys held contributes nothing to the heading. */
  lemma HeadingIdleAxes(m: MoveFlags)
    ensures !(m.left || m.right) ==> Heading(m).x == 0.0
    ensures !(m.forward || m.backward) ==> Heading(m).z == 0.0
  {
  }

  function LengthSq(h: Planar): real {
    h.x * h.x + h.z * h.z
  }

  /** The flags cancel out on both axes: no key or stick direction survives. */
  predicate Cancels(m: MoveFlags) {
    m.left == m.right && m.forward == m.backward
  }

  /**
   * The heading is normalised: zero when the flags cancel, otherwise of
   * length 1 up to the rounding of `Diagonal`, and never longer than 1,
   * so a diagonal step is no longer than a straight one.
   */
  lemma HeadingLength(m: MoveFlags)
    ensures Cancels(m) ==> Heading(m) == Planar(0.0, 0.0)
    ensures !Cancels(m) ==> 1.0 - 0.000000000000001 <= LengthSq(Heading(m)) <= 1.0
    ensures !Cancels(m) && m.left != m.right && m.forward != m.backward ==>
              LengthSq(Heading(m)) < 1.0 && Heading(m).x * Heading(m).x == Heading(m).z * Heading(m).z
  {
    assert 2.0 * Diagonal * Diagonal < 1.0;
    assert 1.0 - 0.000000000000001 <= 2.0 * Diagonal * Diagonal;
  }

  function Sub(a: Vec3, b: Vec3): Vec3 {
    Vec3(a.x - b.x, a.y - b.y, a.z - b.z)
  }

  function Dot(a: Vec3, b: Vec3): real {
    a.x * b.x + a.y * b.y + a.z * b.z
  }

  /** Translating along `u` and then `v`, each by its amount only when used, an unused amount being 0. */
  lemma GatedSteps(pos: Vec3, u: Vec3, v: Vec3, a: real, b: real, useA: bool, useB: bool)
    requires !useA ==> a == 0.0
    requires !useB ==> b == 0.0
    ensures Sub(Add(Add(pos, Scale(u, if useA then a else 0.0)), Scale(v, if useB then b else 0.0)), pos)
            == Add(Scale(u, a), Scale(v, b))
  {
    var zero := Vec3(0.0, 0.0, 0.0);
    if !useA {
      assert Scale(u, a) == zero;
    }
    if !useB {
      assert Scale(v, b) == zero;
    }
  }

  /** Two camera axes of unit length at right angles, as a rotation matrix's columns are. */
  predicate Orthonormal(u: Vec3, v: Vec3) {
    Dot(u, u) == 1.0 && Dot(v, v) == 1.0 && Dot(u, v) == 0.0
  }

  /** The squared length of a step `a` along `u` and `b` along `v`, for orthonormal axes. */
  lemma {:induction false} StepLengthSq(u: Vec3, v: Vec3, a: real, b: real)
    requires Orthonormal(u, v)
    ensures Dot(Add(Scale(u, a), Scale(v, b)), Add(Scale(u, a), Scale(v, b))) == a * a + b * b
  {
    var w := Add(Scale(u, a), Scale(v, b));
    assert w.x * w.x == a * a * (u.x * u.x) + 2.0 * a * b * (u.x * v.x) + b * b * (v.x * v.x);
    assert w.y * w.y == a * a * (u.y * u.y) + 2.0 * a * b * (u.y * v.y) + b * b * (v.y * v.y);
    assert w.z * w.z == a * a * (u.z * u.z) + 2.0 * a * b * (u.z * v.z) + b * b * (v.z * v.z);
    calc {
      Dot(w, w);
      a * a * Dot(u, u) + 2.0 * a * b * Dot(u, v) + b * b * Dot(v, v);
      a * a + b * b;
    }
  }

  /**
   * A heading scaled by `speed` and laid along orthonormal axes moves
   * `speed` in every direction (up to the rounding of `Diagonal`) and
   * never more.
   */
  lemma {:induction false} HeadingStepLength(m: MoveFlags, speed: real, u: Vec3, v: Vec3)
    requires Orthonormal(u, v)
    ensures var d := Add(Scale(u, -Heading(m).x * speed), Scale(v, -Heading(m).z * speed));
            Dot(d, d) <= speed * speed &&
            (!Cancels(m) ==> (1.0 - 0.000000000000001) * (speed * speed) <= Dot(d, d))
  {
    HeadingLength(m);
    PlanarStepLength(Heading(m), speed, u, v);
  }

  lemma {:induction false} PlanarStepLength(h: Planar, speed: real, u: Vec3, v: Vec3)
    requires Orthonormal(u, v)
    ensures var d := Add(Scale(u, -h.x * speed), Scale(v, -h.z * speed));
            (LengthSq(h) <= 1.0 ==> Dot(d, d) <= speed * speed) &&
            (1.0 - 0.000000000000001 <= LengthSq(h) ==>
               (1.0 - 0.000000000000001) * (speed * speed) <= Dot(d, d))
  {
    var d := Add(Scale(u, -h.x * speed), Scale(v, -h.z * speed));
    StepLengthSq(u, v, -h.x * speed, -h.z * speed);
    ScaledSquares(h.x, h.z, speed);
    var l, s2 := LengthSq(h), speed * speed;
    assert Dot(d, d) == l * s2;
    assert s2 >= 0.0;
    BoundsScale(l, s2);
  }

  /** The bounds on a step's squared length that follow from those on the heading's. */
  lemma {:induction false} StepBounds(u: Vec3, v: Vec3, a: real, b: real, l: real, s2: real)
    requires Orthonormal(u, v)
    requires a * a + b * b == l * s2 && s2 >= 0.0
    ensures var d := Add(Scale(u, a), Scale(v, b));
            (l <= 1.0 ==> Dot(d, d) <= s2) &&
            (1.0 - 0.000000000000001 <= l ==> (1.0 - 0.000000000000001) * s2 <= Dot(d, d))
  {
    StepLengthSq(u, v, a, b);
    BoundsScale(l, s2);
  }

  lemma ScaledSquares(x: real, z: real, s: real)
    ensures (-x * s) * (-x * s) + (-z * s) * (-z * s) == (x * x + z * z) * (s * s)
  {
  }

  lemma BoundsScale(l: real, s2: real)
    requires s2 >= 0.0
    ensures l <= 1.0 ==> l * s2 <= s2
    ensures 1.0 - 0.000000000000001 <= l ==> (1.0 - 0.000000000000001) * s2 <= l * s2
  {
  }

  /** A touch point of a `changedTouches` list. */
  datatype Touch = Touch(identifier: int, clientX: real, clientY: real)
}
