/**
 * The camera controller: preset views around the origin, a zoom that refuses
 * rather than clamps, the set of held arrow keys and the rotation it drives,
 * and the frame loop that renders when the controls move.
 *
 * The library's conversions between a position and spherical coordinates are
 * trigonometry; the controller receives them as the functions `toSpherical`
 * and `fromSpherical` and the model states what it does to the angles.
 */
module CameraManager {
  import opened Wrappers
  import opened SceneGraph

  /** `Math.PI` as the double it is. */
  const PI: real := 3.141592653589793

  /** The angle one rotation frame turns by. */
  const rotationSpeed: real := PI / 80.0

  /** The polar angle a tilt never goes past, at either pole. */
  const polarMargin: real := 0.1

  const minZoomDistance: real := 10.0
  const maxZoomDistance: real := 100.0

  /** Spherical coordinates around the controls' target. */
  datatype Spherical = Spherical(radius: real, phi: real, theta: real)

  // ---- Held keys ----------------------------------------------------------

  const arrows: set<string> := {"ArrowLeft", "ArrowRight", "ArrowUp", "ArrowDown"}

  predicate AnyArrowHeld(keys: set<string>) {
    "ArrowLeft" in keys || "ArrowRight" in keys || "ArrowUp" in keys || "ArrowDown" in keys
  }

  /** The key set after a key-down event. */
  function PressedAfterDown(keys: set<string>, key: string): set<string> {
    if key in arrows then keys + {key} else keys
  }

  /** The key set after a key-up event. */
  function PressedAfterUp(keys: set<string>, key: string): set<string> {
    if key in arrows then keys - {key} else keys
  }

  /** Only the four arrow keys are ever held. */
  lemma HeldKeysAreArrows(keys: set<string>, key: string)
    requires keys <= arrows
    ensures PressedAfterDown(keys, key) <= arrows && PressedAfterUp(keys, key) <= arrows
  {
  }

  /** Releasing a key undoes pressing it, and any other key leaves the set as
      it is. */
  lemma ReleaseUndoesPress(keys: set<string>, key: string)
    requires key !in keys
    ensures PressedAfterUp(PressedAfterDown(keys, key), key) == keys
    ensures key !in arrows ==> PressedAfterDown(keys, key) == keys && PressedAfterUp(keys, key) == keys
  {
  }

  /** With only arrows held, some arrow is held exactly when the set is not
      empty: the rotation renders on every frame it schedules a next one. */
  lemma {:induction false} ArrowHeldIffNonEmpty(keys: set<string>)
    requires keys <= arrows
    ensures AnyArrowHeld(keys) <==> keys != {}
  {
    if keys != {} {
      var k :| k in keys;
      assert k in arrows;
    }
  }

  // ---- Rotation -----------------------------------------------------------

  function Max(a: real, b: real): real {
    if a >= b then a else b
  }

  function Min(a: real, b: real): real {
    if a <= b then a else b
  }

  function TurnLeft(s: Spherical): Spherical {
    s.(theta := s.theta - rotationSpeed)
  }

  function TurnRight(s: Spherical): Spherical {
    s.(theta := s.theta + rotationSpeed)
  }

  /** `phi = max(0.1, phi - speed)`. */
  function TiltUp(s: Spherical): Spherical {
    s.(phi := Max(polarMargin, s.phi - rotationSpeed))
  }

  /** `phi = min(PI - 0.1, phi + speed)`. */
  function TiltDown(s: Spherical): Spherical {
    s.(phi := Min(PI - polarMargin, s.phi + rotationSpeed))
  }

  /** A tilt never takes the polar angle past its margin at the pole it heads
      for, and from inside [0.1, PI - 0.1] it stays inside; turns change the
      azimuth only, tilts the polar angle only, and no nudge changes the
      radius. */
  lemma NudgesKeepPolarRange(s: Spherical)
    ensures TiltUp(s).phi >= polarMargin && TiltDown(s).phi <= PI - polarMargin
    ensures polarMargin <= s.phi <= PI - polarMargin ==>
              polarMargin <= TiltUp(s).phi <= PI - polarMargin &&
              polarMargin <= TiltDown(s).phi <= PI - polarMargin
    ensures TiltUp(s).theta == TiltDown(s).theta == s.theta
    ensures TurnLeft(s).phi == TurnRight(s).phi == s.phi
    ensures TurnLeft(s).radius == TurnRight(s).radius == TiltUp(s).radius == TiltDown(s).radius == s.radius
  {
  }

  /** A tilt moves the polar angle by at most one step, and by exactly one
      step away from the margins. */
  lemma TiltStep(s: Spherical)
    ensures s.phi - rotationSpeed >= polarMargin ==> TiltUp(s).phi == s.phi - rotationSpeed
    ensures s.phi + rotationSpeed <= PI - polarMargin ==> TiltDown(s).phi == s.phi + rotationSpeed
    ensures polarMargin <= s.phi ==> s.phi - rotationSpeed <= TiltUp(s).phi <= s.phi
    ensures s.phi <= PI - polarMargin ==> s.phi <= TiltDown(s).phi <= s.phi + rotationSpeed
  {
  }

  // ---- Presets ------------------------------------------------------------

  /** `initialDistance || 10`: an unset or zero distance falls back to 10. */
  function DefaultDistance(initialDistance: Option<real>): real {
    if initialDistance.Some? && initialDistance.value != 0.0 then initialDistance.value else 10.0
  }

  /** Where a preset view puts the camera, at distance `d` from the origin. */
  function PresetPosition(view: string, d: real): Option<Vec3> {
    if view == "front" then Some(Vec3(0.0, 0.0, d))
    else if view == "3/4-front" then Some(Vec3(d * 0.7, 0.0, d * 0.7))
    else if view == "back" then Some(Vec3(0.0, 0.0, -d))
    else if view == "3/4-back" then Some(Vec3(-d * 0.7, 0.0, -d * 0.7))
    else None
  }

  const presetViews: set<string> := {"front", "3/4-front", "back", "3/4-back"}

  /** Exactly the four named views are presets. Front and back sit at distance
      d, the three-quarter views at squared distance 0.98 d², and each back
      view mirrors its front view through the origin. */
  lemma {:induction false} PresetGeometry(view: string, d: real)
    ensures PresetPosition(view, d).Some? <==> view in presetViews
    ensures Len2(PresetPosition("front", d).value) == Len2(PresetPosition("back", d).value) == d * d
    ensures Len2(PresetPosition("3/4-front", d).value) == Len2(PresetPosition("3/4-back", d).value) == 0.98 * d * d
    ensures PresetPosition("back", d).value == Scale(PresetPosition("front", d).value, -1.0)
    ensures PresetPosition("3/4-back", d).value == Scale(PresetPosition("3/4-front", d).value, -1.0)
  {
    assert (d * 0.7) * (d * 0.7) + (d * 0.7) * (d * 0.7) == 0.98 * d * d;
    assert (-d * 0.7) * (-d * 0.7) + (-d * 0.7) * (-d * 0.7) == 0.98 * d * d;
  }

  // ---- Zoom ---------------------------------------------------------------

  function ZoomFactor(direction: string): real {
    if direction == "in" then 0.9 else 1.1
  }

  /** The new distance |p|·f lies in [10, 100], compared through squares. */
  predicate ZoomAccepted(p: Vec3, f: real) {
    minZoomDistance * minZoomDistance <= f * f * Len2(p) <= maxZoomDistance * maxZoomDistance
  }

  /** The position the zoom step writes, before `controls.update()`: scaled
      by the factor when accepted, else the same. */
  function Zoomed(p: Vec3, direction: string): Vec3 {
    var f := ZoomFactor(direction);
    if ZoomAccepted(p, f) then Scale(p, f) else p
  }

  lemma {:induction false} ScaleLen2(p: Vec3, k: real)
    ensures Len2(Scale(p, k)) == k * k * Len2(p)
  {
    calc {
      Len2(Scale(p, k));
      (p.x * k) * (p.x * k) + (p.y * k) * (p.y * k) + (p.z * k) * (p.z * k);
      { assert (p.x * k) * (p.x * k) == k * k * (p.x * p.x);
        assert (p.y * k) * (p.y * k) == k * k * (p.y * p.y);
        assert (p.z * k) * (p.z * k) == k * k * (p.z * p.z); }
      k * k * (p.x * p.x + p.y * p.y + p.z * p.z);
    }
  }

  /** An accepted zoom lands within [10, 100] and keeps the direction (the
      new position is a positive multiple of the old); a refused one leaves
      the camera where it was, which is then outside the band the zoom would
      have reached. */
  lemma {:induction false} ZoomStaysInBand(p: Vec3, direction: string)
    ensures var f := ZoomFactor(direction);
            ZoomAccepted(p, f) ==>
              Zoomed(p, direction) == Scale(p, f) && f > 0.0 &&
              minZoomDistance * minZoomDistance <= Len2(Zoomed(p, direction)) <= maxZoomDistance * maxZoomDistance
    ensures !ZoomAccepted(p, ZoomFactor(direction)) ==> Zoomed(p, direction) == p
  {
    ScaleLen2(p, ZoomFactor(direction));
  }

  /** Zooming in and then out does not come back: the two zoom steps leave
      the distance at 0.99 of where it was (when both are accepted). */
  lemma {:induction false} InThenOutShrinks(p: Vec3)
    requires ZoomAccepted(p, 0.9) && ZoomAccepted(Scale(p, 0.9), 1.1)
    ensures Zoomed(Zoomed(p, "in"), "out") == Scale(p, 0.99)
  {
    assert Zoomed(p, "in") == Scale(p, 0.9);
    assert Zoomed(Scale(p, 0.9), "out") == Scale(Scale(p, 0.9), 1.1);
  }

  /** A camera at the origin cannot zoom: its distance would be 0. */
  lemma ZoomRefusedAtOrigin(direction: string)
    ensures Zoomed(origin, direction) == origin
  {
  }

  // ---- The controls' distance clamp ---------------------------------------

  /** The controls' own distance bounds (`minDistance`, `maxDistance`). */
  const minControlsDistance: real := 40.0
  const maxControlsDistance: real := 100.0

  function ClampDistance(r: real): real {
    if r < minControlsDistance then minControlsDistance
    else if r > maxControlsDistance then maxControlsDistance
    else r
  }

  function ClampRadius(s: Spherical): Spherical {
    s.(radius := ClampDistance(s.radius))
  }

  /** What `controls.update()` does to the camera: the offset from the
      target, in spherical coordinates, has its radius clamped to the
      controls' bounds. */
  function Updated(p: Vec3, t: Vec3, toSpherical: Vec3 -> Spherical, fromSpherical: Spherical -> Vec3): Vec3 {
    Step(p, t, ClampRadius, toSpherical, fromSpherical)
  }

  /** Where a zoom leaves the camera: refused, where it was; accepted, scaled
      by the factor and then clamped by `controls.update()`. */
  function ZoomOutcome(p: Vec3, t: Vec3, direction: string,
                       toSpherical: Vec3 -> Spherical, fromSpherical: Spherical -> Vec3): Vec3 {
    if ZoomAccepted(p, ZoomFactor(direction)) then Updated(Zoomed(p, direction), t, toSpherical, fromSpherical)
    else p
  }

  /** Conversions that agree with Euclidean geometry: the radius is the
      length, converting back gives the same vector, and changing the radius
      scales the vector. */
  ghost predicate Conversions(toSpherical: Vec3 -> Spherical, fromSpherical: Spherical -> Vec3) {
    (forall v :: toSpherical(v).radius >= 0.0 && toSpherical(v).radius * toSpherical(v).radius == Len2(v)) &&
    (forall v :: fromSpherical(toSpherical(v)) == v) &&
    (forall s: Spherical, r: real :: s.radius > 0.0 ==>
       fromSpherical(s.(radius := r)) == Scale(fromSpherical(s), r / s.radius))
  }

  lemma {:induction false} AddSub(v: Vec3, t: Vec3)
    ensures Add(Sub(v, t), t) == v && Sub(Add(v, t), t) == v
  {
  }

  lemma {:induction false} SquareMono(a: real, b: real)
    requires 0.0 <= a <= b
    ensures a * a <= b * b
  {
    var aa, ab, bb := a * a, a * b, b * b;
    assert aa <= ab;
    assert ab <= bb;
  }

  lemma {:induction false} SquareLess(a: real, b: real)
    requires 0.0 <= a < b
    ensures a * a < b * b
  {
    var aa, ab, bb := a * a, a * b, b * b;
    assert aa <= ab;
    assert ab < bb;
  }

  /** A non-negative square root is unique. */
  lemma {:induction false} RootUnique(r: real, a: real)
    requires r >= 0.0 && a >= 0.0 && r * r == a * a
    ensures r == a
  {
    assert (r - a) * (r + a) == 0.0;
    if r + a > 0.0 {
      assert r - a == (r - a) * (r + a) / (r + a);
    }
  }

  /** Away from the target, an update moves the camera along the ray from
      the target to the clamped distance. */
  lemma {:induction false} UpdateScales(p: Vec3, t: Vec3, toSpherical: Vec3 -> Spherical, fromSpherical: Spherical -> Vec3)
    requires Conversions(toSpherical, fromSpherical)
    requires Len2(Sub(p, t)) > 0.0
    ensures var r := toSpherical(Sub(p, t)).radius;
            r > 0.0 && r * r == Len2(Sub(p, t)) &&
            Updated(p, t, toSpherical, fromSpherical) == Add(Scale(Sub(p, t), ClampDistance(r) / r), t)
  {
    var v := Sub(p, t);
    var sp := toSpherical(v);
    assert sp.radius >= 0.0 && sp.radius * sp.radius == Len2(v);
    assert fromSpherical(sp) == v;
    assert fromSpherical(sp.(radius := ClampDistance(sp.radius))) ==
           Scale(fromSpherical(sp), ClampDistance(sp.radius) / sp.radius);
  }

  /** After an update the camera is between 40 and 100 from the target. */
  lemma {:induction false} UpdateLandsInBand(p: Vec3, t: Vec3, toSpherical: Vec3 -> Spherical, fromSpherical: Spherical -> Vec3)
    requires Conversions(toSpherical, fromSpherical)
    requires Len2(Sub(p, t)) > 0.0
    ensures var d2 := Len2(Sub(Updated(p, t, toSpherical, fromSpherical), t));
            minControlsDistance * minControlsDistance <= d2 <= maxControlsDistance * maxControlsDistance
  {
    UpdateScales(p, t, toSpherical, fromSpherical);
    var v := Sub(p, t);
    var r := toSpherical(v).radius;
    var c := ClampDistance(r);
    AddSub(Scale(v, c / r), t);
    ScaleLen2(v, c / r);
    assert (c / r) * r == c;
    assert minControlsDistance <= c <= maxControlsDistance;
    SquareMono(minControlsDistance, c);
    SquareMono(c, maxControlsDistance);
    calc {
      Len2(Scale(v, c / r));
      (c / r) * (c / r) * (r * r);
      ((c / r) * r) * ((c / r) * r);
      c * c;
    }
  }

  /** A camera already between 40 and 100 from the target is left where it
      is. */
  lemma {:induction false} UpdateKeepsBandedCamera(p: Vec3, t: Vec3, toSpherical: Vec3 -> Spherical, fromSpherical: Spherical -> Vec3)
    requires Conversions(toSpherical, fromSpherical)
    requires minControlsDistance * minControlsDistance <= Len2(Sub(p, t)) <= maxControlsDistance * maxControlsDistance
    ensures Updated(p, t, toSpherical, fromSpherical) == p
  {
    var v := Sub(p, t);
    var sp := toSpherical(v);
    assert sp.radius >= 0.0 && sp.radius * sp.radius == Len2(v);
    if sp.radius < minControlsDistance {
      SquareLess(sp.radius, minControlsDistance);
      assert false;
    }
    if sp.radius > maxControlsDistance {
      assert false;
    }
    assert ClampRadius(sp) == sp;
    assert fromSpherical(sp) == v;
    AddSub(p, t);
  }

  /** At the controls' minimum distance, zooming in passes the [10, 100]
      test, and the update puts the camera back where it was. */
  lemma {:induction false} ZoomInAtMinimumStays(p: Vec3, toSpherical: Vec3 -> Spherical, fromSpherical: Spherical -> Vec3)
    requires Conversions(toSpherical, fromSpherical)
    requires Len2(p) == minControlsDistance * minControlsDistance
    ensures ZoomAccepted(p, ZoomFactor("in"))
    ensures ZoomOutcome(p, origin, "in", toSpherical, fromSpherical) == p
  {
    ScaleLen2(p, 0.9);
    var q := Scale(p, 0.9);
    assert Sub(q, origin) == q;
    UpdateScales(q, origin, toSpherical, fromSpherical);
    var r := toSpherical(q).radius;
    assert r * r == 1296.0;
    assert r == 36.0 by {
      assert (r - 36.0) * (r + 36.0) == r * r - 1296.0;
    }
    assert Scale(q, 40.0 / 36.0) == p;
  }

  /** A camera on the z axis closer than 40 is pushed out to 40 on the same
      side. */
  lemma {:induction false} UpdateOnAxis(z: real, toSpherical: Vec3 -> Spherical, fromSpherical: Spherical -> Vec3)
    requires Conversions(toSpherical, fromSpherical)
    requires z != 0.0 && -minControlsDistance < z < minControlsDistance
    ensures z > 0.0 ==> Updated(Vec3(0.0, 0.0, z), origin, toSpherical, fromSpherical) == Vec3(0.0, 0.0, minControlsDistance)
    ensures z < 0.0 ==> Updated(Vec3(0.0, 0.0, z), origin, toSpherical, fromSpherical) == Vec3(0.0, 0.0, -minControlsDistance)
  {
    var p := Vec3(0.0, 0.0, z);
    var a := if z > 0.0 then z else -z;
    SquareLess(0.0, a);
    var aa := a * a;
    assert aa == z * z;
    assert Sub(p, origin) == p;
    assert Len2(Sub(p, origin)) == aa;
    UpdateScales(p, origin, toSpherical, fromSpherical);
    var r := toSpherical(p).radius;
    RootUnique(r, a);
    assert ClampDistance(r) == minControlsDistance;
    var k := minControlsDistance / a;
    assert a * k == minControlsDistance;
    AddSub(Scale(p, k), origin);
  }

  // ---- The controller -------------------------------------------------------

  class CameraManager {
    var hasCamera: bool
    var hasControls: bool
    var hasRenderer: bool
    var hasScene: bool
    const toSpherical: Vec3 -> Spherical
    const fromSpherical: Spherical -> Vec3
    /** `camera.position` and `controls.target`. */
    var position: Vec3
    var target: Vec3
    var initialDistance: Option<real>
    var keysPressed: set<string>
    /** `keyboardAnimationId`, and whether the frame it names is still queued. */
    var keyboardAnimationId: Option<nat>
    var rotateQueued: bool
    var nextFrameId: nat
    /** The frame loop's `needsRender` flag and whether the loop still runs. */
    var needsRender: bool
    var frameLoopActive: bool
    var controlsDisposed: bool
    var renders: nat

    /** The constructor with `setupControls`: the controls exist, no key is
        held, and the frame loop runs. Its first frame is run at once and
        renders, because `needsRender` starts set. The controls are built on
        the camera and the renderer's canvas, so both must exist. */
    constructor (hasCamera: bool, hasRenderer: bool, hasScene: bool, position: Vec3,
                 toSpherical: Vec3 -> Spherical, fromSpherical: Spherical -> Vec3)
      requires hasCamera && hasRenderer
      ensures this.hasCamera && this.hasRenderer && this.hasScene == hasScene
      ensures hasControls && target == origin
      ensures this.position == Updated(position, origin, toSpherical, fromSpherical)
      ensures this.toSpherical == toSpherical && this.fromSpherical == fromSpherical
      ensures initialDistance.None? && keysPressed == {} && keyboardAnimationId.None? && !rotateQueued
      ensures !needsRender && frameLoopActive && !controlsDisposed && renders == 1
    {
      this.hasCamera, this.hasRenderer, this.hasScene := hasCamera, hasRenderer, hasScene;
      this.toSpherical, this.fromSpherical := toSpherical, fromSpherical;
      this.position, target := position, origin;
      hasControls := true;
      initialDistance, keysPressed, keyboardAnimationId, rotateQueued := None, {}, None, false;
      nextFrameId := 1;
      needsRender, frameLoopActive, controlsDisposed, renders := true, true, false, 0;
      // The synchronous first call of `animate`.
      new;
      AnimateFrame(false);
    }

    // -- Frame loop --

    /** The controls' `change` listener. */
    method OnControlsChange()
      modifies this`needsRender
      ensures needsRender
    {
      needsRender := true;
    }

    /** One frame of `animate`: `controls.update()` clamps the camera's
        distance, and the frame renders when the controls report a move (its
        result, `controlsMoved`) or a render is wanted, then clears the flag. */
    method AnimateFrame(controlsMoved: bool)
      modifies this`needsRender, this`renders, this`position
      ensures position == Updated(old(position), target, toSpherical, fromSpherical)
      ensures !needsRender
      ensures renders == old(renders) + if controlsMoved || old(needsRender) then 1 else 0
    {
      position := Updated(position, target, toSpherical, fromSpherical);
      if controlsMoved || needsRender {
        renders := renders + 1;
        needsRender := false;
      }
    }

    // -- Keys --

    /** `handleKeyDown`: arrows are held (starting the rotation when none is
        scheduled), '+' and '=' zoom in, '-' zooms out; nothing happens
        without a camera and controls. */
    method HandleKeyDown(key: string)
      modifies this`keysPressed, this`position, this`renders
      modifies this`keyboardAnimationId, this`rotateQueued, this`nextFrameId
      ensures !(hasCamera && hasControls) ==> unchanged(this)
      ensures hasCamera && hasControls ==> keysPressed == PressedAfterDown(old(keysPressed), key)
      ensures hasCamera && hasControls && (key == "+" || key == "=") ==>
                position == ZoomOutcome(old(position), target, "in", toSpherical, fromSpherical)
      ensures hasCamera && hasControls && key == "-" ==>
                position == ZoomOutcome(old(position), target, "out", toSpherical, fromSpherical)
      // A zoom key moves the camera and nothing else; `handleZoom` renders
      // through the frame loop, not here.
      ensures hasCamera && hasControls && key in {"+", "=", "-"} ==>
                renders == old(renders) && keyboardAnimationId == old(keyboardAnimationId) &&
                rotateQueued == old(rotateQueued) && nextFrameId == old(nextFrameId)
      // A newly held arrow with no rotation scheduled runs the first
      // rotation frame at once: one nudge, one render, and the next frame
      // queued.
      ensures hasCamera && hasControls && key in arrows && key !in old(keysPressed) &&
              old(keyboardAnimationId).None? ==>
                position == Updated(Rotated(old(position), target, keysPressed, toSpherical, fromSpherical),
                                    target, toSpherical, fromSpherical) &&
                rotateQueued && keyboardAnimationId.Some? &&
                renders == old(renders) + (if hasRenderer && hasScene then 1 else 0)
      // An arrow already held, or one pressed while a rotation frame is
      // scheduled, only joins the held set.
      ensures hasCamera && hasControls && key in arrows &&
              (key in old(keysPressed) || old(keyboardAnimationId).Some?) ==>
                position == old(position) && renders == old(renders) &&
                keyboardAnimationId == old(keyboardAnimationId) && rotateQueued == old(rotateQueued) &&
                nextFrameId == old(nextFrameId)
      ensures hasCamera && hasControls && key !in arrows && key !in {"+", "=", "-"} ==>
                unchanged(this)
    {
      if !hasControls || !hasCamera {
        return;
      }
      if key in arrows {
        if key !in keysPressed {
          keysPressed := keysPressed + {key};
          if keyboardAnimationId.None? {
            SmoothRotate();
          }
        }
      } else if key == "+" || key == "=" {
        HandleZoom("in");
      } else if key == "-" {
        HandleZoom("out");
      }
    }

    /** `handleKeyUp`: releases an arrow, with no camera check. */
    method HandleKeyUp(key: string)
      modifies this`keysPressed
      ensures keysPressed == PressedAfterUp(old(keysPressed), key)
    {
      if key in arrows {
        keysPressed := keysPressed - {key};
      }
    }

    /** One frame of `smoothRotate`: each held arrow nudges the camera in
        turn; after any nudge `controls.update()` clamps the distance and
        one render follows; the next frame is queued exactly while a key is
        held. */
    method SmoothRotate()
      modifies this`position, this`renders, this`keyboardAnimationId, this`rotateQueued, this`nextFrameId
      ensures !old(hasCamera && hasControls) ==> unchanged(this)
      ensures old(hasCamera && hasControls) ==>
                position == (if AnyArrowHeld(keysPressed)
                             then Updated(Rotated(old(position), target, keysPressed, toSpherical, fromSpherical),
                                          target, toSpherical, fromSpherical)
                             else old(position)) &&
                (rotateQueued <==> keysPressed != {}) &&
                (keyboardAnimationId.Some? <==> keysPressed != {}) &&
                renders == old(renders) + (if AnyArrowHeld(keysPressed) && hasRenderer && hasScene then 1 else 0)
    {
      if !hasControls || !hasCamera {
        return;
      }
      var moved := NudgeHeld();
      if moved {
        position := Updated(position, target, toSpherical, fromSpherical);
        if hasRenderer && hasScene {
          renders := renders + 1;
        }
      }
      if |keysPressed| > 0 {
        keyboardAnimationId, rotateQueued := Some(nextFrameId), true;
        nextFrameId := nextFrameId + 1;
      } else {
        keyboardAnimationId, rotateQueued := None, false;
      }
    }

    /** The four key tests of `smoothRotate`, in the source's order: left,
        right, up, down. */
    method NudgeHeld() returns (moved: bool)
      modifies this`position
      ensures position == Rotated(old(position), target, keysPressed, toSpherical, fromSpherical)
      ensures moved <==> AnyArrowHeld(keysPressed)
    {
      moved := false;
      if "ArrowLeft" in keysPressed {
        position := Step(position, target, TurnLeft, toSpherical, fromSpherical);
        moved := true;
      }
      if "ArrowRight" in keysPressed {
        position := Step(position, target, TurnRight, toSpherical, fromSpherical);
        moved := true;
      }
      if "ArrowUp" in keysPressed {
        position := Step(position, target, TiltUp, toSpherical, fromSpherical);
        moved := true;
      }
      if "ArrowDown" in keysPressed {
        position := Step(position, target, TiltDown, toSpherical, fromSpherical);
        moved := true;
      }
    }

    // -- Views and zoom --

    /** `setCameraView`: a preset aims the controls at the origin and puts
        the camera at its position around the origin, which
        `controls.update()` then clamps to the controls' distance bounds; an
        unknown view, or a missing camera or controls, changes nothing. */
    method SetCameraView(view: string)
      modifies this`position, this`target
      ensures !(hasCamera && hasControls) || PresetPosition(view, DefaultDistance(initialDistance)).None? ==>
                position == old(position) && target == old(target)
      ensures hasCamera && hasControls && PresetPosition(view, DefaultDistance(initialDistance)).Some? ==>
                position == Updated(PresetPosition(view, DefaultDistance(initialDistance)).value, origin,
                                    toSpherical, fromSpherical) &&
                target == origin
    {
      if !hasCamera || !hasControls {
        return;
      }
      var newPosition := PresetPosition(view, DefaultDistance(initialDistance));
      if newPosition.None? {
        return;
      }
      target := origin;
      position := Updated(newPosition.value, origin, toSpherical, fromSpherical);
    }

    /** `handleZoom`: scale the camera's distance by the factor, or refuse;
        an accepted zoom is followed by `controls.update()`. */
    method HandleZoom(direction: string)
      modifies this`position
      ensures hasCamera && hasControls ==> position == ZoomOutcome(old(position), target, direction, toSpherical, fromSpherical)
      ensures !(hasCamera && hasControls) ==> position == old(position)
    {
      if !hasCamera || !hasControls {
        return;
      }
      var zoomFactor := ZoomFactor(direction);
      if !ZoomAccepted(position, zoomFactor) {
        return;
      }
      position := Updated(Scale(position, zoomFactor), target, toSpherical, fromSpherical);
    }

    method SetInitialDistance(distance: Option<real>)
      modifies this`initialDistance
      ensures initialDistance == distance
    {
      initialDistance := distance;
    }

    /** `updateCameraPosition`: the box diagonal `size` (the length of the
        box's size vector) becomes the initial distance, and the camera
        moves onto the z axis at that distance. */
    method UpdateCameraPosition(box: Box, size: real) returns (sizeOut: real, center: Vec3, distance: real)
      requires size >= 0.0 && size * size == Len2(BoxSize(box))
      modifies this`initialDistance, this`position
      ensures sizeOut == size && center == BoxCenter(box) && distance == size
      ensures initialDistance == Some(size) && position == Vec3(0.0, 0.0, size)
    {
      sizeOut := size;
      center := BoxCenter(box);
      distance := size * 1.0;
      initialDistance := Some(distance);
      position := Vec3(0.0, 0.0, distance);
    }

    /** `dispose`: the queued frames are cancelled and the controls disposed;
        the stored animation id is not cleared. */
    method Dispose()
      modifies this`rotateQueued, this`frameLoopActive, this`controlsDisposed
      ensures !rotateQueued && !frameLoopActive
      ensures controlsDisposed == (old(controlsDisposed) || hasControls)
    {
      rotateQueued, frameLoopActive := false, false;
      if hasControls {
        controlsDisposed := true;
      }
    }
  }

  /** One nudge: to spherical coordinates around the target, change them,
      and back. */
  function Step(p: Vec3, t: Vec3, change: Spherical -> Spherical,
                toSpherical: Vec3 -> Spherical, fromSpherical: Spherical -> Vec3): Vec3
  {
    Add(fromSpherical(change(toSpherical(Sub(p, t)))), t)
  }

  /** The position after one rotation frame with `keys` held: the four
      nudges in the source's order, each from the position the previous one
      left. */
  function Rotated(p: Vec3, t: Vec3, keys: set<string>,
                   toSpherical: Vec3 -> Spherical, fromSpherical: Spherical -> Vec3): Vec3
  {
    var p1 := if "ArrowLeft" in keys then Step(p, t, TurnLeft, toSpherical, fromSpherical) else p;
    var p2 := if "ArrowRight" in keys then Step(p1, t, TurnRight, toSpherical, fromSpherical) else p1;
    var p3 := if "ArrowUp" in keys then Step(p2, t, TiltUp, toSpherical, fromSpherical) else p2;
    if "ArrowDown" in keys then Step(p3, t, TiltDown, toSpherical, fromSpherical) else p3
  }
}
