/** The bookkeeping state machine of `OrbitCamera` (orbitCamera.h, orbitCamera.cpp).
    Each operation that changes the camera is a method of the class `OrbitCamera`,
    specified by a function on `CameraState` values (a snapshot of every field);
    the properties of the camera are the contracts of those functions. */
module OrbitCameras {
  import opened VecMath
  import opened LinAlg

  /** `OrbitCamera::Status_t`. */
  datatype Status = OK | ERROR

  /** `OrbitCamera::ControlConfig`, a one-bit `invertY` flag. */
  datatype ControlConfig = ControlConfig(invertY: bool)

  const MouseSensitivityInit: real := 0.23
  const InitialOrbitDist: real := 10.0
  /** `static_cast<float>(std::numbers::pi)`: the single-precision value of pi. */
  const FloatPi: real := 3.1415927410125732421875

  /** Every field of an `OrbitCamera`: those declared in the header, the three the
      implementation file uses besides (`viewOrbitRotMat`, `viewPivotOffsetMat`,
      `panVector`), and `pivotSet`, which records whether the live pivot has ever
      been assigned (it is indeterminate before that). */
  datatype CameraState = CameraState(
    viewMat: Mat34,
    orbitDist: real,
    orbitPivotWS: Vec3,
    targetOrbitPivotWS: Vec3,
    controlConfig: ControlConfig,
    currMouseX: real,
    currMouseY: real,
    prevMouseX: real,
    prevMouseY: real,
    mouseSensitivity: real,
    lmbDown: bool,
    rmbDown: bool,
    isActive: bool,
    viewOrbitRotMat: Mat34,
    viewPivotOffsetMat: Mat34,
    panVector: Vec3,
    pivotSet: bool)

  /** Once assigned, the live pivot is always the origin. */
  predicate PivotKnown(s: CameraState)
  {
    s.pivotSet ==> s.orbitPivotWS == Zero3
  }

  /** One button latch as `update` advances it: set on a low-to-high edge, cleared
      on a high-to-low edge, otherwise kept. Afterwards it always equals the input. */
  function Latch(down: bool, pressed: bool): (r: bool)
    ensures r == pressed
  {
    var afterPress := if !down && pressed then true else down;
    if afterPress && !pressed then false else afterPress
  }

  /** The camera position on the orbit: `pivot + zAxis * dist`, coordinate by
      coordinate. */
  function OrbitPosition(pivot: Vec3, rot: Mat34, dist: real): (p: Vec3)
    ensures forall i :: 0 <= i < 3 ==> p[i] == pivot[i] + rot[2][i] * dist
  {
    ScaleAt(Axis(rot, 2), dist);
    AddAt(pivot, Scale(Axis(rot, 2), dist));
    Add(pivot, Scale(Axis(rot, 2), dist))
  }

  /** A position displaced by `lr` along the x axis and then by `ud` along the y axis. */
  function Strafed(pos: Vec3, rot: Mat34, lr: real, ud: real): (p: Vec3)
    ensures forall i :: 0 <= i < 3 ==> p[i] == pos[i] + rot[0][i] * lr + rot[1][i] * ud
  {
    ScaleAt(Axis(rot, 0), lr);
    ScaleAt(Axis(rot, 1), ud);
    AddAt(pos, Scale(Axis(rot, 0), lr));
    AddAt(Add(pos, Scale(Axis(rot, 0), lr)), Scale(Axis(rot, 1), ud));
    Add(Add(pos, Scale(Axis(rot, 0), lr)), Scale(Axis(rot, 1), ud))
  }

  /** The left/right strafe: the lateral delta, plus the horizontal pointer delta
      while the left button is held. */
  function StrafeLR(translationDelta: Vec3, dx: real, lmbHeld: bool): (lr: real)
    ensures lmbHeld ==> lr == translationDelta[0] + dx
    ensures !lmbHeld ==> lr == translationDelta[0]
  {
    var amount := translationDelta[0];
    if lmbHeld then amount + dx else amount
  }

  /** The up/down strafe: the vertical delta, minus the vertical pointer delta while
      the left button is held (screen y grows downwards). */
  function StrafeUD(translationDelta: Vec3, dy: real, lmbHeld: bool): (ud: real)
    ensures lmbHeld ==> ud == translationDelta[1] - dy
    ensures !lmbHeld ==> ud == translationDelta[1]
  {
    var amount := translationDelta[1];
    if lmbHeld then amount - dy else amount
  }

  /** The sensitivity-scaled pointer delta along one screen axis. It is zero exactly
      when the pointer has not moved or the sensitivity is zero. */
  function PointerDelta(curr: real, prev: real, sensitivity: real): (d: real)
    ensures d == 0.0 <==> curr == prev || sensitivity == 0.0
  {
    (curr - prev) * sensitivity
  }

  /** The camera position after the strafe of one `update`: the orbit position around
      `pivot` at distance `dist` along the (not yet rotated) z axis, moved along x by
      the left/right amount and along y by the up/down amount. */
  function StrafedPosition(pivot: Vec3, rot: Mat34, dist: real, dx: real, dy: real, lmbHeld: bool, translationDelta: Vec3): Vec3
  {
    Strafed(OrbitPosition(pivot, rot, dist), rot, StrafeLR(translationDelta, dx, lmbHeld), StrafeUD(translationDelta, dy, lmbHeld))
  }

  /** The x/y pair of `rot` is orthonormal: both unit length and perpendicular. */
  predicate OrthonormalPair(x: Vec3, y: Vec3)
  {
    Dot(x, x) == 1.0 && Dot(y, y) == 1.0 && Dot(x, y) == 0.0
  }

  /** The RMB turn as orbitCamera.cpp writes it: both assignments go through the row
      views, so the new y axis is computed from the ALREADY turned x axis. The z axis
      and the translation column are kept. */
  function RotatedInPlace(rot: Mat34, c: real, sn: real): (r: Mat34)
    ensures Axis(r, 0) == Add(Scale(Axis(rot, 0), c), Scale(Axis(rot, 1), sn))
    ensures Axis(r, 1) == Add(Scale(Axis(r, 0), -sn), Scale(Axis(rot, 1), c))
    ensures r[2] == rot[2] && r[0][3] == rot[0][3] && r[1][3] == rot[1][3]
  {
    var m := SetAxis(rot, 0, Add(Scale(Axis(rot, 0), c), Scale(Axis(rot, 1), sn)));
    SetAxis(m, 1, Add(Scale(Axis(m, 0), -sn), Scale(Axis(m, 1), c)))
  }

  /** The x and y axes of the identity frame are an orthonormal pair. */
  lemma IdentityPairOrthonormal()
    ensures OrthonormalPair(Axis(IdentityRows(), 0), Axis(IdentityRows(), 1))
  {
    assert Axis(IdentityRows(), 0) == [1.0, 0.0, 0.0] && Axis(IdentityRows(), 1) == [0.0, 1.0, 0.0];
    DotOfDisplays(1.0, 0.0, 0.0, 1.0, 0.0, 0.0);
    DotOfDisplays(0.0, 1.0, 0.0, 0.0, 1.0, 0.0);
    DotOfDisplays(1.0, 0.0, 0.0, 0.0, 1.0, 0.0);
  }

  /** The x axis after a quarter turn of the identity frame is the old y axis. */
  lemma InPlaceQuarterTurnX()
    ensures Axis(RotatedInPlace(IdentityRows(), 0.0, 1.0), 0) == [0.0, 1.0, 0.0]
  {
  }

  /** As written, the y axis after a quarter turn of the identity frame is computed
      from the turned x axis and comes out as minus the new x axis. */
  lemma InPlaceQuarterTurnY()
    ensures Axis(RotatedInPlace(IdentityRows(), 0.0, 1.0), 1) == [0.0, -1.0, 0.0]
  {
  }

  /** A quarter turn (cosine 0, sine 1, and 0*0 + 1*1 == 1) of the identity frame as
      written collapses its orthonormal pair: the new y axis is minus the new x axis,
      so the two are no longer perpendicular. */
  lemma InPlaceQuarterTurnCollapses()
    ensures OrthonormalPair(Axis(IdentityRows(), 0), Axis(IdentityRows(), 1))
    ensures var r := RotatedInPlace(IdentityRows(), 0.0, 1.0);
      Axis(r, 1) == Scale(Axis(r, 0), -1.0) && Dot(Axis(r, 0), Axis(r, 1)) == -1.0
  {
    IdentityPairOrthonormal();
    InPlaceQuarterTurnX();
    InPlaceQuarterTurnY();
    ScaleAt([0.0, 1.0, 0.0], -1.0);
    DotOfDisplays(0.0, 1.0, 0.0, 0.0, -1.0, 0.0);
  }

  /** The corrected turn of the x/y pair by the angle whose cosine and sine are `c`
      and `sn`, both new axes computed from the OLD pair (the standard plane rotation).
      The z axis and the translation column are kept. `update` does not use it: it
      turns as written (`RotatedInPlace`). */
  function Rotated(rot: Mat34, c: real, sn: real): (r: Mat34)
    ensures Axis(r, 0) == Add(Scale(Axis(rot, 0), c), Scale(Axis(rot, 1), sn))
    ensures Axis(r, 1) == Add(Scale(Axis(rot, 0), -sn), Scale(Axis(rot, 1), c))
    ensures r[2] == rot[2] && r[0][3] == rot[0][3] && r[1][3] == rot[1][3]
  {
    var x, y := Axis(rot, 0), Axis(rot, 1);
    var m := SetAxis(rot, 0, Add(Scale(x, c), Scale(y, sn)));
    SetAxis(m, 1, Add(Scale(x, -sn), Scale(y, c)))
  }

  /** Against an orthonormal pair, the combination `x * c + y * sn` has the
      coordinates `c` and `sn`. */
  lemma CoordinatesInPair(x: Vec3, y: Vec3, c: real, sn: real)
    requires OrthonormalPair(x, y)
    ensures Dot(Add(Scale(x, c), Scale(y, sn)), x) == c
    ensures Dot(Add(Scale(x, c), Scale(y, sn)), y) == sn
  {
    var w := Add(Scale(x, c), Scale(y, sn));
    DotSymmetric(x, y);
    assert Dot(w, x) == c by { DotSymmetric(w, x); DotWithCombination(x, x, y, c, sn); }
    assert Dot(w, y) == sn by { DotSymmetric(w, y); DotWithCombination(y, x, y, c, sn); }
  }

  /** A combination `x * c + y * sn` of an orthonormal pair with `c*c + sn*sn == 1`
      has unit length. */
  lemma UnitCombination(x: Vec3, y: Vec3, c: real, sn: real)
    requires c * c + sn * sn == 1.0
    requires OrthonormalPair(x, y)
    ensures var w := Add(Scale(x, c), Scale(y, sn)); Dot(w, w) == 1.0
  {
    var w := Add(Scale(x, c), Scale(y, sn));
    CoordinatesInPair(x, y, c, sn);
    DotWithCombination(w, x, y, c, sn);
    MulBoth(c, Dot(w, x), c); MulBoth(sn, Dot(w, y), sn);
  }

  /** The combinations `x * c + y * sn` and `x * -sn + y * c` of an orthonormal pair
      are perpendicular. */
  lemma PerpendicularCombinations(x: Vec3, y: Vec3, c: real, sn: real)
    requires OrthonormalPair(x, y)
    ensures Dot(Add(Scale(x, c), Scale(y, sn)), Add(Scale(x, -sn), Scale(y, c))) == 0.0
  {
    var w := Add(Scale(x, c), Scale(y, sn));
    CoordinatesInPair(x, y, c, sn);
    DotWithCombination(w, x, y, -sn, c);
    MulBoth(-sn, Dot(w, x), c); MulBoth(c, Dot(w, y), sn);
  }

  /** Two rotated combinations of an orthonormal pair are orthonormal again. */
  lemma TurnedPairOrthonormal(x: Vec3, y: Vec3, c: real, sn: real)
    requires c * c + sn * sn == 1.0
    requires OrthonormalPair(x, y)
    ensures OrthonormalPair(Add(Scale(x, c), Scale(y, sn)), Add(Scale(x, -sn), Scale(y, c)))
  {
    UnitCombination(x, y, c, sn);
    UnitCombination(x, y, -sn, c);
    PerpendicularCombinations(x, y, c, sn);
  }

  /** The plane rotation keeps an orthonormal x/y pair orthonormal whenever
      `c*c + sn*sn == 1`. */
  lemma RotationKeepsPairOrthonormal(rot: Mat34, c: real, sn: real)
    requires c * c + sn * sn == 1.0
    requires OrthonormalPair(Axis(rot, 0), Axis(rot, 1))
    ensures OrthonormalPair(Axis(Rotated(rot, c, sn), 0), Axis(Rotated(rot, c, sn), 1))
  {
    TurnedPairOrthonormal(Axis(rot, 0), Axis(rot, 1), c, sn);
  }

  /** Maps the camera back onto the orbit: z becomes the normalised direction `dir`,
      then x the normalised cross product of the (old) y with the new z, then y the
      normalised cross product of the new z with the new x. The translation column
      is kept. */
  function Reorthonormalized(rot: Mat34, dir: Vec3, g: Geometry): (r: Mat34)
    ensures Axis(r, 2) == g.normalizeRet(dir)
    ensures Axis(r, 0) == g.normalize(g.cross(Axis(rot, 1), Axis(r, 2)))
    ensures Axis(r, 1) == g.normalize(g.cross(Axis(r, 2), Axis(r, 0)))
    ensures forall i :: 0 <= i < 3 ==> r[i][3] == rot[i][3]
  {
    var m1 := SetAxis(rot, 2, g.normalizeRet(dir));
    var m2 := SetAxis(m1, 0, g.cross(Axis(m1, 1), Axis(m1, 2)));
    var m3 := SetAxis(m2, 0, g.normalize(Axis(m2, 0)));
    var m4 := SetAxis(m3, 1, g.cross(Axis(m3, 2), Axis(m3, 0)));
    SetAxis(m4, 1, g.normalize(Axis(m4, 1)))
  }

  /** The world-to-camera translation column: row `i` gets `-dot(axis_i, pos)`;
      the axes are kept. */
  function WithOrbitTranslation(rot: Mat34, pos: Vec3): (r: Mat34)
    ensures forall i :: 0 <= i < 3 ==> Axis(r, i) == Axis(rot, i) && r[i][3] == -Dot(Axis(rot, i), pos)
  {
    var m1 := SetTranslation(rot, 0, -Dot(Axis(rot, 0), pos));
    var m2 := SetTranslation(m1, 1, -Dot(Axis(m1, 1), pos));
    SetTranslation(m2, 2, -Dot(Axis(m2, 2), pos))
  }

  /** The view matrix: the orbit rotation times the translation by minus the target
      pivot, that product translated by plus the target pivot, and the result translated
      by the pan vector. */
  function ComposedView(rot: Mat34, target: Vec3, pan: Vec3, g: Geometry): (v: Mat34)
    ensures v == g.mul(g.loadTranslationMatrix(pan),
                       g.mul(g.loadTranslationMatrix(target),
                             g.mul(rot, g.loadTranslationMatrix([-target[0], -target[1], -target[2]]))))
  {
    ScaleAt(target, -1.0);
    assert Scale(target, -1.0) == [-target[0], -target[1], -target[2]];
    var m := g.mul(rot, g.loadTranslationMatrix(Scale(target, -1.0)));
    var m' := g.mul(g.loadTranslationMatrix(target), m);
    g.mul(g.loadTranslationMatrix(pan), m')
  }

  /** The RMB-drag turn of the x/y pair, by the angle `pi * -dx / screenW`, as the
      code performs it (`RotatedInPlace`: the new y is computed from the new x);
      without the drag the frame is unchanged. The z axis is never touched. */
  function Steered(rot: Mat34, turning: bool, dx: real, screenW: int, g: Geometry): (r: Mat34)
    requires turning ==> screenW != 0
    ensures r[2] == rot[2]
    ensures !turning ==> r == rot
  {
    if turning then
      var angle := FloatPi * -dx / (screenW as real);
      RotatedInPlace(rot, g.cos(angle), g.sin(angle))
    else rot
  }

  /** The in-place turn of an orthonormal pair with `c*c + sn*sn == 1`: the new x
      still has unit length, but its dot product with the new y is `sn * (c - 1)`. */
  lemma InPlaceTurnSkew(x: Vec3, y: Vec3, c: real, sn: real)
    requires c * c + sn * sn == 1.0
    requires OrthonormalPair(x, y)
    ensures var x' := Add(Scale(x, c), Scale(y, sn));
      Dot(x', x') == 1.0 && Dot(x', Add(Scale(x', -sn), Scale(y, c))) == sn * (c - 1.0)
  {
    var x' := Add(Scale(x, c), Scale(y, sn));
    UnitCombination(x, y, c, sn);
    CoordinatesInPair(x, y, c, sn);
    DotWithCombination(x', x', y, -sn, c);
    MulBoth(-sn, Dot(x', x'), 1.0); MulBoth(c, Dot(x', y), sn);
  }

  /** `sn * (c - 1)` vanishes exactly when `sn` is zero or `c` is one. */
  lemma SkewVanishes(c: real, sn: real)
    ensures sn * (c - 1.0) == 0.0 <==> sn == 0.0 || c == 1.0
  {
    if sn != 0.0 && c != 1.0 {
      if sn > 0.0 {
        if c > 1.0 { assert sn * (c - 1.0) > 0.0; } else { assert sn * (c - 1.0) < 0.0; }
      } else {
        if c > 1.0 { assert sn * (c - 1.0) < 0.0; } else { assert sn * (c - 1.0) > 0.0; }
      }
    }
  }

  /** The turn as written keeps the new x axis of an orthonormal pair at unit length,
      but the two new axes are perpendicular only when `sn == 0` or `c == 1`, that is,
      only for the zero turn among the turns with `c*c + sn*sn == 1`. */
  lemma RotationInPlaceSkew(rot: Mat34, c: real, sn: real)
    requires c * c + sn * sn == 1.0
    requires OrthonormalPair(Axis(rot, 0), Axis(rot, 1))
    ensures var r := RotatedInPlace(rot, c, sn);
      Dot(Axis(r, 0), Axis(r, 0)) == 1.0 && Dot(Axis(r, 0), Axis(r, 1)) == sn * (c - 1.0)
    ensures var r := RotatedInPlace(rot, c, sn);
      Dot(Axis(r, 0), Axis(r, 1)) == 0.0 <==> sn == 0.0 || c == 1.0
  {
    InPlaceTurnSkew(Axis(rot, 0), Axis(rot, 1), c, sn);
    SkewVanishes(c, sn);
  }

  /** With trigonometry that satisfies cos^2 + sin^2 == 1 and an orthonormal x/y pair:
      without the right button the pair stays orthonormal; with it, the turned pair's
      dot product is `sin * (cos - 1)` of the angle, so the pair stays perpendicular
      only when that sine is zero or that cosine is one. */
  lemma SteeredPairSkew(rot: Mat34, turning: bool, dx: real, screenW: int, g: Geometry)
    requires turning ==> screenW != 0
    requires PythagoreanTrig(g)
    requires OrthonormalPair(Axis(rot, 0), Axis(rot, 1))
    ensures !turning ==> OrthonormalPair(Axis(Steered(rot, turning, dx, screenW, g), 0), Axis(Steered(rot, turning, dx, screenW, g), 1))
    ensures turning ==>
      var angle := FloatPi * -dx / (screenW as real);
      var r := Steered(rot, turning, dx, screenW, g);
      Dot(Axis(r, 0), Axis(r, 1)) == g.sin(angle) * (g.cos(angle) - 1.0) &&
      (Dot(Axis(r, 0), Axis(r, 1)) == 0.0 <==> g.sin(angle) == 0.0 || g.cos(angle) == 1.0)
  {
    if turning {
      var angle := FloatPi * -dx / (screenW as real);
      assert g.cos(angle) * g.cos(angle) + g.sin(angle) * g.sin(angle) == 1.0;
      RotationInPlaceSkew(rot, g.cos(angle), g.sin(angle));
      assert Steered(rot, turning, dx, screenW, g) == RotatedInPlace(rot, g.cos(angle), g.sin(angle));
    }
  }

  /** The frame rebuilt around `pivot` for a camera that has moved to `camPos`
      (orbitCamera.cpp, "map camera back to orbit"): z points from the pivot at
      `camPos`, x and y are re-derived from it, and the translation column places
      the camera at distance `dist` along the new z. */
  function OrbitFrame(rot: Mat34, pivot: Vec3, camPos: Vec3, dist: real, g: Geometry): (r: Mat34)
    ensures Axis(r, 2) == g.normalizeRet(Sub(camPos, pivot))
    ensures forall i :: 0 <= i < 3 ==> r[i][3] == -Dot(Axis(r, i), OrbitPosition(pivot, r, dist))
  {
    var rot1 := Reorthonormalized(rot, Sub(camPos, pivot), g);
    var r := WithOrbitTranslation(rot1, OrbitPosition(pivot, rot1, dist));
    assert Axis(r, 2) == Axis(rot1, 2);
    r
  }

  /** The first block of an active `update`: the pointer position is recorded and
      each latch follows its button, so afterwards it equals the button's level. */
  function Pointed(s: CameraState, mouseX: real, mouseY: real, lmbPressed: bool, rmbPressed: bool): (r: CameraState)
    ensures r == s.(currMouseX := mouseX, currMouseY := mouseY, lmbDown := lmbPressed, rmbDown := rmbPressed)
  {
    s.(currMouseX := mouseX, currMouseY := mouseY,
       lmbDown := Latch(s.lmbDown, lmbPressed), rmbDown := Latch(s.rmbDown, rmbPressed))
  }

  /** The live pivot is set to the origin and the orbit distance grows by the
      forward component of the translation delta. */
  function Recentered(s: CameraState, translationDelta: Vec3): (r: CameraState)
    ensures r.orbitPivotWS == Zero3 && r.pivotSet && PivotKnown(r)
    ensures r.orbitDist == s.orbitDist + translationDelta[2]
    ensures r == s.(orbitPivotWS := r.orbitPivotWS, pivotSet := r.pivotSet, orbitDist := r.orbitDist)
  {
    s.(orbitPivotWS := Zero3, pivotSet := true, orbitDist := s.orbitDist + translationDelta[2])
  }

  /** The strafed camera position computed from the fields of `s`. */
  function StrafeTarget(s: CameraState, dx: real, dy: real, translationDelta: Vec3): Vec3
  {
    StrafedPosition(s.orbitPivotWS, s.viewOrbitRotMat, s.orbitDist, dx, dy, s.lmbDown, translationDelta)
  }

  /** The orbit rotation after the RMB-drag turn. */
  function Turned(s: CameraState, dx: real, screenW: int, g: Geometry): CameraState
    requires s.rmbDown ==> screenW != 0
  {
    s.(viewOrbitRotMat := Steered(s.viewOrbitRotMat, s.rmbDown, dx, screenW, g))
  }

  /** The orbit rotation mapped back onto the orbit around the live pivot. */
  function Reframed(s: CameraState, camPos: Vec3, g: Geometry): CameraState
  {
    s.(viewOrbitRotMat := OrbitFrame(s.viewOrbitRotMat, s.orbitPivotWS, camPos, s.orbitDist, g))
  }

  /** The pivot-offset matrix and the view matrix composed from the orbit rotation. */
  function Composed(s: CameraState, g: Geometry): (r: CameraState)
    ensures r.viewPivotOffsetMat == g.loadTranslationMatrix(s.targetOrbitPivotWS)
    ensures r.viewMat == ComposedView(s.viewOrbitRotMat, s.targetOrbitPivotWS, s.panVector, g)
    ensures r == s.(viewPivotOffsetMat := r.viewPivotOffsetMat, viewMat := r.viewMat)
  {
    s.(viewPivotOffsetMat := g.loadTranslationMatrix(s.targetOrbitPivotWS),
       viewMat := ComposedView(s.viewOrbitRotMat, s.targetOrbitPivotWS, s.panVector, g))
  }

  /** The frame an active `update` computes (orbitCamera.cpp, from the pointer delta
      to the advanced baseline). */
  function Stepped(s: CameraState, mouseX: real, mouseY: real, screenW: int,
                   lmbPressed: bool, rmbPressed: bool, translationDelta: Vec3, g: Geometry): (r: CameraState)
    requires rmbPressed ==> screenW != 0
    // latches follow the buttons; the baseline advances to the pointer passed in
    ensures r.lmbDown == lmbPressed && r.rmbDown == rmbPressed
    ensures r.currMouseX == mouseX && r.prevMouseX == mouseX
    ensures r.currMouseY == mouseY && r.prevMouseY == mouseY
    // so a pointer that stays where it is yields no delta in the next frame
    ensures PointerDelta(mouseX, r.prevMouseX, r.mouseSensitivity) == 0.0
    ensures PointerDelta(mouseY, r.prevMouseY, r.mouseSensitivity) == 0.0
    // the live pivot is reset to the origin; the distance grows by exactly the forward delta
    ensures r.orbitPivotWS == Zero3 && r.pivotSet && PivotKnown(r)
    ensures r.orbitDist == s.orbitDist + translationDelta[2]
    ensures r.viewPivotOffsetMat == g.loadTranslationMatrix(s.targetOrbitPivotWS)
    ensures r.viewMat == ComposedView(r.viewOrbitRotMat, s.targetOrbitPivotWS, s.panVector, g)
    // configuration, target pivot and pan are only read
    ensures r.targetOrbitPivotWS == s.targetOrbitPivotWS && r.panVector == s.panVector
    ensures r.controlConfig == s.controlConfig && r.mouseSensitivity == s.mouseSensitivity
    ensures r.isActive == s.isActive
  {
    var dx := PointerDelta(mouseX, s.prevMouseX, s.mouseSensitivity);
    var dy := PointerDelta(mouseY, s.prevMouseY, s.mouseSensitivity);
    var s1 := Recentered(Pointed(s, mouseX, mouseY, lmbPressed, rmbPressed), translationDelta);
    var camPos := StrafeTarget(s1, dx, dy, translationDelta);
    var s2 := Composed(Reframed(Turned(s1, dx, screenW, g), camPos, g), g);
    s2.(prevMouseX := s2.currMouseX, prevMouseY := s2.currMouseY)
  }

  /** The orbit rotation an active step leaves behind, in terms of the input state:
      the frame rebuilt around the origin, from the turned rotation, towards the
      strafed position, at the advanced distance. */
  lemma SteppedRotation(s: CameraState, mouseX: real, mouseY: real, screenW: int,
                        lmbPressed: bool, rmbPressed: bool, translationDelta: Vec3, g: Geometry)
    requires rmbPressed ==> screenW != 0
    ensures var dx := PointerDelta(mouseX, s.prevMouseX, s.mouseSensitivity);
            var dy := PointerDelta(mouseY, s.prevMouseY, s.mouseSensitivity);
            var dist := s.orbitDist + translationDelta[2];
            Stepped(s, mouseX, mouseY, screenW, lmbPressed, rmbPressed, translationDelta, g).viewOrbitRotMat ==
              OrbitFrame(Steered(s.viewOrbitRotMat, rmbPressed, dx, screenW, g), Zero3,
                         StrafedPosition(Zero3, s.viewOrbitRotMat, dist, dx, dy, lmbPressed, translationDelta), dist, g)
  {
    var dx := PointerDelta(mouseX, s.prevMouseX, s.mouseSensitivity);
    var dy := PointerDelta(mouseY, s.prevMouseY, s.mouseSensitivity);
    var s1 := Recentered(Pointed(s, mouseX, mouseY, lmbPressed, rmbPressed), translationDelta);
    assert s1.viewOrbitRotMat == s.viewOrbitRotMat && s1.lmbDown == lmbPressed && s1.rmbDown == rmbPressed;
    var s2 := Turned(s1, dx, screenW, g);
    assert s2.viewOrbitRotMat == Steered(s.viewOrbitRotMat, rmbPressed, dx, screenW, g);
    var camPos := StrafeTarget(s1, dx, dy, translationDelta);
    assert camPos == StrafedPosition(Zero3, s.viewOrbitRotMat, s.orbitDist + translationDelta[2], dx, dy, lmbPressed, translationDelta);
    var s3 := Composed(Reframed(s2, camPos, g), g);
    assert s3.viewOrbitRotMat == OrbitFrame(s2.viewOrbitRotMat, Zero3, camPos, s.orbitDist + translationDelta[2], g);
    assert Stepped(s, mouseX, mouseY, screenW, lmbPressed, rmbPressed, translationDelta, g).viewOrbitRotMat == s3.viewOrbitRotMat;
  }

  /** After an active step the new z axis points from the origin (the reset pivot)
      at the strafed camera position. */
  lemma SteppedViewDirection(s: CameraState, mouseX: real, mouseY: real, screenW: int,
                             lmbPressed: bool, rmbPressed: bool, translationDelta: Vec3, g: Geometry)
    requires rmbPressed ==> screenW != 0
    ensures Axis(Stepped(s, mouseX, mouseY, screenW, lmbPressed, rmbPressed, translationDelta, g).viewOrbitRotMat, 2) ==
      g.normalizeRet(StrafedPosition(Zero3, s.viewOrbitRotMat, s.orbitDist + translationDelta[2],
                                     PointerDelta(mouseX, s.prevMouseX, s.mouseSensitivity),
                                     PointerDelta(mouseY, s.prevMouseY, s.mouseSensitivity), lmbPressed, translationDelta))
  {
    SteppedRotation(s, mouseX, mouseY, screenW, lmbPressed, rmbPressed, translationDelta, g);
    var dx := PointerDelta(mouseX, s.prevMouseX, s.mouseSensitivity);
    var dy := PointerDelta(mouseY, s.prevMouseY, s.mouseSensitivity);
    SubZero(StrafedPosition(Zero3, s.viewOrbitRotMat, s.orbitDist + translationDelta[2], dx, dy, lmbPressed, translationDelta));
  }

  /** After an active step the translation column holds minus each new axis dotted
      with the camera's new position on the orbit around the origin. */
  lemma SteppedOrbitTranslation(s: CameraState, mouseX: real, mouseY: real, screenW: int,
                                lmbPressed: bool, rmbPressed: bool, translationDelta: Vec3, g: Geometry)
    requires rmbPressed ==> screenW != 0
    ensures var rot := Stepped(s, mouseX, mouseY, screenW, lmbPressed, rmbPressed, translationDelta, g).viewOrbitRotMat;
      forall i :: 0 <= i < 3 ==>
        rot[i][3] == -Dot(Axis(rot, i), OrbitPosition(Zero3, rot, s.orbitDist + translationDelta[2]))
  {
    SteppedRotation(s, mouseX, mouseY, screenW, lmbPressed, rmbPressed, translationDelta, g);
  }

  /** `update`: the state after one call. An inactive camera changes nothing, not
      even its pointer baseline; an active one takes the step above. */
  function Advanced(s: CameraState, mouseX: real, mouseY: real, screenW: int,
                    lmbPressed: bool, rmbPressed: bool, translationDelta: Vec3, g: Geometry): (r: CameraState)
    requires s.isActive && rmbPressed ==> screenW != 0
    ensures !s.isActive ==> r == s
    ensures s.isActive ==> r.lmbDown == lmbPressed && r.rmbDown == rmbPressed && r.prevMouseX == mouseX && r.prevMouseY == mouseY
    ensures r.isActive == s.isActive && (PivotKnown(s) ==> PivotKnown(r))
  {
    if !s.isActive then s
    else Stepped(s, mouseX, mouseY, screenW, lmbPressed, rmbPressed, translationDelta, g)
  }

  /** `resetTrafos`: the canonical transforms. The three matrices become the identity,
      target pivot and pan become zero, the distance 10 and the four pointer
      coordinates 0; latches, active flag, sensitivity, configuration and the live
      pivot are left as they were. */
  function Reset(s: CameraState): (r: CameraState)
    ensures r.viewMat == IdentityRows() && r.viewOrbitRotMat == IdentityRows() && r.viewPivotOffsetMat == IdentityRows()
    ensures r.targetOrbitPivotWS == Zero3 && r.panVector == Zero3 && r.orbitDist == InitialOrbitDist
    ensures r.currMouseX == 0.0 && r.currMouseY == 0.0 && r.prevMouseX == 0.0 && r.prevMouseY == 0.0
    ensures r.lmbDown == s.lmbDown && r.rmbDown == s.rmbDown && r.isActive == s.isActive
    ensures r.mouseSensitivity == s.mouseSensitivity && r.controlConfig == s.controlConfig
    ensures r.orbitPivotWS == s.orbitPivotWS && r.pivotSet == s.pivotSet
  {
    s.(viewMat := IdentityRows(), viewOrbitRotMat := IdentityRows(), viewPivotOffsetMat := IdentityRows(),
       targetOrbitPivotWS := Zero3, orbitDist := InitialOrbitDist, panVector := Zero3,
       currMouseX := 0.0, currMouseY := 0.0, prevMouseX := 0.0, prevMouseY := 0.0)
  }

  /** Resetting twice is resetting once. */
  lemma ResetIdempotent(s: CameraState)
    ensures Reset(Reset(s)) == Reset(s)
  {
  }

  /** The camera position a view matrix implies: the translation column of its inverse. */
  function CameraPositionOf(m: Mat34, g: Geometry): (c: Vec3)
    ensures forall i :: 0 <= i < 3 ==> c[i] == g.inverse(g.castMatrix(m))[i][3]
  {
    var inv := g.inverse(g.castMatrix(m));
    [inv[0][3], inv[1][3], inv[2][3]]
  }

  /** `setViewMatrix`: reset, then adopt `m` as both the view and the orbit-rotation
      matrix, with a zero target pivot and the distance from the live pivot to the
      camera position `m` implies. That distance is the square root of a dot product
      of a vector with itself, so its argument is never negative; when the live pivot
      is the origin it is the length of the camera position. */
  function Seeded(s: CameraState, m: Mat34, g: Geometry): (r: CameraState)
    ensures r.viewMat == m && r.viewOrbitRotMat == m
    ensures r == Reset(s).(viewMat := m, viewOrbitRotMat := m, orbitDist := r.orbitDist)
    ensures var d := Sub(s.orbitPivotWS, CameraPositionOf(m, g));
            0.0 <= Dot(d, d) && r.orbitDist == g.sqrt(Dot(d, d))
    ensures SqrtNonNegative(g) ==> 0.0 <= r.orbitDist
    ensures s.orbitPivotWS == Zero3 ==>
      var c := CameraPositionOf(m, g); r.orbitDist == g.sqrt(Dot(c, c))
  {
    var camPos := CameraPositionOf(m, g);
    var diff := Sub(s.orbitPivotWS, camPos);
    assert s.orbitPivotWS == Zero3 ==> Dot(diff, diff) == Dot(camPos, camPos) by {
      if s.orbitPivotWS == Zero3 {
        SubAt(s.orbitPivotWS, camPos);
        DotOfNegation(diff, camPos);
      }
    }
    Reset(s).(viewMat := m, viewOrbitRotMat := m, targetOrbitPivotWS := Zero3,
              orbitDist := g.sqrt(Dot(diff, diff)))
  }

  /** `setViewMatrix` discards the previous transforms, pointer baseline and pan:
      seeding a reset camera gives the same state as seeding the camera itself. */
  lemma SeededAfterReset(s: CameraState, m: Mat34, g: Geometry)
    ensures Seeded(Reset(s), m, g) == Seeded(s, m, g)
  {
  }

  /** `setViewMatrix(getViewMatrix())`: the argument is a reference to the view matrix
      itself, and `setViewMatrix` reads it only after `resetTrafos` has overwritten it,
      so the camera is seeded from the view matrix as it stands after the reset. */
  function SeededFromOwnView(s: CameraState, g: Geometry): (r: CameraState)
    ensures r == Seeded(s, IdentityRows(), g)
  {
    Seeded(s, Reset(s).viewMat, g)
  }

  /** Seeding a camera from its own view matrix, as written, loses that matrix:
      afterwards both the view and the orbit rotation are the identity, whatever the
      view was before. */
  lemma SelfSeedingDiscardsView(s: CameraState, g: Geometry)
    ensures SeededFromOwnView(s, g).viewMat == IdentityRows() && SeededFromOwnView(s, g).viewOrbitRotMat == IdentityRows()
    ensures s.viewMat != IdentityRows() ==> SeededFromOwnView(s, g).viewMat != s.viewMat
  {
  }

  /** Seeding from a copy of the view matrix taken before the reset: a camera seeded with
      `m` and then re-seeded from its own view matrix is left exactly as it was. */
  lemma ReseedingFromOwnViewIsNoOp(s: CameraState, m: Mat34, g: Geometry)
    ensures var r := Seeded(s, m, g); Seeded(r, r.viewMat, g) == r
  {
  }

  /** `addPanDelta`: the pan vector grows by `delta`, component by component, and
      nothing else changes. */
  function Panned(s: CameraState, delta: Vec3): (r: CameraState)
    ensures r == s.(panVector := r.panVector)
    ensures forall i :: 0 <= i < 3 ==> r.panVector[i] == s.panVector[i] + delta[i]
  {
    AddAt(s.panVector, delta);
    s.(panVector := Add(s.panVector, delta))
  }

  /** Two pan deltas, in either order, amount to one pan by their sum. */
  lemma PanDeltasAccumulate(s: CameraState, d1: Vec3, d2: Vec3)
    ensures Panned(Panned(s, d1), d2) == Panned(s, Add(d1, d2))
    ensures Panned(Panned(s, d1), d2) == Panned(Panned(s, d2), d1)
  {
    AddAssociative(s.panVector, d1, d2);
  }

  /** Accumulated pans are indistinguishable from one summed pan in the next frame's view. */
  lemma PanAccumulationInView(s: CameraState, d1: Vec3, d2: Vec3, mouseX: real, mouseY: real, screenW: int,
                              lmbPressed: bool, rmbPressed: bool, translationDelta: Vec3, g: Geometry)
    requires s.isActive && rmbPressed ==> screenW != 0
    ensures Advanced(Panned(Panned(s, d1), d2), mouseX, mouseY, screenW, lmbPressed, rmbPressed, translationDelta, g)
         == Advanced(Panned(s, Add(d1, d2)), mouseX, mouseY, screenW, lmbPressed, rmbPressed, translationDelta, g)
  {
    PanDeltasAccumulate(s, d1, d2);
  }

  /** The camera object. The fields are those of orbitCamera.h:49-66 and, besides,
      the three matrices and vectors orbitCamera.cpp uses without the header declaring
      them (`viewOrbitRotMat`, `viewPivotOffsetMat`, `panVector`). */
  class OrbitCamera {
    var viewMat: Mat34
    var orbitDist: real
    var orbitPivotWS: Vec3
    var targetOrbitPivotWS: Vec3
    var controlConfig: ControlConfig
    var currMouseX: real
    var currMouseY: real
    var prevMouseX: real
    var prevMouseY: real
    var mouseSensitivity: real
    var lmbDown: bool
    var rmbDown: bool
    var isActive: bool
    var viewOrbitRotMat: Mat34
    var viewPivotOffsetMat: Mat34
    var panVector: Vec3
    /** Whether `orbitPivotWS` has ever been assigned; the constructor and
        `ResetTrafos` leave it indeterminate. */
    ghost var pivotSet: bool

    /** The value of every field. */
    ghost function Snapshot(): CameraState
      reads this
    {
      CameraState(viewMat, orbitDist, orbitPivotWS, targetOrbitPivotWS, controlConfig,
                  currMouseX, currMouseY, prevMouseX, prevMouseY, mouseSensitivity,
                  lmbDown, rmbDown, isActive, viewOrbitRotMat, viewPivotOffsetMat, panVector, pivotSet)
    }

    /** The class invariant: `PivotKnown(Snapshot())`, read from the two fields it
        depends on (see `ValidIsPivotKnown`). */
    ghost predicate Valid()
      reads this`pivotSet, this`orbitPivotWS
    {
      pivotSet ==> orbitPivotWS == Zero3
    }

    /** `Valid` and `PivotKnown` are one invariant, on the object and on its snapshot. */
    lemma ValidIsPivotKnown()
      ensures Valid() <==> PivotKnown(Snapshot())
    {
    }

    /** Latches released, active, canonical transforms, `invertY` set, the initial
        sensitivity and a zero pointer baseline. The live pivot is left unassigned. */
    constructor ()
      ensures Valid() && !pivotSet
      ensures Snapshot() == CameraState(IdentityRows(), InitialOrbitDist, orbitPivotWS, Zero3, ControlConfig(true),
                                        0.0, 0.0, 0.0, 0.0, MouseSensitivityInit,
                                        false, false, true, IdentityRows(), IdentityRows(), Zero3, false)
    {
      lmbDown := false;
      rmbDown := false;
      isActive := true;
      orbitPivotWS := *;
      pivotSet := false;
      new;
      ResetTrafos();
      SetControlConfig(ControlConfig(true));
      SetMouseSensitivity(MouseSensitivityInit);
      currMouseX := 0.0;
      currMouseY := 0.0;
      prevMouseX := currMouseX;
      prevMouseY := currMouseY;
    }

    /** `getViewMatrix`: the stored view matrix; nothing changes. */
    method GetViewMatrix() returns (m: Mat34)
      ensures m == viewMat
    {
      m := viewMat;
    }

    /** `setOrbitDist`: its body is empty, so the distance is NOT set. */
    method SetOrbitDist(dist: real)
      ensures Snapshot() == old(Snapshot())
    {
    }

    method SetOrbitPivotWS(orbitPivot: Vec3)
      modifies this`targetOrbitPivotWS
      ensures Snapshot() == old(Snapshot()).(targetOrbitPivotWS := orbitPivot)
    {
      targetOrbitPivotWS := orbitPivot;
    }

    method SetControlConfig(config: ControlConfig)
      modifies this`controlConfig
      ensures Snapshot() == old(Snapshot()).(controlConfig := config)
    {
      controlConfig := config;
    }

    method SetMouseSensitivity(sensitivity: real)
      modifies this`mouseSensitivity
      ensures Snapshot() == old(Snapshot()).(mouseSensitivity := sensitivity)
    {
      mouseSensitivity := sensitivity;
    }

    method SetActive(active: bool)
      modifies this`isActive
      ensures Snapshot() == old(Snapshot()).(isActive := active)
    {
      isActive := active;
    }

    method AddPanDelta(delta: Vec3)
      modifies this`panVector
      ensures Snapshot() == Panned(old(Snapshot()), delta)
    {
      panVector := Add(panVector, delta);
    }

    method ResetTrafos()
      modifies this`viewMat, this`viewOrbitRotMat, this`viewPivotOffsetMat, this`targetOrbitPivotWS, this`orbitDist
      modifies this`panVector, this`currMouseX, this`currMouseY, this`prevMouseX, this`prevMouseY
      ensures Snapshot() == Reset(old(Snapshot()))
    {
      LoadIdentityMatrices();
      targetOrbitPivotWS := Zero3;
      orbitDist := InitialOrbitDist;
      panVector := Zero3;
      currMouseX := 0.0;
      currMouseY := 0.0;
      prevMouseX := 0.0;
      prevMouseY := 0.0;
    }

    /** The three `loadIdentityMatrix` calls of `resetTrafos`. */
    method LoadIdentityMatrices()
      modifies this`viewMat, this`viewOrbitRotMat, this`viewPivotOffsetMat
      ensures Snapshot() == old(Snapshot()).(viewMat := IdentityRows(), viewOrbitRotMat := IdentityRows(), viewPivotOffsetMat := IdentityRows())
    {
      viewMat := IdentityRows();
      viewOrbitRotMat := IdentityRows();
      viewPivotOffsetMat := IdentityRows();
    }

    /** `setViewMatrix` with an argument that is not one of the camera's own fields.
        Once the live pivot has been set (it is then the origin), the new distance is
        the length of the camera position the matrix implies. */
    method SetViewMatrix(viewMatrix: Mat34, g: Geometry)
      requires Valid()
      modifies this
      ensures Valid()
      ensures Snapshot() == Seeded(old(Snapshot()), viewMatrix, g)
      ensures old(pivotSet) ==>
        var c := CameraPositionOf(viewMatrix, g); orbitDist == g.sqrt(Dot(c, c))
    {
      ResetTrafos();
      AdoptViewMatrix(viewMatrix, g);
    }

    /** `setViewMatrix(getViewMatrix())`: the argument refers to `viewMat`, so every
        read of it after `resetTrafos` sees the reset view matrix. */
    method SetViewMatrixToOwnView(g: Geometry)
      requires Valid()
      modifies this
      ensures Valid()
      ensures Snapshot() == SeededFromOwnView(old(Snapshot()), g)
    {
      ResetTrafos();
      AdoptViewMatrix(viewMat, g);
    }

    /** The body of `setViewMatrix` after its `resetTrafos` call: `viewMatrix` becomes
        the view and the orbit rotation, the target pivot is cleared, and the distance
        is that from the live pivot to the camera position the matrix implies. */
    method AdoptViewMatrix(viewMatrix: Mat34, g: Geometry)
      modifies this`viewMat, this`viewOrbitRotMat, this`targetOrbitPivotWS, this`orbitDist
      ensures viewMat == viewMatrix && viewOrbitRotMat == viewMatrix && targetOrbitPivotWS == Zero3
      ensures var d := Sub(orbitPivotWS, CameraPositionOf(viewMatrix, g)); orbitDist == g.sqrt(Dot(d, d))
    {
      viewMat := viewMatrix;
      var viewMat4 := g.castMatrix(viewMatrix);
      var invViewMat4 := g.inverse(viewMat4);
      var camPosWS: Vec3 := [invViewMat4[0][3], invViewMat4[1][3], invViewMat4[2][3]];
      viewOrbitRotMat := viewMat;
      targetOrbitPivotWS := Zero3;
      var diffVec := Sub(orbitPivotWS, camPosWS);
      orbitDist := g.sqrt(Dot(diffVec, diffVec));
    }

    /** `update`: one frame. `timeDelta` and `screenH` are not read. */
    method Update(timeDelta: real, mouseX: real, mouseY: real, screenW: int, screenH: int,
                  lmbPressed: bool, rmbPressed: bool, translationDelta: Vec3, g: Geometry) returns (status: Status)
      requires Valid()
      requires isActive && rmbPressed ==> screenW != 0
      modifies this
      ensures Valid() && status == OK
      ensures Snapshot() == Advanced(old(Snapshot()), mouseX, mouseY, screenW, lmbPressed, rmbPressed, translationDelta, g)
    {
      if !isActive {
        return OK;
      }

      var mouseDx, mouseDy := TrackPointer(mouseX, mouseY, lmbPressed, rmbPressed);
      Recenter(translationDelta);
      var camPosWS := StrafedCameraPosition(mouseDx, mouseDy, translationDelta);
      TurnAxes(mouseDx, screenW, g);
      MapBackToOrbit(camPosWS, g);
      ComposeViewMatrix(g);
      Rebase();
      return OK;
    }

    /** The current pointer becomes the baseline of the next frame's delta. */
    method Rebase()
      modifies this`prevMouseX, this`prevMouseY
      ensures Snapshot() == old(Snapshot()).(prevMouseX := currMouseX, prevMouseY := currMouseY)
    {
      prevMouseX := currMouseX;
      prevMouseY := currMouseY;
    }

    /** Records the pointer, takes the scaled pointer delta against the previous
        baseline, and edge-detects the two buttons: a press sets a latch, a release
        clears it. */
    method TrackPointer(mouseX: real, mouseY: real, lmbPressed: bool, rmbPressed: bool) returns (mouseDx: real, mouseDy: real)
      modifies this`currMouseX, this`currMouseY, this`lmbDown, this`rmbDown
      ensures Snapshot() == Pointed(old(Snapshot()), mouseX, mouseY, lmbPressed, rmbPressed)
      ensures mouseDx == PointerDelta(mouseX, prevMouseX, mouseSensitivity)
      ensures mouseDy == PointerDelta(mouseY, prevMouseY, mouseSensitivity)
    {
      currMouseX := mouseX;
      currMouseY := mouseY;
      mouseDx := PointerDelta(currMouseX, prevMouseX, mouseSensitivity);
      mouseDy := PointerDelta(currMouseY, prevMouseY, mouseSensitivity);

      LatchButtons(lmbPressed, rmbPressed);
    }

    /** Edge-detects the two buttons: a press sets a latch, a release clears it. */
    method LatchButtons(lmbPressed: bool, rmbPressed: bool)
      modifies this`lmbDown, this`rmbDown
      ensures lmbDown == Latch(old(lmbDown), lmbPressed) && rmbDown == Latch(old(rmbDown), rmbPressed)
    {
      if !lmbDown && lmbPressed {
        lmbDown := true;
      }
      if lmbDown && !lmbPressed {
        lmbDown := false;
      }
      if !rmbDown && rmbPressed {
        rmbDown := true;
      }
      if rmbDown && !rmbPressed {
        rmbDown := false;
      }
    }

    /** Sets the live pivot to the origin and moves along the orbit by the forward delta. */
    method Recenter(translationDelta: Vec3)
      modifies this`orbitPivotWS, this`pivotSet, this`orbitDist
      ensures Snapshot() == Recentered(old(Snapshot()), translationDelta)
    {
      orbitPivotWS := Zero3;
      pivotSet := true;
      orbitDist := orbitDist + translationDelta[2];
    }

    /** The camera position at the orbit distance along the current z axis, strafed
        along the current x and y axes; the pointer delta counts only while the left
        button is latched. */
    method StrafedCameraPosition(mouseDx: real, mouseDy: real, translationDelta: Vec3) returns (camPosWS: Vec3)
      ensures camPosWS == StrafeTarget(Snapshot(), mouseDx, mouseDy, translationDelta)
    {
      camPosWS := Add(orbitPivotWS, Scale(Axis(viewOrbitRotMat, 2), orbitDist));
      var strafeAmountLR := translationDelta[0];
      var strafeAmountUD := translationDelta[1];
      if lmbDown {
        strafeAmountLR := strafeAmountLR + mouseDx;
        strafeAmountUD := strafeAmountUD - mouseDy;
      }
      camPosWS := Add(camPosWS, Scale(Axis(viewOrbitRotMat, 0), strafeAmountLR));
      camPosWS := Add(camPosWS, Scale(Axis(viewOrbitRotMat, 1), strafeAmountUD));
    }

    /** While the right button is latched, turns the x/y pair through the `xAxis` and
        `yAxis` row views: the x row is written first, and the new y is then computed
        from that row as it now stands. */
    method TurnAxes(mouseDx: real, screenW: int, g: Geometry)
      requires rmbDown ==> screenW != 0
      modifies this`viewOrbitRotMat
      ensures Snapshot() == Turned(old(Snapshot()), mouseDx, screenW, g)
    {
      if rmbDown {
        var angleRad := FloatPi * -mouseDx / (screenW as real);
        var cosAngle := g.cos(angleRad);
        var sinAngle := g.sin(angleRad);
        viewOrbitRotMat := SetAxis(viewOrbitRotMat, 0, Add(Scale(Axis(viewOrbitRotMat, 0), cosAngle), Scale(Axis(viewOrbitRotMat, 1), sinAngle)));
        viewOrbitRotMat := SetAxis(viewOrbitRotMat, 1, Add(Scale(Axis(viewOrbitRotMat, 0), -sinAngle), Scale(Axis(viewOrbitRotMat, 1), cosAngle)));
      }
    }

    /** Maps the camera back to the orbit: new z towards the strafed position, x and y
        re-derived by cross products, then the translation column for the camera at
        the orbit distance along the new z. */
    method MapBackToOrbit(camPosWS: Vec3, g: Geometry)
      modifies this`viewOrbitRotMat
      ensures Snapshot() == Reframed(old(Snapshot()), camPosWS, g)
    {
      Reorthonormalize(Sub(camPosWS, orbitPivotWS), g);
      PlaceOnOrbit();
    }

    /** The new z axis is the normalised direction `dir`; x is the normalised cross
        product of the old y with it, and y the normalised cross product of z and x. */
    method Reorthonormalize(dir: Vec3, g: Geometry)
      modifies this`viewOrbitRotMat
      ensures viewOrbitRotMat == Reorthonormalized(old(viewOrbitRotMat), dir, g)
    {
      viewOrbitRotMat := SetAxis(viewOrbitRotMat, 2, g.normalizeRet(dir));
      viewOrbitRotMat := SetAxis(viewOrbitRotMat, 0, g.cross(Axis(viewOrbitRotMat, 1), Axis(viewOrbitRotMat, 2)));
      viewOrbitRotMat := SetAxis(viewOrbitRotMat, 0, g.normalize(Axis(viewOrbitRotMat, 0)));
      viewOrbitRotMat := SetAxis(viewOrbitRotMat, 1, g.cross(Axis(viewOrbitRotMat, 2), Axis(viewOrbitRotMat, 0)));
      viewOrbitRotMat := SetAxis(viewOrbitRotMat, 1, g.normalize(Axis(viewOrbitRotMat, 1)));
    }

    /** Writes the translation column for a camera at the orbit distance along the
        current z axis: row `i` gets minus axis `i` dotted with that position. */
    method PlaceOnOrbit()
      modifies this`viewOrbitRotMat
      ensures viewOrbitRotMat == WithOrbitTranslation(old(viewOrbitRotMat), OrbitPosition(orbitPivotWS, old(viewOrbitRotMat), orbitDist))
    {
      var camPos := Add(orbitPivotWS, Scale(Axis(viewOrbitRotMat, 2), orbitDist));
      viewOrbitRotMat := SetTranslation(viewOrbitRotMat, 0, -Dot(Axis(viewOrbitRotMat, 0), camPos));
      viewOrbitRotMat := SetTranslation(viewOrbitRotMat, 1, -Dot(Axis(viewOrbitRotMat, 1), camPos));
      viewOrbitRotMat := SetTranslation(viewOrbitRotMat, 2, -Dot(Axis(viewOrbitRotMat, 2), camPos));
    }

    /** The view matrix from the orbit rotation, the target pivot (subtracted, then
        added back) and the pan vector. */
    method ComposeViewMatrix(g: Geometry)
      modifies this`viewMat, this`viewPivotOffsetMat
      ensures Snapshot() == Composed(old(Snapshot()), g)
    {
      viewPivotOffsetMat := g.loadTranslationMatrix(Scale(targetOrbitPivotWS, -1.0));
      viewMat := g.mul(viewOrbitRotMat, viewPivotOffsetMat);
      viewPivotOffsetMat := g.loadTranslationMatrix(targetOrbitPivotWS);
      viewMat := g.mul(viewPivotOffsetMat, viewMat);
      var pivotOffsetCompensationMatrix := g.loadTranslationMatrix(panVector);
      viewMat := g.mul(pivotOffsetCompensationMatrix, viewMat);
    }
  }
}
