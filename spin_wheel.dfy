/**
 * The spin wheel component: where each wedge is drawn, where its label
 * sits, how a spin's target rotation is drawn, and which rotation is
 * reported back when the spin ends.
 */
module SpinWheel {
  import opened Common
  import opened GameStore

  // ---------------------------------------------------------------------
  // Wedge geometry (wheel frame: degrees clockwise from the top)
  // ---------------------------------------------------------------------

  function WedgeStartAngle(index: int): int
  {
    index * WEDGE_ANGLE
  }

  function WedgeEndAngle(index: int): int
  {
    WedgeStartAngle(index) + WEDGE_ANGLE
  }

  /** The label of a wedge is placed at `startAngle + WEDGE_ANGLE / 2`. */
  function LabelMidAngle(index: int): real
  {
    WedgeStartAngle(index) as real + WEDGE_ANGLE as real / 2.0
  }

  /** `describeArc`'s SVG large-arc flag. */
  function LargeArcFlag(startAngle: real, endAngle: real): string
  {
    if endAngle - startAngle <= 180.0 then "0" else "1"
  }

  /** Wedge `index` covers the half-open span [start, end) of the wheel. */
  predicate DrawnOver(index: int, theta: real)
  {
    WedgeStartAngle(index) as real <= theta < WedgeEndAngle(index) as real
  }

  /** Consecutive wedges abut, the last one closes the circle, and each label sits strictly inside its wedge. */
  lemma WedgeLayout(index: int)
    requires 0 <= index < WEDGE_COUNT
    ensures WedgeEndAngle(index) == WedgeStartAngle(index + 1)
    ensures index == WEDGE_COUNT - 1 ==> WedgeEndAngle(index) == 360
    ensures WedgeStartAngle(index) as real < LabelMidAngle(index) < WedgeEndAngle(index) as real
    ensures LargeArcFlag(WedgeStartAngle(index) as real, WedgeEndAngle(index) as real) == "0"
  {
  }

  /** The twelve wedges tile [0, 360): every angle lies in exactly one of them. */
  lemma {:induction false} WedgesTile(theta: real, index: int)
    requires 0.0 <= theta < 360.0
    requires 0 <= index < WEDGE_COUNT
    ensures DrawnOver(index, theta) <==> index == (theta / WEDGE_ANGLE as real).Floor
    ensures 0 <= (theta / WEDGE_ANGLE as real).Floor < WEDGE_COUNT
  {
    var f := (theta / 30.0).Floor;
    assert f as real <= theta / 30.0 < f as real + 1.0;
    assert 30.0 * f as real <= theta < 30.0 * f as real + 30.0;
    if DrawnOver(index, theta) {
      assert 30.0 * index as real <= theta < 30.0 * index as real + 30.0;
      assert index as real <= theta / 30.0 < index as real + 1.0;
    }
  }

  /** The wedge drawn under the top pointer once the wheel has turned clockwise by `rotation` degrees. */
  function WedgeUnderPointer(rotation: real): (w: WedgeConfig)
    ensures w in WEDGE_CONFIG
  {
    var theta := PointerAngle(rotation);
    WedgesTile(theta, 0);
    WEDGE_CONFIG[(theta / WEDGE_ANGLE as real).Floor]
  }

  /** The lookup returns wedge `index` exactly when wedge `index` is drawn under the pointer. */
  lemma PointerAgreesWithLookup(rotation: real, index: int)
    requires 0 <= index < WEDGE_COUNT
    ensures DrawnOver(index, PointerAngle(rotation)) <==> WedgeIndexFromRotation(rotation) == index
  {
    var i := WedgeIndexFromRotation(rotation);
    WedgeIndexInRange(rotation);
    WedgeWindow(rotation);
    assert DrawnOver(i, PointerAngle(rotation));
    WedgesTile(PointerAngle(rotation), i);
    WedgesTile(PointerAngle(rotation), index);
  }

  /** So the store's `getWedgeFromRotation` names the wedge the player sees under the pointer. */
  lemma LookupMatchesDrawing(rotation: real)
    ensures GetWedgeFromRotation(rotation) == WedgeUnderPointer(rotation)
  {
    var i := WedgeIndexFromRotation(rotation);
    WedgeIndexInRange(rotation);
    PointerAgreesWithLookup(rotation, i);
    WedgesTile(PointerAngle(rotation), i);
  }

  // ---------------------------------------------------------------------
  // Spinning
  // ---------------------------------------------------------------------

  /** `currentRotation + (4 + 2*u1) * 360 + u2 * 360` for two draws of `Math.random()`. */
  function SpinTarget(currentRotation: real, u1: real, u2: real): real
  {
    currentRotation + (4.0 + u1 * 2.0) * 360.0 + u2 * 360.0
  }

  /** A spin turns the wheel by at least four and less than seven whole turns. */
  lemma SpinTargetBounds(currentRotation: real, u1: real, u2: real)
    requires 0.0 <= u1 < 1.0 && 0.0 <= u2 < 1.0
    ensures 1440.0 <= SpinTarget(currentRotation, u1, u2) - currentRotation < 2520.0
  {
  }

  /**
   * The component's refs and props. `reports` lists the rotations passed
   * to `onSpinComplete`, `spinStarts` counts calls of `onSpinStart`.
   */
  class Wheel {
    var currentRotation: real
    var isSpinning: bool
    var disabled: bool
    var targetRotationRef: real
    var timeoutPending: bool
    /** The running animation and the target its completion callback captured. */
    var animation: Option<real>
    var rotationValue: real
    var spinStarts: nat
    var reports: seq<real>

    ghost predicate Valid()
      reads this
    {
      animation.Some? ==> animation.value == targetRotationRef
    }

    constructor (currentRotation: real, isSpinning: bool, disabled: bool)
      ensures Valid()
      ensures this.currentRotation == currentRotation && this.isSpinning == isSpinning && this.disabled == disabled
      ensures targetRotationRef == currentRotation && rotationValue == currentRotation
      ensures !timeoutPending && animation == None && spinStarts == 0 && reports == []
    {
      this.currentRotation := currentRotation;
      this.isSpinning := isSpinning;
      this.disabled := disabled;
      targetRotationRef := currentRotation;
      timeoutPending := false;
      animation := None;
      rotationValue := currentRotation;
      spinStarts := 0;
      reports := [];
    }

    /**
     * Props from the parent screen. The effect on `[currentRotation, isSpinning]`
     * runs when either changed; when not spinning it assigns the shared value,
     * which cancels a running animation, whose callback then reports nothing.
     */
    method SetProps(currentRotation: real, isSpinning: bool, disabled: bool)
      requires Valid()
      modifies this
      ensures Valid()
      ensures this.currentRotation == currentRotation && this.isSpinning == isSpinning && this.disabled == disabled
      ensures var effectAssigns := (currentRotation != old(this.currentRotation) || isSpinning != old(this.isSpinning)) && !isSpinning;
        && rotationValue == (if effectAssigns then currentRotation else old(rotationValue))
        && animation == (if effectAssigns then None else old(animation))
      ensures targetRotationRef == old(targetRotationRef) && timeoutPending == old(timeoutPending)
      ensures spinStarts == old(spinStarts) && reports == old(reports)
    {
      var depsChanged := currentRotation != this.currentRotation || isSpinning != this.isSpinning;
      this.currentRotation := currentRotation;
      this.isSpinning := isSpinning;
      this.disabled := disabled;
      if depsChanged && !isSpinning {
        rotationValue := currentRotation;
        animation := None;
      }
    }

    /** The spin button; `u1` and `u2` are the two `Math.random()` draws. */
    method HandleSpin(u1: real, u2: real) returns (started: bool)
      requires Valid()
      requires 0.0 <= u1 < 1.0 && 0.0 <= u2 < 1.0
      modifies this
      ensures Valid()
      ensures started == !(old(isSpinning) || old(disabled))
      ensures !started ==> unchanged(this)
      ensures started ==>
        && targetRotationRef == SpinTarget(old(currentRotation), u1, u2)
        && 1440.0 <= targetRotationRef - currentRotation < 2520.0
        && timeoutPending && animation == Some(targetRotationRef) && rotationValue == targetRotationRef
        && spinStarts == old(spinStarts) + 1 && reports == old(reports)
        && currentRotation == old(currentRotation) && isSpinning == old(isSpinning) && disabled == old(disabled)
    {
      if isSpinning || disabled {
        return false;
      }
      started := true;
      timeoutPending := false;
      spinStarts := spinStarts + 1;
      var fullRotations := 4.0 + u1 * 2.0;
      var randomOffset := u2 * 360.0;
      var targetRotation := currentRotation + fullRotations * 360.0 + randomOffset;
      SpinTargetBounds(currentRotation, u1, u2);
      targetRotationRef := targetRotation;
      timeoutPending := true;
      animation := Some(targetRotation);
      rotationValue := targetRotation;
    }

    /** The fallback timer fires (only if it was not cleared) and reports the target held in the ref. */
    method FallbackTimeoutFires()
      requires Valid()
      modifies this
      ensures Valid()
      ensures !timeoutPending
      ensures reports == old(reports) + (if old(timeoutPending) then [old(targetRotationRef)] else [])
      ensures animation == old(animation) && targetRotationRef == old(targetRotationRef)
      ensures currentRotation == old(currentRotation) && isSpinning == old(isSpinning) && disabled == old(disabled)
      ensures rotationValue == old(rotationValue) && spinStarts == old(spinStarts)
    {
      if timeoutPending {
        timeoutPending := false;
        reports := reports + [targetRotationRef];
      }
    }

    /** The animation finishes: the pending fallback is cleared and the captured target is reported. */
    method AnimationFinished()
      requires Valid()
      modifies this
      ensures Valid()
      ensures old(animation).Some? ==>
        && reports == old(reports) + [old(targetRotationRef)]
        && !timeoutPending && animation == None
      ensures old(animation).None? ==> unchanged(this)
      ensures targetRotationRef == old(targetRotationRef)
      ensures currentRotation == old(currentRotation) && isSpinning == old(isSpinning) && disabled == old(disabled)
      ensures rotationValue == old(rotationValue) && spinStarts == old(spinStarts)
    {
      if animation.Some? {
        timeoutPending := false;
        reports := reports + [animation.value];
        animation := None;
      }
    }
  }

  /**
   * The fallback fires first and the parent then stores the result and stops
   * spinning: the new props cancel the animation, so the spin is reported once.
   */
  method FallbackThenParentUpdate(w: Wheel, u1: real, u2: real, stored: real)
    requires w.Valid() && !w.isSpinning && !w.disabled
    requires 0.0 <= u1 < 1.0 && 0.0 <= u2 < 1.0
    modifies w
    ensures w.reports == old(w.reports) + [SpinTarget(old(w.currentRotation), u1, u2)]
    ensures w.animation == None && !w.timeoutPending
  {
    var rotation := w.currentRotation;
    var started := w.HandleSpin(u1, u2);
    w.SetProps(rotation, true, false);
    w.FallbackTimeoutFires();
    w.SetProps(stored, false, false);
    w.AnimationFinished();
  }
}
