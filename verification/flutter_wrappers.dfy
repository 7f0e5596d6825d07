/** The Flutter wrappers: opacity and rotation around an already built
    widget. */
module FlutterWrappers {
  import opened Base
  import opened Scene

  /** A widget built elsewhere. */
  type WidgetDetail(==)

  /** A Flutter widget: one built elsewhere, or one of the two wrappers. */
  datatype FlutterWidget =
    | Built(detail: WidgetDetail)
    | OpacityWidget(opacity: real, child: FlutterWidget)
    | TransformRotate(angle: real, child: FlutterWidget)

  /** `Math.round`: the nearest integer, halves rounded up. */
  function Round(x: real): (r: int)
    ensures r as real <= x + 0.5 < r as real + 1.0
  {
    (x + 0.5).Floor
  }

  /** Exactly the values in [-0.5, 0.5) round to zero. */
  lemma RoundsToZero(x: real)
    ensures Round(x) == 0 <==> -0.5 <= x < 0.5
  {
  }

  /** Degrees to radians, with the source's approximation of pi. */
  const RadiansPerDegree: real := 3.14159 / 180.0

  /** The `Transform.rotate` construct the rotation wrapper builds: only for a
      defined rotation that does not round to zero and a present child; the
      angle is clockwise radians, so its sign is opposite to the rotation's. */
  function RotateAttempt(node: Node, child: Option<FlutterWidget>): (r: Option<FlutterWidget>)
    ensures r.Some? <==> node.rotation.Some? && child.Some? && Round(node.rotation.value) != 0
    ensures r.Some? ==> r.value.TransformRotate? && r.value.child == child.value
    ensures r.Some? ==> r.value.angle == node.rotation.value * -RadiansPerDegree
    ensures r.Some? ==> (r.value.angle < 0.0 <==> node.rotation.value > 0.0)
  {
    match node.rotation
    case None => None
    case Some(rotation) =>
      match child
      case None => None
      case Some(c) =>
        if Round(rotation) != 0 then Some(TransformRotate(rotation * -RadiansPerDegree, c)) else None
  }

  /** `wrapWithRotation` as written: the rotate construct is built and then
      discarded, so the child comes back unchanged. */
  function WrapWithRotationAsWritten(node: Node, child: Option<FlutterWidget>): (r: Option<FlutterWidget>)
    ensures r == child
  {
    var discarded := RotateAttempt(node, child);
    child
  }

  /** `wrapWithRotation` as intended: the rotate construct, when one is built,
      is returned in place of the child. */
  function WrapWithRotation(node: Node, child: Option<FlutterWidget>): (r: Option<FlutterWidget>)
    ensures r.Some? <==> child.Some?
    ensures RotateAttempt(node, child).Some? ==>
      r == Some(TransformRotate(node.rotation.value * -RadiansPerDegree, child.value))
    ensures RotateAttempt(node, child).None? ==> r == child
  {
    var attempt := RotateAttempt(node, child);
    if attempt.Some? then attempt else child
  }

  /** The written wrapper departs from the intended one exactly when a rotate
      construct is built. */
  lemma RotationDiscardedExactlyWhenBuilt(node: Node, child: Option<FlutterWidget>)
    ensures WrapWithRotationAsWritten(node, child) != WrapWithRotation(node, child)
      <==> RotateAttempt(node, child).Some?
  {
    if RotateAttempt(node, child).Some? {
      assert WrapWithRotation(node, child).value.TransformRotate?;
      assert WrapWithRotation(node, child).value.child == child.value;
      assert child.value < WrapWithRotation(node, child).value;
    }
  }

  /** A node rotated by 90 degrees: the written wrapper returns the child
      unrotated, the intended one rotates it by about -pi/2. */
  lemma RotationDiscardedAtNinety(node: Node, d: WidgetDetail)
    requires node.rotation == Some(90.0)
    ensures WrapWithRotationAsWritten(node, Some(Built(d))) == Some(Built(d))
    ensures WrapWithRotation(node, Some(Built(d))) == Some(TransformRotate(90.0 * -RadiansPerDegree, Built(d)))
  {
    assert Round(90.0) == 90;
  }

  /** Rotations that round to zero leave the child alone, in both forms. */
  lemma SmallRotationKeepsChild(node: Node, child: Option<FlutterWidget>)
    requires node.rotation.Some? && -0.5 <= node.rotation.value < 0.5
    ensures WrapWithRotation(node, child) == child
    ensures WrapWithRotationAsWritten(node, child) == child
  {
    RoundsToZero(node.rotation.value);
  }

  /** `wrapWithOpacity`: a present child is wrapped in an Opacity carrying the
      node's opacity unchanged whenever that opacity is defined and is not 1
      (0 included); otherwise the child comes back as it was. */
  function WrapWithOpacity(node: Node, child: Option<FlutterWidget>): (r: Option<FlutterWidget>)
    ensures r.Some? <==> child.Some?
    ensures r != child <==> node.opacity.Some? && node.opacity.value != 1.0 && child.Some?
    ensures r != child ==> r == Some(OpacityWidget(node.opacity.value, child.value))
  {
    match node.opacity
    case None => child
    case Some(o) =>
      match child
      case None => None
      case Some(c) =>
        if o != 1.0 then
          assert c < OpacityWidget(o, c);
          Some(OpacityWidget(o, c))
        else child
  }

  /** A fully transparent node is still wrapped. */
  lemma ZeroOpacityWraps(node: Node, c: FlutterWidget)
    requires node.opacity == Some(0.0)
    ensures WrapWithOpacity(node, Some(c)) == Some(OpacityWidget(0.0, c))
  {
  }
}
