/** Lowering of design nodes into widget tokens: per-node dispatch (flag
    override, image and icon detection, masking, type dispatch), the fixed
    wrapper nesting applied afterwards, and the processing of child lists. */
module Tokenizer {
  import opened Base
  import opened Scene
  import opened Tokens

  /** Data attached to a positive detection. */
  type DetectionData(==)

  /** Result of `detectIf.image` / `detectIf.icon`. */
  datatype Detection = Detected(data: DetectionData) | NotDetected

  /** What the flag gate does for a node: builds a widget, builds nothing
      (a falsy result), or throws. */
  datatype FlagOutcome = FlagWidget(widget: Widget) | NoFlagWidget | FlagError

  /** Classification of one effect: not a blur, a layer blur, a background
      blur, or a blur of neither kind. */
  datatype BlurType = NotBlur | LayerBlur | BackgroundBlur | OtherBlur

  /** The configured masking-sanitizer option. */
  type MaskingSanitizerOption(==)

  /** A custom wrapping provider: gets the token and the node (absent for the
      empty array) and returns a replacement, or a falsy value. */
  type WrappingProvider = (Option<Widget>, Option<Node>) -> Option<Widget>

  datatype TokenizerConfig = TokenizerConfig(
    disableDetection: bool,
    disableFlagsSupport: bool,
    shouldIgnoreFlag: Option<Node -> bool>,
    sanitizerIgnoreMaskingNode: MaskingSanitizerOption,
    customWrappingProvider: Option<WrappingProvider>)

  /** The collaborators of the tokenizer whose code is not part of this model:
      the flag gate, the detectors, masking, the wrapper predicates and the
      `tokenize*` constructors. */
  datatype Collaborators = Collaborators(
    flagsHandlingGate: Node -> FlagOutcome,
    detectImage: Node -> Detection,
    detectIcon: Node -> Detection,
    containsMasking: Node -> bool,
    fromMultichild: (Node, TokenizerConfig) -> Option<Widget>,
    ignoreMaskingPipeline: MaskingSanitizerOption -> Node -> bool,
    hasStretching: Node -> bool,
    hasFlexible: Node -> bool,
    hasDimmedOpacity: Node -> bool,
    hasRotation: Node -> bool,
    blurType: Effect -> BlurType,
    wrapDetail: (WrapperKind, Node) -> WrapDetail,
    fromRectangle: Node -> Token,
    fromText: Node -> Token,
    fromFrame: (Node, seq<Node>, bool, TokenizerConfig) -> Token,
    fromVector: Node -> Token,
    fromGroup: (Node, seq<Node>, TokenizerConfig) -> Token,
    fromEllipse: Node -> Token,
    fromIrregularEllipse: Node -> Token,
    fromBooleanOperation: Node -> Token,
    fromLine: Node -> Token,
    fromAnyNode: Node -> Token,
    fromImage: (Node, DetectionData) -> Token,
    fromIcon: (Node, DetectionData) -> Token)

  const InvalidNodeMessage := "A valid design node should be passed in order to tokenize it into a reflect widget."
  const NullConfigMessage := "TypeError: Cannot read properties of null (reading 'custom_wrapping_provider')"
  const FallbackPrefix := "Fallbacked to image from - \""
  const FallbackSuffix := "\". this is a bug."

  // ---------------------------------------------------------------------------
  // Wrapper nesting (post_wrap)
  // ---------------------------------------------------------------------------

  /** The wrapper kinds `post_wrap` can apply. */
  datatype WrapperKind =
    | StretchedWrap | ExpandedWrap | OpacityWrap | LayerBlurWrap | BackgroundBlurWrap | RotationWrap

  /** `wrap_with_<kind>(node, w)`: the wrapper of that kind around `w`,
      carrying what its helper takes from `node`. */
  function Wrap(env: Collaborators, node: Node, kind: WrapperKind, w: Widget): Widget
  {
    var d := env.wrapDetail(kind, node);
    match kind
    case StretchedWrap => Stretched(d, w)
    case ExpandedWrap => Expanded(d, w)
    case OpacityWrap => Opacity(d, w)
    case LayerBlurWrap => LayerBlurred(d, w)
    case BackgroundBlurWrap => BackgroundBlurred(d, w)
    case RotationWrap => Rotation(d, w)
  }

  /** Position of a wrapper kind in the fixed nesting order (innermost first). */
  function Stage(kind: WrapperKind): nat
  {
    match kind
    case StretchedWrap => 0
    case ExpandedWrap => 1
    case OpacityWrap => 2
    case LayerBlurWrap => 3
    case BackgroundBlurWrap => 3
    case RotationWrap => 4
  }

  /** Applies the wrappers of `plan` for `node` to `w`, the first of `plan`
      innermost. */
  function ApplyAll(env: Collaborators, node: Node, plan: seq<WrapperKind>, w: Widget): Widget
  {
    if |plan| == 0 then w else Wrap(env, node, plan[|plan| - 1], ApplyAll(env, node, plan[..|plan| - 1], w))
  }

  function When(b: bool, kind: WrapperKind): seq<WrapperKind>
  {
    if b then [kind] else []
  }

  /** The blur wrapper one effect contributes. */
  function BlurStep(env: Collaborators, e: Effect): seq<WrapperKind>
  {
    match env.blurType(e)
    case LayerBlur => [LayerBlurWrap]
    case BackgroundBlur => [BackgroundBlurWrap]
    case _ => []
  }

  /** The blur wrappers of an effect list, in list order. */
  function BlurPlan(env: Collaborators, effects: seq<Effect>): seq<WrapperKind>
  {
    if |effects| == 0 then []
    else BlurPlan(env, effects[..|effects| - 1]) + BlurStep(env, effects[|effects| - 1])
  }

  /** The wrappers `post_wrap` applies to a node, innermost first. */
  function WrapPlan(env: Collaborators, node: Node): seq<WrapperKind>
  {
    When(env.hasStretching(node), StretchedWrap)
    + When(env.hasFlexible(node), ExpandedWrap)
    + When(env.hasDimmedOpacity(node), OpacityWrap)
    + BlurPlan(env, node.effects)
    + When(env.hasRotation(node), RotationWrap)
  }

  lemma ApplyAllSnoc(env: Collaborators, node: Node, plan: seq<WrapperKind>, kind: WrapperKind, w: Widget)
    ensures ApplyAll(env, node, plan + [kind], w) == Wrap(env, node, kind, ApplyAll(env, node, plan, w))
  {
    assert (plan + [kind])[..|plan|] == plan;
  }

  /** Applying `p + q` is applying `p`, then `q` around the result. */
  lemma {:induction false} ApplyAllAppend(env: Collaborators, node: Node, p: seq<WrapperKind>, q: seq<WrapperKind>, w: Widget)
    ensures ApplyAll(env, node, p + q, w) == ApplyAll(env, node, q, ApplyAll(env, node, p, w))
  {
    if |q| > 0 {
      var init := q[..|q| - 1];
      ApplyAllAppend(env, node, p, init, w);
      assert p + q == (p + init) + [q[|q| - 1]];
      ApplyAllSnoc(env, node, p + init, q[|q| - 1], w);
    } else {
      assert p + q == p;
    }
  }

  /** Wrapping depends on the collaborators only through `wrapDetail`. */
  lemma {:induction false} ApplyAllSameDetails(env: Collaborators, other: Collaborators, node: Node, plan: seq<WrapperKind>, w: Widget)
    requires other.wrapDetail == env.wrapDetail
    ensures ApplyAll(env, node, plan, w) == ApplyAll(other, node, plan, w)
  {
    if |plan| > 0 {
      ApplyAllSameDetails(env, other, node, plan[..|plan| - 1], w);
    }
  }

  /** Two collaborator sets that agree on the wrapper predicates, the blur
      classification and the wrapper details wrap every token of a node alike. */
  lemma PostWrapSameCollaborators(env: Collaborators, other: Collaborators, node: Node, w: Widget)
    requires other.wrapDetail == env.wrapDetail && other.blurType == env.blurType
    requires other.hasStretching == env.hasStretching && other.hasFlexible == env.hasFlexible
    requires other.hasDimmedOpacity == env.hasDimmedOpacity && other.hasRotation == env.hasRotation
    ensures ApplyAll(env, node, WrapPlan(env, node), w) == ApplyAll(other, node, WrapPlan(other, node), w)
  {
    BlurPlanSameClassifier(env, other, node.effects);
    assert WrapPlan(env, node) == WrapPlan(other, node);
    ApplyAllSameDetails(env, other, node, WrapPlan(env, node), w);
  }

  /** One more effect adds its own blur step at the end of the plan. */
  lemma BlurPlanPrefix(env: Collaborators, effects: seq<Effect>, i: nat)
    requires i < |effects|
    ensures BlurPlan(env, effects[..i + 1]) == BlurPlan(env, effects[..i]) + BlurStep(env, effects[i])
  {
    assert effects[..i + 1][..i] == effects[..i];
  }

  /** Applying one more effect's blur step wraps by that effect's blur kind. */
  lemma ApplyBlurStep(env: Collaborators, node: Node, done: seq<WrapperKind>, e: Effect, inner: Widget)
    ensures env.blurType(e).LayerBlur? ==>
      ApplyAll(env, node, done + BlurStep(env, e), inner)
        == LayerBlurred(env.wrapDetail(LayerBlurWrap, node), ApplyAll(env, node, done, inner))
    ensures env.blurType(e).BackgroundBlur? ==>
      ApplyAll(env, node, done + BlurStep(env, e), inner)
        == BackgroundBlurred(env.wrapDetail(BackgroundBlurWrap, node), ApplyAll(env, node, done, inner))
    ensures !env.blurType(e).LayerBlur? && !env.blurType(e).BackgroundBlur? ==>
      ApplyAll(env, node, done + BlurStep(env, e), inner) == ApplyAll(env, node, done, inner)
  {
    match env.blurType(e)
    case LayerBlur => ApplyAllSnoc(env, node, done, LayerBlurWrap, inner);
    case BackgroundBlur => ApplyAllSnoc(env, node, done, BackgroundBlurWrap, inner);
    case _ => assert done + [] == done;
  }

  /** The blur stage of `post_wrap`: one loop step per effect of the node;
      every blur wrapper is built from the node, not from its effect. */
  method WrapBlurs(env: Collaborators, node: Node, inner: Widget) returns (wrapped: Widget)
    ensures wrapped == ApplyAll(env, node, BlurPlan(env, node.effects), inner)
  {
    var effects := node.effects;
    wrapped := inner;
    var i := 0;
    while i < |effects|
      invariant 0 <= i <= |effects|
      invariant wrapped == ApplyAll(env, node, BlurPlan(env, effects[..i]), inner)
    {
      BlurPlanPrefix(env, effects, i);
      ApplyBlurStep(env, node, BlurPlan(env, effects[..i]), effects[i], inner);
      var blur := env.blurType(effects[i]);
      if blur.LayerBlur? {
        wrapped := LayerBlurred(env.wrapDetail(LayerBlurWrap, node), wrapped);
      } else if blur.BackgroundBlur? {
        wrapped := BackgroundBlurred(env.wrapDetail(BackgroundBlurWrap, node), wrapped);
      }
      i := i + 1;
    }
    assert effects[..|effects|] == effects;
  }

  /** `post_wrap`: wraps the token step by step; stretched, expanded and
      opacity first, then one blur wrapper per blur effect, then rotation. */
  method PostWrap(env: Collaborators, node: Node, target: Widget) returns (wrapped: Widget)
    ensures wrapped == ApplyAll(env, node, WrapPlan(env, node), target)
  {
    var a := When(env.hasStretching(node), StretchedWrap);
    var b := When(env.hasFlexible(node), ExpandedWrap);
    var c := When(env.hasDimmedOpacity(node), OpacityWrap);
    var d := BlurPlan(env, node.effects);
    var e := When(env.hasRotation(node), RotationWrap);
    wrapped := target;
    if env.hasStretching(node) {
      wrapped := Stretched(env.wrapDetail(StretchedWrap, node), wrapped);
    }
    assert wrapped == ApplyAll(env, node, a, target);
    if env.hasFlexible(node) {
      ApplyAllSnoc(env, node, a, ExpandedWrap, target);
      wrapped := Expanded(env.wrapDetail(ExpandedWrap, node), wrapped);
    }
    assert wrapped == ApplyAll(env, node, a + b, target);
    if env.hasDimmedOpacity(node) {
      ApplyAllSnoc(env, node, a + b, OpacityWrap, target);
      wrapped := Opacity(env.wrapDetail(OpacityWrap, node), wrapped);
    }
    assert wrapped == ApplyAll(env, node, a + b + c, target);
    var staged := wrapped;
    wrapped := WrapBlurs(env, node, staged);
    ApplyAllAppend(env, node, a + b + c, d, target);
    if env.hasRotation(node) {
      ApplyAllSnoc(env, node, a + b + c + d, RotationWrap, target);
      wrapped := Rotation(env.wrapDetail(RotationWrap, node), wrapped);
    } else {
      assert a + b + c + d + e == a + b + c + d;
    }
  }

  /** Blur plans contain only blur wrappers. */
  lemma {:induction false} BlurPlanStages(env: Collaborators, effects: seq<Effect>)
    ensures forall k :: k in BlurPlan(env, effects) ==> Stage(k) == 3
  {
    if |effects| > 0 {
      BlurPlanStages(env, effects[..|effects| - 1]);
    }
  }

  /** Which effects get a blur wrapper. */
  function IsWrappingBlur(env: Collaborators): Effect -> bool
  {
    e => env.blurType(e) == LayerBlur || env.blurType(e) == BackgroundBlur
  }

  function BlurWrapperOf(env: Collaborators, e: Effect): WrapperKind
  {
    if env.blurType(e) == LayerBlur then LayerBlurWrap else BackgroundBlurWrap
  }

  /** One blur wrapper per blur effect, in effect-list order; other effects
      are ignored. */
  lemma {:induction false} BlurPlanFollowsEffects(env: Collaborators, effects: seq<Effect>)
    ensures var kept := Filter(IsWrappingBlur(env), effects);
      |BlurPlan(env, effects)| == |kept|
      && forall i :: 0 <= i < |kept| ==> BlurPlan(env, effects)[i] == BlurWrapperOf(env, kept[i])
  {
    if |effects| > 0 {
      var init, last := effects[..|effects| - 1], effects[|effects| - 1];
      BlurPlanFollowsEffects(env, init);
      FilterSplit(IsWrappingBlur(env), effects, |effects| - 1);
      assert effects[..|effects| - 1] == init;
      assert effects[|effects| - 1..] == [last];
      assert Filter(IsWrappingBlur(env), [last]) == (if IsWrappingBlur(env)(last) then [last] else []) + Filter(IsWrappingBlur(env), []);
    }
  }

  /** Wrapper kinds appear in non-decreasing stage order. */
  predicate StageOrdered(plan: seq<WrapperKind>)
  {
    forall i, j :: 0 <= i < j < |plan| ==> Stage(plan[i]) <= Stage(plan[j])
  }

  /** Every kind in `plan` has a stage between `lo` and `hi`. */
  predicate StagesWithin(plan: seq<WrapperKind>, lo: nat, hi: nat)
  {
    forall i :: 0 <= i < |plan| ==> lo <= Stage(plan[i]) <= hi
  }

  lemma StageOrderedAppend(p: seq<WrapperKind>, q: seq<WrapperKind>, lo: nat, mid1: nat, mid2: nat, hi: nat)
    requires StageOrdered(p) && StageOrdered(q) && lo <= mid1 <= mid2 <= hi
    requires StagesWithin(p, lo, mid1) && StagesWithin(q, mid2, hi)
    ensures StageOrdered(p + q) && StagesWithin(p + q, lo, hi)
  {
    forall i, j | 0 <= i < j < |p + q|
      ensures Stage((p + q)[i]) <= Stage((p + q)[j])
    {
      if j < |p| {
        assert (p + q)[i] == p[i] && (p + q)[j] == p[j];
      } else if i >= |p| {
        assert (p + q)[i] == q[i - |p|] && (p + q)[j] == q[j - |p|];
      } else {
        assert (p + q)[i] == p[i] && (p + q)[j] == q[j - |p|];
      }
    }
    forall i | 0 <= i < |p + q|
      ensures lo <= Stage((p + q)[i]) <= hi
    {
      if i < |p| {
        assert (p + q)[i] == p[i];
      } else {
        assert (p + q)[i] == q[i - |p|];
      }
    }
  }

  lemma BlurPlanOrdered(env: Collaborators, effects: seq<Effect>)
    ensures StageOrdered(BlurPlan(env, effects)) && StagesWithin(BlurPlan(env, effects), 3, 3)
  {
    var d := BlurPlan(env, effects);
    BlurPlanStages(env, effects);
    forall i | 0 <= i < |d|
      ensures Stage(d[i]) == 3
    {
      assert d[i] in d;
    }
  }

  lemma SingleStage(b: bool, kind: WrapperKind)
    ensures StageOrdered(When(b, kind)) && StagesWithin(When(b, kind), Stage(kind), Stage(kind))
  {
  }

  /** A single wrapper of a later stage keeps a plan ordered. */
  lemma AppendWhenOrdered(p: seq<WrapperKind>, b: bool, kind: WrapperKind, top: nat)
    requires StageOrdered(p) && StagesWithin(p, 0, top) && top <= Stage(kind)
    ensures StageOrdered(p + When(b, kind)) && StagesWithin(p + When(b, kind), 0, Stage(kind))
  {
    if b {
      var q := p + [kind];
      forall i, j | 0 <= i < j < |q|
        ensures Stage(q[i]) <= Stage(q[j])
      {
        assert q[i] == p[i];
        if j < |p| {
          assert q[j] == p[j];
        }
      }
      forall i | 0 <= i < |q|
        ensures 0 <= Stage(q[i]) <= Stage(kind)
      {
        if i < |p| {
          assert q[i] == p[i];
        }
      }
    } else {
      assert p + [] == p;
    }
  }

  /** The three single wrappers before the blurs nest in stage order. */
  lemma InnerWrappersOrdered(env: Collaborators, node: Node)
    ensures var abc := When(env.hasStretching(node), StretchedWrap)
      + When(env.hasFlexible(node), ExpandedWrap) + When(env.hasDimmedOpacity(node), OpacityWrap);
      StageOrdered(abc) && StagesWithin(abc, 0, 2)
  {
    var a := When(env.hasStretching(node), StretchedWrap);
    var b := When(env.hasFlexible(node), ExpandedWrap);
    AppendWhenOrdered([], env.hasStretching(node), StretchedWrap, 0);
    assert [] + a == a;
    AppendWhenOrdered(a, env.hasFlexible(node), ExpandedWrap, 0);
    AppendWhenOrdered(a + b, env.hasDimmedOpacity(node), OpacityWrap, 1);
  }

  /** The wrappers always nest in stage order: stretched inside expanded inside
      opacity inside the blurs inside rotation. */
  lemma WrapPlanOrdered(env: Collaborators, node: Node)
    ensures StageOrdered(WrapPlan(env, node))
  {
    var abc := When(env.hasStretching(node), StretchedWrap)
      + When(env.hasFlexible(node), ExpandedWrap) + When(env.hasDimmedOpacity(node), OpacityWrap);
    var d := BlurPlan(env, node.effects);
    var e := When(env.hasRotation(node), RotationWrap);
    InnerWrappersOrdered(env, node);
    BlurPlanOrdered(env, node.effects);
    SingleStage(env.hasRotation(node), RotationWrap);
    StageOrderedAppend(abc, d, 0, 2, 3, 3);
    StageOrderedAppend(abc + d, e, 0, 3, 4, 4);
    assert WrapPlan(env, node) == abc + d + e;
  }

  /** Each single wrapper is in the plan exactly when its predicate holds. */
  lemma WrapPlanMembers(env: Collaborators, node: Node)
    ensures var plan := WrapPlan(env, node);
      && (StretchedWrap in plan <==> env.hasStretching(node))
      && (ExpandedWrap in plan <==> env.hasFlexible(node))
      && (OpacityWrap in plan <==> env.hasDimmedOpacity(node))
      && (RotationWrap in plan <==> env.hasRotation(node))
  {
    var a := When(env.hasStretching(node), StretchedWrap);
    var b := When(env.hasFlexible(node), ExpandedWrap);
    var c := When(env.hasDimmedOpacity(node), OpacityWrap);
    var d := BlurPlan(env, node.effects);
    var e := When(env.hasRotation(node), RotationWrap);
    BlurPlanStages(env, node.effects);
    assert StretchedWrap !in d && ExpandedWrap !in d && OpacityWrap !in d && RotationWrap !in d;
    assert WrapPlan(env, node) == a + b + c + d + e;
  }

  /** Blur plans hold no wrapper of another stage. */
  lemma BlurPlanCountZero(env: Collaborators, effects: seq<Effect>, k: WrapperKind)
    requires Stage(k) != 3
    ensures multiset(BlurPlan(env, effects))[k] == 0
  {
    BlurPlanStages(env, effects);
  }

  lemma WhenCount(b: bool, kind: WrapperKind, k: WrapperKind)
    ensures multiset(When(b, kind))[k] == if b && k == kind then 1 else 0
  {
  }

  lemma CountAppend(p: seq<WrapperKind>, q: seq<WrapperKind>, k: WrapperKind)
    ensures multiset(p + q)[k] == multiset(p)[k] + multiset(q)[k]
  {
  }

  /** A wrapper that is not a blur occurs at most once in the plan. */
  /** The shape of a wrapper plan, with the predicates' answers as plain
      booleans: a non-blur kind occurs at most once. */
  lemma PlanShapeOnce(plan: seq<WrapperKind>, s1: bool, s2: bool, s3: bool, d: seq<WrapperKind>, s4: bool, k: WrapperKind)
    requires plan == When(s1, StretchedWrap) + When(s2, ExpandedWrap) + When(s3, OpacityWrap) + d + When(s4, RotationWrap)
    requires Stage(k) != 3 && multiset(d)[k] == 0
    ensures multiset(plan)[k] <= 1
  {
    WhenCount(s1, StretchedWrap, k);
    WhenCount(s2, ExpandedWrap, k);
    WhenCount(s3, OpacityWrap, k);
    WhenCount(s4, RotationWrap, k);
    FiveConcatCount(When(s1, StretchedWrap), When(s2, ExpandedWrap), When(s3, OpacityWrap), d, When(s4, RotationWrap), k);
  }

  lemma SingleKindOnce(env: Collaborators, node: Node, k: WrapperKind)
    requires Stage(k) != 3
    ensures multiset(WrapPlan(env, node))[k] <= 1
  {
    BlurPlanCountZero(env, node.effects, k);
    PlanShapeOnce(WrapPlan(env, node), env.hasStretching(node), env.hasFlexible(node), env.hasDimmedOpacity(node),
      BlurPlan(env, node.effects), env.hasRotation(node), k);
  }

  /** Counts in a five-part concatenation add up. */
  lemma FiveConcatCount(a: seq<WrapperKind>, b: seq<WrapperKind>, c: seq<WrapperKind>, d: seq<WrapperKind>, e: seq<WrapperKind>, k: WrapperKind)
    requires multiset(a)[k] + multiset(b)[k] + multiset(c)[k] + multiset(e)[k] <= 1 && multiset(d)[k] == 0
    ensures multiset(a + b + c + d + e)[k] <= 1
  {
    CountAppend(a, b, k);
    CountAppend(a + b, c, k);
    CountAppend(a + b + c, d, k);
    CountAppend(a + b + c + d, e, k);
  }

  /** No single wrapper is applied twice. */
  lemma WrapPlanNoRepeats(env: Collaborators, node: Node)
    ensures var m := multiset(WrapPlan(env, node));
      m[StretchedWrap] <= 1 && m[ExpandedWrap] <= 1 && m[OpacityWrap] <= 1 && m[RotationWrap] <= 1
  {
    SingleKindOnce(env, node, StretchedWrap);
    SingleKindOnce(env, node, ExpandedWrap);
    SingleKindOnce(env, node, OpacityWrap);
    SingleKindOnce(env, node, RotationWrap);
  }


  /** With every trigger active and one layer-blur effect, the nesting from the
      outside in is Rotation, LayerBlurred, Opacity, Expanded, Stretched, each
      carrying what its helper took from the node. */
  lemma AllTriggersNesting(env: Collaborators, node: Node, w: Widget)
    requires env.hasStretching(node) && env.hasFlexible(node)
    requires env.hasDimmedOpacity(node) && env.hasRotation(node)
    requires |node.effects| == 1 && env.blurType(node.effects[0]) == LayerBlur
    ensures ApplyAll(env, node, WrapPlan(env, node), w)
      == Rotation(env.wrapDetail(RotationWrap, node),
           LayerBlurred(env.wrapDetail(LayerBlurWrap, node),
             Opacity(env.wrapDetail(OpacityWrap, node),
               Expanded(env.wrapDetail(ExpandedWrap, node),
                 Stretched(env.wrapDetail(StretchedWrap, node), w)))))
  {
    var p1 := [StretchedWrap];
    var p2 := p1 + [ExpandedWrap];
    var p3 := p2 + [OpacityWrap];
    var p4 := p3 + [LayerBlurWrap];
    var p5 := p4 + [RotationWrap];
    assert node.effects[..0] == [];
    assert BlurPlan(env, node.effects) == [LayerBlurWrap];
    assert WrapPlan(env, node) == p5;
    ApplyAllSnoc(env, node, [], StretchedWrap, w);
    assert [] + [StretchedWrap] == p1;
    var w1 := ApplyAll(env, node, p1, w);
    ApplyAllSnoc(env, node, p1, ExpandedWrap, w);
    var w2 := ApplyAll(env, node, p2, w);
    assert w2 == Expanded(env.wrapDetail(ExpandedWrap, node), w1);
    ApplyAllSnoc(env, node, p2, OpacityWrap, w);
    var w3 := ApplyAll(env, node, p3, w);
    assert w3 == Opacity(env.wrapDetail(OpacityWrap, node), w2);
    ApplyAllSnoc(env, node, p3, LayerBlurWrap, w);
    var w4 := ApplyAll(env, node, p4, w);
    assert w4 == LayerBlurred(env.wrapDetail(LayerBlurWrap, node), w3);
    ApplyAllSnoc(env, node, p4, RotationWrap, w);
  }


  // ---------------------------------------------------------------------------
  // Per-node dispatch (handleNode, handle_by_types)
  // ---------------------------------------------------------------------------

  /** `wordcount = data.split(" ").length`. */
  function WordCount(data: string): nat
  {
    |Split(data, ' ')|
  }

  /** Width of a text node after the line-break padding heuristic, stated in
      terms of the number of spaces in the text and its length in UTF-16 code
      units. */
  function PaddedTextWidth(data: string, width: real): (r: real)
    ensures Count(data, ' ') == 0 ==> r == width
    ensures Count(data, ' ') == 1 && Utf16Length(data) <= 6 ==> r == width + 1.0
    ensures Count(data, ' ') >= 1 && !(Count(data, ' ') == 1 && Utf16Length(data) <= 6) && Utf16Length(data) < 30 ==> r == width + 2.0
    ensures Count(data, ' ') >= 1 && Utf16Length(data) >= 30 ==> r == width
  {
    SplitLength(data, ' ');
    var wordcount := WordCount(data);
    var txtlen := Utf16Length(data);
    if wordcount <= 1 then width
    else if txtlen <= 6 && wordcount <= 2 then width + 1.0
    else if txtlen < 30 then width + 2.0
    else width
  }

  /** Two emoji and one space: five characters but seven code units, so the
      text is padded by 2, not by 1. */
  lemma AstralTextPadding()
    ensures PaddedTextWidth("hi \U{1F600}\U{1F600}", 10.0) == 12.0
  {
    var s := "hi \U{1F600}\U{1F600}";
    assert s[1..][1..][1..][1..][1..] == [];
    assert Utf16Length(s[1..][1..][1..][1..]) == 2;
    assert Utf16Length(s[1..][1..][1..]) == 4;
    assert Utf16Length(s) == 7;
    assert Count(s, ' ') == 1;
  }

  /** The origin name a fallback token receives. */
  function FallbackName(originName: string): string
  {
    FallbackPrefix + originName + FallbackSuffix
  }

  /** `handle_by_types`: the token for a node by its type tag, and the node as
      it is afterwards (only a text node changes, and only its width). */
  function HandleByTypes(env: Collaborators, config: TokenizerConfig, node: Node): (r: (Widget, Node))
    requires !TypeMissing(node)
    ensures r.1 == node.(width := r.1.width)
    ensures node.nodeType != Some(Text) ==> r.1 == node
    ensures r.0.Base?
  {
    match node.nodeType.value
    case Rectangle => (Base(env.fromRectangle(node)), node)
    case Text =>
      var padded := node.(width := PaddedTextWidth(node.data, node.width));
      (Base(env.fromText(padded)), padded)
    case Frame => (Base(env.fromFrame(node, node.children, node.isRoot, config)), node)
    case Vector => (Base(env.fromVector(node)), node)
    case Group => (Base(env.fromGroup(node, node.children, config)), node)
    case Ellipse =>
      if node.arcData.startingAngle == 0.0 && node.arcData.innerRadius == 0.0
      then (Base(env.fromEllipse(node)), node)
      else (Base(env.fromIrregularEllipse(node)), node)
    case BooleanOperation => (Base(env.fromBooleanOperation(node)), node)
    case Line => (Base(env.fromLine(node)), node)
    case Unhandled(_) =>
      var t := env.fromAnyNode(node);
      (Base(t.(key := t.key.(originName := FallbackName(t.key.originName)))), node)
  }

  /** The flag gate is consulted only when flag support is on and
      `should_ignore_flag` does not return true for the node. */
  predicate FlagAttempted(config: TokenizerConfig, node: Node)
  {
    !config.disableFlagsSupport
    && !(config.shouldIgnoreFlag.Some? && config.shouldIgnoreFlag.value(node))
  }

  /** The token the flag stage leaves behind; a throwing gate leaves none. */
  function FlagToken(env: Collaborators, config: TokenizerConfig, node: Node): Option<Widget>
  {
    if FlagAttempted(config, node) then
      match env.flagsHandlingGate(node)
      case FlagWidget(w) => Some(w)
      case _ => None
    else None
  }

  /** What `handleNode` returns, and the node as it is afterwards. */
  function NodeOutcome(env: Collaborators, config: TokenizerConfig, node: Node): (Option<Widget>, Node)
  {
    if TypeMissing(node) then (None, node)
    else
      var flagged := FlagToken(env, config, node);
      var image := env.detectImage(node);
      var icon := env.detectIcon(node);
      if flagged.None? && image.Detected? then
        (Some(Base(env.fromImage(node, image.data))), node)
      else if flagged.None? && !config.disableDetection && icon.Detected? then
        (Some(Base(env.fromIcon(node, icon.data))), node)
      else
        var target := if env.containsMasking(node) then env.fromMultichild(node, config) else flagged;
        var (base, after) := if target.Some? then (target.value, node) else HandleByTypes(env, config, node);
        (Some(ApplyAll(env, after, WrapPlan(env, after), base)), after)
  }

  /** `handleNode`: the tokenizing target is reassigned stage by stage. */
  method HandleNode(env: Collaborators, config: TokenizerConfig, node: Node)
    returns (token: Option<Widget>, after: Node)
    ensures (token, after) == NodeOutcome(env, config, node)
  {
    after := node;
    if TypeMissing(node) {
      return None, node;
    }
    var target: Option<Widget> := None;
    if FlagAttempted(config, node) {
      var gate := env.flagsHandlingGate(node);
      match gate {
        case FlagWidget(w) => target := Some(w);
        case NoFlagWidget => target := None;
        case FlagError =>
      }
    }
    if target.None? {
      var image := env.detectImage(node);
      if image.Detected? {
        return Some(Base(env.fromImage(node, image.data))), node;
      }
    }
    if target.None? && !config.disableDetection {
      var icon := env.detectIcon(node);
      if icon.Detected? {
        return Some(Base(env.fromIcon(node, icon.data))), node;
      }
    }
    if env.containsMasking(node) {
      target := env.fromMultichild(node, config);
    }
    var base: Widget;
    if target.None? {
      base, after := HandleByTypes(env, config, node).0, HandleByTypes(env, config, node).1;
    } else {
      base := target.value;
    }
    var wrapped := PostWrap(env, after, base);
    token := Some(wrapped);
  }

  /** Blur plans depend only on the blur classifier. */
  lemma {:induction false} BlurPlanSameClassifier(env: Collaborators, other: Collaborators, effects: seq<Effect>)
    requires env.blurType == other.blurType
    ensures BlurPlan(env, effects) == BlurPlan(other, effects)
  {
    if |effects| > 0 {
      BlurPlanSameClassifier(env, other, effects[..|effects| - 1]);
    }
  }

  /** A node without a type produces no widget and is left untouched. */
  lemma MissingTypeYieldsNothing(env: Collaborators, config: TokenizerConfig, node: Node)
    requires TypeMissing(node)
    ensures NodeOutcome(env, config, node) == (None, node)
  {
  }

  /** A detected image wins over everything but a flag: the image token is
      returned as is, without wrappers, even when detection is disabled. */
  lemma ImageDetectionShortCircuits(env: Collaborators, config: TokenizerConfig, node: Node, d: DetectionData)
    requires !TypeMissing(node) && FlagToken(env, config, node).None?
    requires env.detectImage(node) == Detected(d)
    ensures NodeOutcome(env, config, node) == (Some(Base(env.fromImage(node, d))), node)
  {
  }

  /** With detection disabled the icon detector is never consulted. */
  lemma IconDetectionGated(env: Collaborators, other: Collaborators, config: TokenizerConfig, node: Node)
    requires config.disableDetection
    requires other == env.(detectIcon := other.detectIcon)
    ensures NodeOutcome(env, config, node) == NodeOutcome(other, config, node)
  {
    BlurPlanSameClassifier(env, other, node.effects);
    if !TypeMissing(node) {
      var hb := HandleByTypes(env, config, node);
      assert hb == HandleByTypes(other, config, node);
      assert WrapPlan(env, hb.1) == WrapPlan(other, hb.1);
      assert WrapPlan(env, node) == WrapPlan(other, node);
      var target := if env.containsMasking(node) then env.fromMultichild(node, config) else FlagToken(env, config, node);
      var (base, after) := if target.Some? then (target.value, node) else hb;
      PostWrapSameCollaborators(env, other, after, base);
      assert FlagToken(env, config, node) == FlagToken(other, config, node);
    }
  }

  /** A throwing flag gate behaves exactly like one that builds nothing. */
  lemma FlagErrorIsSwallowed(env: Collaborators, other: Collaborators, config: TokenizerConfig, node: Node)
    requires env.flagsHandlingGate(node) == FlagError
    requires other == env.(flagsHandlingGate := other.flagsHandlingGate)
    requires other.flagsHandlingGate(node) == NoFlagWidget
    ensures NodeOutcome(env, config, node) == NodeOutcome(other, config, node)
  {
    BlurPlanSameClassifier(env, other, node.effects);
    if !TypeMissing(node) {
      var hb := HandleByTypes(env, config, node);
      assert hb == HandleByTypes(other, config, node);
      assert WrapPlan(env, hb.1) == WrapPlan(other, hb.1);
      assert WrapPlan(env, node) == WrapPlan(other, node);
      var target := if env.containsMasking(node) then env.fromMultichild(node, config) else FlagToken(env, config, node);
      var (base, after) := if target.Some? then (target.value, node) else hb;
      PostWrapSameCollaborators(env, other, after, base);
      assert FlagToken(env, config, node) == FlagToken(other, config, node);
    }
  }

  /** With flag support off, or the flag ignored for this node, the gate is
      never consulted. */
  lemma FlagGateSkipped(env: Collaborators, other: Collaborators, config: TokenizerConfig, node: Node)
    requires !FlagAttempted(config, node)
    requires other == env.(flagsHandlingGate := other.flagsHandlingGate)
    ensures NodeOutcome(env, config, node) == NodeOutcome(other, config, node)
  {
    BlurPlanSameClassifier(env, other, node.effects);
    if !TypeMissing(node) {
      var hb := HandleByTypes(env, config, node);
      assert hb == HandleByTypes(other, config, node);
      assert WrapPlan(env, hb.1) == WrapPlan(other, hb.1);
      assert WrapPlan(env, node) == WrapPlan(other, node);
      var target := if env.containsMasking(node) then env.fromMultichild(node, config) else FlagToken(env, config, node);
      var (base, after) := if target.Some? then (target.value, node) else hb;
      PostWrapSameCollaborators(env, other, after, base);
    }
  }

  /** A flagged widget skips detection and type dispatch and is wrapped. */
  lemma FlagWidgetIsWrapped(env: Collaborators, config: TokenizerConfig, node: Node, w: Widget)
    requires !TypeMissing(node) && FlagToken(env, config, node) == Some(w)
    requires !env.containsMasking(node)
    ensures NodeOutcome(env, config, node) == (Some(ApplyAll(env, node, WrapPlan(env, node), w)), node)
  {
  }

  /** A masking container overrides a flagged widget when the masking
      tokenizer builds one; when it builds nothing, type dispatch takes over
      even if a flag had produced a widget. */
  lemma MaskingOverridesFlag(env: Collaborators, config: TokenizerConfig, node: Node)
    requires !TypeMissing(node) && FlagToken(env, config, node).Some?
    requires env.containsMasking(node)
    ensures env.fromMultichild(node, config).Some? ==>
      NodeOutcome(env, config, node) == (Some(ApplyAll(env, node, WrapPlan(env, node), env.fromMultichild(node, config).value)), node)
    ensures env.fromMultichild(node, config).None? ==>
      var (base, after) := HandleByTypes(env, config, node);
      NodeOutcome(env, config, node) == (Some(ApplyAll(env, after, WrapPlan(env, after), base)), after)
  {
  }

  /** Every typed node yields a widget. */
  lemma TypedNodeYieldsWidget(env: Collaborators, config: TokenizerConfig, node: Node)
    requires !TypeMissing(node)
    ensures NodeOutcome(env, config, node).0.Some?
  {
  }

  /** Each closed type tag goes to its own tokenizer, with the node as it is. */
  lemma TypeDispatch(env: Collaborators, config: TokenizerConfig, node: Node)
    ensures node.nodeType == Some(Rectangle) ==> HandleByTypes(env, config, node).0 == Base(env.fromRectangle(node))
    ensures node.nodeType == Some(Frame) ==>
      HandleByTypes(env, config, node).0 == Base(env.fromFrame(node, node.children, node.isRoot, config))
    ensures node.nodeType == Some(Vector) ==> HandleByTypes(env, config, node).0 == Base(env.fromVector(node))
    ensures node.nodeType == Some(Group) ==>
      HandleByTypes(env, config, node).0 == Base(env.fromGroup(node, node.children, config))
    ensures node.nodeType == Some(BooleanOperation) ==>
      HandleByTypes(env, config, node).0 == Base(env.fromBooleanOperation(node))
    ensures node.nodeType == Some(Line) ==> HandleByTypes(env, config, node).0 == Base(env.fromLine(node))
  {
  }

  /** A text node is tokenized after its width is padded, and keeps the
      padded width afterwards. */
  lemma TextNodePadded(env: Collaborators, config: TokenizerConfig, node: Node)
    requires node.nodeType == Some(Text)
    ensures var padded := node.(width := PaddedTextWidth(node.data, node.width));
      HandleByTypes(env, config, node) == (Base(env.fromText(padded)), padded)
  {
  }

  /** An ellipse with a zero starting angle and no inner radius is regular;
      any other arc goes to the irregular-ellipse tokenizer. */
  lemma EllipseDispatch(env: Collaborators, config: TokenizerConfig, node: Node)
    requires IsEllipse(node)
    ensures node.arcData.startingAngle == 0.0 && node.arcData.innerRadius == 0.0 ==>
      HandleByTypes(env, config, node).0 == Base(env.fromEllipse(node))
    ensures !(node.arcData.startingAngle == 0.0 && node.arcData.innerRadius == 0.0) ==>
      HandleByTypes(env, config, node).0 == Base(env.fromIrregularEllipse(node))
  {
  }

  /** An unrecognised type tag falls back to the generic token, whose origin
      name is marked as a fallback around the original name. */
  lemma FallbackIsMarked(env: Collaborators, config: TokenizerConfig, node: Node)
    requires node.nodeType.Some? && node.nodeType.value.Unhandled? && !TypeMissing(node)
    ensures var name := HandleByTypes(env, config, node).0.token.key.originName;
      name[..|FallbackPrefix|] == FallbackPrefix
      && name[|FallbackPrefix|..|name| - |FallbackSuffix|] == env.fromAnyNode(node).key.originName
      && name[|name| - |FallbackSuffix|..] == FallbackSuffix
  {
    var t := env.fromAnyNode(node);
    assert HandleByTypes(env, config, node).0 == Base(t.(key := t.key.(originName := FallbackName(t.key.originName))));
  }

  // ---------------------------------------------------------------------------
  // Wrapping provider and child lists (dynamicGenerator, handleChildren)
  // ---------------------------------------------------------------------------

  /** `handle_with_custom_wrapping_provider`: the provider's result replaces
      the token only when it is present (truthy). */
  function WithCustomWrappingProvider(provider: Option<WrappingProvider>, token: Option<Widget>, node: Option<Node>): (r: Option<Widget>)
    ensures provider.None? ==> r == token
    ensures r == token || (provider.Some? && r == provider.value(token, node) && r.Some?)
    ensures provider.Some? && provider.value(token, node).Some? ==> r == provider.value(token, node)
  {
    if provider.Some? && provider.value(token, node).Some? then provider.value(token, node) else token
  }

  /** The per-node handler of `dynamicGenerator`. */
  function NodeHandlerOutcome(env: Collaborators, config: TokenizerConfig, node: Node): Option<Widget>
  {
    var (token, after) := NodeOutcome(env, config, node);
    WithCustomWrappingProvider(config.customWrappingProvider, token, Some(after))
  }

  method NodeHandler(env: Collaborators, config: TokenizerConfig, node: Node) returns (w: Option<Widget>)
    ensures w == NodeHandlerOutcome(env, config, node)
  {
    var token, after := HandleNode(env, config, node);
    w := WithCustomWrappingProvider(config.customWrappingProvider, token, Some(after));
  }

  /** The input of `dynamicGenerator`: one node or an array of nodes. */
  datatype NodeInput = OneNode(node: Node) | NodeArray(nodes: seq<Node>)

  /** The output of `dynamicGenerator`: one (possibly absent) widget, or the
      array of surviving child widgets. */
  datatype Generated = OneWidget(widget: Option<Widget>) | WidgetArray(widgets: seq<Widget>)

  function HandleAll(env: Collaborators, config: TokenizerConfig, nodes: seq<Node>): (r: seq<Option<Widget>>)
  {
    seq(|nodes|, i requires 0 <= i < |nodes| => NodeHandlerOutcome(env, config, nodes[i]))
  }

  /** `dynamicGenerator` as a value: a non-empty array is filtered by the
      masking sanitizer, each survivor handled in order, and empty results
      dropped (`Somes`); anything else goes through the node handler (an empty array
      reaches it as a node without a type). */
  function Generate(env: Collaborators, config: TokenizerConfig, input: NodeInput): Generated
  {
    match input
    case OneNode(n) => OneWidget(NodeHandlerOutcome(env, config, n))
    case NodeArray(ns) =>
      if |ns| > 0 then
        var kept := Filter(env.ignoreMaskingPipeline(config.sanitizerIgnoreMaskingNode), ns);
        WidgetArray(Somes(HandleAll(env, config, kept)))
      else OneWidget(WithCustomWrappingProvider(config.customWrappingProvider, None, None))
  }

  method DynamicGenerator(env: Collaborators, config: TokenizerConfig, input: NodeInput) returns (out: Generated)
    ensures out == Generate(env, config, input)
  {
    match input
    case OneNode(n) =>
      var w := NodeHandler(env, config, n);
      out := OneWidget(w);
    case NodeArray(ns) =>
      if |ns| > 0 {
        var kept := Filter(env.ignoreMaskingPipeline(config.sanitizerIgnoreMaskingNode), ns);
        var widgets: seq<Option<Widget>> := [];
        var i := 0;
        while i < |kept|
          invariant 0 <= i <= |kept|
          invariant |widgets| == i
          invariant forall k :: 0 <= k < i ==> widgets[k] == NodeHandlerOutcome(env, config, kept[k])
        {
          var w := NodeHandler(env, config, kept[i]);
          widgets := widgets + [w];
          i := i + 1;
        }
        assert widgets == HandleAll(env, config, kept);
        out := WidgetArray(Somes(widgets));
      } else {
        out := OneWidget(WithCustomWrappingProvider(config.customWrappingProvider, None, None));
      }
  }

  /** An array result holds exactly the present results of the children the
      masking sanitizer keeps, and never more widgets than children. */
  lemma GeneratedArrayMembers(env: Collaborators, config: TokenizerConfig, ns: seq<Node>, w: Widget)
    requires |ns| > 0
    ensures var kept := Filter(env.ignoreMaskingPipeline(config.sanitizerIgnoreMaskingNode), ns);
      var out := Generate(env, config, NodeArray(ns));
      && out.WidgetArray?
      && |out.widgets| <= |kept| <= |ns|
      && (w in out.widgets <==> exists k :: 0 <= k < |kept| && NodeHandlerOutcome(env, config, kept[k]) == Some(w))
  {
    var kept := Filter(env.ignoreMaskingPipeline(config.sanitizerIgnoreMaskingNode), ns);
    var all := HandleAll(env, config, kept);
    SomesMembers(all, w);
    if Some(w) in all {
      var k :| 0 <= k < |all| && all[k] == Some(w);
      assert NodeHandlerOutcome(env, config, kept[k]) == Some(w);
    }
    if exists k :: 0 <= k < |kept| && NodeHandlerOutcome(env, config, kept[k]) == Some(w) {
      var k :| 0 <= k < |kept| && NodeHandlerOutcome(env, config, kept[k]) == Some(w);
      assert all[k] == Some(w);
    }
  }

  /** Surviving widgets keep the order of the children they come from. */
  lemma GeneratedArrayOrder(env: Collaborators, config: TokenizerConfig, ns: seq<Node>, i: nat, j: nat)
    requires |ns| > 0
    requires var kept := Filter(env.ignoreMaskingPipeline(config.sanitizerIgnoreMaskingNode), ns);
      i < j < |kept| && NodeHandlerOutcome(env, config, kept[i]).Some? && NodeHandlerOutcome(env, config, kept[j]).Some?
    ensures var kept := Filter(env.ignoreMaskingPipeline(config.sanitizerIgnoreMaskingNode), ns);
      var all := HandleAll(env, config, kept);
      var out := Generate(env, config, NodeArray(ns)).widgets;
      && KeptBefore(IsSome(), all, i) < KeptBefore(IsSome(), all, j) < |out|
      && out[KeptBefore(IsSome(), all, i)] == NodeHandlerOutcome(env, config, kept[i]).value
      && out[KeptBefore(IsSome(), all, j)] == NodeHandlerOutcome(env, config, kept[j]).value
  {
    var kept := Filter(env.ignoreMaskingPipeline(config.sanitizerIgnoreMaskingNode), ns);
    SomesKeepsOrder(HandleAll(env, config, kept), i, j);
  }

  /** An element of a runtime children list: an already built widget, or a
      design node still to tokenize. */
  datatype ChildInput = WidgetChild(widget: Widget) | SceneChild(node: Node)

  /** The config argument of `handleChildren`. */
  datatype ConfigChoice = GivenConfig(config: TokenizerConfig) | DangerouslyUseCurrent

  function ResolveConfig(current: Option<TokenizerConfig>, choice: ConfigChoice): Option<TokenizerConfig>
  {
    match choice
    case GivenConfig(c) => Some(c)
    case DangerouslyUseCurrent => current
  }

  function ChildOutcome(env: Collaborators, config: Option<TokenizerConfig>, item: ChildInput): Option<Widget>
  {
    match item
    case WidgetChild(w) => Some(w)
    case SceneChild(n) => if config.Some? then NodeHandlerOutcome(env, config.value, n) else None
  }

  /** `handleChildren` as a value: widgets pass through, nodes are tokenized
      with the resolved config; a node met while the current config is still
      null makes the whole call throw. */
  function ChildrenOutcome(env: Collaborators, current: Option<TokenizerConfig>, items: seq<ChildInput>, choice: ConfigChoice): Result<seq<Option<Widget>>>
  {
    var config := ResolveConfig(current, choice);
    if config.None? && exists i | 0 <= i < |items| :: items[i].SceneChild? then Failure(NullConfigMessage)
    else Success(seq(|items|, i requires 0 <= i < |items| => ChildOutcome(env, config, items[i])))
  }

  /** `handleChildren` keeps the list's length and positions: built widgets
      pass through unchanged and nodes are tokenized in place; it fails
      exactly when a node meets a null config, so never with a given config. */
  lemma ChildrenKeepPositions(env: Collaborators, current: Option<TokenizerConfig>, items: seq<ChildInput>, choice: ConfigChoice)
    ensures var r := ChildrenOutcome(env, current, items, choice);
      r.Failure? <==> ResolveConfig(current, choice).None? && exists i :: 0 <= i < |items| && items[i].SceneChild?
    ensures choice.GivenConfig? ==> ChildrenOutcome(env, current, items, choice).Success?
    ensures var r := ChildrenOutcome(env, current, items, choice);
      r.Success? ==>
        && |r.value| == |items|
        && (forall i :: 0 <= i < |items| && items[i].WidgetChild? ==> r.value[i] == Some(items[i].widget))
        && (forall i :: 0 <= i < |items| && items[i].SceneChild? ==>
              r.value[i] == NodeHandlerOutcome(env, ResolveConfig(current, choice).value, items[i].node))
  {
  }

  /** The tokenizer's module state: the collaborators it calls and the
      process-wide "current config" that `tokenize` records for nested
      `handleChildren` calls. */
  class Tokenizer {
    const env: Collaborators
    var currentConfig: Option<TokenizerConfig>

    constructor(env: Collaborators)
      ensures this.env == env && currentConfig == None
    {
      this.env := env;
      currentConfig := None;
    }

    /** `tokenize`: throws without a node; otherwise records the config and
        tokenizes the node. */
    method Tokenize(node: Option<Node>, config: TokenizerConfig) returns (r: Result<Option<Widget>>)
      modifies this
      ensures node.None? ==> r == Failure(InvalidNodeMessage) && currentConfig == old(currentConfig)
      ensures node.Some? ==> currentConfig == Some(config)
      ensures node.Some? ==> r == Success(NodeHandlerOutcome(env, config, node.value))
    {
      if node.None? {
        return Failure(InvalidNodeMessage);
      }
      currentConfig := Some(config);
      var out := DynamicGenerator(env, config, OneNode(node.value));
      r := Success(out.widget);
    }

    /** `handleChildren`. */
    method HandleChildren(items: seq<ChildInput>, choice: ConfigChoice) returns (r: Result<seq<Option<Widget>>>)
      ensures r == ChildrenOutcome(env, currentConfig, items, choice)
    {
      var config := ResolveConfig(currentConfig, choice);
      var out: seq<Option<Widget>> := [];
      var i := 0;
      while i < |items|
        invariant 0 <= i <= |items|
        invariant |out| == i
        invariant forall k :: 0 <= k < i ==> out[k] == ChildOutcome(env, config, items[k])
        invariant forall k :: 0 <= k < i ==> items[k].SceneChild? ==> config.Some?
      {
        match items[i] {
          case WidgetChild(w) =>
            out := out + [Some(w)];
          case SceneChild(n) =>
            if config.None? {
              assert items[i].SceneChild?;
              return Failure(NullConfigMessage);
            }
            var g := DynamicGenerator(env, config.value, OneNode(n));
            out := out + [g.widget];
        }
        i := i + 1;
      }
      assert !exists k | 0 <= k < |items| :: items[k].SceneChild? && config.None?;
      assert out == seq(|items|, k requires 0 <= k < |items| => ChildOutcome(env, config, items[k]));
      r := Success(out);
    }
  }
}
