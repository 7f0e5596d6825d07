/** The Flutter makers: the BoxDecoration and its background, the ShapeBorder,
    the network images, and the MaterialApp with its `Builder(...)` home. */
module FlutterMake {
  import opened Base
  import opened Scene

  /** Flutter values built by makers whose code is not part of this model. */
  type Color(==)
  type Gradient(==)
  type ImageProvider(==)
  type Border(==)
  type BoxShadow(==)
  type BorderRadius(==)
  type ThemeData(==)

  /** The widget a screen is built around. */
  type ScreenWidget(==)

  /** The helpers the makers call, whose code is not part of this model:
      the fill picker, the color, gradient, image, border, shadow and radius
      makers, `rd`, the illustration interpreter, `toString` of a node, the
      finalized code of `makeScreen(widget, scrollable)` and `makeTheme()`. */
  datatype FlutterEnv = FlutterEnv(
    retrieveFill: seq<Paint> -> Option<Paint>,
    makeColorFromRgbo: (Rgb, real) -> Color,
    interpretGradient: Paint -> Gradient,
    interpretImageFills: Paint -> ImageProvider,
    makeBorder: Node -> Option<Border>,
    makeBoxShadow: Node -> Option<BoxShadow>,
    makeBorderRadius: Node -> Option<BorderRadius>,
    makeColor: seq<Paint> -> Option<Color>,
    paintingBorderRadius: CornerRadius -> BorderRadius,
    rd: real -> real,
    illustUrl: Node -> string,
    nodeToString: Node -> string,
    screenCode: (ScreenWidget, bool) -> string,
    theme: ThemeData)

  // ---------------------------------------------------------------------
  // BoxDecoration
  // ---------------------------------------------------------------------

  /** The background of a box decoration, by the kind of the fill. */
  datatype Background =
    | ColorBackground(color: Color)
    | GradientBackground(gradient: Gradient)
    | ImageBackground(image: ImageProvider)

  datatype BoxShape = Circle
  datatype BoxFit = Cover

  datatype DecorationImage = DecorationImage(image: ImageProvider, fit: BoxFit)

  /** A BoxDecoration; every field may be absent. */
  datatype BoxDecoration = BoxDecoration(
    borderRadius: Option<BorderRadius>,
    shape: Option<BoxShape>,
    image: Option<DecorationImage>,
    border: Option<Border>,
    boxShadow: Option<BoxShadow>,
    color: Option<Color>,
    gradient: Option<Gradient>)

  /** What `makeBoxDecoration` may return: a BoxDecoration, or a bare Color. */
  datatype Decoration = DecorationBox(box: BoxDecoration) | BareColor(color: Color)

  /** `fill.opacity ?? 1.0`. */
  function FillOpacity(fill: Paint): (o: real)
    ensures fill.opacity.None? ==> o == 1.0
    ensures fill.opacity.Some? ==> o == fill.opacity.value
  {
    match fill.opacity
    case Some(v) => v
    case None => 1.0
  }

  /** `makeBoxDecorationBg`: the picked fill decides the background by its
      type; any other type, or no fill, gives none. */
  function MakeBoxDecorationBg(env: FlutterEnv, fills: seq<Paint>): (r: Option<Background>)
    ensures var fill := env.retrieveFill(fills);
      r.Some? <==> fill.Some? && fill.value.paintType in {"SOLID", "GRADIENT_LINEAR", "IMAGE"}
    ensures var fill := env.retrieveFill(fills);
      fill.Some? && fill.value.paintType == "SOLID" ==>
        r == Some(ColorBackground(env.makeColorFromRgbo(fill.value.color, FillOpacity(fill.value))))
    ensures var fill := env.retrieveFill(fills);
      fill.Some? && fill.value.paintType == "GRADIENT_LINEAR" ==>
        r == Some(GradientBackground(env.interpretGradient(fill.value)))
    ensures var fill := env.retrieveFill(fills);
      fill.Some? && fill.value.paintType == "IMAGE" ==>
        r == Some(ImageBackground(env.interpretImageFills(fill.value)))
  {
    var fill := env.retrieveFill(fills);
    match fill
    case None => None
    case Some(f) =>
      if f.paintType == "SOLID" then Some(ColorBackground(env.makeColorFromRgbo(f.color, FillOpacity(f))))
      else if f.paintType == "GRADIENT_LINEAR" then Some(GradientBackground(env.interpretGradient(f)))
      else if f.paintType == "IMAGE" then Some(ImageBackground(env.interpretImageFills(f)))
      else None
  }

  /** The decoration's `image`: an image background wrapped with fit cover. */
  function ImageOf(bg: Option<Background>): (r: Option<DecorationImage>)
    ensures r.Some? <==> bg.Some? && bg.value.ImageBackground?
    ensures r.Some? ==> r.value == DecorationImage(bg.value.image, Cover)
  {
    match bg
    case Some(ImageBackground(p)) => Some(DecorationImage(p, Cover))
    case _ => None
  }

  /** The decoration's `color`: only a color background. */
  function ColorOf(bg: Option<Background>): (r: Option<Color>)
    ensures r.Some? <==> bg.Some? && bg.value.ColorBackground?
    ensures r.Some? ==> r.value == bg.value.color
  {
    match bg
    case Some(ColorBackground(c)) => Some(c)
    case _ => None
  }

  /** The decoration's `gradient`: only a gradient background. */
  function GradientOf(bg: Option<Background>): (r: Option<Gradient>)
    ensures r.Some? <==> bg.Some? && bg.value.GradientBackground?
    ensures r.Some? ==> r.value == bg.value.gradient
  {
    match bg
    case Some(GradientBackground(g)) => Some(g)
    case _ => None
  }

  /** The shape: a circle for ellipse nodes, none otherwise. */
  function DecorationShape(node: Node): (r: Option<BoxShape>)
    ensures r.Some? <==> IsEllipse(node)
  {
    if IsEllipse(node) then Some(Circle) else None
  }

  /** `makeBoxDecoration`: a BoxDecoration whenever a border, a circle shape,
      a border radius or a background is present (a box shadow alone does
      not count), carrying all of them; otherwise a bare color when the
      background is one, and nothing else. */
  function MakeBoxDecoration(env: FlutterEnv, node: Node): (r: Option<Decoration>)
    ensures r.Some? <==>
      (env.makeBorder(node).Some? || IsEllipse(node) || env.makeBorderRadius(node).Some?
       || MakeBoxDecorationBg(env, node.fills).Some?)
    ensures r.Some? ==> r.value.DecorationBox?
    ensures r.Some? ==>
      var box := r.value.box;
      && box.border == env.makeBorder(node)
      && box.boxShadow == env.makeBoxShadow(node)
      && box.borderRadius == env.makeBorderRadius(node)
      && (IsEllipse(node) ==> box.shape == Some(Circle))
      && (!IsEllipse(node) ==> box.shape.None?)
  {
    var background := MakeBoxDecorationBg(env, node.fills);
    var border := env.makeBorder(node);
    var boxShadow := env.makeBoxShadow(node);
    var borderRadius := env.makeBorderRadius(node);
    var shape := DecorationShape(node);
    var isNotSolid := border.Some? || shape.Some? || border.Some? || borderRadius.Some? || background.Some?;
    if isNotSolid then
      Some(DecorationBox(BoxDecoration(borderRadius, shape, ImageOf(background), border, boxShadow,
                                       ColorOf(background), GradientOf(background))))
    else
      match background
      case Some(ColorBackground(c)) => Some(BareColor(c))
      case _ => None
  }

  /** Exactly one of color, gradient and image is set, the one the background
      kind names; an image is wrapped with fit cover; without a background
      none is set. */
  lemma DecorationBackgroundExclusive(env: FlutterEnv, node: Node)
    requires MakeBoxDecoration(env, node).Some?
    ensures var box := MakeBoxDecoration(env, node).value.box;
      var bg := MakeBoxDecorationBg(env, node.fills);
      && (bg.None? ==> box.color.None? && box.gradient.None? && box.image.None?)
      && (bg.Some? && bg.value.ColorBackground? ==>
            box.color == Some(bg.value.color) && box.gradient.None? && box.image.None?)
      && (bg.Some? && bg.value.GradientBackground? ==>
            box.gradient == Some(bg.value.gradient) && box.color.None? && box.image.None?)
      && (bg.Some? && bg.value.ImageBackground? ==>
            box.image == Some(DecorationImage(bg.value.image, Cover)) && box.color.None? && box.gradient.None?)
  {
  }

  /** A box shadow on its own produces no decoration at all. */
  lemma ShadowAloneGivesNothing(env: FlutterEnv, node: Node)
    requires env.makeBoxShadow(node).Some?
    requires env.makeBorder(node).None? && !IsEllipse(node) && env.makeBorderRadius(node).None?
    requires MakeBoxDecorationBg(env, node.fills).None?
    ensures MakeBoxDecoration(env, node).None?
  {
  }

  /** The bare-color answer is never produced: a color background already
      makes a BoxDecoration carrying that color. */
  lemma SolidBackgroundIsBoxed(env: FlutterEnv, node: Node)
    requires var bg := MakeBoxDecorationBg(env, node.fills); bg.Some? && bg.value.ColorBackground?
    ensures var bg := MakeBoxDecorationBg(env, node.fills);
      var r := MakeBoxDecoration(env, node);
      r.Some? && r.value.DecorationBox? && r.value.box.color == Some(bg.value.color)
  {
  }

  // ---------------------------------------------------------------------
  // ShapeBorder
  // ---------------------------------------------------------------------

  datatype BorderSide = BorderSide(width: real, color: Color)

  datatype ShapeBorder =
    | CircleBorder(side: Option<BorderSide>)
    | RoundedRectangleBorder(side: Option<BorderSide>, borderRadius: BorderRadius)

  /** The stroke side: present iff there is a stroke color and a positive
      stroke weight. */
  function StrokeSide(env: FlutterEnv, node: Node): (r: Option<BorderSide>)
    ensures r.Some? <==> env.makeColor(node.strokes).Some? && node.strokeWeight > 0.0
    ensures r.Some? ==> r.value.width == node.strokeWeight && r.value.color == env.makeColor(node.strokes).value
  {
    match env.makeColor(node.strokes)
    case Some(c) => if node.strokeWeight > 0.0 then Some(BorderSide(node.strokeWeight, c)) else None
    case None => None
  }

  /** `makeShape`: a CircleBorder carrying only the side for ellipses, a
      RoundedRectangleBorder with the side and the corner radius otherwise. */
  function MakeShape(env: FlutterEnv, node: Node): (r: ShapeBorder)
    ensures r.CircleBorder? <==> IsEllipse(node)
    ensures r.side == StrokeSide(env, node)
    ensures r.RoundedRectangleBorder? ==> r.borderRadius == env.paintingBorderRadius(node.cornerRadius)
  {
    var side := StrokeSide(env, node);
    if IsEllipse(node) then CircleBorder(side)
    else RoundedRectangleBorder(side, env.paintingBorderRadius(node.cornerRadius))
  }

  /** Without a positive stroke weight no shape carries a side, whatever the
      strokes are. */
  lemma NoStrokeWeightNoSide(env: FlutterEnv, node: Node)
    requires node.strokeWeight <= 0.0
    ensures MakeShape(env, node).side.None?
  {
  }

  // ---------------------------------------------------------------------
  // Images
  // ---------------------------------------------------------------------

  /** `Image.network(url, {width, height, fit})`, with an optional comment. */
  datatype NetworkImage = NetworkImage(url: string, width: real, height: real, fit: BoxFit, comment: Option<string>)

  const Placeholder := "https://bridged-service-static.s3-us-west-1.amazonaws.com/branding/bridged-logo-512.png"
  const ImageCommentPrefix := "image content of "

  /** `makePlaceHolderImage`: the fixed placeholder URL at the node's rounded
      size, fit cover, no comment. */
  function MakePlaceHolderImage(env: FlutterEnv, node: Node): (r: NetworkImage)
    ensures r.url == Placeholder
    ensures r.width == env.rd(node.width) && r.height == env.rd(node.height)
    ensures r.fit == Cover && r.comment.None?
  {
    NetworkImage(Placeholder, env.rd(node.width), env.rd(node.height), Cover, None)
  }

  /** `makeIllustImage`: the illustration's URL at the node's rounded size,
      fit cover, commented with the node's description. */
  function MakeIllustImage(env: FlutterEnv, node: Node): (r: NetworkImage)
    ensures r.url == env.illustUrl(node)
    ensures r.width == env.rd(node.width) && r.height == env.rd(node.height)
    ensures r.fit == Cover
    ensures r.comment.Some? && |r.comment.value| >= |ImageCommentPrefix|
    ensures r.comment.Some? ==>
      r.comment.value[..|ImageCommentPrefix|] == ImageCommentPrefix
      && r.comment.value[|ImageCommentPrefix|..] == env.nodeToString(node)
  {
    NetworkImage(env.illustUrl(node), env.rd(node.width), env.rd(node.height), Cover,
                 Some(ImageCommentPrefix + env.nodeToString(node)))
  }

  /** The two makers lay the image out identically; they differ only in the
      URL and the comment. */
  lemma ImageMakersShareLayout(env: FlutterEnv, node: Node)
    ensures var p := MakePlaceHolderImage(env, node);
      var i := MakeIllustImage(env, node);
      p.width == i.width && p.height == i.height && p.fit == i.fit
      && p == i.(url := Placeholder, comment := None)
  {
  }

  // ---------------------------------------------------------------------
  // MaterialApp
  // ---------------------------------------------------------------------

  const BuilderPrefix := "Builder(builder: (BuildContext context){\n        return "
  const BuilderSuffix := "\n    })"

  /** `wrapWithBuilder`: the content inside a `Builder` whose body returns it. */
  function WrapWithBuilder(content: string): (r: string)
    ensures |r| == |BuilderPrefix| + |content| + |BuilderSuffix|
    ensures r[..|BuilderPrefix|] == BuilderPrefix
    ensures r[|r| - |BuilderSuffix|..] == BuilderSuffix
    ensures r[|BuilderPrefix|..|r| - |BuilderSuffix|] == content
  {
    BuilderPrefix + content + BuilderSuffix
  }

  /** The content of a `Builder` wrapping, when the text is one. */
  function UnwrapBuilder(s: string): (r: Option<string>)
    ensures r.Some? ==> |s| >= |BuilderPrefix| + |BuilderSuffix|
  {
    if |s| >= |BuilderPrefix| + |BuilderSuffix|
       && s[..|BuilderPrefix|] == BuilderPrefix && s[|s| - |BuilderSuffix|..] == BuilderSuffix
    then Some(s[|BuilderPrefix|..|s| - |BuilderSuffix|])
    else None
  }

  /** Unwrapping recovers exactly what was wrapped. */
  lemma BuilderRoundTrip(content: string)
    ensures UnwrapBuilder(WrapWithBuilder(content)) == Some(content)
  {
  }

  /** Whatever unwraps was produced by the wrapper. */
  lemma {:induction false} BuilderOnlyFromWrap(s: string)
    requires UnwrapBuilder(s).Some?
    ensures WrapWithBuilder(UnwrapBuilder(s).value) == s
  {
    var c := UnwrapBuilder(s).value;
    assert s == s[..|BuilderPrefix|] + s[|BuilderPrefix|..|s| - |BuilderSuffix|] + s[|s| - |BuilderSuffix|..];
  }

  /** The home of an app: a widget and whether its screen scrolls. */
  datatype Home = Home(widget: ScreenWidget, scrollable: bool)

  datatype MaterialApp = MaterialApp(title: string, debugShowCheckedModeBanner: bool, home: string, theme: ThemeData)

  const AppTitle := "app built with grida.co"

  /** `makeApp`: the fixed title, no debug banner, the finalized screen
      inside a `Builder`, and the theme. */
  function MakeApp(env: FlutterEnv, home: Home): (r: MaterialApp)
    ensures r.title == AppTitle && !r.debugShowCheckedModeBanner && r.theme == env.theme
    ensures UnwrapBuilder(r.home) == Some(env.screenCode(home.widget, home.scrollable))
  {
    BuilderRoundTrip(env.screenCode(home.widget, home.scrollable));
    MaterialApp(AppTitle, false, WrapWithBuilder(env.screenCode(home.widget, home.scrollable)), env.theme)
  }
}
