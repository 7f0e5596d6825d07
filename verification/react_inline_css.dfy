/** The React inline-CSS builder: every element's style becomes a `style`
    attribute holding an object literal, written into the element configs of
    the builder's styles map as the JSX tree is built. */
module ReactInlineCss {
  import opened Base
  import opened Jsx
  import opened StyledDeclarations
  import opened StyledConfig
  import opened ReactModule

  /** The inline-CSS configuration of the React framework config. */
  type InlineCssConfig(==)

  const MissingConfigMessage := "TypeError: Cannot read properties of undefined (reading 'attributes')"
  const UndefinedAttributeMessage := "TypeError: Cannot read properties of undefined (reading 'name')"

  /** An attribute named "style". */
  predicate IsStyleAttribute(a: AttrEntry)
  {
    a.JsxAttribute? && a.name == "style"
  }

  /** `attributes.find((a) => a.name.name === "style")`: whether a style
      attribute exists; reading the name of an `undefined` entry before one
      is found throws. */
  function FindStyle(attrs: seq<AttrEntry>): (r: Result<bool>)
    ensures r == Success(true) <==>
      exists i :: 0 <= i < |attrs| && IsStyleAttribute(attrs[i]) && forall j :: 0 <= j < i ==> attrs[j].JsxAttribute?
    ensures r == Success(false) <==> forall i :: 0 <= i < |attrs| ==> attrs[i].JsxAttribute? && !IsStyleAttribute(attrs[i])
  {
    if |attrs| == 0 then Success(false)
    else match attrs[0]
      case UndefinedEntry => Failure(UndefinedAttributeMessage)
      case JsxAttribute(name, _) =>
        if name == "style" then Success(true)
        else
          var rest := FindStyle(attrs[1..]);
          assert forall i :: 1 <= i < |attrs| ==> attrs[i] == attrs[1..][i - 1];
          if rest == Success(true) then
            var k :| 0 <= k < |attrs[1..]| && IsStyleAttribute(attrs[1..][k])
                    && forall j :: 0 <= j < k ==> attrs[1..][j].JsxAttribute?;
            assert IsStyleAttribute(attrs[k + 1]);
            rest
          else rest
  }

  /** `style ?? {}`: a config without a style object reads as the empty CSS object. */
  function StyleData(env: BuilderEnv, style: StyleValue): CssProperties
  {
    match style
    case StyleProps(css) => css
    case _ => env.emptyCss
  }

  /** One property assignment per key of the converted style, in key order. */
  function StyleProperties(pairs: seq<(string, string)>): (r: seq<PropertyAssignment>)
    ensures |r| == |pairs|
    ensures forall i :: 0 <= i < |pairs| ==> r[i] == PropertyAssignment(pairs[i].0, pairs[i].1)
  {
    seq(|pairs|, i requires 0 <= i < |pairs| => PropertyAssignment(pairs[i].0, pairs[i].1))
  }

  /** The `style` attribute built for a config's style. */
  function StyleAttribute(env: BuilderEnv, style: StyleValue): AttrEntry
  {
    JsxAttribute("style", StyleObject(StyleProperties(env.cssToJson(StyleData(env, style)))))
  }

  /** The style callback's rewrite of one config: the existing attributes in
      order, followed by the new style attribute, or by `undefined` when a
      style attribute already exists. */
  function WithStyleAttribute(env: BuilderEnv, cfg: ElementConfig): (r: Result<ElementConfig>)
    ensures var attrs := if cfg.attributes.Some? then cfg.attributes.value else [];
      && (r.Failure? <==> FindStyle(attrs).Failure?)
      && (r.Success? ==>
        && r.value == cfg.(attributes := r.value.attributes)
        && r.value.attributes.Some?
        && |r.value.attributes.value| == |attrs| + 1
        && r.value.attributes.value[..|attrs|] == attrs
        && (FindStyle(attrs) == Success(true) ==> r.value.attributes.value[|attrs|] == UndefinedEntry)
        && (FindStyle(attrs) == Success(false) ==> r.value.attributes.value[|attrs|] == StyleAttribute(env, cfg.style)))
  {
    var attrs := if cfg.attributes.Some? then cfg.attributes.value else [];
    match FindStyle(attrs)
    case Failure(e) => Failure(e)
    case Success(found) =>
      var style := if found then UndefinedEntry else StyleAttribute(env, cfg.style);
      Success(cfg.(attributes := Some(attrs + [style])))
  }

  /** Without an existing style attribute, the new one has exactly one
      property per converted key, and a missing style gives the properties
      of the empty object. */
  lemma StyleAttributeProperties(env: BuilderEnv, cfg: ElementConfig)
    requires WithStyleAttribute(env, cfg).Success?
    requires FindStyle(if cfg.attributes.Some? then cfg.attributes.value else []) == Success(false)
    ensures var attrs := WithStyleAttribute(env, cfg).value.attributes.value;
      var pairs := env.cssToJson(if cfg.style.StyleProps? then cfg.style.css else env.emptyCss);
      && attrs[|attrs| - 1].name == "style"
      && attrs[|attrs| - 1].value.StyleObject?
      && |attrs[|attrs| - 1].value.properties| == |pairs|
      && forall i :: 0 <= i < |pairs| ==> attrs[|attrs| - 1].value.properties[i].name == pairs[i].0
  {
  }

  /** The result of running the style callback over a list of ids: the
      configs it returned (or the first error) and the styles map after it. */
  datatype StyleRun = StyleRun(configs: Result<seq<ElementConfig>>, styles: map<string, ElementConfig>)

  function Prepend(cfg: ElementConfig, rest: Result<seq<ElementConfig>>): Result<seq<ElementConfig>>
  {
    match rest
    case Success(cfgs) => Success([cfg] + cfgs)
    case Failure(e) => Failure(e)
  }

  /** The callback applied to `ids` in order, each rewrite written back into
      the map before the next id is looked up. */
  function StyleAll(env: BuilderEnv, styles: map<string, ElementConfig>, ids: seq<string>): StyleRun
  {
    if |ids| == 0 then StyleRun(Success([]), styles)
    else if ids[0] !in styles then StyleRun(Failure(MissingConfigMessage), styles)
    else match WithStyleAttribute(env, styles[ids[0]])
      case Failure(e) => StyleRun(Failure(e), styles)
      case Success(cfg) =>
        var rest := StyleAll(env, styles[ids[0] := cfg], ids[1..]);
        StyleRun(Prepend(cfg, rest.configs), rest.styles)
  }

  /** The style callback only rewrites entries it visits: the map keeps its
      keys, and every id it was not asked for keeps its config. */
  lemma {:induction false} StyleAllTouchesOnlyVisited(env: BuilderEnv, styles: map<string, ElementConfig>, ids: seq<string>)
    ensures StyleAll(env, styles, ids).styles.Keys == styles.Keys
    ensures forall id :: id in styles && id !in ids ==> StyleAll(env, styles, ids).styles[id] == styles[id]
  {
    if |ids| > 0 && ids[0] in styles {
      match WithStyleAttribute(env, styles[ids[0]])
      case Failure(_) =>
      case Success(cfg) =>
        StyleAllTouchesOnlyVisited(env, styles[ids[0] := cfg], ids[1..]);
        forall id | id in styles && id !in ids
          ensures StyleAll(env, styles, ids).styles[id] == styles[id]
        {
          assert id != ids[0] && id !in ids[1..];
        }
    }
  }

  /** A successful run returns one config per visited id. */
  lemma {:induction false} StyleAllCount(env: BuilderEnv, styles: map<string, ElementConfig>, ids: seq<string>)
    requires StyleAll(env, styles, ids).configs.Success?
    ensures |StyleAll(env, styles, ids).configs.value| == |ids|
  {
    if |ids| > 0 {
      var cfg := WithStyleAttribute(env, styles[ids[0]]).value;
      StyleAllCount(env, styles[ids[0] := cfg], ids[1..]);
    }
  }

  function AsPresent(cfgs: seq<ElementConfig>): (r: seq<Option<ElementConfig>>)
    ensures |r| == |cfgs| && forall i :: 0 <= i < |cfgs| ==> r[i] == Some(cfgs[i])
  {
    seq(|cfgs|, i requires 0 <= i < |cfgs| => Some(cfgs[i]))
  }

  /** The JSX tree built for a widget from a run of the callback. */
  function TreeOf(env: BuilderEnv, widget: JsxWidget, run: StyleRun): Result<JsxTree>
  {
    match run.configs
    case Success(cfgs) => Success(env.assembleJsx(widget, AsPresent(cfgs)))
    case Failure(e) => Failure(e)
  }

  class ReactInlineCssBuilder {
    const env: BuilderEnv
    const entry: JsxWidget
    const widgetName: string
    const config: InlineCssConfig
    const namer: Namer
    /** The styles mapper's map from element id to element config. */
    var styles: map<string, ElementConfig>

    /** The styles map is built with tag renaming off. */
    constructor(env: BuilderEnv, entry: JsxWidget, config: InlineCssConfig)
      ensures this.env == env && this.entry == entry && this.config == config
      ensures widgetName == entry.key.name
      ensures namer == env.makeNamer(entry.key.id)
      ensures styles == env.buildStylesMap(entry, namer, false)
    {
      this.env := env;
      this.entry := entry;
      this.config := config;
      widgetName := entry.key.name;
      namer := env.makeNamer(entry.key.id);
      styles := env.buildStylesMap(entry, env.makeNamer(entry.key.id), false);
    }

    /** `stylesConfig(id)`. */
    function StylesConfig(id: string): (r: Option<ElementConfig>)
      reads this
      ensures r.Some? <==> id in styles
      ensures r.Some? ==> r.value == styles[id]
    {
      if id in styles then Some(styles[id]) else None
    }

    /** The `styledConfig` callback: rewrites the config's attributes in place
        and returns the config. */
    method StyledConfig(id: string) returns (r: Result<ElementConfig>)
      modifies this
      ensures id !in old(styles) ==> r == Failure(MissingConfigMessage) && styles == old(styles)
      ensures id in old(styles) ==> r == WithStyleAttribute(env, old(styles)[id])
      ensures id in old(styles) && r.Success? ==> styles == old(styles)[id := r.value]
      ensures r.Failure? ==> styles == old(styles)
    {
      var cfg := StylesConfig(id);
      if cfg.None? {
        return Failure(MissingConfigMessage);
      }
      r := WithStyleAttribute(env, cfg.value);
      if r.Success? {
        styles := styles[id := r.value];
      }
    }

    /** `jsxBuilder`: `buildJsx` with the style callback, which is called on
        every id it visits, in order. */
    method JsxBuilder(widget: JsxWidget) returns (r: Result<JsxTree>)
      modifies this
      ensures var run := StyleAll(env, old(styles), env.jsxVisitOrder(widget));
        r == TreeOf(env, widget, run) && styles == run.styles
    {
      var ids := env.jsxVisitOrder(widget);
      ghost var start := styles;
      var cfgs: seq<ElementConfig> := [];
      var i := 0;
      assert ids[0..] == ids;
      PrependAllEmpty(StyleAll(env, styles, ids).configs);
      while i < |ids|
        invariant 0 <= i <= |ids|
        invariant var rest := StyleAll(env, styles, ids[i..]);
          StyleAll(env, start, ids) == StyleRun(PrependAll(cfgs, rest.configs), rest.styles)
      {
        assert ids[i..][1..] == ids[i + 1..];
        assert ids[i..][0] == ids[i];
        var cfg := StyledConfig(ids[i]);
        if cfg.Failure? {
          assert StyleAll(env, styles, ids[i..]) == StyleRun(Failure(cfg.error), styles);
          return Failure(cfg.error);
        }
        PrependAllSnoc(cfgs, cfg.value, StyleAll(env, styles, ids[i + 1..]).configs);
        cfgs := cfgs + [cfg.value];
        i := i + 1;
      }
      assert ids[|ids|..] == [];
      assert cfgs + [] == cfgs;
      r := Success(env.assembleJsx(widget, AsPresent(cfgs)));
    }

    /** `partImports`: exactly the React import. */
    function PartImports(): (r: seq<Option<ImportDecl>>)
      ensures r == [Some(ImportReact)]
    {
      [Some(ImportReact)]
    }

    /** `partBody`: a block returning the JSX tree of the entry. */
    method PartBody() returns (r: Result<BlockStatement>)
      modifies this
      ensures var run := StyleAll(env, old(styles), env.jsxVisitOrder(entry));
        styles == run.styles
        && (run.configs.Failure? ==> r == Failure(run.configs.error))
        && (run.configs.Success? ==> r == Success(ReturnBlock(TreeOf(env, entry, run).value)))
    {
      var tree := JsxBuilder(entry);
      if tree.Failure? {
        return Failure(tree.error);
      }
      r := Success(ReturnBlock(tree.value));
    }

    /** `asExportableModule`: the module is named after the entry widget
        (`widgetName`) and carries the body and the React import. */
    method AsExportableModule() returns (r: Result<ExportableModule>)
      modifies this
      ensures var run := StyleAll(env, old(styles), env.jsxVisitOrder(entry));
        styles == run.styles
        && (run.configs.Failure? ==> r == Failure(run.configs.error))
        && (run.configs.Success? ==>
              r == Success(InlineCssExportable(widgetName, ReturnBlock(TreeOf(env, entry, run).value), [Some(ImportReact)])))
    {
      var body := PartBody();
      if body.Failure? {
        return Failure(body.error);
      }
      var imports := PartImports();
      r := Success(InlineCssExportable(widgetName, body.value, imports));
    }
  }

  /** `done` in front of a result. */
  function PrependAll(done: seq<ElementConfig>, rest: Result<seq<ElementConfig>>): Result<seq<ElementConfig>>
  {
    match rest
    case Success(cfgs) => Success(done + cfgs)
    case Failure(e) => Failure(e)
  }

  lemma PrependAllEmpty(rest: Result<seq<ElementConfig>>)
    ensures PrependAll([], rest) == rest
  {
    if rest.Success? {
      assert [] + rest.value == rest.value;
    }
  }

  lemma PrependAllSnoc(done: seq<ElementConfig>, cfg: ElementConfig, rest: Result<seq<ElementConfig>>)
    ensures PrependAll(done, Prepend(cfg, rest)) == PrependAll(done + [cfg], rest)
  {
    if rest.Success? {
      assert done + ([cfg] + rest.value) == (done + [cfg]) + rest.value;
    }
  }
}
