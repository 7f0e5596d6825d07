/** The top-level pipeline: tokenize the entry node (optionally wrapping the
    root in a fixed-size box), try componentization, dispatch to a framework
    backend and, behind a gate, substitute temporary asset keys in the
    generated code and scaffold. */
module DesignToCode {
  import opened Base
  import opened Scene
  import opened Tokens
  import opened Tokenizer

  /** The build options the pipeline reads. */
  datatype BuildConfiguration = BuildConfiguration(
    forceRootWidgetFixedSizeNoScroll: bool,
    disableComponents: bool)

  /** The design repository (components, variants) passed to componentization. */
  type DesignRepository(==)

  /** A componentized widget tree. */
  type ReusableTree(==)

  /** An asset repository and the assets fetched from it. */
  type AssetRepository(==)
  type Assets(==)

  /** Framework-specific configuration records. */
  type ReactConfig(==)
  type FlutterConfig(==)
  type VanillaConfig(==)

  /** Whatever else a generated output carries (name, files, ...). */
  type OutputMeta(==)

  /** The design input: its id, its entry node (absent when none was given)
      and its repository. */
  datatype DesignInput = DesignInput(id: string, entry: Option<Node>, repository: DesignRepository)

  /** The `framework` field of the framework configuration. */
  datatype FrameworkConfig =
    | VanillaFramework(vanilla: VanillaConfig)
    | ReactFramework(react: ReactConfig)
    | FlutterFramework(flutter: FlutterConfig)
    | OtherFramework(name: string)

  /** Asset options; an absent `skip_asset_replacement` reads as false. */
  datatype AssetsConfig = AssetsConfig(assetRepository: Option<AssetRepository>, skipAssetReplacement: bool)

  /** The generated code: the raw component code, the raw scaffold, and the rest. */
  datatype CodeOutputRecord = CodeOutputRecord(code: string, scaffold: string, meta: OutputMeta)

  /** What componentization does: builds a tree, returns a falsy value, or
      throws. */
  datatype ReusableOutcome = ReusableBuilt(tree: ReusableTree) | ReusableFalsy | ReusableRaised

  /** The backends and helpers the pipeline calls, whose code is not part of
      this model. */
  datatype Backends = Backends(
    defaultTokenizerConfig: TokenizerConfig,
    reusable: (Option<Widget>, DesignRepository) -> ReusableOutcome,
    buildReactApp: (Option<Widget>, ReactConfig) -> CodeOutputRecord,
    buildReusableReactApp: ReusableTree -> CodeOutputRecord,
    buildFlutterApp: Option<Widget> -> CodeOutputRecord,
    buildVanillaFile: Option<Widget> -> CodeOutputRecord,
    fetchAllAssets: AssetRepository -> Assets,
    finalizeTemporaryAssets: (string, string, Assets, string) -> string,
    smallestFallbackSource: string)

  /** The key prefix of temporary asset references in generated code. */
  const AssetReplacementPrefix := "grida://assets-reservation/images/"

  /** The message of the unsupported-framework error: the template
      interpolates the whole configuration object, which renders as
      "[object Object]". */
  const UnsupportedFrameworkMessage := "The framework \"[object Object]\" is not supported at this point."

  /** The pipeline's result: the backend output plus the widget token and the
      reusable tree. */
  datatype CodeResult = CodeResult(output: CodeOutputRecord, widget: Option<Widget>, reusableTree: Option<ReusableTree>)

  // ---------------------------------------------------------------------------
  // Root wrapping provider and tokenizer configuration
  // ---------------------------------------------------------------------------

  /** The provider installed by `force_root_widget_fixed_size_no_scroll`:
      only the entry node is wrapped, in an OverflowBox inside a SizedBox of
      the node's own size; for every other node it answers falsy. */
  function RootWrappingProvider(entryId: string): WrappingProvider
  {
    (w: Option<Widget>, n: Option<Node>) =>
      if n.Some? && n.value.id == entryId then Some(SizedBox(OverflowBox(w), n.value.width, n.value.height)) else None
  }

  /** The root provider answers with a box exactly for the entry node. */
  lemma RootProviderWrapsOnlyEntry(entryId: string, w: Option<Widget>, n: Node)
    ensures RootWrappingProvider(entryId)(w, Some(n)).Some? <==> n.id == entryId
    ensures n.id == entryId ==>
      RootWrappingProvider(entryId)(w, Some(n)) == Some(SizedBox(OverflowBox(w), n.width, n.height))
  {
  }

  /** The tokenizer configuration the pipeline uses. */
  function PipelineTokenizerConfig(env: Backends, input: DesignInput, build: BuildConfiguration): (c: TokenizerConfig)
    ensures c == env.defaultTokenizerConfig.(customWrappingProvider := c.customWrappingProvider)
    ensures !build.forceRootWidgetFixedSizeNoScroll ==> c == env.defaultTokenizerConfig
    ensures build.forceRootWidgetFixedSizeNoScroll && input.entry.Some? ==>
      c.customWrappingProvider == Some(RootWrappingProvider(input.entry.value.id))
  {
    if build.forceRootWidgetFixedSizeNoScroll && input.entry.Some? then
      env.defaultTokenizerConfig.(customWrappingProvider := Some(RootWrappingProvider(input.entry.value.id)))
    else env.defaultTokenizerConfig
  }

  /** Under the root provider, every node other than the entry is tokenized
      exactly as without any provider. */
  lemma NonRootNodesUnwrapped(tenv: Collaborators, config: TokenizerConfig, entryId: string, node: Node)
    requires config.customWrappingProvider == Some(RootWrappingProvider(entryId))
    requires node.id != entryId
    ensures NodeHandlerOutcome(tenv, config, node) == NodeOutcome(tenv, config, node).0
  {
    var (token, after) := NodeOutcome(tenv, config, node);
    assert after.id == node.id by {
      if !TypeMissing(node) {
        var hb := HandleByTypes(tenv, config, node);
        assert hb.1 == node.(width := hb.1.width);
      }
    }
  }

  /** Under the root provider, the entry node always yields the fixed-size
      box around its own token, sized by the node as tokenized. */
  lemma EntryNodeBoxed(tenv: Collaborators, config: TokenizerConfig, node: Node)
    requires config.customWrappingProvider == Some(RootWrappingProvider(node.id))
    ensures var (token, after) := NodeOutcome(tenv, config, node);
      NodeHandlerOutcome(tenv, config, node) == Some(SizedBox(OverflowBox(token), after.width, after.height))
  {
    var (token, after) := NodeOutcome(tenv, config, node);
    assert after.id == node.id by {
      if !TypeMissing(node) {
        var hb := HandleByTypes(tenv, config, node);
        assert hb.1 == node.(width := hb.1.width);
      }
    }
  }

  // ---------------------------------------------------------------------------
  // Componentization and the asset gate
  // ---------------------------------------------------------------------------

  /** The reusable tree: built only with components enabled; a falsy answer
      or a throwing componentization leaves it falsy. */
  function ReusableTreeOf(env: Backends, build: BuildConfiguration, widget: Option<Widget>, repository: DesignRepository): (t: Option<ReusableTree>)
    ensures build.disableComponents ==> t.None?
    ensures t.Some? <==> !build.disableComponents && env.reusable(widget, repository).ReusableBuilt?
    ensures t.Some? ==> env.reusable(widget, repository) == ReusableBuilt(t.value)
  {
    if build.disableComponents then None
    else match env.reusable(widget, repository)
      case ReusableBuilt(tree) => Some(tree)
      case ReusableFalsy => None
      case ReusableRaised => None
  }

  /** Asset substitution is applied only with a repository and without the
      skip option. */
  predicate ShouldReplaceAssets(assetConfig: Option<AssetsConfig>)
  {
    assetConfig.Some? && assetConfig.value.assetRepository.Some? && !assetConfig.value.skipAssetReplacement
  }

  /** `dangerous_temporary_asset_replacer`. */
  function ReplaceTemporaryAssets(env: Backends, raw: string, assets: Assets): string
  {
    env.finalizeTemporaryAssets(raw, AssetReplacementPrefix, assets, env.smallestFallbackSource)
  }

  /** A backend's output object, whose code and scaffold the asset gate
      overwrites in place. */
  class CodeOutput {
    var code: string
    var scaffold: string
    const meta: OutputMeta

    constructor(built: CodeOutputRecord)
      ensures code == built.code && scaffold == built.scaffold && meta == built.meta
    {
      code := built.code;
      scaffold := built.scaffold;
      meta := built.meta;
    }

    function Record(): (r: CodeOutputRecord)
      reads this
      ensures r.code == code && r.scaffold == scaffold && r.meta == meta
    {
      CodeOutputRecord(code, scaffold, meta)
    }

    /** Rewrites both the code and the scaffold with the same assets. */
    method FinalizeTemporaryAssets(env: Backends, assets: Assets)
      modifies this
      ensures code == ReplaceTemporaryAssets(env, old(code), assets)
      ensures scaffold == ReplaceTemporaryAssets(env, old(scaffold), assets)
    {
      code := ReplaceTemporaryAssets(env, code, assets);
      scaffold := ReplaceTemporaryAssets(env, scaffold, assets);
    }
  }

  /** The output after the asset gate: unchanged when the gate is closed,
      both parts rewritten with the assets fetched once when it is open. */
  function GatedOutput(env: Backends, built: CodeOutputRecord, assetConfig: Option<AssetsConfig>): (r: CodeOutputRecord)
    ensures r.meta == built.meta
    ensures !ShouldReplaceAssets(assetConfig) ==> r == built
    ensures ShouldReplaceAssets(assetConfig) ==>
      var assets := env.fetchAllAssets(assetConfig.value.assetRepository.value);
      r.code == env.finalizeTemporaryAssets(built.code, "grida://assets-reservation/images/", assets, env.smallestFallbackSource)
      && r.scaffold == env.finalizeTemporaryAssets(built.scaffold, "grida://assets-reservation/images/", assets, env.smallestFallbackSource)
  {
    if ShouldReplaceAssets(assetConfig) then
      var assets := env.fetchAllAssets(assetConfig.value.assetRepository.value);
      built.(code := ReplaceTemporaryAssets(env, built.code, assets),
             scaffold := ReplaceTemporaryAssets(env, built.scaffold, assets))
    else built
  }

  /** Runs the asset gate on a freshly built output object. */
  method ApplyAssetGate(env: Backends, built: CodeOutputRecord, assetConfig: Option<AssetsConfig>) returns (out: CodeOutputRecord)
    ensures out == GatedOutput(env, built, assetConfig)
  {
    var res := new CodeOutput(built);
    if assetConfig.Some? && assetConfig.value.assetRepository.Some? && !assetConfig.value.skipAssetReplacement {
      var assets := env.fetchAllAssets(assetConfig.value.assetRepository.value);
      res.FinalizeTemporaryAssets(env, assets);
    }
    out := res.Record();
  }

  // ---------------------------------------------------------------------------
  // Backends
  // ---------------------------------------------------------------------------

  /** React takes the plain build when components are disabled or no
      reusable tree exists. */
  predicate UsesPlainReactBuild(build: BuildConfiguration, tree: Option<ReusableTree>)
  {
    build.disableComponents || tree.None?
  }

  /** `designToReact`: the plain build goes through the asset gate; the
      experimental reusable build is returned as is. */
  method DesignToReact(env: Backends, widget: Option<Widget>, tree: Option<ReusableTree>, build: BuildConfiguration,
                       reactConfig: ReactConfig, assetConfig: Option<AssetsConfig>)
    returns (out: CodeOutputRecord)
    ensures UsesPlainReactBuild(build, tree) ==> out == GatedOutput(env, env.buildReactApp(widget, reactConfig), assetConfig)
    ensures !UsesPlainReactBuild(build, tree) ==> out == env.buildReusableReactApp(tree.value)
  {
    if build.disableComponents || tree.None? {
      out := ApplyAssetGate(env, env.buildReactApp(widget, reactConfig), assetConfig);
    } else {
      out := env.buildReusableReactApp(tree.value);
    }
  }

  /** `designToFlutter`. */
  method DesignToFlutter(env: Backends, widget: Option<Widget>, assetConfig: Option<AssetsConfig>)
    returns (out: CodeOutputRecord)
    ensures out == GatedOutput(env, env.buildFlutterApp(widget), assetConfig)
  {
    out := ApplyAssetGate(env, env.buildFlutterApp(widget), assetConfig);
  }

  /** `designToVanilla`. */
  method DesignToVanilla(env: Backends, widget: Option<Widget>, assetConfig: Option<AssetsConfig>)
    returns (out: CodeOutputRecord)
    ensures out == GatedOutput(env, env.buildVanillaFile(widget), assetConfig)
  {
    out := ApplyAssetGate(env, env.buildVanillaFile(widget), assetConfig);
  }

  /** The backend output for a framework, or the unsupported-framework error. */
  function FrameworkOutput(env: Backends, framework: FrameworkConfig, widget: Option<Widget>, tree: Option<ReusableTree>,
                           build: BuildConfiguration, assetConfig: Option<AssetsConfig>): (r: Result<CodeOutputRecord>)
    ensures r.Failure? <==> framework.OtherFramework?
    ensures r.Failure? ==> r.error == UnsupportedFrameworkMessage
  {
    match framework
    case VanillaFramework(_) => Success(GatedOutput(env, env.buildVanillaFile(widget), assetConfig))
    case ReactFramework(rc) =>
      if UsesPlainReactBuild(build, tree) then Success(GatedOutput(env, env.buildReactApp(widget, rc), assetConfig))
      else Success(env.buildReusableReactApp(tree.value))
    case FlutterFramework(_) => Success(GatedOutput(env, env.buildFlutterApp(widget), assetConfig))
    case OtherFramework(_) => Failure(UnsupportedFrameworkMessage)
  }

  /** `designToCode`: tokenizes the entry with the pipeline configuration
      (recording it as the tokenizer's current config), builds the reusable
      tree, and dispatches on the framework; the result carries the widget
      token and the reusable tree next to the backend output. */
  method DesignToCode(tokenizer: Tokenizer, env: Backends, input: DesignInput, framework: FrameworkConfig,
                      assetConfig: Option<AssetsConfig>, build: BuildConfiguration)
    returns (r: Result<CodeResult>)
    modifies tokenizer
    ensures input.entry.None? ==> r == Failure(InvalidNodeMessage)
    ensures input.entry.None? ==> tokenizer.currentConfig == old(tokenizer.currentConfig)
    ensures input.entry.Some? ==> tokenizer.currentConfig == Some(PipelineTokenizerConfig(env, input, build))
    ensures input.entry.Some? ==>
      var widget := NodeHandlerOutcome(tokenizer.env, PipelineTokenizerConfig(env, input, build), input.entry.value);
      var tree := ReusableTreeOf(env, build, widget, input.repository);
      match FrameworkOutput(env, framework, widget, tree, build, assetConfig)
      case Success(out) => r == Success(CodeResult(out, widget, tree))
      case Failure(e) => r == Failure(e)
  {
    var config := PipelineTokenizerConfig(env, input, build);
    var token := tokenizer.Tokenize(input.entry, config);
    if token.Failure? {
      return Failure(token.error);
    }
    var widget := token.value;
    var tree: Option<ReusableTree> := None;
    if !build.disableComponents {
      var outcome := env.reusable(widget, input.repository);
      if outcome.ReusableBuilt? {
        tree := Some(outcome.tree);
      }
    }
    var out: CodeOutputRecord;
    match framework {
      case VanillaFramework(_) =>
        out := DesignToVanilla(env, widget, assetConfig);
      case ReactFramework(rc) =>
        out := DesignToReact(env, widget, tree, build, rc, assetConfig);
      case FlutterFramework(_) =>
        out := DesignToFlutter(env, widget, assetConfig);
      case OtherFramework(_) =>
        return Failure(UnsupportedFrameworkMessage);
    }
    r := Success(CodeResult(out, widget, tree));
  }

  /** The supported frameworks never fail once the entry is tokenized, and
      each goes to its own backend. */
  lemma SupportedFrameworksRoute(env: Backends, framework: FrameworkConfig, widget: Option<Widget>, tree: Option<ReusableTree>,
                                 build: BuildConfiguration, assetConfig: Option<AssetsConfig>)
    requires !framework.OtherFramework?
    ensures var r := FrameworkOutput(env, framework, widget, tree, build, assetConfig);
      && r.Success?
      && (framework.VanillaFramework? ==> r.value == GatedOutput(env, env.buildVanillaFile(widget), assetConfig))
      && (framework.ReactFramework? && UsesPlainReactBuild(build, tree) ==>
            r.value == GatedOutput(env, env.buildReactApp(widget, framework.react), assetConfig))
      && (framework.ReactFramework? && !UsesPlainReactBuild(build, tree) ==>
            r.value == env.buildReusableReactApp(tree.value))
      && (framework.FlutterFramework? ==> r.value == GatedOutput(env, env.buildFlutterApp(widget), assetConfig))
  {
  }

  /** The experimental reusable React build never goes through the asset
      gate, whatever the asset configuration. */
  lemma ReusableReactSkipsAssets(env: Backends, rc: ReactConfig, widget: Option<Widget>, tree: ReusableTree,
                                 build: BuildConfiguration, a1: Option<AssetsConfig>, a2: Option<AssetsConfig>)
    requires !build.disableComponents
    ensures FrameworkOutput(env, ReactFramework(rc), widget, Some(tree), build, a1)
         == FrameworkOutput(env, ReactFramework(rc), widget, Some(tree), build, a2)
  {
  }
}
