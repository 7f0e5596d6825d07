/** The React styled-components builder: element configs come from a
    deduplicating styles repository, and the module declares one styled
    component per unique style. */
module ReactStyledComponents {
  import opened Base
  import opened Jsx
  import opened StyledDeclarations
  import opened StyledConfig
  import opened ReactModule

  /** The deduplicating styles repository built from the styles map. */
  type StylesRepository(==)

  /** The repository operations, whose code is not part of this model:
      construction from the styles map, `uniques()` and `get(id)`. */
  datatype RepositoryEnv = RepositoryEnv(
    makeRepository: map<string, ElementConfig> -> StylesRepository,
    uniques: StylesRepository -> seq<string>,
    get: (StylesRepository, string) -> Option<ElementConfig>)

  /** The styled-components configuration: the module styled comes from. */
  datatype StyledComponentsConfig = StyledComponentsConfig(styledModule: string)

  const EmotionStyledModule := "@emotion/styled"
  const StyledComponentsModuleName := "styled-components"
  const UndefinedConfigMessage := "TypeError: Cannot read properties of undefined (reading 'styledComponent')"

  /** The builder's fields, set once by its constructor. */
  datatype ReactStyledComponentsBuilder = ReactStyledComponentsBuilder(
    entry: JsxWidget,
    widgetName: string,
    namer: Namer,
    styles: map<string, ElementConfig>,
    repository: StylesRepository,
    config: StyledComponentsConfig)

  /** The constructor: the styles map is built with tag renaming on, and the
      repository is built from that map. */
  function NewBuilder(env: BuilderEnv, repo: RepositoryEnv, entry: JsxWidget, config: StyledComponentsConfig): (b: ReactStyledComponentsBuilder)
    ensures b.entry == entry && b.config == config && b.widgetName == entry.key.name
    ensures b.namer == env.makeNamer(entry.key.id)
    ensures b.styles == env.buildStylesMap(entry, b.namer, true)
    ensures b.repository == repo.makeRepository(b.styles)
  {
    var namer := env.makeNamer(entry.key.id);
    var styles := env.buildStylesMap(entry, namer, true);
    ReactStyledComponentsBuilder(entry, entry.key.name, namer, styles, repo.makeRepository(styles), config)
  }

  /** `partImportStyled`: the import for the configured module; no other
      module has a case, so the import is absent. */
  function PartImportStyled(styledModule: string): (r: Option<ImportDecl>)
    ensures r == Some(ImportStyledFromEmotion) <==> styledModule == EmotionStyledModule
    ensures r == Some(ImportStyledFromStyledComponents) <==> styledModule == StyledComponentsModuleName
    ensures r.None? <==> styledModule != EmotionStyledModule && styledModule != StyledComponentsModuleName
  {
    if styledModule == EmotionStyledModule then Some(ImportStyledFromEmotion)
    else if styledModule == StyledComponentsModuleName then Some(ImportStyledFromStyledComponents)
    else None
  }

  /** `partImports`: React first, then the styled import. */
  function PartImports(b: ReactStyledComponentsBuilder): (r: seq<Option<ImportDecl>>)
    ensures |r| == 2 && r[0] == Some(ImportReact) && r[1] == PartImportStyled(b.config.styledModule)
  {
    [Some(ImportReact), PartImportStyled(b.config.styledModule)]
  }

  /** The styled components of the unique keys' configs, or an error at the
      first key the repository has no config for. */
  function StyledComponentsOf(repo: RepositoryEnv, repository: StylesRepository, keys: seq<string>): (r: Result<seq<Option<StyledDeclaration>>>)
    ensures r.Success? <==> forall i :: 0 <= i < |keys| ==> repo.get(repository, keys[i]).Some?
    ensures r.Success? ==> (|r.value| == |keys|
      && forall i :: 0 <= i < |keys| ==> r.value[i] == repo.get(repository, keys[i]).value.styledComponent)
  {
    if |keys| == 0 then Success([])
    else
      var first := repo.get(repository, keys[0]);
      var rest := StyledComponentsOf(repo, repository, keys[1..]);
      assert forall i :: 1 <= i < |keys| ==> keys[i] == keys[1..][i - 1];
      if first.None? then Failure(UndefinedConfigMessage)
      else if rest.Failure? then rest
      else Success([first.value.styledComponent] + rest.value)
  }

  /** `partDeclarations`: one declaration per unique key, in `uniques()`
      order, dropping configs without a styled component. */
  function PartDeclarations(repo: RepositoryEnv, b: ReactStyledComponentsBuilder): (r: Result<seq<StyledDeclaration>>)
    ensures var keys := repo.uniques(b.repository);
      r.Success? <==> forall i :: 0 <= i < |keys| ==> repo.get(b.repository, keys[i]).Some?
  {
    var found := StyledComponentsOf(repo, b.repository, repo.uniques(b.repository));
    if found.Success? then Success(Somes(found.value)) else Failure(found.error)
  }

  /** Declarations are exactly the present styled components of the unique
      keys' configs, and keep the `uniques()` order. */
  lemma PartDeclarationsSelect(repo: RepositoryEnv, b: ReactStyledComponentsBuilder, i: nat, j: nat)
    requires PartDeclarations(repo, b).Success?
    requires var keys := repo.uniques(b.repository);
      i < j < |keys|
      && repo.get(b.repository, keys[i]).value.styledComponent.Some?
      && repo.get(b.repository, keys[j]).value.styledComponent.Some?
    ensures var keys := repo.uniques(b.repository);
      var found := StyledComponentsOf(repo, b.repository, keys).value;
      var decls := PartDeclarations(repo, b).value;
      && KeptBefore(IsSome(), found, i) < KeptBefore(IsSome(), found, j) < |decls|
      && decls[KeptBefore(IsSome(), found, i)] == repo.get(b.repository, keys[i]).value.styledComponent.value
      && decls[KeptBefore(IsSome(), found, j)] == repo.get(b.repository, keys[j]).value.styledComponent.value
  {
    var found := StyledComponentsOf(repo, b.repository, repo.uniques(b.repository)).value;
    SomesKeepsOrder(found, i, j);
  }

  /** Every declaration comes from a unique key's config. */
  lemma PartDeclarationsFromUniques(repo: RepositoryEnv, b: ReactStyledComponentsBuilder, d: StyledDeclaration)
    requires PartDeclarations(repo, b).Success? && d in PartDeclarations(repo, b).value
    ensures exists i :: (0 <= i < |repo.uniques(b.repository)|
      && repo.get(b.repository, repo.uniques(b.repository)[i]).value.styledComponent == Some(d))
  {
    var found := StyledComponentsOf(repo, b.repository, repo.uniques(b.repository)).value;
    SomesMembers(found, d);
    var i :| 0 <= i < |found| && found[i] == Some(d);
  }

  /** Every unique key whose config has a styled component contributes it
      to the declarations. */
  lemma PresentComponentDeclared(repo: RepositoryEnv, b: ReactStyledComponentsBuilder, i: nat)
    requires PartDeclarations(repo, b).Success?
    requires var keys := repo.uniques(b.repository);
      i < |keys| && repo.get(b.repository, keys[i]).value.styledComponent.Some?
    ensures repo.get(b.repository, repo.uniques(b.repository)[i]).value.styledComponent.value
      in PartDeclarations(repo, b).value
  {
    var keys := repo.uniques(b.repository);
    var found := StyledComponentsOf(repo, b.repository, keys).value;
    var d := repo.get(b.repository, keys[i]).value.styledComponent.value;
    assert found[i] == Some(d);
    SomesMembers(found, d);
  }

  /** The repository's config for each of `ids`, in order. */
  function RepositoryConfigs(repo: RepositoryEnv, repository: StylesRepository, ids: seq<string>): seq<Option<ElementConfig>>
  {
    seq(|ids|, i requires 0 <= i < |ids| => repo.get(repository, ids[i]))
  }

  /** `partBody`: a block returning the JSX tree built from repository
      lookups. */
  function PartBody(env: BuilderEnv, repo: RepositoryEnv, b: ReactStyledComponentsBuilder): (r: BlockStatement)
    ensures |r.statements| == 1 && r.statements[0].Return?
  {
    ReturnBlock(env.assembleJsx(b.entry, RepositoryConfigs(repo, b.repository, env.jsxVisitOrder(b.entry))))
  }

  /** Two builders that share entry and repository build the same body, even
      when their raw styles maps differ. */
  lemma BodyIgnoresRawMap(env: BuilderEnv, repo: RepositoryEnv, b1: ReactStyledComponentsBuilder, b2: ReactStyledComponentsBuilder)
    requires b1.entry == b2.entry && b1.repository == b2.repository
    ensures PartBody(env, repo, b1) == PartBody(env, repo, b2)
  {
  }

  /** The body reads the repository only at the ids the JSX builder visits:
      two builders with the same entry whose repositories give the same
      configs for every visited id build the same body. */
  lemma BodyReadsVisitedConfigs(env: BuilderEnv, repo: RepositoryEnv, b1: ReactStyledComponentsBuilder, b2: ReactStyledComponentsBuilder)
    requires b1.entry == b2.entry
    requires forall id :: id in env.jsxVisitOrder(b1.entry) ==> repo.get(b1.repository, id) == repo.get(b2.repository, id)
    ensures PartBody(env, repo, b1) == PartBody(env, repo, b2)
  {
    var ids := env.jsxVisitOrder(b1.entry);
    var c1 := RepositoryConfigs(repo, b1.repository, ids);
    var c2 := RepositoryConfigs(repo, b2.repository, ids);
    forall i | 0 <= i < |ids|
      ensures c1[i] == c2[i]
    {
      assert ids[i] in ids;
    }
    assert c1 == c2;
  }

  /** `asExportableModule`: body, imports and declarations go into the
      styled-components exportable, with `["react", module]` as its (dropped)
      dependencies. */
  function AsExportableModule(env: BuilderEnv, repo: RepositoryEnv, b: ReactStyledComponentsBuilder): (r: Result<ExportableModule>)
    ensures r.Success? <==> PartDeclarations(repo, b).Success?
    ensures r.Success? ==>
      && r.value.name == b.widgetName
      && r.value.body == PartBody(env, repo, b)
      && r.value.imports == PartImports(b)
      && r.value.kind == StyledComponentsModule(PartDeclarations(repo, b).value)
      && r.value.dependencies.None?
  {
    var body := PartBody(env, repo, b);
    var imports := PartImports(b);
    var declarations := PartDeclarations(repo, b);
    if declarations.Failure? then Failure(declarations.error)
    else Success(StyledComponentsExportable(b.widgetName, body, imports, declarations.value, ["react", b.config.styledModule]))
  }

  /** The module file lists the builder's own declarations under
      "src/components". */
  lemma StyledFileLayout(env: BuilderEnv, repo: RepositoryEnv, b: ReactStyledComponentsBuilder, exporting: ExportingConfig)
    requires AsExportableModule(env, repo, b).Success?
    ensures var f := AsFile(AsExportableModule(env, repo, b).value, exporting);
      f.path == ComponentsPath && f.declarations == PartDeclarations(repo, b).value
      && f.imports == PartImports(b) && f.name == b.widgetName
  {
  }
}
