/** React component modules: the exportable module record both React
    builders produce, the file it becomes, and its finalization to code. */
module ReactModule {
  import opened Base
  import opened Jsx
  import opened StyledDeclarations
  import opened StyledConfig

  /** The import declarations the React builders emit. */
  datatype ImportDecl = ImportReact | ImportStyledFromEmotion | ImportStyledFromStyledComponents

  datatype Statement = Return(tree: JsxTree)

  /** A block statement. */
  datatype BlockStatement = Block(statements: seq<Statement>)

  /** The exporting configuration, and the file blocks of a module file. */
  type ExportingConfig(==)
  type FileBlocks(==)

  /** The per-builder part of an exportable module: the inline-CSS module has
      no declarations of its own, the styled-components module stores its
      declarations. */
  datatype ModuleKind = InlineCssModule | StyledComponentsModule(declarations: seq<StyledDeclaration>)

  /** A React exportable module: name, body, imports (an absent import is an
      `undefined` element) and dependencies (absent when not passed). */
  datatype ExportableModule = ExportableModule(
    name: string,
    body: BlockStatement,
    imports: seq<Option<ImportDecl>>,
    dependencies: Option<seq<string>>,
    kind: ModuleKind)

  /** A React module file. */
  datatype ModuleFile = ModuleFile(
    name: string,
    path: string,
    imports: seq<Option<ImportDecl>>,
    declarations: seq<StyledDeclaration>,
    body: BlockStatement,
    exporting: ExportingConfig)

  /** The finalized module. */
  datatype FinalModule = FinalModule(code: string, name: string, dependencies: Option<seq<string>>)

  /** The helpers the React builders call, whose code is not part of this
      model. `jsxVisitOrder` lists the ids `buildJsx` asks the style callback
      for, in order; `assembleJsx` builds the tree from the answers. */
  datatype BuilderEnv = BuilderEnv(
    declarations: DeclarationEnv,
    makeNamer: string -> Namer,
    buildStylesMap: (JsxWidget, Namer, bool) -> map<string, ElementConfig>,
    jsxVisitOrder: JsxWidget -> seq<string>,
    assembleJsx: (JsxWidget, seq<Option<ElementConfig>>) -> JsxTree,
    cssToJson: CssProperties -> seq<(string, string)>,
    emptyCss: CssProperties,
    fileBlocks: ModuleFile -> FileBlocks,
    stringify: (FileBlocks, string) -> string)

  const ComponentsPath := "src/components"

  /** `new BlockStatement(new Return(tree))`. */
  function ReturnBlock(tree: JsxTree): (b: BlockStatement)
    ensures |b.statements| == 1 && b.statements[0] == Return(tree)
  {
    Block([Return(tree)])
  }

  /** The inline-CSS exportable: the base constructor gets no dependencies. */
  function InlineCssExportable(name: string, body: BlockStatement, imports: seq<Option<ImportDecl>>): (m: ExportableModule)
    ensures m.name == name && m.body == body && m.imports == imports
    ensures m.dependencies.None? && m.kind == InlineCssModule
  {
    ExportableModule(name, body, imports, None, InlineCssModule)
  }

  /** The styled-components exportable: it stores exactly the declarations
      given, and accepts `dependencies` without passing them on. */
  function StyledComponentsExportable(name: string, body: BlockStatement, imports: seq<Option<ImportDecl>>,
                                      declarations: seq<StyledDeclaration>, dependencies: seq<string>): (m: ExportableModule)
    ensures m.name == name && m.body == body && m.imports == imports
    ensures m.kind == StyledComponentsModule(declarations)
    ensures m.dependencies.None?
  {
    ExportableModule(name, body, imports, None, StyledComponentsModule(declarations))
  }

  /** `asFile`: the module's own name, imports and body, its declarations
      (none for inline CSS), under "src/components". */
  function AsFile(m: ExportableModule, exporting: ExportingConfig): (f: ModuleFile)
    ensures f.name == m.name && f.path == ComponentsPath && f.imports == m.imports && f.body == m.body
    ensures f.exporting == exporting
    ensures m.kind.InlineCssModule? ==> f.declarations == []
    ensures m.kind.StyledComponentsModule? ==> f.declarations == m.kind.declarations
  {
    var declarations := match m.kind
      case InlineCssModule => []
      case StyledComponentsModule(ds) => ds;
    ModuleFile(m.name, ComponentsPath, m.imports, declarations, m.body, exporting)
  }

  /** `finalize`: the file's blocks stringified as "tsx", with the module's
      name and dependencies returned unchanged. */
  function Finalize(env: BuilderEnv, m: ExportableModule, exporting: ExportingConfig): (r: FinalModule)
    ensures r.code == env.stringify(env.fileBlocks(AsFile(m, exporting)), "tsx")
    ensures r.name == m.name && r.dependencies == m.dependencies
  {
    var file := AsFile(m, exporting);
    FinalModule(env.stringify(env.fileBlocks(file), "tsx"), m.name, m.dependencies)
  }

  /** A finalized styled-components module never reports dependencies,
      whatever dependencies it was built with. */
  lemma StyledDependenciesDropped(env: BuilderEnv, name: string, body: BlockStatement, imports: seq<Option<ImportDecl>>,
                                  declarations: seq<StyledDeclaration>, dependencies: seq<string>, exporting: ExportingConfig)
    ensures Finalize(env, StyledComponentsExportable(name, body, imports, declarations, dependencies), exporting).dependencies.None?
  {
  }
}
