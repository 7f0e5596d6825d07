/** The per-element config of the styled builders: the element's id, tag,
    attributes and, when it is styled, its style and declaration. */
module StyledConfig {
  import opened Base
  import opened Jsx
  import opened StyledDeclarations

  /** An element config. The styled form has an id, the widget's final style
      and the declaration; the unstyled form has no id, no style
      (`UndefinedStyle`) and no declaration. */
  datatype ElementConfig = ElementConfig(
    id: Option<string>,
    tag: Tag,
    attributes: Option<seq<AttrEntry>>,
    style: StyleValue,
    styledComponent: Option<StyledDeclaration>)

  /** The options of `buildStyledComponentConfig`. */
  datatype StyledConfigOptions = StyledConfigOptions(namer: Namer, renameTag: bool, transformRootName: bool, root: bool)

  /** `"root wrapper " + name` for a root element with root-name transformation
      on; falsy otherwise. */
  function RootKeyName(options: StyledConfigOptions, name: string): (r: Option<string>)
    ensures r.Some? <==> options.root && options.transformRootName
    ensures r.Some? ==> r.value == "root wrapper " + name
  {
    if options.root && options.transformRootName then Some("root wrapper " + name) else None
  }

  /** The tag after the optional rename: only a JSX identifier is renamed,
      and only when renaming is on. */
  function RenamedTag(tag: Tag, renameTag: bool, newName: string): (r: Tag)
    ensures r != tag ==> renameTag && tag.JsxIdentifier? && r == JsxIdentifier(newName)
    ensures renameTag && tag.JsxIdentifier? ==> r == JsxIdentifier(newName)
  {
    if tag.JsxIdentifier? && renameTag then JsxIdentifier(newName) else tag
  }

  /** `buildStyledComponentConfig`, with `handle` as the tag normaliser. */
  function BuildStyledComponentConfig(env: DeclarationEnv, handle: Tag -> Tag, widget: JsxWidget, options: StyledConfigOptions): (r: ElementConfig)
    ensures r.attributes == widget.jsxConfig.attributes
    ensures r.styledComponent.Some? <==> widget.finalStyle != NullStyle
    ensures r.styledComponent.Some? ==>
      && r.id == Some(r.styledComponent.value.name)
      && r.style == widget.finalStyle
      && r.tag == handle(RenamedTag(widget.jsxConfig.tag, options.renameTag, r.styledComponent.value.name))
    ensures r.styledComponent.None? ==> r.id.None? && r.style == UndefinedStyle && r.tag == handle(widget.jsxConfig.tag)
  {
    var pref := NamePreference(options.namer, RootKeyName(options, widget.key.name), None);
    var decl := ComposeDeclaration(env, widget, pref);
    var tag := widget.jsxConfig.tag;
    if decl.Some? then
      ElementConfig(Some(decl.value.name), handle(RenamedTag(tag, options.renameTag, decl.value.name)),
                    widget.jsxConfig.attributes, widget.finalStyle, decl)
    else ElementConfig(None, handle(tag), widget.jsxConfig.attributes, UndefinedStyle, None)
  }

  /** The declared variable name: "root wrapper <name>" in PascalCase for a
      transformed root, the namer's name otherwise. */
  lemma StyledConfigName(env: DeclarationEnv, handle: Tag -> Tag, widget: JsxWidget, options: StyledConfigOptions)
    requires widget.finalStyle != NullStyle
    ensures var r := BuildStyledComponentConfig(env, handle, widget, options);
      && (options.root && options.transformRootName ==> r.id == Some(env.pascal("root wrapper " + widget.key.name)))
      && (!(options.root && options.transformRootName) ==> r.id == Some(env.nameit(options.namer, widget.key.name)))
  {
    var pref := NamePreference(options.namer, RootKeyName(options, widget.key.name), None);
    assert !Truthy(pref.overrideFinalName);
    if options.root && options.transformRootName {
      assert |"root wrapper " + widget.key.name| > 0;
    }
  }

  /** Without tag renaming the tag is never renamed, styled or not. */
  lemma NoRenameKeepsTag(env: DeclarationEnv, handle: Tag -> Tag, widget: JsxWidget, options: StyledConfigOptions)
    requires !options.renameTag
    ensures BuildStyledComponentConfig(env, handle, widget, options).tag == handle(widget.jsxConfig.tag)
  {
  }

  /** A tag that is not a JSX identifier keeps its form even with renaming on,
      and the styled config is still produced. */
  lemma OtherTagNotRenamed(env: DeclarationEnv, handle: Tag -> Tag, widget: JsxWidget, options: StyledConfigOptions)
    requires widget.jsxConfig.tag.OtherTag? && widget.finalStyle != NullStyle
    ensures var r := BuildStyledComponentConfig(env, handle, widget, options);
      r.tag == handle(widget.jsxConfig.tag) && r.styledComponent.Some?
  {
  }
}
