# designto-code: the decision logic, modelled in Dafny

This project models the core of the design-to-code pipeline. The pipeline turns a design-tool
scene graph into a tree of widget tokens, then into React, Flutter or vanilla code. The model
covers the decisions the pipeline makes along the way:

- **Tokenizer** (`tokenizer.dfy`, module `Tokenizer`):
  - per-node dispatch in a fixed precedence order: flag gate, image detection, icon detection, masking, then type dispatch;
  - the fixed wrapper nesting of `post_wrap`;
  - the text-width padding heuristic and the fallback for unknown node types;
  - processing of child lists (`dynamicGenerator`, `handleChildren`);
  - the custom wrapping provider.
- **Pipeline** (`design_to_code.dfy`, module `DesignToCode`):
  - the root fixed-size wrapping provider;
  - componentization;
  - dispatch on the framework;
  - the asset-replacement gate, which rewrites the generated code and scaffold in place.
- **Styled-component declarations and element configs** (`styled_declaration.dfy`, `styled_config.dfy`):
  - the `styled.<tag>` tagged template with its CSS body;
  - the choice of the variable name;
  - the element config of a styled or unstyled element.
- **React builders** (`react_module.dfy`, `react_inline_css.dfy`, `react_styled_components.dfy`):
  - the exportable module record, its file and its finalization;
  - the inline-CSS builder, which writes a `style` attribute into every element config of its styles map while the JSX tree is built;
  - the styled-components builder, which declares one styled component per unique style.
- **Flutter makers and wrappers** (`flutter_make.dfy`, `flutter_wrappers.dfy`):
  - BoxDecoration and background selection;
  - the ShapeBorder;
  - network images;
  - the MaterialApp and its `Builder(...)` template;
  - the opacity and rotation wrappers.

Shared definitions live in `base.dfy` (Option, Result, JavaScript `split`/`join`/`filter`),
`scene.dfy` (design nodes), `tokens.dfy` (widget tokens and wrappers) and `jsx.dfy` (JSX trees,
tags, attributes and style values).

Collaborators whose code is not part of this model are fields of function type in environment
records, and their results are abstract types. These records are `Collaborators`, `Backends`,
`DeclarationEnv`, `BuilderEnv`, `RepositoryEnv` and `FlutterEnv`. They stand for:

- the detectors, the flag gate and the masking test;
- the `tokenize*` constructors;
- `buildJsx`, `cssToJson` and `buildCSSStyleData`;
- the namers and the styles repository;
- `stringfy`;
- the asset fetch and substitution functions;
- the Flutter color, gradient, border and radius makers;
- the `wrap_with_*` helpers' reading of the node: each wrapper token carries an abstract
  detail `wrapDetail(kind, node)` next to its child.

The model states what the pipeline does with their answers, for every possible answer, except
where "## Left out" says otherwise.

Where the source has state that changes step by step, the model is imperative:

- `handleNode` and `post_wrap` reassign the token stage by stage.
- `dynamicGenerator` and `handleChildren` loop over their children.
- The module-level current config belongs to a `Tokenizer` object.
- The asset gate overwrites `code.raw` and `scaffold.raw` of a `CodeOutput` object.
- The inline-CSS builder's style callback overwrites entries of its styles map.

Each such method is proved against a specification function, and the properties are lemmas about
that function.

JavaScript semantics made explicit:

- `split` keeps empty pieces.
- `??` treats `null` and `undefined` alike.
- `!== null` lets `undefined` through, so a final style is `NullStyle`, `UndefinedStyle` or `StyleProps`.
- `find` throws when it reads the name of an `undefined` attribute entry.
- Reading a property of a missing map entry or of a null config throws a `TypeError`, modelled as a `Failure` carrying the message.
- `Math.round(x)` is `floor(x + 1/2)`.
- The unsupported-framework message interpolates the whole configuration object, which renders as `[object Object]`.

## Model

| member | source | states |
|---|---|---|
| Base.Split | packages/designto-token/main.ts:301 | `split` always yields at least one piece |
| Base.SplitLength | packages/designto-token/main.ts:301 | the number of pieces is one more than the number of separators |
| Base.SplitJoin | packages/designto-token/main.ts:301 | joining the pieces with the separator gives back the string |
| Base.Filter | packages/designto-token/main.ts:89-91 | `filter` keeps only elements satisfying the predicate, taken from the input, never more of them |
| Base.FilterKeeps | packages/designto-token/main.ts:89-91 | every element satisfying the predicate survives `filter` |
| Base.FilterPosition | packages/designto-token/main.ts:89-91 | `filter` never reorders: a kept element sits after exactly the kept elements before it |
| Base.SomesKeepsOrder | packages/designto-token/main.ts:97 | dropping empty widgets keeps the survivors in their original order |
| Base.SomesMembers | packages/designto-token/main.ts:97 | exactly the present widgets survive the empty-widget filter |
| Tokenizer.Tokenizer.Tokenize | packages/designto-token/main.ts:45-54 | no node throws the invalid-node message and leaves the current config; otherwise the config is recorded and the node handler's result returned |
| Tokenizer.DynamicGenerator | packages/designto-token/main.ts:71-102 | the loop yields exactly `Generate`: one node through the handler; a non-empty array masking-filtered, handled in order, empties dropped |
| Tokenizer.GeneratedArrayMembers | packages/designto-token/main.ts:86-98 | a widget is in an array result iff some child kept by the masking sanitizer was handled into it; no more widgets than children |
| Tokenizer.GeneratedArrayOrder | packages/designto-token/main.ts:86-98 | surviving widgets keep the order of the children they come from |
| Tokenizer.NodeHandler | packages/designto-token/main.ts:75-84 | the handler tokenizes the node and hands the token and the node as tokenized to the custom wrapping provider |
| Tokenizer.WithCustomWrappingProvider | packages/designto-token/main.ts:104-118 | the provider's answer replaces the token only when it is truthy; without a provider the token is kept |
| Tokenizer.Tokenizer.HandleChildren | packages/designto-token/main.ts:125-140 | the loop yields exactly `ChildrenOutcome` for the current config |
| Tokenizer.ChildrenKeepPositions | packages/designto-token/main.ts:125-140 | built widgets pass through at their position, nodes are tokenized in place; the call throws iff a node meets a null config, never with a given config |
| Tokenizer.HandleNode | packages/designto-token/main.ts:142-248 | the stage-by-stage reassignment yields exactly `NodeOutcome` |
| Tokenizer.MissingTypeYieldsNothing | packages/designto-token/main.ts:146-151 | a node without a type gives no widget and is left untouched |
| Tokenizer.FlagErrorIsSwallowed | packages/designto-token/main.ts:161-165 | a throwing flag gate behaves exactly like one that builds nothing |
| Tokenizer.FlagGateSkipped | packages/designto-token/main.ts:157-160 | with flags disabled, or the flag ignored for the node, the gate's answer never matters |
| Tokenizer.FlagWidgetIsWrapped | packages/designto-token/main.ts:156-242 | a flagged widget skips detection and type dispatch and goes through `post_wrap` |
| Tokenizer.ImageDetectionShortCircuits | packages/designto-token/main.ts:175-180 | without a flag widget, a detected image is returned unwrapped, even with detection disabled |
| Tokenizer.IconDetectionGated | packages/designto-token/main.ts:182-201 | with detection disabled the icon detector's answer never matters |
| Tokenizer.MaskingOverridesFlag | packages/designto-token/main.ts:217-234 | a masking container's token replaces a flag widget; when the masking tokenizer builds nothing, type dispatch takes over |
| Tokenizer.TypedNodeYieldsWidget | packages/designto-token/main.ts:231-247 | every node with a type yields a widget |
| Tokenizer.PostWrap | packages/designto-token/main.ts:250-284 | the step-by-step wrapping equals applying the wrapper plan of the node to the token |
| Tokenizer.WrapBlurs | packages/designto-token/main.ts:268-277 | the effect loop applies exactly the blur plan of the effect list |
| Tokenizer.ApplyAllAppend | packages/designto-token/main.ts:250-284 | applying two plans in sequence is applying their concatenation |
| Tokenizer.BlurPlanFollowsEffects | packages/designto-token/main.ts:268-277 | one blur wrapper per blur effect, of that effect's kind, in effect-list order; other effects ignored |
| Tokenizer.BlurPlanSameClassifier | packages/designto-token/main.ts:268-277 | the blur wrappers depend only on the blur classification of the effects |
| Tokenizer.WrapPlanOrdered | packages/designto-token/main.ts:250-284 | wrappers nest in the fixed order stretched, expanded, opacity, blurs, rotation |
| Tokenizer.WrapPlanMembers | packages/designto-token/main.ts:256-281 | each single wrapper is applied iff its predicate holds |
| Tokenizer.WrapPlanNoRepeats | packages/designto-token/main.ts:256-281 | stretched, expanded, opacity and rotation are each applied at most once |
| Tokenizer.AllTriggersNesting | packages/designto-token/main.ts:250-284 | with every trigger and one layer blur the result is Rotation(LayerBlurred(Opacity(Expanded(Stretched(w))))), each wrapper carrying its detail read from the node |
| Tokenizer.PostWrapSameCollaborators | packages/designto-token/main.ts:250-284 | the wrapping depends only on the wrapper predicates, the blur classification and the details the helpers read from the node |
| Tokenizer.PaddedTextWidth | packages/designto-token/main.ts:301-309 | no space keeps the width; one space in at most 6 UTF-16 code units adds 1; other texts under 30 code units add 2; longer texts keep it |
| Tokenizer.AstralTextPadding | packages/designto-token/main.ts:301-309 | "hi" and two emoji (5 characters, 7 code units) at width 10 is padded to 12 |
| Base.Utf16Length | packages/designto-token/main.ts:302 | `.length` counts code units: between one and two per character |
| Base.BmpUtf16Length | packages/designto-token/main.ts:302 | a text with no character outside the Basic Multilingual Plane has one code unit per character |
| Tokenizer.HandleByTypes | packages/designto-token/main.ts:286-373 | only a text node changes, and only its width; the token is always a base token |
| Tokenizer.TypeDispatch | packages/designto-token/main.ts:291-364 | each closed type tag goes to its own tokenizer with the node as it is |
| Tokenizer.TextNodePadded | packages/designto-token/main.ts:296-313 | a text node is tokenized after its width is padded, and keeps the padded width |
| Tokenizer.EllipseDispatch | packages/designto-token/main.ts:347-355 | a zero starting angle and zero inner radius give a regular ellipse, anything else the irregular one |
| Tokenizer.FallbackIsMarked | packages/designto-token/main.ts:366-370 | an unknown tag gives the generic token, its origin name wrapped in the fallback marker |
| DesignToCode.RootProviderWrapsOnlyEntry | packages/designto-code/universal/design-to-code.ts:47-57 | the root provider answers, with an OverflowBox inside a SizedBox of the node's size, exactly for the entry node |
| DesignToCode.PipelineTokenizerConfig | packages/designto-code/universal/design-to-code.ts:46-57 | the default config, with the root provider installed only when the fixed-size option is on |
| DesignToCode.NonRootNodesUnwrapped | packages/designto-code/universal/design-to-code.ts:48-56 | under the root provider every other node is tokenized as without a provider |
| DesignToCode.EntryNodeBoxed | packages/designto-code/universal/design-to-code.ts:48-56 | under the root provider the entry node becomes the fixed-size box around its own token |
| DesignToCode.ReusableTreeOf | packages/designto-code/universal/design-to-code.ts:61-73 | a reusable tree exists iff components are enabled and componentization returns a tree, neither a falsy value nor a throw |
| DesignToCode.CodeOutput.FinalizeTemporaryAssets | packages/designto-code/universal/design-to-code.ts:150-156 | both the code and the scaffold are rewritten with the same assets |
| DesignToCode.GatedOutput | packages/designto-code/universal/design-to-code.ts:147-251 | the output is unchanged unless a repository is given and replacement is not skipped; then code and scaffold are both finalized with the assets fetched from it, the "grida://assets-reservation/images/" prefix and the smallest fallback image |
| DesignToCode.ApplyAssetGate | packages/designto-code/universal/design-to-code.ts:190-200 | running the gate in place on the output object yields `GatedOutput` |
| DesignToCode.DesignToReact | packages/designto-code/universal/design-to-code.ts:122-166 | with components disabled or no tree: the plain build through the asset gate; otherwise the reusable build as is |
| DesignToCode.DesignToFlutter | packages/designto-code/universal/design-to-code.ts:168-204 | the Flutter app through the asset gate |
| DesignToCode.DesignToVanilla | packages/designto-code/universal/design-to-code.ts:210-241 | the vanilla file through the asset gate |
| DesignToCode.FrameworkOutput | packages/designto-code/universal/design-to-code.ts:80-112 | it fails, with the unsupported-framework message, iff the framework is none of vanilla, react and flutter |
| DesignToCode.DesignToCode | packages/designto-code/universal/design-to-code.ts:24-114 | a missing entry throws and leaves the tokenizer's current config as it was; otherwise the entry is tokenized with the pipeline config, which becomes current, and the backend output carries the widget and the reusable tree |
| DesignToCode.SupportedFrameworksRoute | packages/designto-code/universal/design-to-code.ts:80-165 | vanilla, react and flutter never fail and each reaches its own backend; react takes the gated plain build when components are disabled or no tree exists, else the ungated reusable build |
| DesignToCode.ReusableReactSkipsAssets | packages/designto-code/universal/design-to-code.ts:136-165 | the reusable React build ignores the asset configuration |
| StyledDeclarations.PseudoLinesClean | packages/builder-web-styled-components/styled-component-declaration.ts:50 | every kept pseudo line is non-empty and has no newline |
| StyledDeclarations.JoinAsPrefixed | packages/builder-web-styled-components/styled-component-declaration.ts:52 | joining is the first piece followed by every other piece after a separator |
| StyledDeclarations.PseudoBlock | packages/builder-web-styled-components/styled-component-declaration.ts:48-54 | `k {}` when no line is left, else every line on its own tab-indented line inside braces |
| StyledDeclarations.PseudoBlocks | packages/builder-web-styled-components/styled-component-declaration.ts:48-54 | one block per pseudo selector, in key order |
| StyledDeclarations.TemplateBody | packages/builder-web-styled-components/styled-component-declaration.ts:56 | the main rules, then each pseudo block after a newline |
| StyledDeclarations.MakeInitializer | packages/builder-web-styled-components/styled-component-declaration.ts:42-68 | `styled.<tag>` tagged with the formatted body between a leading and a trailing newline |
| StyledDeclarations.VariableName | packages/builder-web-styled-components/styled-component-declaration.ts:88-101 | a truthy final name verbatim, else the key-name override in PascalCase, else the namer's name |
| StyledDeclarations.FinalNameWins | packages/builder-web-styled-components/styled-component-declaration.ts:91-92 | a truthy final-name override decides the name whatever the rest says |
| StyledDeclarations.ComposeDeclaration | packages/builder-web-styled-components/styled-component-declaration.ts:80-115 | a declaration exists iff the final style is not null (undefined and empty styles included); it is a const `styled.<tag>` under the chosen name whose template is the formatted CSS body of the final style between newlines (`MakeInitializer`) |
| StyledConfig.RootKeyName | packages/builder-web-styled-components/main.ts:56-62 | "root wrapper " + name only for a root with root-name transformation, falsy otherwise |
| StyledConfig.RenamedTag | packages/builder-web-styled-components/main.ts:69-74 | only a JSX identifier is renamed, and only with renaming on |
| StyledConfig.BuildStyledComponentConfig | packages/builder-web-styled-components/main.ts:31-96 | a styled config carries the declaration's name as id, the final style and the renamed tag; an unstyled one has no id, style or declaration; attributes always kept |
| StyledConfig.StyledConfigName | packages/builder-web-styled-components/main.ts:56-66 | the id is the PascalCase "root wrapper" name for a transformed root, the namer's name otherwise |
| StyledConfig.NoRenameKeepsTag | packages/builder-web-styled-components/main.ts:69-74 | without renaming the tag is never renamed |
| StyledConfig.OtherTagNotRenamed | packages/builder-web-styled-components/main.ts:75-88 | a non-identifier tag keeps its form and the styled config is still produced |
| ReactModule.ReturnBlock | packages/builder-web-react/react-inline-css-widget/react-inline-css-module-builder.ts:141 | a block with exactly one statement, returning the tree |
| ReactModule.InlineCssExportable | packages/builder-web-react/react-inline-css-widget/react-inline-css-module-builder.ts:154-170 | name, body and imports stored, no dependencies, no declarations |
| ReactModule.StyledComponentsExportable | packages/builder-web-react/react-styled-component-widget/react-styled-components-module-builder.ts:131-158 | the declarations are stored; the dependencies given are not passed on |
| ReactModule.AsFile | packages/builder-web-react/react-styled-component-widget/react-styled-components-module-builder.ts:160-175 | the module's name, imports and body under "src/components", with its own declarations (none for inline CSS) |
| ReactModule.Finalize | packages/builder-react-core/react-module/react-exportable-module-declaration.ts:35-45 | the file stringified as tsx, with the module's name and dependencies unchanged |
| ReactModule.StyledDependenciesDropped | packages/builder-react-core/react-module/react-exportable-module-declaration.ts:12-27 | a finalized styled-components module never reports dependencies |
| ReactInlineCss.ReactInlineCssBuilder.constructor | packages/builder-web-react/react-inline-css-widget/react-inline-css-module-builder.ts:49-68 | the widget name is the entry's; the styles map is built with tag renaming off |
| ReactInlineCss.ReactInlineCssBuilder.StylesConfig | packages/builder-web-react/react-inline-css-widget/react-inline-css-module-builder.ts:70-74 | the map's config for the id, absent when the map has none |
| ReactInlineCss.FindStyle | packages/builder-web-react/react-inline-css-widget/react-inline-css-module-builder.ts:84-87 | true iff a style attribute comes before any undefined entry; false iff all entries are attributes and none is style; otherwise it throws |
| ReactInlineCss.StyleProperties | packages/builder-web-react/react-inline-css-widget/react-inline-css-module-builder.ts:95-106 | one property assignment per converted key, in key order |
| ReactInlineCss.WithStyleAttribute | packages/builder-web-react/react-inline-css-widget/react-inline-css-module-builder.ts:80-127 | old attributes kept in order with one entry added: undefined if a style attribute exists, else the new style attribute; nothing else changes |
| ReactInlineCss.StyleAttributeProperties | packages/builder-web-react/react-inline-css-widget/react-inline-css-module-builder.ts:95-115 | the new attribute is named style and has one property per converted key; a missing style reads as the empty object |
| ReactInlineCss.ReactInlineCssBuilder.StyledConfig | packages/builder-web-react/react-inline-css-widget/react-inline-css-module-builder.ts:80-127 | a missing id throws; otherwise the rewritten config is returned and written back into the map |
| ReactInlineCss.StyleAllTouchesOnlyVisited | packages/builder-web-react/react-inline-css-widget/react-inline-css-module-builder.ts:76-133 | building the tree keeps the map's keys and never touches an id it did not visit |
| ReactInlineCss.StyleAllCount | packages/builder-web-react/react-inline-css-widget/react-inline-css-module-builder.ts:76-133 | a successful build returns one config per visited id |
| ReactInlineCss.ReactInlineCssBuilder.JsxBuilder | packages/builder-web-react/react-inline-css-widget/react-inline-css-module-builder.ts:76-133 | the callback loop yields the tree and the map of `StyleAll` over the visit order |
| ReactInlineCss.ReactInlineCssBuilder.PartImports | packages/builder-web-react/react-inline-css-widget/react-inline-css-module-builder.ts:135-137 | exactly the React import |
| ReactInlineCss.ReactInlineCssBuilder.PartBody | packages/builder-web-react/react-inline-css-widget/react-inline-css-module-builder.ts:139-142 | one return of the entry's tree, or the callback's error |
| ReactInlineCss.ReactInlineCssBuilder.AsExportableModule | packages/builder-web-react/react-inline-css-widget/react-inline-css-module-builder.ts:144-151 | the inline-CSS exportable named after the entry, with that body and the React import |
| ReactStyledComponents.NewBuilder | packages/builder-web-react/react-styled-component-widget/react-styled-components-module-builder.ts:37-62 | the styles map is built with renaming on and the repository from that map |
| ReactStyledComponents.PartImportStyled | packages/builder-web-react/react-styled-component-widget/react-styled-components-module-builder.ts:86-93 | the emotion or styled-components import for those two modules, nothing for any other |
| ReactStyledComponents.PartImports | packages/builder-web-react/react-styled-component-widget/react-styled-components-module-builder.ts:82-97 | the React import, then the styled import |
| ReactStyledComponents.StyledComponentsOf | packages/builder-web-react/react-styled-component-widget/react-styled-components-module-builder.ts:105-109 | one styled component per key, in key order; it throws iff some key has no config |
| ReactStyledComponents.PartDeclarations | packages/builder-web-react/react-styled-component-widget/react-styled-components-module-builder.ts:104-111 | it succeeds iff every unique key has a config |
| ReactStyledComponents.PartDeclarationsSelect | packages/builder-web-react/react-styled-component-widget/react-styled-components-module-builder.ts:104-111 | present styled components are kept in `uniques()` order |
| ReactStyledComponents.PresentComponentDeclared | packages/builder-web-react/react-styled-component-widget/react-styled-components-module-builder.ts:104-111 | every unique key whose config has a styled component gets that component declared |
| ReactStyledComponents.PartDeclarationsFromUniques | packages/builder-web-react/react-styled-component-widget/react-styled-components-module-builder.ts:104-111 | every declaration is the styled component of some unique key |
| ReactStyledComponents.BodyReadsVisitedConfigs | packages/builder-web-react/react-styled-component-widget/react-styled-components-module-builder.ts:64-80 | two builders with the same entry whose repositories agree at every visited id build the same body |
| ReactStyledComponents.BodyIgnoresRawMap | packages/builder-web-react/react-styled-component-widget/react-styled-components-module-builder.ts:99-102 | the body depends on the repository, never on the raw styles map |
| ReactStyledComponents.PartBody | packages/builder-web-react/react-styled-component-widget/react-styled-components-module-builder.ts:99-102 | a block with exactly one return statement |
| ReactStyledComponents.AsExportableModule | packages/builder-web-react/react-styled-component-widget/react-styled-components-module-builder.ts:113-128 | named after the entry, with the body, imports and declarations; no dependencies survive |
| ReactStyledComponents.StyledFileLayout | packages/builder-web-react/react-styled-component-widget/react-styled-components-module-builder.ts:160-175 | the file lists the builder's own declarations under "src/components" |
| FlutterMake.FillOpacity | packages/designto-code/lib/flutter/make/box-decoration.make.ts:80 | the fill's opacity, 1.0 when absent |
| FlutterMake.MakeBoxDecorationBg | packages/designto-code/lib/flutter/make/box-decoration.make.ts:74-88 | SOLID gives a color, GRADIENT_LINEAR a gradient, IMAGE an image provider; anything else, or no fill, nothing |
| FlutterMake.MakeBoxDecoration | packages/designto-code/lib/flutter/make/box-decoration.make.ts:25-72 | a decoration iff a border, an ellipse, a radius or a background exists, carrying border, shadow, radius and the circle shape for ellipses only |
| FlutterMake.DecorationBackgroundExclusive | packages/designto-code/lib/flutter/make/box-decoration.make.ts:51-67 | exactly one of color, gradient and image, by background kind; an image is wrapped with fit cover |
| FlutterMake.ShadowAloneGivesNothing | packages/designto-code/lib/flutter/make/box-decoration.make.ts:40-47 | a box shadow alone produces no decoration |
| FlutterMake.SolidBackgroundIsBoxed | packages/designto-code/lib/flutter/make/box-decoration.make.ts:69-71 | the bare-color answer is never reached: a color background is always boxed |
| FlutterMake.StrokeSide | packages/designto-flutter/make/make-flutter-shape-border.ts:18-25 | a side iff a stroke color exists and the stroke weight is positive, with that width and color |
| FlutterMake.MakeShape | packages/designto-flutter/make/make-flutter-shape-border.ts:12-37 | ellipses get a CircleBorder with the side only; others a RoundedRectangleBorder with the side and the corner radius |
| FlutterMake.NoStrokeWeightNoSide | packages/designto-flutter/make/make-flutter-shape-border.ts:20 | without a positive stroke weight no shape has a side |
| FlutterMake.MakePlaceHolderImage | packages/designto-flutter/make/make-flutter-image.ts:6-16 | the fixed placeholder URL at the rounded node size, fit cover, no comment |
| FlutterMake.MakeIllustImage | packages/designto-flutter/make/make-flutter-image.ts:18-25 | the illustration URL at the rounded node size, fit cover, commented "image content of" the node |
| FlutterMake.ImageMakersShareLayout | packages/designto-flutter/make/make-flutter-image.ts:8-25 | both makers agree on everything but URL and comment |
| FlutterMake.WrapWithBuilder | packages/designto-flutter/make/make-flutter-material-app.ts:22-26 | the content between the fixed `Builder` prefix and suffix |
| FlutterMake.BuilderRoundTrip | packages/designto-flutter/make/make-flutter-material-app.ts:22-26 | unwrapping recovers exactly the wrapped content |
| FlutterMake.BuilderOnlyFromWrap | packages/designto-flutter/make/make-flutter-material-app.ts:22-26 | any text that unwraps is the wrapping of what it unwraps to |
| FlutterMake.MakeApp | packages/designto-flutter/make/make-flutter-material-app.ts:5-19 | fixed title, no debug banner, the theme, and a home that unwraps to the finalized screen |
| FlutterWrappers.Round | packages/designto-flutter/wrappers/rotation.wrap.ts:11 | `Math.round` is the integer nearest, halves up |
| FlutterWrappers.RoundsToZero | packages/designto-flutter/wrappers/rotation.wrap.ts:11 | exactly the values in [-0.5, 0.5) round to zero |
| FlutterWrappers.RotateAttempt | packages/designto-flutter/wrappers/rotation.wrap.ts:11-16 | a rotate construct iff rotation is defined, the child present and the rotation does not round to zero; its angle has the opposite sign |
| FlutterWrappers.WrapWithRotationAsWritten | packages/designto-flutter/wrappers/rotation.wrap.ts:11-18 | the child always comes back unchanged |
| FlutterWrappers.WrapWithRotation | packages/core/lib/flutter/wrappers/rotation.wrap.ts:11-16 | the intended wrapper: the rotate construct when one is built, the child otherwise |
| FlutterWrappers.RotationDiscardedExactlyWhenBuilt | packages/core/lib/flutter/wrappers/rotation.wrap.ts:11-18 | the written wrapper departs from the intended one exactly when a rotate construct is built |
| FlutterWrappers.RotationDiscardedAtNinety | packages/designto-flutter/wrappers/rotation.wrap.ts:11-18 | at 90 degrees the written wrapper returns the child unrotated |
| FlutterWrappers.SmallRotationKeepsChild | packages/designto-flutter/wrappers/rotation.wrap.ts:11 | rotations that round to zero keep the child in both forms |
| FlutterWrappers.WrapWithOpacity | packages/designto-flutter/wrappers/opacity.wrap.ts:11-17 | a present child is wrapped, with the opacity unchanged, iff opacity is defined and not 1; otherwise it comes back as is |
| FlutterWrappers.ZeroOpacityWraps | packages/designto-flutter/wrappers/opacity.wrap.ts:11 | opacity 0 still wraps |

## Left out

- `designToVue` returns `undefined` and does nothing else. It is not modelled; the framework switch sends "vue" to the unsupported-framework error as the code does.
- Logging (`console.*`), development-only diagnostics, `async`/`await` and the tokenizer config's `id` field are left out. None of them affects any result.
- The wrapping provider's `depth` argument is always `undefined` and is not modelled.
- The namer's registry state is left out: names come from an abstract namer function.
- The styles repository's deduplication is left out: it is abstract beyond `uniques()` and `get(id)`.
- An empty child array reaches the node handler as the node itself. Its `id` is undefined, so the root provider answers falsy. The model passes no node there, and the provider answers falsy too.
- `handleChildren` is modelled for single design nodes among the children. A nested array among the children is not modelled.
- `buildStyledComponentConfig` renames the JSX tag in place (`config.tag.rename`). The model returns the renamed tag as a value, so any aliasing of that tag object with later reads is not captured.
- `handle_by_types` pads a text node's width in place. The model returns the updated node as a value, and `handleNode` goes on with that value. In the source the padding persists in the caller's design tree, so tokenizing the same tree twice pads its texts twice; the model does not capture that.
- `tokenize`'s `config` parameter defaults to the default tokenizer config; the model always passes a config explicitly.
- `designToCode`'s `build_config` parameter defaults to the default build configuration; the model always passes a build configuration explicitly.
- Componentization can return any falsy value; the model merges them all into "no tree" (`ReusableFalsy`), and the pipeline result's `reusable_widget_tree` is then `None` whichever falsy value it was.
- `buildJsx` is modelled as an abstract visit order of element ids followed by an abstract assembly from the configs the callback returned. Its own traversal is not part of this model.
- Floating point is modelled as exact reals. Floating-point rounding and overflow are not captured, and the degree-to-radian factor is the exact rational 3.14159/180.
- Tokenizer.HandleByTypes: its own contract states only which node fields can change; the token per type tag is stated by TypeDispatch, TextNodePadded, EllipseDispatch and FallbackIsMarked.
- ReactStyledComponents.PartBody: its own contract states only the one-return shape; that the tree is read from the repository at the visited ids only, and never from the raw styles map, is stated by BodyReadsVisitedConfigs and BodyIgnoresRawMap.

## Findings

| source | as written | input that shows it | evidently intended | confidence | as-written member | corrected member |
|---|---|---|---|---|---|---|
| packages/designto-flutter/wrappers/rotation.wrap.ts:11-18 | the `Transform.rotate` construct is built and discarded; the child is returned unrotated (the copy in packages/core/lib/flutter/wrappers/rotation.wrap.ts:11-18 does the same) | a node with rotation 90 and a present child | return the rotate construct in place of the child | high (not executed) | FlutterWrappers.WrapWithRotationAsWritten | FlutterWrappers.WrapWithRotation |
