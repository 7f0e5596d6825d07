/** Styled-component variable declarations: the tagged template
    `styled.<tag>` with the CSS body, and the choice of the variable name. */
module StyledDeclarations {
  import opened Base
  import opened Jsx

  /** The CSS of a style split into the main rules and one rule text per
      pseudo selector, in key order. */
  datatype CssStyleData = CssStyleData(main: string, pseudo: seq<(string, string)>)

  /** A scoped variable namer. */
  type Namer(==)

  /** The helpers declarations use, whose code is not part of this model. */
  datatype DeclarationEnv = DeclarationEnv(
    buildCssStyleData: StyleValue -> CssStyleData,
    formatTemplate: string -> string,
    pascal: string -> string,
    nameit: (Namer, string) -> string,
    tagName: Tag -> string)

  /** `styled.<accessor>`. */
  datatype PropertyAccess = PropertyAccess(target: string, accessor: string)

  /** A tagged template expression: its tag and its template literal. */
  datatype TaggedTemplate = TaggedTemplate(tag: PropertyAccess, template: string)

  datatype DeclarationKind = ConstKeyword

  /** A styled-component declaration: variable name, initializer, declaration
      kind and the HTML accessor it styles. */
  datatype StyledDeclaration = StyledDeclaration(
    name: string, initializer: TaggedTemplate, kind: DeclarationKind, styledAccessor: string)

  /** Lines of a pseudo rule text: split at newlines, empty lines dropped. */
  function PseudoLines(b: string): seq<string>
  {
    Filter((l: string) => |l| > 0, Split(b, '\n'))
  }

  /** Kept lines are non-empty and contain no newline. */
  lemma PseudoLinesClean(b: string)
    ensures forall l :: l in PseudoLines(b) ==> |l| > 0 && '\n' !in l
  {
    SplitPiecesFree(b, '\n');
    forall l | l in PseudoLines(b)
      ensures |l| > 0 && '\n' !in l
    {
      var pieces := Split(b, '\n');
      assert l in pieces;
      var i :| 0 <= i < |pieces| && pieces[i] == l;
    }
  }

  /** Every line prefixed by `sep`, concatenated. */
  function PrefixEach(lines: seq<string>, sep: string): string
  {
    if |lines| == 0 then "" else sep + lines[0] + PrefixEach(lines[1..], sep)
  }

  lemma {:induction false} JoinAsPrefixed(lines: seq<string>, sep: string)
    requires |lines| > 0
    ensures Join(lines, sep) == lines[0] + PrefixEach(lines[1..], sep)
  {
    if |lines| > 1 {
      JoinAsPrefixed(lines[1..], sep);
      assert lines[1..][1..] == lines[2..];
    }
  }

  /** A pseudo block: the selector, then every non-empty line on its own
      line after a tab, then a closing brace; `k {}` when nothing is left. */
  function PseudoBlock(k: string, b: string): (r: string)
    ensures |PseudoLines(b)| == 0 ==> r == k + " {}\n"
    ensures |PseudoLines(b)| > 0 ==> r == k + " {" + PrefixEach(PseudoLines(b), "\n\t") + "\n}\n"
  {
    var lines := PseudoLines(b);
    if |lines| > 0 then
      JoinAsPrefixed([""] + lines, "\n\t");
      assert ([""] + lines)[1..] == lines;
      k + " {" + (Join([""] + lines, "\n\t") + "\n") + "}\n"
    else k + " {" + "" + "}\n"
  }

  /** The pseudo blocks, in key order. */
  function PseudoBlocks(pseudo: seq<(string, string)>): (r: seq<string>)
    ensures |r| == |pseudo|
    ensures forall i :: 0 <= i < |pseudo| ==> r[i] == PseudoBlock(pseudo[i].0, pseudo[i].1)
  {
    seq(|pseudo|, i requires 0 <= i < |pseudo| => PseudoBlock(pseudo[i].0, pseudo[i].1))
  }

  /** The template body: the main rules followed by the pseudo blocks, one
      newline between each. */
  function TemplateBody(data: CssStyleData): (r: string)
    ensures |data.pseudo| == 0 ==> r == data.main
    ensures |data.pseudo| > 0 ==> r == data.main + PrefixEach(PseudoBlocks(data.pseudo), "\n")
  {
    var parts := [data.main] + PseudoBlocks(data.pseudo);
    JoinAsPrefixed(parts, "\n");
    assert parts[1..] == PseudoBlocks(data.pseudo);
    Join(parts, "\n")
  }

  /** `makeinitializer`: `styled.<tag>` tagged with the formatted body
      between a leading and a trailing newline. */
  function MakeInitializer(env: DeclarationEnv, style: StyleValue, accessor: string): (r: TaggedTemplate)
    ensures r.tag == PropertyAccess("styled", accessor)
    ensures |r.template| >= 2 && r.template[0] == '\n' && r.template[|r.template| - 1] == '\n'
    ensures r.template[1..|r.template| - 1] == env.formatTemplate(TemplateBody(env.buildCssStyleData(style)))
  {
    var formatted := env.formatTemplate(TemplateBody(env.buildCssStyleData(style)));
    TaggedTemplate(PropertyAccess("styled", accessor), "\n" + formatted + "\n")
  }

  /** The naming preference of a declaration; absent overrides and empty
      strings are both falsy. */
  datatype NamePreference = NamePreference(namer: Namer, overrideKeyName: Option<string>, overrideFinalName: Option<string>)

  predicate Truthy(s: Option<string>)
  {
    s.Some? && |s.value| > 0
  }

  /** The variable name: the final-name override verbatim, else the key-name
      override in PascalCase, else the namer's PascalCase name for the key. */
  function VariableName(env: DeclarationEnv, keyName: string, pref: NamePreference): (r: string)
    ensures Truthy(pref.overrideFinalName) ==> r == pref.overrideFinalName.value
    ensures !Truthy(pref.overrideFinalName) && Truthy(pref.overrideKeyName) ==> r == env.pascal(pref.overrideKeyName.value)
    ensures !Truthy(pref.overrideFinalName) && !Truthy(pref.overrideKeyName) ==> r == env.nameit(pref.namer, keyName)
  {
    if Truthy(pref.overrideFinalName) then pref.overrideFinalName.value
    else if Truthy(pref.overrideKeyName) then env.pascal(pref.overrideKeyName.value)
    else env.nameit(pref.namer, keyName)
  }

  /** The final-name override decides the name whatever the other sources say. */
  lemma FinalNameWins(env: DeclarationEnv, keyName: string, otherKey: string, pref: NamePreference, other: NamePreference)
    requires Truthy(pref.overrideFinalName) && other.overrideFinalName == pref.overrideFinalName
    ensures VariableName(env, keyName, pref) == VariableName(env, otherKey, other)
  {
  }

  /** `composeStyledComponentVariableDeclaration`: a null final style makes no
      declaration; any other style, `undefined` and `{}` included, makes a
      `const` declaration of `styled.<tag>` under the chosen name. */
  function ComposeDeclaration(env: DeclarationEnv, widget: JsxWidget, pref: NamePreference): (r: Option<StyledDeclaration>)
    ensures r.Some? <==> widget.finalStyle != NullStyle
    ensures r.Some? ==> r.value.name == VariableName(env, widget.key.name, pref)
    ensures r.Some? ==> r.value.kind == ConstKeyword
    ensures r.Some? ==> r.value.styledAccessor == env.tagName(widget.jsxConfig.tag)
    ensures r.Some? ==> r.value.initializer == MakeInitializer(env, widget.finalStyle, r.value.styledAccessor)
    ensures r.Some? ==> r.value.initializer.tag == PropertyAccess("styled", r.value.styledAccessor)
    ensures r.Some? ==>
      r.value.initializer.template == "\n" + env.formatTemplate(TemplateBody(env.buildCssStyleData(widget.finalStyle))) + "\n"
  {
    var name := VariableName(env, widget.key.name, pref);
    if widget.finalStyle != NullStyle then
      var accessor := env.tagName(widget.jsxConfig.tag);
      Some(StyledDeclaration(name, MakeInitializer(env, widget.finalStyle, accessor), ConstKeyword, accessor))
    else None
  }
}
