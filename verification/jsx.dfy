/** The JSX vocabulary the web builders share: widgets with keys and final
    styles, element tags, attributes, and style values. */
module Jsx {
  import opened Base

  /** A widget key: its id and its name. */
  datatype JsxKey = JsxKey(id: string, name: string)

  /** Opaque parts of tags, attribute values, CSS objects and built trees. */
  type TagDetail(==)
  type AttrDetail(==)
  type CssProperties(==)
  type JsxTree(==)

  /** An element tag: a plain JSX identifier (renameable) or any other tag
      expression. */
  datatype Tag = JsxIdentifier(name: string) | OtherTag(detail: TagDetail)

  /** A property of a style object: its key and its template-literal value. */
  datatype PropertyAssignment = PropertyAssignment(name: string, initializer: string)

  /** An attribute value: an inline style object, or anything else. */
  datatype AttrValue = StyleObject(properties: seq<PropertyAssignment>) | OtherValue(detail: AttrDetail)

  /** An entry of an attribute list. `UndefinedEntry` is the `undefined` the
      inline-CSS builder appends when an element already has a style. */
  datatype AttrEntry = JsxAttribute(name: string, value: AttrValue) | UndefinedEntry

  /** A widget's final style: `null` (no styled component at all),
      `undefined`, or a CSS object (possibly empty). */
  datatype StyleValue = NullStyle | UndefinedStyle | StyleProps(css: CssProperties)

  /** The JSX element config a widget reports. */
  datatype JsxElementConfig = JsxElementConfig(tag: Tag, attributes: Option<seq<AttrEntry>>)

  /** A JSX widget: key, final style and element config; `children` are the
      nested widgets. */
  datatype JsxWidget = JsxWidget(key: JsxKey, finalStyle: StyleValue, jsxConfig: JsxElementConfig, children: seq<JsxWidget>)
}
