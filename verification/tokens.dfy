/** The framework-independent widget tree the tokenizer produces. */
module Tokens {
  import opened Base

  /** A widget's identity and human-readable origin name. */
  datatype WidgetKey = WidgetKey(id: string, originName: string)

  /** Whatever else a token built by one of the `tokenize*` constructors holds. */
  type TokenPayload(==)

  /** A widget token as built by one of the `tokenize*` constructors. */
  datatype Token = Token(key: WidgetKey, payload: TokenPayload)

  /** What a `wrap_with_*` helper takes from the node besides the child (its
      key, the opacity value, the blur, the angle, ...). */
  type WrapDetail(==)

  /** The widget IR. `Base` holds a constructed token; each wrapper owns exactly
      one child and the detail its helper took from the node; `OverflowBox`
      and `SizedBox` are what the root wrapping provider builds (an
      `OverflowBox` may wrap an absent widget). */
  datatype Widget =
    | Base(token: Token)
    | Stretched(detail: WrapDetail, child: Widget)
    | Expanded(detail: WrapDetail, child: Widget)
    | Opacity(detail: WrapDetail, child: Widget)
    | LayerBlurred(detail: WrapDetail, child: Widget)
    | BackgroundBlurred(detail: WrapDetail, child: Widget)
    | Rotation(detail: WrapDetail, child: Widget)
    | OverflowBox(content: Option<Widget>)
    | SizedBox(child: Widget, width: real, height: real)
}
