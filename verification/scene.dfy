/** The design-tool scene graph the pipeline reads: one node datatype with the
    fields the modelled code inspects. */
module Scene {
  import opened Base

  /** The node type tag. `Unhandled` stands for any tag outside the closed set
      the tokenizer dispatches on; `Unhandled("")` is a tag that is present but
      falsy in the source. */
  datatype NodeType =
    | Rectangle | Text | Frame | Vector | Group | Ellipse | BooleanOperation | Line
    | Unhandled(tag: string)

  /** A visual effect (shadow or blur); which blur kind it is, if any, is decided
      by a classifier whose code is not part of this model. */
  type Effect(==)

  /** An RGB color as the design tool stores it. */
  type Rgb(==)

  /** A corner-radius record (uniform or per corner). */
  type CornerRadius(==)

  /** Any further paint data (gradient stops, image hash, ...). */
  type PaintDetail(==)

  /** A fill or stroke paint: its type ("SOLID", "GRADIENT_LINEAR", "IMAGE", ...),
      its optional opacity and its color. */
  datatype Paint = Paint(paintType: string, opacity: Option<real>, color: Rgb, detail: PaintDetail)

  /** Arc parameters of an ellipse. */
  datatype ArcData = ArcData(startingAngle: real, endingAngle: real, innerRadius: real)

  /** A design node. `nodeType` is `None` when the source node carries no type;
      `data` is the characters of a text node; `rotation` is in degrees. */
  datatype Node = Node(
    id: string,
    name: string,
    nodeType: Option<NodeType>,
    data: string,
    width: real,
    height: real,
    isRoot: bool,
    arcData: ArcData,
    children: seq<Node>,
    effects: seq<Effect>,
    opacity: Option<real>,
    rotation: Option<real>,
    fills: seq<Paint>,
    strokes: seq<Paint>,
    strokeWeight: real,
    cornerRadius: CornerRadius)

  /** `!node.type` in the source: the tag is absent, or present but falsy. */
  predicate TypeMissing(node: Node)
  {
    node.nodeType.None? || node.nodeType == Some(Unhandled(""))
  }

  /** `node instanceof ReflectEllipseNode` / `node.type === "ELLIPSE"`. */
  predicate IsEllipse(node: Node)
  {
    node.nodeType == Some(Ellipse)
  }
}
