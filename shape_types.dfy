/** The value types of the diagram editor: shapes, their style and position,
    connection lines and templates (frontend/constants/type.ts). */
module ShapeTypes {

  datatype Option<T> = None | Some(value: T) {
    function GetOr(default: T): T {
      match this
      case Some(v) => v
      case None => default
    }
  }

  /** The nine values of the `type` string union of a shape. */
  datatype Kind = Rectangle | Circle | Oval | Image | Text | Button | Diamond | Kite | Arrow

  /** The string the source stores for each kind. */
  function KindName(k: Kind): string {
    match k
    case Rectangle => "rectangle"
    case Circle => "circle"
    case Oval => "oval"
    case Image => "image"
    case Text => "text"
    case Button => "button"
    case Diamond => "diamond"
    case Kite => "kite"
    case Arrow => "arrow"
  }

  /** Reads a `type` string back; any string outside the union is refused. */
  function ParseKind(s: string): (r: Option<Kind>)
    ensures r.Some? ==> KindName(r.value) == s
  {
    if s == "rectangle" then Some(Rectangle)
    else if s == "circle" then Some(Circle)
    else if s == "oval" then Some(Oval)
    else if s == "image" then Some(Image)
    else if s == "text" then Some(Text)
    else if s == "button" then Some(Button)
    else if s == "diamond" then Some(Diamond)
    else if s == "kite" then Some(Kite)
    else if s == "arrow" then Some(Arrow)
    else None
  }

  /** Every kind is named by exactly one string of the union, and that string reads back as the kind. */
  lemma KindNameRoundTrip(k: Kind)
    ensures ParseKind(KindName(k)) == Some(k)
  {
    match k
    case Rectangle =>
    case Circle =>
    case Oval =>
    case Image =>
    case Text =>
    case Button =>
    case Diamond =>
    case Kite =>
    case Arrow =>
  }

  datatype Position = Position(x: real, y: real)

  datatype FontWeight = Normal | Bold
  datatype FontStyle = Upright | Italic
  datatype TextDecoration = NoDecoration | Underline | LineThrough | UnderlineLineThrough

  /** Every key of a style is optional; `None` is a key the object does not have. */
  datatype Style = Style(
    width: Option<real>,
    height: Option<real>,
    backgroundColor: Option<string>,
    borderColor: Option<string>,
    borderWidth: Option<real>,
    borderRadius: Option<real>,
    color: Option<string>,
    fontSize: Option<real>,
    fontFamily: Option<string>,
    fontWeight: Option<FontWeight>,
    fontStyle: Option<FontStyle>,
    textDecorationLine: Option<TextDecoration>,
    rotation: Option<real>)

  const EmptyStyle := Style(None, None, None, None, None, None, None, None, None, None, None, None, None)

  /** A style that sets only width and height. */
  function SizeStyle(width: real, height: real): Style {
    EmptyStyle.(width := Some(width), height := Some(height))
  }

  function Pick<T>(base: Option<T>, patch: Option<T>): (r: Option<T>)
    ensures patch.Some? ==> r == patch
    ensures patch.None? ==> r == base
  {
    if patch.Some? then patch else base
  }

  /** The object spread `{ ...base, ...patch }`: every key the patch has wins, every other key of base stays. */
  function MergeStyle(base: Style, patch: Style): Style {
    Style(
      Pick(base.width, patch.width),
      Pick(base.height, patch.height),
      Pick(base.backgroundColor, patch.backgroundColor),
      Pick(base.borderColor, patch.borderColor),
      Pick(base.borderWidth, patch.borderWidth),
      Pick(base.borderRadius, patch.borderRadius),
      Pick(base.color, patch.color),
      Pick(base.fontSize, patch.fontSize),
      Pick(base.fontFamily, patch.fontFamily),
      Pick(base.fontWeight, patch.fontWeight),
      Pick(base.fontStyle, patch.fontStyle),
      Pick(base.textDecorationLine, patch.textDecorationLine),
      Pick(base.rotation, patch.rotation))
  }

  /** Merging a patch is idempotent, the empty patch changes nothing, and two
      successive merges equal one merge of the combined patch. */
  lemma MergeStyleLaws(base: Style, p: Style, q: Style)
    ensures MergeStyle(base, EmptyStyle) == base
    ensures MergeStyle(MergeStyle(base, p), p) == MergeStyle(base, p)
    ensures MergeStyle(MergeStyle(base, p), q) == MergeStyle(base, MergeStyle(p, q))
  {
  }

  /** The JavaScript `v || d` on an optional number: a missing key or 0 falls back to d. */
  function SizeOr(v: Option<real>, d: real): (r: real)
    ensures v.Some? && v.value != 0.0 ==> r == v.value
    ensures v.None? || v.value == 0.0 ==> r == d
    ensures d != 0.0 ==> r != 0.0
  {
    if v.Some? && v.value != 0.0 then v.value else d
  }

  /** `Math.max` on two numbers. */
  function Max(a: real, b: real): (r: real)
    ensures r >= a && r >= b
    ensures r == a || r == b
  {
    if a >= b then a else b
  }

  /** The default size a shape without (or with a zero) width or height is drawn at. */
  const DefaultSize: real := 100.0

  /** A placed shape. The flags and the per-kind fields are optional.
      `fontSize` and `fontColor` are keys the shape type does not declare but
      that the text-shape literal of the main store writes and the renderer
      reads, so they are carried as optional keys too. */
  datatype Shape = Shape(
    id: string,
    kind: Kind,
    position: Position,
    style: Style,
    color: Option<string>,
    isVisible: Option<bool>,
    isLocked: Option<bool>,
    uri: Option<string>,
    text: Option<string>,
    fontSize: Option<real>,
    fontColor: Option<string>)

  /** A connection between two shapes, named only by their ids (`labelText` is
      the source's `label`, a reserved word here). An endpoint is
      `None` where the source would hold `undefined` (a template line naming a
      shape outside its template, see CanvasModel.LoadTemplate). */
  datatype Line = Line(id: string, startShapeId: Option<string>, endShapeId: Option<string>, labelText: Option<string>)

  datatype Template = Template(shapes: seq<Shape>, lines: seq<Line>, image: Option<string>)

  /** `Partial<ShapeType>`: every field of a shape, each optional. */
  datatype ShapeUpdate = ShapeUpdate(
    id: Option<string>,
    kind: Option<Kind>,
    position: Option<Position>,
    style: Option<Style>,
    color: Option<string>,
    isVisible: Option<bool>,
    isLocked: Option<bool>,
    uri: Option<string>,
    text: Option<string>)

  const NoUpdate := ShapeUpdate(None, None, None, None, None, None, None, None, None)
}
