/** The drag and single-corner resize of frontend/app/components/Shape.tsx.
    While a gesture is active the component writes live values; when it ends it
    writes them into the shape's own position or style. A resize event computes
    from the stored style, not from the live values. */
module ShapeGestures {
  import opened ShapeTypes

  const MinSize: real := 40.0

  /** The live left and top while dragging: the stored position plus the translation. */
  function DragOffset(shape: Shape, tx: real, ty: real): (p: Position)
    ensures p.x - tx == shape.position.x && p.y - ty == shape.position.y
  {
    Position(shape.position.x + tx, shape.position.y + ty)
  }

  /** The live size while resizing: the stored size (100 when missing or zero)
      plus the translation, never below MinSize. */
  function ResizeTarget(shape: Shape, tx: real, ty: real): (r: (real, real))
    ensures r.0 >= MinSize && r.1 >= MinSize
  {
    (Max(MinSize, SizeOr(shape.style.width, DefaultSize) + tx), Max(MinSize, SizeOr(shape.style.height, DefaultSize) + ty))
  }

  /** A resize depends on the shape only through its stored width and height:
      shapes that agree there get the same size, and a missing size acts as 100. */
  lemma ResizeUsesStoredSizeOnly(a: Shape, b: Shape, tx: real, ty: real)
    requires SizeOr(a.style.width, DefaultSize) == SizeOr(b.style.width, DefaultSize)
    requires SizeOr(a.style.height, DefaultSize) == SizeOr(b.style.height, DefaultSize)
    ensures ResizeTarget(a, tx, ty) == ResizeTarget(b, tx, ty)
    ensures a.style.width.None? ==> ResizeTarget(a, tx, ty).0 == Max(MinSize, DefaultSize + tx)
  {
  }

  /** The component: the shape object it was given, and the four shared values. */
  class ShapeView {
    var shape: Shape
    var offsetX: real
    var offsetY: real
    var width: real
    var height: real

    constructor(shape: Shape)
      ensures this.shape == shape
      ensures offsetX == shape.position.x && offsetY == shape.position.y
      ensures width == SizeOr(shape.style.width, DefaultSize) && height == SizeOr(shape.style.height, DefaultSize)
    {
      this.shape := shape;
      offsetX := shape.position.x;
      offsetY := shape.position.y;
      width := SizeOr(shape.style.width, DefaultSize);
      height := SizeOr(shape.style.height, DefaultSize);
    }

    /** The drag gesture's `onActive`. */
    method DragActive(translationX: real, translationY: real)
      modifies this
      ensures Position(offsetX, offsetY) == DragOffset(shape, translationX, translationY)
      ensures shape == old(shape) && width == old(width) && height == old(height)
    {
      offsetX := shape.position.x + translationX;
      offsetY := shape.position.y + translationY;
    }

    /** The drag gesture's `onEnd`: the live offset becomes the shape's position. */
    method DragEnd()
      modifies this
      ensures shape == old(shape).(position := Position(old(offsetX), old(offsetY)))
      ensures offsetX == old(offsetX) && offsetY == old(offsetY) && width == old(width) && height == old(height)
    {
      shape := shape.(position := shape.position.(x := offsetX));
      shape := shape.(position := shape.position.(y := offsetY));
    }

    /** The resize gesture's `onActive`: computed from the stored style, so any
        number of events leaves the size of the latest one only. */
    method ResizeActive(translationX: real, translationY: real)
      modifies this
      ensures (width, height) == ResizeTarget(shape, translationX, translationY)
      ensures width >= MinSize && height >= MinSize
      ensures shape == old(shape) && offsetX == old(offsetX) && offsetY == old(offsetY)
    {
      width := Max(40.0, SizeOr(shape.style.width, DefaultSize) + translationX);
      height := Max(40.0, SizeOr(shape.style.height, DefaultSize) + translationY);
    }

    /** The resize gesture's `onEnd`: the live size becomes the stored width and
        height; every other key of the style and of the shape stays. */
    method ResizeEnd()
      modifies this
      ensures shape == old(shape).(style := old(shape).style.(width := Some(old(width)), height := Some(old(height))))
      ensures offsetX == old(offsetX) && offsetY == old(offsetY) && width == old(width) && height == old(height)
    {
      shape := shape.(style := shape.style.(width := Some(width)));
      shape := shape.(style := shape.style.(height := Some(height)));
    }
  }

  /** Two events of one resize gesture: the second overwrites the first, so the
      size is that of the latest translation alone (no compounding). */
  method RepeatedResizeEvents(shape: Shape, tx1: real, ty1: real, tx2: real, ty2: real) returns (w: real, h: real)
    ensures (w, h) == ResizeTarget(shape, tx2, ty2)
    ensures w == Max(MinSize, SizeOr(shape.style.width, DefaultSize) + tx2)
  {
    var view := new ShapeView(shape);
    view.ResizeActive(tx1, ty1);
    view.ResizeActive(tx2, ty2);
    w, h := view.width, view.height;
  }

  /** Two resize gestures in a row: the second starts from the size the first
      one stored, so the sizes add up across gestures (but not across the events
      of one gesture). */
  method TwoResizeGestures(shape: Shape, tx1: real, ty1: real, tx2: real, ty2: real) returns (w: real, h: real)
    ensures w == Max(MinSize, Max(MinSize, SizeOr(shape.style.width, DefaultSize) + tx1) + tx2)
    ensures h == Max(MinSize, Max(MinSize, SizeOr(shape.style.height, DefaultSize) + ty1) + ty2)
  {
    var view := new ShapeView(shape);
    view.ResizeActive(tx1, ty1);
    view.ResizeEnd();
    view.ResizeActive(tx2, ty2);
    view.ResizeEnd();
    w, h := view.shape.style.width.value, view.shape.style.height.value;
  }
}
