/** The drag and eight-handle resize arithmetic of
    frontend/app/components/DraggableShape.tsx. The component keeps four live
    values (left, top, width, height) that every gesture event overwrites; a
    resize event computes the new values from the live ones, the shape's
    original position and the translation accumulated since the gesture began. */
module DraggableGestures {
  import opened ShapeTypes
  import CanvasModel
  import AppCanvasModel

  /** The smallest width or height a resize leaves. */
  const MinSize: real := 40.0

  /** The eight resize handles: four corners and four edge midpoints. */
  datatype Anchor = TL | TR | BL | BR | T | B | L | R

  /** The anchor string the source passes to the gesture. */
  function AnchorName(a: Anchor): string {
    match a
    case TL => "tl"
    case TR => "tr"
    case BL => "bl"
    case BR => "br"
    case T => "t"
    case B => "b"
    case L => "l"
    case R => "r"
  }

  /** `anchor.includes(c)` for a one-character c. */
  function Includes(a: Anchor, c: char): bool {
    c in AnchorName(a)
  }

  /** Which handles move each edge, stated by the handles' placement on the shape. */
  ghost predicate OnLeft(a: Anchor) { a == TL || a == BL || a == L }
  ghost predicate OnRight(a: Anchor) { a == TR || a == BR || a == R }
  ghost predicate OnTop(a: Anchor) { a == TL || a == TR || a == T }
  ghost predicate OnBottom(a: Anchor) { a == BL || a == BR || a == B }

  /** The letter tests pick out exactly the handles on each edge, and every
      handle lies on at most one vertical and at most one horizontal edge. */
  lemma AnchorLetters(a: Anchor)
    ensures Includes(a, 'l') <==> OnLeft(a)
    ensures Includes(a, 'r') <==> OnRight(a)
    ensures Includes(a, 't') <==> OnTop(a)
    ensures Includes(a, 'b') <==> OnBottom(a)
    ensures !(OnLeft(a) && OnRight(a)) && !(OnTop(a) && OnBottom(a))
  {
    match a
    case TL =>
    case TR =>
    case BL =>
    case BR =>
    case T =>
    case B =>
    case L =>
    case R =>
  }

  /** The four live values: translateX, translateY, resizeWidth, resizeHeight. */
  datatype Live = Live(x: real, y: real, width: real, height: real)

  /** The live values when the component mounts: a missing or zero size is 100. */
  function InitialLive(shape: Shape): (v: Live)
    ensures v.x == shape.position.x && v.y == shape.position.y
    ensures v.width != 0.0 && v.height != 0.0
    ensures shape.style.width.None? ==> v.width == DefaultSize
    ensures shape.style.height.None? ==> v.height == DefaultSize
  {
    Live(shape.position.x, shape.position.y, SizeOr(shape.style.width, DefaultSize), SizeOr(shape.style.height, DefaultSize))
  }

  /** One resize `onUpdate` event on the handle `a`, with the translation
      (tx, ty) since the gesture began and the shape's original position. */
  function ResizeStep(v: Live, origin: Position, a: Anchor, tx: real, ty: real): (r: Live)
    ensures r.width >= MinSize && r.height >= MinSize
  {
    var (newWidth, newX) :=
      if Includes(a, 'l') then (v.width - tx, origin.x + tx)
      else if Includes(a, 'r') then (v.width + tx, v.x)
      else (v.width, v.x);
    var (newHeight, newY) :=
      if Includes(a, 't') then (v.height - ty, origin.y + ty)
      else if Includes(a, 'b') then (v.height + ty, v.y)
      else (v.height, v.y);
    Live(newX, newY, Max(MinSize, newWidth), Max(MinSize, newHeight))
  }

  /** Horizontally, a left handle shrinks the live width by dx and puts the left
      edge at the original x plus dx; a right handle grows the live width by dx
      and keeps x; a top or bottom handle keeps x and only re-clamps the width. */
  lemma ResizeHorizontal(v: Live, origin: Position, a: Anchor, tx: real, ty: real)
    ensures var r := ResizeStep(v, origin, a, tx, ty);
      && (OnLeft(a) ==> r.width == Max(MinSize, v.width - tx) && r.x == origin.x + tx)
      && (OnRight(a) ==> r.width == Max(MinSize, v.width + tx) && r.x == v.x)
      && (a == T || a == B ==> r.width == Max(MinSize, v.width) && r.x == v.x)
  {
    AnchorLetters(a);
  }

  /** Vertically, the same with top in the role of left and bottom of right. */
  lemma ResizeVertical(v: Live, origin: Position, a: Anchor, tx: real, ty: real)
    ensures var r := ResizeStep(v, origin, a, tx, ty);
      && (OnTop(a) ==> r.height == Max(MinSize, v.height - ty) && r.y == origin.y + ty)
      && (OnBottom(a) ==> r.height == Max(MinSize, v.height + ty) && r.y == v.y)
      && (a == L || a == R ==> r.height == Max(MinSize, v.height) && r.y == v.y)
  {
    AnchorLetters(a);
  }

  /** An edge handle leaves the other axis alone once that size is at least
      MinSize; below it, the clamp still lifts that size to MinSize. */
  lemma EdgeAnchorsKeepOtherAxis(v: Live, origin: Position, a: Anchor, tx: real, ty: real)
    ensures var r := ResizeStep(v, origin, a, tx, ty);
      && (a == T || a == B ==> r.x == v.x && r.width == (if v.width >= MinSize then v.width else MinSize))
      && (a == L || a == R ==> r.y == v.y && r.height == (if v.height >= MinSize then v.height else MinSize))
  {
    ResizeHorizontal(v, origin, a, tx, ty);
    ResizeVertical(v, origin, a, tx, ty);
  }

  /** The position is never clamped: when a left-handle drag clamps the width, x
      still moves by the full translation, so on the first event (live x still
      the original x) the right edge is pushed past where it was. */
  lemma LeftClampMovesRightEdge(v: Live, a: Anchor, tx: real, ty: real)
    requires OnLeft(a)
    requires v.width - tx < MinSize
    ensures var r := ResizeStep(v, Position(v.x, v.y), a, tx, ty);
      && r.width == MinSize
      && r.x == v.x + tx
      && r.x + r.width > v.x + v.width
  {
    ResizeHorizontal(v, Position(v.x, v.y), a, tx, ty);
  }

  /** Successive events compound: each applies the whole translation since the
      gesture began to the already-resized live width, so two events with
      translations dx1 then dx2 grow the width by dx1 + dx2, not by dx2. */
  lemma RightResizeCompounds(v: Live, origin: Position, tx1: real, tx2: real, ty1: real, ty2: real)
    requires v.width + tx1 >= MinSize && v.width + tx1 + tx2 >= MinSize
    ensures ResizeStep(ResizeStep(v, origin, R, tx1, ty1), origin, R, tx2, ty2).width == v.width + tx1 + tx2
  {
    ResizeHorizontal(v, origin, R, tx1, ty1);
    ResizeHorizontal(ResizeStep(v, origin, R, tx1, ty1), origin, R, tx2, ty2);
  }

  /** With a left handle the width compounds while x does not, so after two
      unclamped events the right edge has moved by the first translation. */
  lemma LeftResizeDrifts(v: Live, tx1: real, tx2: real, ty1: real, ty2: real)
    requires v.width - tx1 >= MinSize && v.width - tx1 - tx2 >= MinSize
    ensures var origin := Position(v.x, v.y);
            var r := ResizeStep(ResizeStep(v, origin, L, tx1, ty1), origin, L, tx2, ty2);
      && r.x == v.x + tx2
      && r.width == v.width - tx1 - tx2
      && r.x + r.width == v.x + v.width - tx1
  {
    var origin := Position(v.x, v.y);
    ResizeHorizontal(v, origin, L, tx1, ty1);
    ResizeHorizontal(ResizeStep(v, origin, L, tx1, ty1), origin, L, tx2, ty2);
  }

  /** A pan `onUpdate` event: the live position heads for the original position
      plus the translation (the spring animation's end value); the size stays. */
  function PanStep(v: Live, origin: Position, tx: real, ty: real): (r: Live)
    ensures r.width == v.width && r.height == v.height
  {
    Live(tx + origin.x, ty + origin.y, v.width, v.height)
  }

  /** The patch `updatePositionAndSize` hands to `updateShape`. */
  function EndPatch(v: Live): (u: ShapeUpdate)
    ensures u.position == Some(Position(v.x, v.y))
    ensures u.style == Some(SizeStyle(v.width, v.height))
    ensures u.(position := None, style := None) == NoUpdate
  {
    NoUpdate.(position := Some(Position(v.x, v.y)), style := Some(SizeStyle(v.width, v.height)))
  }

  /** Applied through `updateShape`, the gesture-end patch moves the shape to the
      live position and sets its width and height to the live size, keeping every
      other style key and every other shape. */
  lemma EndPatchEffect(st: CanvasModel.CanvasState, id: string, v: Live)
    ensures var s := st.timeline.shapes;
            var r := CanvasModel.UpdateShape(st, id, EndPatch(v)).timeline.shapes;
      && |r| == |s|
      && forall i :: 0 <= i < |s| ==>
           r[i] == if s[i].id == id
                   then s[i].(position := Position(v.x, v.y), style := s[i].style.(width := Some(v.width), height := Some(v.height)))
                   else s[i]
  {
    CanvasModel.UpdateShapeEffect(st, id, EndPatch(v));
  }

  /** Gesture end as the component is wired: `updatePositionAndSize` calls the
      `updateShape` it took from `useCanvas()`, and that hook belongs to the
      older store, whose context value has no `updateShape` key. The call
      reaches no store, so the older store's state stays as it was. */
  function EndGestureAsWritten(st: AppCanvasModel.AppState, id: string, v: Live): AppCanvasModel.AppState {
    st
  }

  /** As wired, a gesture that ends away from the shape's stored position is
      lost: the store the component reads has no `updateShape`, so the shape
      stays where it was, while the `updateShape` the component names (the main
      store's) moves it to the live position. */
  lemma GestureEndIsLost(st: AppCanvasModel.AppState, main: CanvasModel.CanvasState, id: string, v: Live, i: int)
    requires main.timeline.shapes == st.timeline.shapes
    requires 0 <= i < |st.timeline.shapes| && st.timeline.shapes[i].id == id
    requires st.timeline.shapes[i].position != Position(v.x, v.y)
    ensures "updateShape" !in AppCanvasModel.ContextKeys
    ensures EndGestureAsWritten(st, id, v).timeline.shapes[i].position != Position(v.x, v.y)
    ensures CanvasModel.UpdateShape(main, id, EndPatch(v)).timeline.shapes[i].position == Position(v.x, v.y)
  {
    EndPatchEffect(main, id, v);
  }

  /** A drag that ends without any resize writes back the original size, so a
      shape stored without a width or height gets 100 written for it. */
  lemma PanOnlyWritesDefaultSize(shape: Shape, tx: real, ty: real)
    ensures var v := PanStep(InitialLive(shape), shape.position, tx, ty);
      && v.x == shape.position.x + tx && v.y == shape.position.y + ty
      && EndPatch(v).style.value.width == Some(SizeOr(shape.style.width, DefaultSize))
      && (shape.style.width.None? ==> EndPatch(v).style.value.width == Some(DefaultSize))
  {
  }

  /** The component's shared values, overwritten event by event. */
  class DraggableShape {
    const shape: Shape
    var translateX: real
    var translateY: real
    var resizeWidth: real
    var resizeHeight: real

    function Values(): Live
      reads this
    {
      Live(translateX, translateY, resizeWidth, resizeHeight)
    }

    constructor(shape: Shape)
      ensures this.shape == shape
      ensures Values() == InitialLive(shape)
    {
      this.shape := shape;
      translateX := shape.position.x;
      translateY := shape.position.y;
      resizeWidth := SizeOr(shape.style.width, DefaultSize);
      resizeHeight := SizeOr(shape.style.height, DefaultSize);
    }

    /** The resize gesture's `onUpdate` for the handle `anchor`. */
    method OnResizeUpdate(anchor: Anchor, translationX: real, translationY: real)
      modifies this
      ensures Values() == ResizeStep(old(Values()), shape.position, anchor, translationX, translationY)
      ensures resizeWidth >= MinSize && resizeHeight >= MinSize
    {
      var newWidth := resizeWidth;
      var newHeight := resizeHeight;
      var newX := translateX;
      var newY := translateY;
      if Includes(anchor, 'l') {
        newWidth := resizeWidth - translationX;
        newX := shape.position.x + translationX;
      } else if Includes(anchor, 'r') {
        newWidth := resizeWidth + translationX;
      }
      if Includes(anchor, 't') {
        newHeight := resizeHeight - translationY;
        newY := shape.position.y + translationY;
      } else if Includes(anchor, 'b') {
        newHeight := resizeHeight + translationY;
      }
      resizeWidth := Max(MinSize, newWidth);
      resizeHeight := Max(MinSize, newHeight);
      translateX := newX;
      translateY := newY;
    }

    /** The pan gesture's `onUpdate`. */
    method OnPanUpdate(translationX: real, translationY: real)
      modifies this
      ensures Values() == PanStep(old(Values()), shape.position, translationX, translationY)
    {
      translateX := translationX + shape.position.x;
      translateY := translationY + shape.position.y;
    }

    /** `updatePositionAndSize`: the id and patch sent to `updateShape`. */
    method UpdatePositionAndSize() returns (id: string, patch: ShapeUpdate)
      ensures id == shape.id
      ensures patch.position == Some(Position(translateX, translateY))
      ensures patch.style == Some(SizeStyle(resizeWidth, resizeHeight))
      ensures patch.(position := None, style := None) == NoUpdate
    {
      id := shape.id;
      patch := EndPatch(Values());
    }
  }
}
