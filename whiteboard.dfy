/** The whiteboard (src/apps/whiteboard/WhiteboardEditor.tsx): shapes in the
    shared array "shapes", added by clicking the canvas with a drawing tool
    and removed by clicking them with the select tool. */
module Whiteboard {
  import opened Shared

  datatype Tool = Select | RectTool | CircleTool | TextTool | StickyTool

  datatype ShapeKind = Rect | Circle | TextShape | Sticky

  /** A shape without its id (`Omit<WhiteboardShape, 'id'>`). */
  datatype Draft = Draft(kind: ShapeKind, x: int, y: int, w: int, h: int,
                         text: Option<string>, color: Option<string>)

  datatype Shape = Shape(id: string, draft: Draft)

  /** The shape a canvas click at `(x, y)` creates with `tool`: none with the
      select tool, otherwise one of the tool's kind at the click point. */
  function ShapeFor(tool: Tool, x: int, y: int): (r: Option<Draft>)
    ensures r.None? <==> tool == Select
    ensures r.Some? ==> r.value.x == x && r.value.y == y && r.value.w > 0 && r.value.h > 0
  {
    match tool
    case Select => None
    case RectTool => Some(Draft(Rect, x, y, 100, 80, None, Some("#4caf50")))
    case CircleTool => Some(Draft(Circle, x, y, 80, 80, None, Some("#2196f3")))
    case StickyTool => Some(Draft(Sticky, x, y, 120, 100, Some("Note"), Some("#ffeb3b")))
    case TextTool => Some(Draft(TextShape, x, y, 150, 30, Some("Text"), None))
  }

  /** The kind a drawing tool draws. */
  function KindOf(tool: Tool): ShapeKind
    requires tool != Select
  {
    match tool
    case RectTool => Rect
    case CircleTool => Circle
    case StickyTool => Sticky
    case TextTool => TextShape
  }

  /** Each drawing tool draws its own kind, so distinct tools draw distinct
      kinds, at the size and colour the toolbar promises. */
  lemma ShapeForMatchesTool(tool: Tool, x: int, y: int)
    requires tool != Select
    ensures ShapeFor(tool, x, y).Some? && ShapeFor(tool, x, y).value.kind == KindOf(tool)
    ensures forall t :: t != Select && t != tool ==> KindOf(t) != KindOf(tool)
  {
  }

  /** Removing one shape keeps the others, in their order, and loses exactly
      that shape. */
  lemma RemovedExactlyOne<T>(s: seq<T>, i: nat)
    requires i < |s|
    ensures Removed(s, i, 1) == s[..i] + s[i + 1..]
    ensures multiset(Removed(s, i, 1)) + multiset{s[i]} == multiset(s)
  {
    assert s == s[..i] + [s[i]] + s[i + 1..];
  }

  /** The container's position on the page, when it has been laid out. */
  datatype Bounds = Bounds(left: int, top: int)

  class WhiteboardEditor {
    /** The document's shared array "shapes". */
    const shapes: SharedArray<Shape>
    var tool: Tool

    constructor (shapes: SharedArray<Shape>)
      ensures this.shapes == shapes && tool == RectTool
    {
      this.shapes := shapes;
      tool := RectTool;
    }

    method SetTool(t: Tool)
      modifies this
      ensures tool == t
    {
      tool := t;
    }

    /** `addShape`: appends the draft with an id; nothing else changes. */
    method AddShape(d: Draft, id: string)
      modifies shapes
      ensures shapes.items == old(shapes.items) + [Shape(id, d)]
    {
      shapes.Push([Shape(id, d)]);
    }

    /** `handleCanvasClick`: without a laid-out container nothing happens;
        otherwise the click point relative to it gets the tool's shape, so a
        click adds at most one shape. */
    method HandleCanvasClick(bounds: Option<Bounds>, clientX: int, clientY: int, id: string)
      modifies shapes
      ensures bounds.None? ==> shapes.items == old(shapes.items)
      ensures bounds.Some? ==>
        var d := ShapeFor(tool, clientX - bounds.value.left, clientY - bounds.value.top);
        shapes.items == old(shapes.items) + (if d.Some? then [Shape(id, d.value)] else [])
      ensures |shapes.items| <= |old(shapes.items)| + 1
    {
      if bounds.None? {
        return;
      }
      var d := ShapeFor(tool, clientX - bounds.value.left, clientY - bounds.value.top);
      if d.Some? {
        AddShape(d.value, id);
      }
    }

    /** A click on the shape at `index` (a position of the rendered list):
        the select tool removes exactly that shape, any other tool does
        nothing. */
    method ShapeClick(index: nat)
      requires index < |shapes.items|
      modifies shapes
      ensures tool == Select ==> shapes.items == Removed(old(shapes.items), index, 1)
      ensures tool != Select ==> shapes.items == old(shapes.items)
    {
      if tool == Select {
        shapes.Delete(index, 1);
      }
    }
  }
}
