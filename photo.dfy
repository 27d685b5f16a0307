/** The photo editor (src/apps/photo/PhotoEditor.tsx): a bounded undo/redo
    history of canvas snapshots with a cursor, the keys written to the shared
    "data" map, the rectangle drawn by dragging, and the layer panel's order.
    The Fabric canvas is an opaque serialization plus its size. */
module Photo {
  import opened Shared

  const DefaultWidth := 800
  const DefaultHeight := 600
  /** `slice(-30)` keeps at most this many snapshots. */
  const MaxHistory := 30

  // ---------------------------------------------------------------------
  // The history list and its cursor
  // ---------------------------------------------------------------------

  /** The editor's `history` list and `historyIndex` cursor. */
  datatype History = History(entries: seq<string>, index: int)

  /** What every step keeps: at most 30 entries, and the cursor on an entry,
      or -1 exactly when there are none. */
  predicate WellFormed(h: History) {
    |h.entries| <= MaxHistory && -1 <= h.index < |h.entries| &&
    (h.entries != [] ==> 0 <= h.index)
  }

  /** The empty history the editor starts with and `newDocument` restores. */
  const Empty := History([], -1)

  /** JavaScript's `s.slice(0, n)` for `n >= 0`. */
  function SlicePrefix(s: seq<string>, n: nat): (r: seq<string>)
    ensures r == s[..if n < |s| then n else |s|]
  {
    if n < |s| then s[..n] else s
  }

  /** JavaScript's `s.slice(-n)` for `n > 0`: the last `n` items. */
  function KeepLast(s: seq<string>, n: nat): (r: seq<string>)
    requires n > 0
    ensures |r| == if |s| < n then |s| else n
    ensures r == s[|s| - |r|..]
  {
    if |s| <= n then s else s[|s| - n..]
  }

  /** `saveHistory`: drop the redo tail after the cursor, append the current
      canvas and keep the last 30; the cursor moves to `min(index + 1, 29)`.
      From a well-formed history the result is well formed, ends with the new
      snapshot, and its cursor points at it. */
  function Save(h: History, json: string): (r: History)
    requires -1 <= h.index
    ensures WellFormed(h) ==>
      WellFormed(r) && r.entries != [] && r.index == |r.entries| - 1 && r.entries[r.index] == json
  {
    var kept := KeepLast(SlicePrefix(h.entries, h.index + 1) + [json], MaxHistory);
    History(kept, if h.index + 1 < MaxHistory - 1 then h.index + 1 else MaxHistory - 1)
  }

  /** `handleUndo`: step back one entry unless the cursor is at the first;
      only the cursor moves. */
  function Undo(h: History): (r: History)
    ensures r.entries == h.entries
    ensures r.index == if h.index <= 0 then h.index else h.index - 1
    ensures WellFormed(h) ==> WellFormed(r)
  {
    if h.index <= 0 then h else h.(index := h.index - 1)
  }

  /** `handleRedo`: step forward one entry unless the cursor is at the last;
      only the cursor moves. */
  function Redo(h: History): (r: History)
    ensures r.entries == h.entries
    ensures r.index == if h.index >= |h.entries| - 1 then h.index else h.index + 1
    ensures WellFormed(h) ==> WellFormed(r)
  {
    if h.index >= |h.entries| - 1 then h else h.(index := h.index + 1)
  }

  /** Saving discards every entry after the cursor: what is kept before the
      new snapshot is the tail of `entries[..index + 1]`, and when that fits in
      the bound nothing before the cursor is lost. */
  lemma SaveDropsRedoTail(h: History, json: string)
    requires WellFormed(h)
    ensures var r := Save(h, json);
      r.entries == KeepLast(h.entries[..h.index + 1] + [json], MaxHistory) &&
      (h.index + 2 <= MaxHistory ==> r.entries == h.entries[..h.index + 1] + [json]) &&
      (h.index + 2 > MaxHistory ==> r.entries == h.entries[1..] + [json])
  {
    var front := h.entries[..h.index + 1];
    assert SlicePrefix(h.entries, h.index + 1) == front;
    var s := front + [json];
    if h.index + 2 > MaxHistory {
      assert front == h.entries;
      assert s[|s| - MaxHistory..] == h.entries[1..] + [json];
    }
  }

  /** Redo undoes an undo, and undo undoes a redo, whenever the first step
      moved the cursor. */
  lemma UndoRedoInverse(h: History)
    requires WellFormed(h)
    ensures h.index > 0 ==> Redo(Undo(h)) == h
    ensures h.index < |h.entries| - 1 ==> Undo(Redo(h)) == h
  {
  }

  // ---------------------------------------------------------------------
  // The editor state: history, canvas and the shared "data" map
  // ---------------------------------------------------------------------

  /** The serialization Fabric gives the canvas, and its size. */
  datatype Canvas = Canvas(json: string, width: int, height: int)

  /** Values stored under the shared map's keys; `Undefined` is what
      `newDocument` writes for `canvasJson`. */
  datatype Stored = Text(s: string) | Number(n: int) | Undefined

  class PhotoEditor {
    var history: seq<string>
    var historyIndex: int
    /** `canvasRef.current`: `None` before the Fabric canvas exists. */
    var canvas: Option<Canvas>
    /** The document's shared map "data". */
    const data: SharedMap<Stored>

    ghost function State(): History
      reads this
    {
      History(history, historyIndex)
    }

    ghost predicate Valid()
      reads this
    {
      WellFormed(State())
    }

    /** The shared map holds what the canvas shows: its serialization under
        canvasJson and its size. */
    ghost predicate Persisted()
      reads this, data
    {
      canvas.Some? ==>
        "canvasJson" in data.entries && data.entries["canvasJson"] == Text(canvas.value.json) &&
        "width" in data.entries && data.entries["width"] == Number(canvas.value.width) &&
        "height" in data.entries && data.entries["height"] == Number(canvas.value.height)
    }

    constructor (data: SharedMap<Stored>)
      ensures Valid() && State() == Empty && canvas == None && this.data == data
    {
      history := [];
      historyIndex := -1;
      canvas := None;
      this.data := data;
    }

    /** `saveHistory`; without a canvas it does nothing. */
    method SaveHistory()
      requires Valid()
      modifies this
      ensures Valid() && canvas == old(canvas)
      ensures State() == if canvas.None? then old(State()) else Save(old(State()), canvas.value.json)
    {
      if canvas.None? {
        return;
      }
      var next := Save(History(history, historyIndex), canvas.value.json);
      history, historyIndex := next.entries, next.index;
    }

    /** `persistCanvas`: the canvas serialization and size go to the keys
        canvasJson, width and height; no other key changes. */
    method PersistCanvas()
      modifies data
      ensures Persisted()
      ensures canvas.None? ==> data.entries == old(data.entries)
      ensures canvas.Some? ==> data.entries == old(data.entries)
        ["canvasJson" := Text(canvas.value.json)]
        ["width" := Number(canvas.value.width)]
        ["height" := Number(canvas.value.height)]
    {
      if canvas.None? {
        return;
      }
      var c := canvas.value;
      data.Set("canvasJson", Text(c.json));
      data.Set("width", Number(c.width));
      data.Set("height", Number(c.height));
    }

    /** Every handler that edits the canvas and then saves and persists:
        `object:modified`, `addLayer`, `deleteSelected`, finishing a rectangle,
        placing an ellipse or a text, drawing a path and opening an image.
        `updated` is the canvas after Fabric's change. */
    method Edit(updated: Canvas)
      requires Valid()
      modifies this, data
      ensures Valid() && Persisted()
      ensures old(canvas).None? ==>
        (State() == old(State()) && canvas == None && data.entries == old(data.entries))
      ensures old(canvas).Some? ==>
        (canvas == Some(updated) && State() == Save(old(State()), updated.json) &&
         data.entries == old(data.entries)["canvasJson" := Text(updated.json)]
           ["width" := Number(updated.width)]["height" := Number(updated.height)])
    {
      if canvas.None? {
        return;
      }
      canvas := Some(updated);
      SaveHistory();
      PersistCanvas();
    }

    /** `setLayerVisibility`, `updateSelectedOpacity` and `updateSelectedName`:
        the change is persisted but no snapshot is recorded, so the history is
        untouched and a later undo reverts the change together with the last
        recorded step. */
    method PersistOnlyEdit(updated: Canvas)
      requires Valid()
      modifies this, data
      ensures Valid() && Persisted() && State() == old(State())
      ensures old(canvas).None? ==> canvas == None && data.entries == old(data.entries)
      ensures old(canvas).Some? ==>
        (canvas == Some(updated) &&
         data.entries == old(data.entries)["canvasJson" := Text(updated.json)]
           ["width" := Number(updated.width)]["height" := Number(updated.height)])
    {
      if canvas.None? {
        return;
      }
      canvas := Some(updated);
      PersistCanvas();
    }

    /** The layer panel's × button: Fabric removes the object and nothing
        else happens. No snapshot is recorded and the shared map is not
        written, unlike `deleteSelected`. */
    method RemoveFromPanel(updated: Canvas)
      requires Valid()
      modifies this
      ensures Valid() && State() == old(State()) && data.entries == old(data.entries)
      ensures canvas == if old(canvas).None? then None else Some(updated)
    {
      if canvas.None? {
        return;
      }
      canvas := Some(updated);
    }

    /** `handleUndo`: at the first entry, or without a canvas, nothing
        happens; otherwise the previous snapshot is loaded. */
    method HandleUndo()
      requires Valid()
      modifies this
      ensures Valid() && history == old(history)
      ensures old(historyIndex) <= 0 || old(canvas).None? ==>
        historyIndex == old(historyIndex) && canvas == old(canvas)
      ensures old(historyIndex) > 0 && old(canvas).Some? ==>
        State() == Undo(old(State())) &&
        canvas == Some(old(canvas).value.(json := old(history)[old(historyIndex) - 1]))
    {
      if historyIndex <= 0 || canvas.None? {
        return;
      }
      var prev := history[historyIndex - 1];
      historyIndex := historyIndex - 1;
      canvas := Some(canvas.value.(json := prev));
    }

    /** `handleRedo`: at the last entry, or without a canvas, nothing
        happens; otherwise the next snapshot is loaded. */
    method HandleRedo()
      requires Valid()
      modifies this
      ensures Valid() && history == old(history)
      ensures old(historyIndex) >= |old(history)| - 1 || old(canvas).None? ==>
        historyIndex == old(historyIndex) && canvas == old(canvas)
      ensures old(historyIndex) < |old(history)| - 1 && old(canvas).Some? ==>
        State() == Redo(old(State())) &&
        canvas == Some(old(canvas).value.(json := old(history)[old(historyIndex) + 1]))
    {
      if historyIndex >= |history| - 1 || canvas.None? {
        return;
      }
      var next := history[historyIndex + 1];
      historyIndex := historyIndex + 1;
      canvas := Some(canvas.value.(json := next));
    }

    /** `newDocument`: a blank 800x600 canvas, an empty history, and the
        shared map's canvasJson cleared and size reset. `blank` is what Fabric
        serializes for the blank canvas with its white background layer. */
    method NewDocument(blank: string)
      requires Valid()
      modifies this, data
      ensures Valid()
      ensures old(canvas).None? ==>
        (State() == old(State()) && canvas == None && data.entries == old(data.entries))
      ensures old(canvas).Some? ==>
        (State() == Empty && canvas == Some(Canvas(blank, DefaultWidth, DefaultHeight)) &&
         data.entries == old(data.entries)["canvasJson" := Undefined]
           ["width" := Number(DefaultWidth)]["height" := Number(DefaultHeight)])
    {
      if canvas.None? {
        return;
      }
      canvas := Some(Canvas(blank, DefaultWidth, DefaultHeight));
      history, historyIndex := [], -1;
      data.Set("canvasJson", Undefined);
      data.Set("width", Number(DefaultWidth));
      data.Set("height", Number(DefaultHeight));
    }
  }

  /** The × button leaves the shared map behind the canvas: a layer removed
      from a persisted canvas is still in the stored canvasJson, which other
      editors and a reload load. */
  method PanelRemovalNotPersisted() returns (stored: Stored, shown: string)
    ensures stored != Text(shown)
  {
    var data := new SharedMap<Stored>(map[]);
    var editor := new PhotoEditor(data);
    editor.canvas := Some(Canvas("[background, layer]", DefaultWidth, DefaultHeight));
    editor.PersistCanvas();
    editor.RemoveFromPanel(Canvas("[background]", DefaultWidth, DefaultHeight));
    stored := data.entries["canvasJson"];
    shown := editor.canvas.value.json;
  }

  // ---------------------------------------------------------------------
  // Pure geometry and the layer panel
  // ---------------------------------------------------------------------

  datatype Point = Point(x: int, y: int)
  datatype Box = Box(left: int, top: int, width: int, height: int)

  function Abs(n: int): int { if n < 0 then -n else n }
  function Min(a: int, b: int): int { if a < b then a else b }
  function Max(a: int, b: int): int { if a < b then b else a }

  /** The rectangle `onMove` sets while dragging from `start` to `p`. */
  function DragBox(start: Point, p: Point): (b: Box)
    ensures b.width >= 0 && b.height >= 0
  {
    Box(Min(start.x, p.x), Min(start.y, p.y), Abs(p.x - start.x), Abs(p.y - start.y))
  }

  /** The dragged rectangle has non-negative size and its two opposite
      corners are the drag's start and the pointer, whichever way it goes. */
  lemma DragBoxSpansBothPoints(start: Point, p: Point)
    ensures var b := DragBox(start, p);
      b.width >= 0 && b.height >= 0 &&
      b.left == Min(start.x, p.x) && b.left + b.width == Max(start.x, p.x) &&
      b.top == Min(start.y, p.y) && b.top + b.height == Max(start.y, p.y)
  {
  }

  /** The same rectangle whichever corner the drag starts from. */
  lemma DragBoxSymmetric(start: Point, p: Point)
    ensures DragBox(start, p) == DragBox(p, start)
  {
  }

  /** `[...objects].reverse()`: the layer panel lists the topmost object first. */
  function Layers<T>(objects: seq<T>): (r: seq<T>)
    ensures |r| == |objects|
    ensures forall k :: 0 <= k < |r| ==> r[k] == objects[|objects| - 1 - k]
  {
    if objects == [] then [] else Layers(objects[1..]) + [objects[0]]
  }

  /** Reversing the layer list gives back the canvas order. */
  lemma LayersInvolution<T>(objects: seq<T>)
    ensures Layers(Layers(objects)) == objects
  {
  }
}
