/** What the map-backed editors (social, print, mobile and web app) share:
    the displayed document is the editor's defaults overlaid by the keys of
    the shared map "data", `update` writes each entry of a patch into that
    map, and a template is looked up by id in a table of sizes. */
module FormDocs {
  import opened Shared

  /** A value stored under a key: the documents hold strings and sizes. */
  datatype Value = Str(s: string) | Num(n: int)

  /** A patch object's entries, in `Object.entries` order. */
  type Patch = seq<(string, Value)>

  /** `{ ...defaults, ...data }`: every key of either, the stored value
      winning over the default. */
  function Overlay(defaults: map<string, Value>, stored: map<string, Value>): (r: map<string, Value>)
    ensures r.Keys == defaults.Keys + stored.Keys
    ensures forall k :: k in stored ==> r[k] == stored[k]
    ensures forall k :: k in defaults && k !in stored ==> r[k] == defaults[k]
  {
    defaults + stored
  }

  /** The value the last entry for `key` in the patch gives it, if any. */
  function Lookup(patch: Patch, key: string): (r: Option<Value>)
    ensures r.None? <==> forall i :: 0 <= i < |patch| ==> patch[i].0 != key
  {
    if patch == [] then None
    else if patch[|patch| - 1].0 == key then Some(patch[|patch| - 1].1)
    else Lookup(patch[..|patch| - 1], key)
  }

  /** The map after `yMap.set(k, v)` for each entry, first to last. */
  function Applied(m: map<string, Value>, patch: Patch): map<string, Value> {
    if patch == [] then m
    else Applied(m, patch[..|patch| - 1])[patch[|patch| - 1].0 := patch[|patch| - 1].1]
  }

  /** `update(patch)` writes exactly the patch's keys: each key of the patch
      holds the patch's value for it, and every other key is as it was. */
  lemma {:induction false} AppliedWritesExactlyPatch(m: map<string, Value>, patch: Patch, key: string)
    ensures Lookup(patch, key).Some? ==> key in Applied(m, patch) && Applied(m, patch)[key] == Lookup(patch, key).value
    ensures Lookup(patch, key).None? ==>
      (key in Applied(m, patch) <==> key in m) && (key in m ==> Applied(m, patch)[key] == m[key])
  {
    if patch != [] {
      AppliedWritesExactlyPatch(m, patch[..|patch| - 1], key);
    }
  }

  /** A patch of one entry sets that key and nothing else. */
  lemma SingleEntry(m: map<string, Value>, key: string, v: Value)
    ensures Applied(m, [(key, v)]) == m[key := v]
  {
    assert [(key, v)][..0] == [];
  }

  /** One row of an editor's template table. */
  datatype SizeTemplate = SizeTemplate(id: string, name: string, w: int, h: int)

  /** `TEMPLATES.find((x) => x.id === key)`: the first row with that id. */
  function FindTemplate(rows: seq<SizeTemplate>, key: string): (r: Option<SizeTemplate>)
    ensures r.None? <==> forall i :: 0 <= i < |rows| ==> rows[i].id != key
    ensures r.Some? ==> exists i :: (0 <= i < |rows| && rows[i] == r.value &&
      r.value.id == key && forall j :: 0 <= j < i ==> rows[j].id != key)
  {
    if rows == [] then None
    else if rows[0].id == key then
      assert rows[0] == rows[0];
      Some(rows[0])
    else
      var r := FindTemplate(rows[1..], key);
      if r.Some? then
        var i :| 0 <= i < |rows[1..]| && rows[1..][i] == r.value && r.value.id == key &&
          forall j :: 0 <= j < i ==> rows[1..][j].id != key;
        assert rows[i + 1] == r.value;
        r
      else r
  }

  /** The patch choosing a template writes: its id, width and height. */
  function TemplatePatch(t: SizeTemplate): Patch {
    [("template", Str(t.id)), ("width", Num(t.w)), ("height", Num(t.h))]
  }

  /** The template picker's patch: empty for an unknown key. */
  function SelectionPatch(rows: seq<SizeTemplate>, key: string): Patch {
    match FindTemplate(rows, key)
    case Some(t) => TemplatePatch(t)
    case None => []
  }

  /** Choosing a known template sets template, width and height to its row
      and leaves every other key alone; an unknown key changes nothing. */
  lemma SelectTemplateEffect(m: map<string, Value>, rows: seq<SizeTemplate>, key: string)
    ensures FindTemplate(rows, key).None? ==> Applied(m, SelectionPatch(rows, key)) == m
    ensures FindTemplate(rows, key).Some? ==>
      var t := FindTemplate(rows, key).value;
      Applied(m, SelectionPatch(rows, key)) == m["template" := Str(t.id)]["width" := Num(t.w)]["height" := Num(t.h)]
  {
    if FindTemplate(rows, key).Some? {
      var t := FindTemplate(rows, key).value;
      var p := TemplatePatch(t);
      assert p[..2] == [("template", Str(t.id)), ("width", Num(t.w))];
      assert p[..2][..1] == [("template", Str(t.id))];
      SingleEntry(m, "template", Str(t.id));
      assert Applied(m, p[..2]) == m["template" := Str(t.id)]["width" := Num(t.w)];
    }
  }

  /** A map-backed editor: its defaults and the document's shared map. */
  class FormEditor {
    const defaults: map<string, Value>
    const data: SharedMap<Value>

    constructor (defaults: map<string, Value>, data: SharedMap<Value>)
      ensures this.defaults == defaults && this.data == data
    {
      this.defaults := defaults;
      this.data := data;
    }

    /** `state`: what the editor displays. */
    function State(): map<string, Value>
      reads data
    {
      Overlay(defaults, data.entries)
    }

    /** `update(patch)`: `yMap.set` for each entry in turn. */
    method Update(patch: Patch)
      modifies data
      ensures data.entries == Applied(old(data.entries), patch)
    {
      for i := 0 to |patch|
        invariant data.entries == Applied(old(data.entries), patch[..i])
      {
        assert patch[..i + 1][..i] == patch[..i];
        data.Set(patch[i].0, patch[i].1);
      }
      assert patch[..|patch|] == patch;
    }

    /** The template picker: a known key writes its row, an unknown one
        nothing. */
    method SelectTemplate(rows: seq<SizeTemplate>, key: string)
      modifies data
      ensures data.entries == Applied(old(data.entries), SelectionPatch(rows, key))
    {
      var t := FindTemplate(rows, key);
      if t.Some? {
        Update(TemplatePatch(t.value));
      }
    }
  }
}
