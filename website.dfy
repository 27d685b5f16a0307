/** The website builder (src/apps/website/WebsiteEditor.tsx): an ordered list
    of page sections in the shared array "sections", seeded with a hero
    section, edited in place and appended to. */
module Website {
  import opened Shared

  datatype SectionKind = Hero | TextBlock | Gallery | Cta

  datatype Section = Section(id: string, kind: SectionKind, heading: string, body: string)

  /** A `Partial<Section>`: `Some` for each key the patch object has. */
  datatype SectionPatch = SectionPatch(
    id: Option<string>, kind: Option<SectionKind>, heading: Option<string>, body: Option<string>)

  /** The section an empty page is seeded with. */
  const Welcome := Section("1", Hero, "Welcome", "Build your website with blocks.")

  /** `{ ...s, ...patch }`. */
  function Patched(s: Section, p: SectionPatch): Section {
    Section(if p.id.Some? then p.id.value else s.id,
            if p.kind.Some? then p.kind.value else s.kind,
            if p.heading.Some? then p.heading.value else s.heading,
            if p.body.Some? then p.body.value else s.body)
  }

  /** The result of `updateSection(index, patch)`: with an index outside the
      list nothing changes; otherwise the list keeps its length and only the
      section at `index` changes, to `{ ...old, ...patch }`. */
  function Updated(sections: seq<Section>, index: int, patch: SectionPatch): (r: seq<Section>)
    ensures |r| == |sections|
    ensures forall k :: 0 <= k < |r| && k != index ==> r[k] == sections[k]
    ensures 0 <= index < |r| ==> r[index] == Patched(sections[index], patch)
  {
    if 0 <= index < |sections| then
      DeleteThenInsertReplaces(sections, index, Patched(sections[index], patch));
      Inserted(Removed(sections, index, 1), index, [Patched(sections[index], patch)])
    else sections
  }

  function Ids(sections: seq<Section>): seq<string> {
    seq(|sections|, k requires 0 <= k < |sections| => sections[k].id)
  }

  /** The type picker and the two text fields patch one key each, never the id. */
  function KindPatch(k: SectionKind): SectionPatch { SectionPatch(None, Some(k), None, None) }
  function HeadingPatch(v: string): SectionPatch { SectionPatch(None, None, Some(v), None) }
  function BodyPatch(v: string): SectionPatch { SectionPatch(None, None, None, Some(v)) }

  /** A patch without an id keeps every section's id, and a UI patch changes
      exactly the one field it names. */
  lemma UpdateKeepsIds(sections: seq<Section>, index: int, patch: SectionPatch)
    requires patch.id.None?
    ensures Ids(Updated(sections, index, patch)) == Ids(sections)
  {
    var r := Updated(sections, index, patch);
    assert forall k :: 0 <= k < |r| ==> r[k].id == sections[k].id;
  }

  lemma UiPatchesChangeOneField(s: Section, k: SectionKind, v: string)
    ensures Patched(s, KindPatch(k)) == s.(kind := k)
    ensures Patched(s, HeadingPatch(v)) == s.(heading := v)
    ensures Patched(s, BodyPatch(v)) == s.(body := v)
  {
  }

  /** The section `addSection` appends. */
  function NewSection(id: string): (s: Section)
    ensures s.id == id && s.kind == TextBlock && s.heading == "New Section" && s.body == "Content here."
  {
    Section(id, TextBlock, "New Section", "Content here.")
  }

  /** Appending keeps the ids before it and adds the new one last. */
  lemma AddKeepsIds(sections: seq<Section>, id: string)
    ensures Ids(sections + [NewSection(id)]) == Ids(sections) + [id]
  {
  }

  class WebsiteEditor {
    /** The document's shared array "sections". */
    const sections: SharedArray<Section>

    constructor (sections: SharedArray<Section>)
      ensures this.sections == sections
    {
      this.sections := sections;
    }

    /** The mount effect: an empty page gets the welcome section. */
    method Seed()
      modifies sections
      ensures old(sections.items) == [] ==> sections.items == [Welcome]
      ensures old(sections.items) != [] ==> sections.items == old(sections.items)
    {
      if |sections.items| == 0 {
        sections.Push([Welcome]);
      }
    }

    /** `updateSection`: delete the section and insert the patched one. */
    method UpdateSection(index: int, patch: SectionPatch)
      modifies sections
      ensures sections.items == Updated(old(sections.items), index, patch)
    {
      if !(0 <= index < |sections.items|) {
        return;
      }
      var updated := Patched(sections.items[index], patch);
      sections.Delete(index, 1);
      sections.Insert(index, [updated]);
    }

    /** `addSection`; `id` is the creation time the source uses. */
    method AddSection(id: string)
      modifies sections
      ensures sections.items == old(sections.items) + [NewSection(id)]
    {
      sections.Push([NewSection(id)]);
    }
  }
}
