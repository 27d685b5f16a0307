/** The docs editor (src/apps/docs/DocsEditor.tsx): one shared text
    "content", seeded when empty and replaced whole on every edit. */
module Docs {
  import opened Shared

  const Placeholder := "Start writing..."

  class DocsEditor {
    /** The document's shared text "content". */
    const content: SharedText

    constructor (content: SharedText)
      ensures this.content == content
    {
      this.content := content;
    }

    /** The mount effect: an empty text gets the placeholder; any other
        text is left as it is. */
    method Seed()
      modifies content
      ensures old(content.text) == [] ==> content.text == Placeholder
      ensures old(content.text) != [] ==> content.text == old(content.text)
    {
      if |content.text| == 0 {
        content.Insert(0, Placeholder);
      }
    }

    /** `updateContent(v)`: delete the whole text, then insert `v`; no old
        character survives and the text is exactly `v`. */
    method UpdateContent(v: string)
      modifies content
      ensures content.text == v
    {
      content.Delete(0, |content.text|);
      content.Insert(0, v);
    }
  }
}
