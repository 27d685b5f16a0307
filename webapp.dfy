/** The web app builder (src/apps/webapp/WebAppEditor.tsx): an app name,
    its description and its pages. */
module WebApp {
  import opened Shared
  import opened FormDocs

  /** `defaultDoc`. */
  const Defaults: map<string, Value> := map[
    "name" := Str("My App"),
    "description" := Str(""),
    "pages" := Str("Home, About, Contact")]

  /** Each text field patches its own key. */
  function FieldPatch(field: string, v: string): Patch
    requires field in Defaults
  {
    [(field, Str(v))]
  }

  lemma DefaultDocument()
    ensures Overlay(Defaults, map[]) == Defaults
    ensures Defaults.Keys == {"name", "description", "pages"}
  {
  }

  /** Editing one field changes that field of the displayed document and
      keeps the other two. */
  lemma FieldEditKeepsOthers(stored: map<string, Value>, field: string, v: string, other: string)
    requires field in Defaults && other in Defaults && other != field
    ensures Overlay(Defaults, Applied(stored, FieldPatch(field, v)))[field] == Str(v)
    ensures Overlay(Defaults, Applied(stored, FieldPatch(field, v)))[other] == Overlay(Defaults, stored)[other]
  {
    SingleEntry(stored, field, Str(v));
  }
}
