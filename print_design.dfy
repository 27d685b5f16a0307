/** The print design editor (src/apps/print/PrintEditor.tsx): a page of a
    chosen paper size with a title and a subtitle. */
module PrintDesign {
  import opened Shared
  import opened FormDocs

  const Templates: seq<SizeTemplate> := [
    SizeTemplate("flyer", "Flyer", 816, 1056),
    SizeTemplate("poster", "Poster", 1056, 816),
    SizeTemplate("card", "Card", 612, 792),
    SizeTemplate("a4", "A4", 794, 1123)
  ]

  /** `defaultDoc`. */
  const Defaults: map<string, Value> := map[
    "template" := Str("flyer"),
    "title" := Str("Your Title"),
    "subtitle" := Str("Subtitle or tagline"),
    "width" := Num(816),
    "height" := Num(1056)]

  function TitlePatch(v: string): Patch { [("title", Str(v))] }
  function SubtitlePatch(v: string): Patch { [("subtitle", Str(v))] }

  /** The default document is the flyer's size. */
  lemma DefaultIsFlyer()
    ensures FindTemplate(Templates, "flyer") == Some(Templates[0])
    ensures Defaults["template"] == Str(Templates[0].id)
    ensures Defaults["width"] == Num(Templates[0].w) && Defaults["height"] == Num(Templates[0].h)
    ensures Overlay(Defaults, map[]) == Defaults
  {
  }

  /** Choosing A4 makes the page 794 by 1123; an unknown key changes nothing. */
  lemma SelectA4(m: map<string, Value>)
    ensures Applied(m, SelectionPatch(Templates, "a4")) ==
      m["template" := Str("a4")]["width" := Num(794)]["height" := Num(1123)]
    ensures Applied(m, SelectionPatch(Templates, "letter")) == m
  {
    assert Templates[3].id == "a4";
    assert forall i :: 0 <= i < 3 ==> Templates[i].id != "a4";
    assert FindTemplate(Templates, "a4") == Some(Templates[3]);
    SelectTemplateEffect(m, Templates, "a4");
    assert forall i :: 0 <= i < |Templates| ==> Templates[i].id != "letter";
    SelectTemplateEffect(m, Templates, "letter");
  }

  /** Editing the subtitle changes the displayed subtitle only. */
  lemma SubtitleEdit(stored: map<string, Value>, v: string, key: string)
    ensures Overlay(Defaults, Applied(stored, SubtitlePatch(v)))["subtitle"] == Str(v)
    ensures key != "subtitle" && key in Overlay(Defaults, stored) ==> (
      key in Overlay(Defaults, Applied(stored, SubtitlePatch(v))) &&
      Overlay(Defaults, Applied(stored, SubtitlePatch(v)))[key] == Overlay(Defaults, stored)[key])
  {
    SingleEntry(stored, "subtitle", Str(v));
  }
}
