/** The social media editor (src/apps/social/SocialEditor.tsx): a post of a
    chosen network's size with a headline and a body. */
module Social {
  import opened Shared
  import opened FormDocs

  const Templates: seq<SizeTemplate> := [
    SizeTemplate("instagram-post", "Instagram Post", 1080, 1080),
    SizeTemplate("instagram-story", "Instagram Story", 1080, 1920),
    SizeTemplate("facebook", "Facebook Post", 1200, 630),
    SizeTemplate("twitter", "Twitter Post", 1200, 675),
    SizeTemplate("linkedin", "LinkedIn", 1200, 627),
    SizeTemplate("pinterest", "Pinterest", 1000, 1500)
  ]

  /** `defaultDoc`. */
  const Defaults: map<string, Value> := map[
    "template" := Str("instagram-post"),
    "headline" := Str("Your Headline"),
    "body" := Str("Add your message here."),
    "width" := Num(1080),
    "height" := Num(1080)]

  /** The two text fields each patch one key. */
  function HeadlinePatch(v: string): Patch { [("headline", Str(v))] }
  function BodyPatch(v: string): Patch { [("body", Str(v))] }

  /** The default document is the first template's size, and a document
      with nothing stored displays the defaults. */
  lemma DefaultIsFirstTemplate()
    ensures FindTemplate(Templates, "instagram-post") == Some(Templates[0])
    ensures Defaults["template"] == Str(Templates[0].id)
    ensures Defaults["width"] == Num(Templates[0].w) && Defaults["height"] == Num(Templates[0].h)
    ensures Overlay(Defaults, map[]) == Defaults
  {
  }

  /** The template ids are distinct, so each picker key selects its own row:
      a story is 1080 by 1920, and an unknown key changes nothing. */
  lemma SelectStory(m: map<string, Value>)
    ensures Applied(m, SelectionPatch(Templates, "instagram-story")) ==
      m["template" := Str("instagram-story")]["width" := Num(1080)]["height" := Num(1920)]
    ensures Applied(m, SelectionPatch(Templates, "tiktok")) == m
  {
    assert Templates[1].id == "instagram-story" && Templates[0].id != "instagram-story";
    assert FindTemplate(Templates, "instagram-story") == Some(Templates[1]);
    SelectTemplateEffect(m, Templates, "instagram-story");
    assert forall i :: 0 <= i < |Templates| ==> Templates[i].id != "tiktok";
    SelectTemplateEffect(m, Templates, "tiktok");
  }

  /** Editing the headline changes the displayed headline only. */
  lemma HeadlineEdit(stored: map<string, Value>, v: string, key: string)
    ensures Overlay(Defaults, Applied(stored, HeadlinePatch(v)))["headline"] == Str(v)
    ensures key != "headline" && key in Overlay(Defaults, stored) ==> (
      key in Overlay(Defaults, Applied(stored, HeadlinePatch(v))) &&
      Overlay(Defaults, Applied(stored, HeadlinePatch(v)))[key] == Overlay(Defaults, stored)[key])
  {
    SingleEntry(stored, "headline", Str(v));
  }
}
