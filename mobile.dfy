/** The mobile app builder (src/apps/mobile/MobileAppEditor.tsx): an app
    name, its screens and its platform. */
module Mobile {
  import opened Shared
  import opened FormDocs

  /** `defaultDoc`. */
  const Defaults: map<string, Value> := map[
    "name" := Str("My App"),
    "screens" := Str("Home, Profile, Settings"),
    "platform" := Str("ios")]

  function NamePatch(v: string): Patch { [("name", Str(v))] }
  function ScreensPatch(v: string): Patch { [("screens", Str(v))] }

  /** The platform picker stores `String(key)`; its keys are strings, which
      `String` leaves as they are. */
  function PlatformPatch(key: string): Patch { [("platform", Str(key))] }

  /** A new document displays the defaults: an iOS app named "My App". */
  lemma DefaultDocument()
    ensures Overlay(Defaults, map[]) == Defaults
    ensures Defaults.Keys == {"name", "screens", "platform"}
    ensures Defaults["platform"] == Str("ios")
  {
  }

  /** Choosing a platform writes the platform key and no other. */
  lemma PlatformOnly(stored: map<string, Value>, key: string, other: string)
    ensures Overlay(Defaults, Applied(stored, PlatformPatch(key)))["platform"] == Str(key)
    ensures other != "platform" ==>
      (other in Applied(stored, PlatformPatch(key)) <==> other in stored) &&
      (other in stored ==> Applied(stored, PlatformPatch(key))[other] == stored[other])
  {
    SingleEntry(stored, "platform", Str(key));
  }
}
