/** The dashboard (src/pages/Dashboard.tsx): the table of app types, the
    explore row, and opening a document of an app, either new under a
    generated id or by a typed id through the "Open by ID" dialog.
    Navigation is recorded as the list of paths visited. */
module Dashboard {
  import opened Shared
  import opened Strings
  import Collab

  datatype AppType = AppType(id: string, name: string, path: string, desc: string, pastel: string)

  /** An app type whose path is a slash and its id, as every row of
      `APP_TYPES` is. */
  function App(id: string, name: string, desc: string, pastel: string): AppType {
    AppType(id, name, "/" + id, desc, pastel)
  }

  /** `APP_TYPES`, in display order. */
  const AppTypes: seq<AppType> := [
    App("presentation", "Presentations", "Slides and decks", "#fef9c3"),
    App("social", "Social Media", "Posts and stories", "#e9d5ff"),
    App("video", "Video", "Video editor", "#dbeafe"),
    App("print", "Print", "Flyers, posters, cards", "#d1fae5"),
    App("docs", "Docs", "Documents", "#fce7f3"),
    App("whiteboard", "Whiteboard", "Infinite canvas", "#e0e7ff"),
    App("sheets", "Sheets", "Spreadsheets", "#ccfbf1"),
    App("website", "Websites", "Website builder", "#fed7aa"),
    App("webapp", "Web Apps", "Web app builder", "#fbcfe8"),
    App("mobile", "Mobile Apps", "Mobile app builder", "#c7d2fe"),
    App("photo", "Photo Editor", "Edit photos", "#ddd6fe")
  ]

  /** Every id is made of lower-case letters only. */
  predicate LowerWord(s: string) {
    forall k :: 0 <= k < |s| ==> 'a' <= s[k] <= 'z'
  }

  /** Eleven app types, each with its own id and path; every path is a slash
      and the id, and no id contains a slash or a dash. */
  lemma AppTypesWellFormed()
    ensures |AppTypes| == 11
    ensures forall i :: 0 <= i < 11 ==>
      AppTypes[i].path == "/" + AppTypes[i].id && '/' !in AppTypes[i].id && '-' !in AppTypes[i].id
    ensures forall i, j :: 0 <= i < j < 11 ==> AppTypes[i].id != AppTypes[j].id && AppTypes[i].path != AppTypes[j].path
  {
    AppIdsLower();
    AppIdsDistinct();
    forall i | 0 <= i < 11
      ensures '/' !in AppTypes[i].id && '-' !in AppTypes[i].id
    {
      NoSeparatorInWord(AppTypes[i].id);
    }
    forall i, j | 0 <= i < j < 11
      ensures AppTypes[i].path != AppTypes[j].path
    {
      assert AppTypes[i].path[1..] == AppTypes[i].id;
      assert AppTypes[j].path[1..] == AppTypes[j].id;
    }
  }

  lemma NoSeparatorInWord(s: string)
    requires LowerWord(s)
    ensures '/' !in s && '-' !in s
  {
  }

  lemma AppIdsLower()
    ensures forall i :: 0 <= i < 11 ==> LowerWord(AppTypes[i].id)
  {
    assert LowerWord("presentation");
    assert LowerWord("social");
    assert LowerWord("video");
    assert LowerWord("print");
    assert LowerWord("docs");
    assert LowerWord("whiteboard");
    assert LowerWord("sheets");
    assert LowerWord("website");
    assert LowerWord("webapp");
    assert LowerWord("mobile");
    assert LowerWord("photo");
  }

  lemma AppIdsDistinct()
    ensures forall i, j :: 0 <= i < j < 11 ==> AppTypes[i].id != AppTypes[j].id
  {
  }

  /** `exploreCards`: the first six app types, in order. */
  function ExploreCards(): (r: seq<AppType>)
    ensures |r| == 6 && forall i :: 0 <= i < 6 ==> r[i] == AppTypes[i]
  {
    AppTypes[..6]
  }

  /** The path an app's document opens at. */
  function DocPath(app: AppType, docId: string): (r: string)
    ensures |r| == |app.path| + 1 + |docId|
    ensures r[..|app.path|] == app.path && r[|app.path|] == '/' && r[|app.path| + 1..] == docId
  {
    app.path + "/" + docId
  }

  /** The path names both the app and the document: two listed apps'
      documents share a path only when they are the same document of the
      same app. */
  lemma DocPathDetermines(i: int, j: int, d1: string, d2: string)
    requires 0 <= i < |AppTypes| && 0 <= j < |AppTypes|
    requires DocPath(AppTypes[i], d1) == DocPath(AppTypes[j], d2)
    ensures i == j && d1 == d2
  {
    AppTypesWellFormed();
    var a, b := AppTypes[i], AppTypes[j];
    assert DocPath(a, d1) == "/" + (a.id + ['/'] + d1);
    assert DocPath(b, d2) == "/" + (b.id + ['/'] + d2);
    assert a.id + ['/'] + d1 == DocPath(a, d1)[1..];
    assert b.id + ['/'] + d2 == DocPath(b, d2)[1..];
    SeparatorSplit(a.id, d1, b.id, d2, '/');
  }

  /** Each app's editor joins the room named by its id and the document id,
      so documents of different apps, or different documents of one app,
      never share a room. */
  lemma DistinctDocumentsDistinctRooms(i: int, j: int, d1: string, d2: string)
    requires 0 <= i < |AppTypes| && 0 <= j < |AppTypes|
    requires i != j || d1 != d2
    ensures Collab.Room(d1, AppTypes[i].id) != Collab.Room(d2, AppTypes[j].id)
  {
    AppTypesWellFormed();
    Collab.RoomInjective(d1, AppTypes[i].id, d2, AppTypes[j].id);
  }

  /** `docName.trim() || generateId()`: the typed name without surrounding
      white space, or the generated id when nothing but white space was typed. */
  function ChooseDocId(docName: string, generated: string): (r: string)
    ensures Trim(docName) != [] ==> r == Trim(docName) && !IsSpace(r[0]) && !IsSpace(r[|r| - 1])
    ensures Trim(docName) == [] ==> r == generated
  {
    var t := Trim(docName);
    if t != [] then t else generated
  }

  /** A typed id with spaces around it opens the same document as the id. */
  lemma PaddingIgnored(id: string, generated: string)
    requires id != [] && !IsSpace(id[0]) && !IsSpace(id[|id| - 1])
    ensures ChooseDocId(" " + id + "\n", generated) == id
  {
    var s := " " + id + "\n";
    assert s[1..|s| - 1] == id;
    assert SkipSpace(s, 1) == 1;
    assert SkipSpace(s, 0) == 1;
    assert SkipSpaceBack(s, 1, |s| - 1) == |s| - 1;
    assert SkipSpaceBack(s, 1, |s|) == |s| - 1;
  }

  class Dashboard {
    var docName: string
    /** The app whose "Open by ID" dialog is showing. */
    var creatingFor: Option<AppType>
    /** The paths navigated to, oldest first. */
    var visited: seq<string>

    constructor ()
      ensures docName == "" && creatingFor == None && visited == []
    {
      docName := "";
      creatingFor := None;
      visited := [];
    }

    /** `createAndOpen`: open a new document of the app under a generated id. */
    method CreateAndOpen(app: AppType, generated: string)
      modifies this
      ensures visited == old(visited) + [DocPath(app, generated)]
      ensures docName == old(docName) && creatingFor == old(creatingFor)
    {
      visited := visited + [DocPath(app, generated)];
    }

    /** The "Open by ID" button: show the dialog for the app with an empty id. */
    method OpenById(app: AppType)
      modifies this
      ensures creatingFor == Some(app) && docName == "" && visited == old(visited)
    {
      creatingFor := Some(app);
      docName := "";
    }

    /** Typing in the dialog's input. */
    method TypeDocName(v: string)
      modifies this
      ensures docName == v && creatingFor == old(creatingFor) && visited == old(visited)
    {
      docName := v;
    }

    /** Cancel, or a click on the backdrop: close the dialog, keeping the
        typed text. */
    method Cancel()
      modifies this
      ensures creatingFor == None && docName == old(docName) && visited == old(visited)
    {
      creatingFor := None;
    }

    /** `openWithName`: without a dialog nothing happens; otherwise open the
        chosen document of the dialog's app, close the dialog and clear the
        input. */
    method OpenWithName(generated: string)
      modifies this
      ensures old(creatingFor).None? ==>
        docName == old(docName) && creatingFor == None && visited == old(visited)
      ensures old(creatingFor).Some? ==>
        visited == old(visited) + [DocPath(old(creatingFor).value, ChooseDocId(old(docName), generated))] &&
        creatingFor == None && docName == ""
    {
      if creatingFor.None? {
        return;
      }
      var docId := ChooseDocId(docName, generated);
      visited := visited + [DocPath(creatingFor.value, docId)];
      creatingFor := None;
      docName := "";
    }
  }
}
