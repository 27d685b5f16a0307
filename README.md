# ForgeMob editors: a Dafny model

ForgeMob is a browser suite of collaborative editors: presentations, social
posts, video, print, docs, whiteboard, sheets, websites, web apps, mobile apps
and photos. A dashboard opens them. Every editor keeps its document in Yjs
shared containers, in a room named after the app type and the document id.

This project models the sequential logic the repository itself contains.
The Yjs containers become plain values inside three small classes:

- an array is `Shared.SharedArray` over a `seq`;
- a map is `Shared.SharedMap` over a `map`;
- a text is `Shared.SharedText` over a `string`.

Each React handler becomes one method that edits those containers or the
component's state. Its `ensures` states the whole new state, in terms of pure
functions whose properties are proved as lemmas.

The modules follow the source files:

- `Photo`: the bounded undo/redo history, the keys written to the shared map, drag geometry and layer order.
- `Presentation`: normalising the slide array, seeding, adding, updating and templating slides, and PDF page breaks.
- `Collab`: room names, plus the document and provider caches with their teardown.
- `SheetTypes` and `Sheets`: column letters, cell keys, the 20×10 grid and a cell write.
- `Video`, `Website`, `Whiteboard` and `Docs`: the ordered-list and text editors.
- `GenerateSlides`: the endpoint URL, code-fence stripping, validation of the slide outline, interpretation of the response, and the placeholder image URL.
- `FormDocs`, with `Social`, `PrintDesign`, `Mobile` and `WebApp`: the map-backed editors. Defaults are overlaid by stored keys, a patch writes its keys, and a template is looked up in a table.
- `Dashboard`: the app table, the explore row, and opening a document, new or by id.
- `Strings`: the JavaScript string helpers these need, namely the decimal rendering of integers, `trim` and its white-space set, and `indexOf`.

Foreign behaviour is passed in as function-typed parameters:

- `JSON.parse`, `String()` and `encodeURIComponent`;
- the identifiers the source draws from `Date.now()` or `Math.random()`;
- the serialization the Fabric canvas produces.

Teardown is not reference-counted. The cleanup of any component using a room
destroys the room's provider and drops both cache entries
(src/collab/useCollaboration.ts:31-37). `Collab.DoubleEffect` shows one consequence: after React's
connect, clean up, connect sequence, the room has a live provider for a
document that the document cache no longer holds.

## Model

| member | source | states |
|---|---|---|
| Photo.Save | src/apps/photo/PhotoEditor.tsx:70-75 | From a well-formed history (at most 30 entries, cursor on an entry or -1 when empty), saving gives a well-formed history whose last entry is the new snapshot, with the cursor on it |
| Photo.SaveDropsRedoTail | src/apps/photo/PhotoEditor.tsx:71-73 | Saving keeps only `entries[..index+1]`, dropping the redo tail, then appends the snapshot. While that fits in 30 entries nothing else is lost; at the bound the oldest entry goes |
| Photo.Undo | src/apps/photo/PhotoEditor.tsx:253-258 | Only the cursor moves, back by one unless it is at 0 or -1; well-formedness is kept |
| Photo.Redo | src/apps/photo/PhotoEditor.tsx:265-270 | Only the cursor moves, forward by one unless it is on the last entry; well-formedness is kept |
| Photo.UndoRedoInverse | src/apps/photo/PhotoEditor.tsx:253-275 | Redo after an undo that moved, and undo after a redo that moved, restore the history |
| Photo.PhotoEditor.SaveHistory | src/apps/photo/PhotoEditor.tsx:66-76 | Without a canvas nothing changes; otherwise the history becomes `Save` of the old one with the canvas snapshot; the invariant is kept |
| Photo.PhotoEditor.PersistCanvas | src/apps/photo/PhotoEditor.tsx:78-85 | Without a canvas the map is unchanged; otherwise exactly canvasJson, width and height are written, with the canvas values |
| Photo.PhotoEditor.Edit | src/apps/photo/PhotoEditor.tsx:156-160 | An edit of an existing canvas saves a snapshot of the new canvas and persists its three keys, so the shared map holds what the canvas shows; without a canvas nothing changes |
| Photo.PhotoEditor.PersistOnlyEdit | src/apps/photo/PhotoEditor.tsx:230-251 | Visibility, opacity and name changes persist the new canvas's three keys but record no snapshot: the history is unchanged |
| Photo.PhotoEditor.RemoveFromPanel | src/apps/photo/PhotoEditor.tsx:541 | The × button changes only the canvas: no snapshot is recorded and the shared map is not written |
| Photo.PanelRemovalNotPersisted | src/apps/photo/PhotoEditor.tsx:541 | After a × removal from a persisted canvas, the stored canvasJson differs from what the canvas shows |
| Photo.PhotoEditor.HandleUndo | src/apps/photo/PhotoEditor.tsx:253-263 | At index 0 or below, or without a canvas, nothing changes. Otherwise the cursor steps back and the canvas loads `history[index-1]`. The list itself never changes |
| Photo.PhotoEditor.HandleRedo | src/apps/photo/PhotoEditor.tsx:265-275 | At the last index, or without a canvas, nothing changes. Otherwise the cursor steps forward and the canvas loads `history[index+1]`. The list itself never changes |
| Photo.PhotoEditor.NewDocument | src/apps/photo/PhotoEditor.tsx:462-473 | With a canvas: the history is empty with index -1, the canvas is blank 800×600, canvasJson is cleared and width/height are set to 800/600; without one nothing changes |
| Photo.DragBox | src/apps/photo/PhotoEditor.tsx:313-320 | The rectangle drawn while dragging never has a negative width or height |
| Photo.DragBoxSpansBothPoints | src/apps/photo/PhotoEditor.tsx:313-320 | The dragged box has non-negative size, left = min and left + width = max of the two x values, likewise for y |
| Photo.DragBoxSymmetric | src/apps/photo/PhotoEditor.tsx:313-320 | The box is the same whichever corner the drag starts from |
| Photo.Layers | src/apps/photo/PhotoEditor.tsx:187-188 | The layer list has the objects' length and lists them topmost first |
| Photo.LayersInvolution | src/apps/photo/PhotoEditor.tsx:188 | Reversing the layer list twice gives back the canvas order |
| Presentation.Kept | src/apps/presentation/PresentationEditor.tsx:94 | Normalising never yields more slides than entries |
| Presentation.KeptOfWellFormed | src/apps/presentation/PresentationEditor.tsx:94 | When every entry is a slide, normalising keeps each one, in place |
| Presentation.KeptAppend | src/apps/presentation/PresentationEditor.tsx:94 | Normalisation works entry by entry: the view of a concatenation is the concatenation of the views |
| Presentation.RawPosition | src/apps/presentation/PresentationEditor.tsx:92-95 | Every displayed slide has a position in the shared array |
| Presentation.RawPositionShows | src/apps/presentation/PresentationEditor.tsx:94 | The entry at that position shows exactly that slide, and exactly k displayed slides come before it |
| Presentation.KeptPreservesOrder | src/apps/presentation/PresentationEditor.tsx:94 | Normalisation never reorders: later displayed slides come from later positions |
| Presentation.EmptyShowsDefaults | src/apps/presentation/PresentationEditor.tsx:29-34 | An empty array displays exactly the two defaults, ids "1" and "2" |
| Presentation.SeedEntries | src/apps/presentation/PresentationEditor.tsx:98-102 | The seed is two well-formed entries that display the two defaults |
| Presentation.SeedKeepsDisplay | src/apps/presentation/PresentationEditor.tsx:92-102 | Seeding does not change what is displayed |
| Presentation.SlideList | src/apps/presentation/PresentationEditor.tsx:92-95 | An empty shared array shows initSlides(); otherwise the list never holds more slides than entries |
| Presentation.NewSlide | src/apps/presentation/PresentationEditor.tsx:111-112 | The pushed slide carries the new id, the title 'New Slide' and empty content |
| Presentation.AddedIndexAsWritten | src/apps/presentation/PresentationEditor.tsx:113 | The source's index is the array length before the push, the new entry's position in the shared array |
| Presentation.AddedIndex | src/apps/presentation/PresentationEditor.tsx:110-114 | After the push, the index points at the last displayed slide, which is the new one, and the slides before it are the old view |
| Presentation.AddedIndexAsWrittenOverruns | src/apps/presentation/PresentationEditor.tsx:113 | With an ill-formed entry in the array, `ySlides.length - 1` lies past the end of the displayed list |
| Presentation.AddedIndexAgreesWhenWellFormed | src/apps/presentation/PresentationEditor.tsx:113 | With only well-formed entries the source's index is the intended one |
| Presentation.TemplateKeepsIdentity | src/apps/presentation/PresentationEditor.tsx:116-124 | A template replaces bg, title and content and keeps id, bgImage and textColor |
| Presentation.UpdateAsWrittenMisplaces | src/apps/presentation/PresentationEditor.tsx:131-140 | As written, an ill-formed first entry makes the update overwrite that entry and keep the old slide: the view grows from 2 to 3 |
| Presentation.UpdateAsWritten | src/apps/presentation/PresentationEditor.tsx:131-140 | As written, an in-range index replaces the SHARED entry at that index with the patched DISPLAYED slide; otherwise nothing changes |
| Presentation.UpdateAt | src/apps/presentation/PresentationEditor.tsx:131-140 | The corrected update keeps the array's length and rewrites only the entry that shows slide `index`, with that slide patched; otherwise nothing changes |
| Presentation.UpdateAtChangesOnlyIndex | src/apps/presentation/PresentationEditor.tsx:133-137 | The corrected update keeps the view's length and changes only slide `index`, to `{...old, ...patch}`; an out-of-range index changes nothing |
| Presentation.UpdateAsWrittenAgreesWhenWellFormed | src/apps/presentation/PresentationEditor.tsx:131-140 | With only well-formed entries the source's update is the corrected one |
| Presentation.PageBreaks | src/apps/presentation/PresentationEditor.tsx:165 | One break per page; a page gets 'auto' exactly when it is the last, 'always' otherwise |
| Presentation.PresentationEditor.Seed | src/apps/presentation/PresentationEditor.tsx:98-102 | An empty array gets the two default entries; a non-empty one is untouched |
| Presentation.PresentationEditor.AddSlide | src/apps/presentation/PresentationEditor.tsx:110-114 | One 'New Slide' entry is appended, and the current index is set by the corrected Presentation.AddedIndex (see "## Findings"), so the current slide afterwards is the new slide. The source's `ySlides.length - 1` can lie past the displayed list |
| Presentation.PresentationEditor.SelectSlide | src/apps/presentation/PresentationEditor.tsx:335 | A thumbnail click sets the current index |
| Presentation.PresentationEditor.UpdateSlide | src/apps/presentation/PresentationEditor.tsx:131-140 | The array becomes the corrected update (Presentation.UpdateAt, see "## Findings") of the old one |
| Presentation.PresentationEditor.ApplyTemplate | src/apps/presentation/PresentationEditor.tsx:116-129 | Through the corrected update (Presentation.UpdateAt, see "## Findings"), the current displayed slide takes the template's bg, title and content; with no current slide nothing changes. The source deletes and inserts at the view index in the shared array instead |
| Collab.Room | src/collab/useCollaboration.ts:12-14 | The room name is the app type, a '-', and the document id |
| Collab.RoomInjective | src/collab/useCollaboration.ts:12-14 | For dash-free app types, two rooms are equal exactly when both the app type and the document id are equal |
| Collab.RoomCollidesWithDashedType | src/collab/useCollaboration.ts:12-14 | A dash in the app type lets two different documents share a room name |
| Collab.Registry.DocFor | src/collab/useCollaboration.ts:16-25 | A held document is kept; otherwise the room's cached document is returned, or a new one is created and cached, differing from every cached document; the provider cache is untouched |
| Collab.Registry.Connect | src/collab/useCollaboration.ts:27-30 | A provider is created only when the room has none, so each room has at most one, serving that room |
| Collab.Registry.Teardown | src/collab/useCollaboration.ts:31-37 | With a cached provider it is destroyed and both of the room's entries are removed. Without one, nothing changes. Other rooms keep their entries in both cases |
| Collab.TwoEditorsShareRoom | src/collab/useCollaboration.ts:16-30 | Two components on one room get the same document, and one provider serving the room, which is for that document when the room had none |
| Collab.DoubleEffect | src/collab/useCollaboration.ts:16-39 | Connect, teardown and connect again leave a live provider for the component's document, while the next component gets a different document |
| SheetTypes.ColLettersInOrder | src/apps/sheets/types.ts:70 | The alphabet holds the 26 capital letters in order |
| SheetTypes.ColumnLetter | src/apps/sheets/types.ts:72-75 | One or two capital letters, one exactly for the first 26 columns |
| SheetTypes.ColumnRoundTrip | src/apps/sheets/types.ts:72-75 | Reading the letters back gives the column number |
| SheetTypes.ColumnLetterInjective | src/apps/sheets/types.ts:72-75 | Letters are equal exactly when the columns are |
| SheetTypes.ColumnLetterExamples | src/apps/sheets/types.ts:73-74 | The letters for columns 0, 25, 26, 27 and 701 are A, Z, AA, AB and ZZ |
| SheetTypes.LetterRunOfSplit | src/apps/sheets/types.ts:78 | The letters of a key end where the row number begins |
| SheetTypes.CellKeyInjective | src/apps/sheets/types.ts:77-79 | Cell keys are equal exactly when row and column are |
| SheetTypes.DefaultColumnDefsDistinct | src/apps/sheets/types.ts:81-86 | The default column is a text column 120 wide named by its letters; distinct columns get distinct ids and names |
| Sheets.LettersAreAToJ | src/apps/sheets/SheetsEditor.tsx:7-9 | The editor's letters are exactly A..J |
| Sheets.CellKeyAgrees | src/apps/sheets/SheetsEditor.tsx:11-13 | The editor's key is the shared sheet types' key for its ten columns |
| Sheets.CellKeyExamples | src/apps/sheets/SheetsEditor.tsx:11-13 | The first and last cells are A1 and J20 |
| Sheets.GridKeys | src/apps/sheets/SheetsEditor.tsx:52-61 | The grid lists 200 keys, row by row |
| Sheets.GridKeysDistinct | src/apps/sheets/SheetsEditor.tsx:52-61 | The 200 keys are pairwise distinct |
| Sheets.CellValue | src/apps/sheets/SheetsEditor.tsx:62 | A cell shows its stored value, and '' when the key was never written |
| Sheets.SetCellShows | src/apps/sheets/SheetsEditor.tsx:21-62 | After a write the cell shows the value and the others show what they showed; an absent cell shows '' |
| Sheets.SheetsEditor.SetCell | src/apps/sheets/SheetsEditor.tsx:21-23 | Exactly that key is set, and its input then shows the value |
| Video.AppendAtEnd | src/apps/video/VideoEditor.tsx:19-31 | A clip starting at the current total keeps a contiguous timeline contiguous and adds its duration to the total |
| Video.AppendsKeepContiguity | src/apps/video/VideoEditor.tsx:14-36 | A clip adds 5 and an overlay 3 to the total duration, and both keep the timeline contiguous |
| Video.NewOverlay | src/apps/video/VideoEditor.tsx:28-34 | The new overlay is a 3-long text clip named "Text overlay", starting at the current total duration |
| Video.NewClip | src/apps/video/VideoEditor.tsx:15-23 | The new clip is a 5-long video named "Clip n+1", starting at the current total duration |
| Video.FirstClipNames | src/apps/video/VideoEditor.tsx:18-21 | The first clip of an empty timeline is named "Clip 1" and starts at 0 |
| Video.VideoEditor.AddClip | src/apps/video/VideoEditor.tsx:14-24 | One 5-long video clip named "Clip n+1" is appended at the current total, old clips untouched, contiguity kept |
| Video.VideoEditor.AddTextOverlay | src/apps/video/VideoEditor.tsx:26-36 | One 3-long text clip "Text overlay" is appended at the current total, old clips untouched, contiguity kept |
| Website.Updated | src/apps/website/WebsiteEditor.tsx:26-32 | The list keeps its length and only `index` changes, to `{...old, ...patch}`; an out-of-range index changes nothing |
| Website.UpdateKeepsIds | src/apps/website/WebsiteEditor.tsx:26-32 | A patch without an id keeps every section's id |
| Website.UiPatchesChangeOneField | src/apps/website/WebsiteEditor.tsx:65-80 | The type, heading and body controls each change one field |
| Website.NewSection | src/apps/website/WebsiteEditor.tsx:35-42 | The new section is a text block "New Section" with body "Content here." and the given id |
| Website.AddKeepsIds | src/apps/website/WebsiteEditor.tsx:34-43 | Adding keeps the ids before it and puts the new id last |
| Website.WebsiteEditor.Seed | src/apps/website/WebsiteEditor.tsx:20-24 | An empty list gets the 'Welcome' hero section; a non-empty one is untouched |
| Website.WebsiteEditor.UpdateSection | src/apps/website/WebsiteEditor.tsx:26-32 | The list becomes `Updated` of the old one |
| Website.WebsiteEditor.AddSection | src/apps/website/WebsiteEditor.tsx:34-43 | One 'New Section' text section is appended |
| Whiteboard.ShapeFor | src/apps/whiteboard/WhiteboardEditor.tsx:33-42 | No shape exactly for the select tool; otherwise one at the click point with positive size |
| Whiteboard.ShapeForMatchesTool | src/apps/whiteboard/WhiteboardEditor.tsx:38-41 | Each drawing tool draws its own kind, distinct from any other tool's |
| Whiteboard.RemovedExactlyOne | src/apps/whiteboard/WhiteboardEditor.tsx:44-46 | Removing one shape keeps the others in order and loses exactly that one |
| Whiteboard.WhiteboardEditor.SetTool | src/apps/whiteboard/WhiteboardEditor.tsx:23 | The toolbar sets the tool |
| Whiteboard.WhiteboardEditor.AddShape | src/apps/whiteboard/WhiteboardEditor.tsx:26-31 | The shape is appended with its id; existing shapes are unchanged |
| Whiteboard.WhiteboardEditor.HandleCanvasClick | src/apps/whiteboard/WhiteboardEditor.tsx:33-42 | Without bounds nothing changes; otherwise the tool's shape, if any, is appended at the relative point; at most one shape is added |
| Whiteboard.WhiteboardEditor.ShapeClick | src/apps/whiteboard/WhiteboardEditor.tsx:84-87 | With the select tool exactly that shape is removed; with any other tool nothing changes |
| GenerateSlides.StripTrailingSlash | src/apps/presentation/generateSlides.ts:42 | At most one trailing '/' is removed, and one is removed whenever present |
| GenerateSlides.StripRemovesOneSlash | src/apps/presentation/generateSlides.ts:42 | "http://host//" loses one slash only |
| GenerateSlides.GenerateUrlExamples | src/apps/presentation/generateSlides.ts:12-43 | Without a configured base the URL is "/api/ollama/api/generate", an empty setting counts as none, and a trailing slash does not change the URL |
| GenerateSlides.FirstFence | src/apps/presentation/generateSlides.ts:23 | The first ``` at or after the start position, or none |
| GenerateSlides.UnfencedReplyParsedWhole | src/apps/presentation/generateSlides.ts:20-24 | A reply without a fence is parsed whole, trimmed |
| GenerateSlides.FencedBodyOfBlock | src/apps/presentation/generateSlides.ts:23-24 | A fenced block after text without backticks yields its body, without a leading "json", trimmed, whatever text follows the block |
| GenerateSlides.FencedReplyParsedBody | src/apps/presentation/generateSlides.ts:20-24 | When the trimmed reply holds a fenced block, with prose before and after it, only the block's trimmed body is parsed |
| GenerateSlides.ConvertItems | src/apps/presentation/generateSlides.ts:27-35 | Success exactly when every item has title and content and `String` converts both; then the same length and order, each with String(title) and String(content). A failure carries the error of the first item that does not convert: 'must have title and content' when a key is missing, the TypeError when `String` throws |
| GenerateSlides.ExtractJsonArray | src/apps/presentation/generateSlides.ts:19-36 | Unparseable text fails, and only it. A parsed non-array is 'not a JSON array', and only it. A parsed array gives exactly what ConvertItems gives for its items |
| GenerateSlides.OneBadItemFailsAll | src/apps/presentation/generateSlides.ts:28-34 | One item without title or content fails the whole call, with 'must have title and content' when every item before it converts |
| GenerateSlides.ToStringKeyRejected | src/apps/presentation/generateSlides.ts:30 | A title that is an object with a `toString` key makes the call fail with the TypeError, although the item has a title and a content |
| GenerateSlides.InterpretResponse | src/apps/presentation/generateSlides.ts:57-73 | A failed request with status 404 or a connection message is 'cannot reach', and any other failure carries its text or the status. A body that is not JSON, or is `null`, fails. A body without a non-empty string `response` is an invalid format. Otherwise the reply is extracted |
| GenerateSlides.FencedAnswerYieldsSlides | src/apps/presentation/generateSlides.ts:19-73 | A successful answer whose `response` holds a fenced block, with prose around it, containing a JSON array of slides gives exactly those slides, converted in order |
| GenerateSlides.ApiBase | src/apps/presentation/generateSlides.ts:15-17 | The configured base unless it is missing or empty, then '/api/ollama'; never empty |
| GenerateSlides.GenerateUrl | src/apps/presentation/generateSlides.ts:42-43 | The base without its trailing slash, followed by '/api/generate' |
| GenerateSlides.FencedBody | src/apps/presentation/generateSlides.ts:23-24 | No body without an opening fence; a body found has no white space at either end |
| GenerateSlides.RawText | src/apps/presentation/generateSlides.ts:20-24 | The text handed to JSON.parse never has white space at either end; without a fenced block it is the trimmed reply |
| GenerateSlides.PlaceholderImageUrl | src/apps/presentation/generateSlides.ts:77-79 | The URL is the Picsum seed prefix, then the encoded seed, the width and the height separated by '/' |
| GenerateSlides.NoSlashInIntString | src/apps/presentation/generateSlides.ts:78 | A rendered number contains no '/' |
| GenerateSlides.PlaceholderUrlDeterminesParts | src/apps/presentation/generateSlides.ts:77-79 | When encoded seeds contain no '/', equal URLs mean equal encoded seed, width and height |
| FormDocs.Overlay | src/apps/social/SocialEditor.tsx:29 | Every key of the defaults or the store is shown; stored values win, the other keys fall back to the defaults |
| FormDocs.Lookup | src/apps/social/SocialEditor.tsx:32-34 | A patch gives a key no value exactly when it has no entry for it |
| FormDocs.AppliedWritesExactlyPatch | src/apps/social/SocialEditor.tsx:32-34 | After an update each patched key holds the patch's last value for it, and every other key is as it was |
| FormDocs.FindTemplate | src/apps/social/SocialEditor.tsx:45 | None exactly when no row has the id; otherwise the first row with it |
| FormDocs.SelectTemplateEffect | src/apps/social/SocialEditor.tsx:44-47 | A known key sets template, width and height to its row and nothing else; an unknown key changes nothing |
| FormDocs.FormEditor.Update | src/apps/social/SocialEditor.tsx:32-34 | Each entry is set in turn: the map is the patch applied to the old map |
| FormDocs.FormEditor.SelectTemplate | src/apps/print/PrintEditor.tsx:48-51 | The map is the selection's patch applied to the old map |
| Social.DefaultIsFirstTemplate | src/apps/social/SocialEditor.tsx:6-23 | The default is 'instagram-post' at 1080×1080, its row, and an empty store shows the defaults |
| Social.SelectStory | src/apps/social/SocialEditor.tsx:6-47 | 'instagram-story' sets 1080×1920; an unknown key changes nothing |
| Social.HeadlineEdit | src/apps/social/SocialEditor.tsx:64 | Editing the headline changes the displayed headline only |
| PrintDesign.DefaultIsFlyer | src/apps/print/PrintEditor.tsx:14-27 | The default is 'flyer' at 816×1056, its row, and an empty store shows the defaults |
| PrintDesign.SelectA4 | src/apps/print/PrintEditor.tsx:14-51 | 'a4' sets 794×1123; an unknown key changes nothing |
| PrintDesign.SubtitleEdit | src/apps/print/PrintEditor.tsx:73 | Editing the subtitle changes the displayed subtitle only |
| Mobile.DefaultDocument | src/apps/mobile/MobileAppEditor.tsx:8-14 | An empty store shows 'My App', 'Home, Profile, Settings' and 'ios', and nothing else |
| Mobile.PlatformOnly | src/apps/mobile/MobileAppEditor.tsx:49 | Choosing a platform writes String(key) under 'platform' and no other key |
| WebApp.DefaultDocument | src/apps/webapp/WebAppEditor.tsx:8-14 | An empty store shows exactly name, description and pages with their defaults |
| WebApp.FieldEditKeepsOthers | src/apps/webapp/WebAppEditor.tsx:39-49 | Editing one field changes that field and keeps the other two |
| Docs.DocsEditor.Seed | src/apps/docs/DocsEditor.tsx:12-14 | An empty text gets 'Start writing...'; a non-empty one is untouched |
| Docs.DocsEditor.UpdateContent | src/apps/docs/DocsEditor.tsx:16-20 | After the delete of the whole length and the insert, the text is exactly the new value |
| Shared.DeleteThenInsertReplaces | src/apps/website/WebsiteEditor.tsx:29-31 | Deleting one item and inserting one at the same position replaces exactly that item |
| Shared.DeleteAllThenInsert | src/apps/docs/DocsEditor.tsx:18-19 | Deleting everything and inserting v leaves exactly v |
| Dashboard.AppTypesWellFormed | src/pages/Dashboard.tsx:19-31 | Eleven app types with pairwise distinct ids and paths; each path is '/' + id, and no id contains '/' or '-' |
| Dashboard.ExploreCards | src/pages/Dashboard.tsx:56 | Exactly the first six app types, in order |
| Dashboard.DocPath | src/pages/Dashboard.tsx:45 | The path is the app's path, a '/', and the document id |
| Dashboard.DocPathDetermines | src/pages/Dashboard.tsx:43-51 | Two listed apps' document paths are equal only for the same app and document id |
| Dashboard.DistinctDocumentsDistinctRooms | src/pages/Dashboard.tsx:19-31 | Different apps or different documents never share a collaboration room |
| Dashboard.ChooseDocId | src/pages/Dashboard.tsx:50 | The trimmed name when it is not empty, with no white space at its ends; otherwise the generated id |
| Dashboard.PaddingIgnored | src/pages/Dashboard.tsx:50 | A typed id with white space around it opens the same document as the bare id |
| Dashboard.Dashboard.CreateAndOpen | src/pages/Dashboard.tsx:43-46 | Navigates to app path + '/' + generated id, state otherwise unchanged |
| Dashboard.Dashboard.OpenById | src/pages/Dashboard.tsx:157 | The dialog opens for that app with an empty id, without navigating |
| Dashboard.Dashboard.TypeDocName | src/pages/Dashboard.tsx:177 | Typing sets the id text only |
| Dashboard.Dashboard.Cancel | src/pages/Dashboard.tsx:168-182 | Cancel or a backdrop click closes the dialog, keeping the text, without navigating |
| Dashboard.Dashboard.OpenWithName | src/pages/Dashboard.tsx:48-54 | Without a dialog nothing changes. Otherwise it navigates to the dialog app's path + '/' + the chosen id, closes the dialog and clears the text |
| Strings.DecimalRoundTrip | src/apps/sheets/types.ts:78 | Reading a rendered natural number back gives the number |
| Strings.IntStringInjective | src/apps/sheets/types.ts:78 | Distinct integers render differently |
| Strings.Trim | src/pages/Dashboard.tsx:50 | The result is a slice of the input with only white space outside it, and it neither starts nor ends with white space |
| Strings.TrimKeepsUnpadded | src/apps/presentation/generateSlides.ts:20 | A string without white space at its ends is its own trim |
| Strings.TrimOfAllSpace | src/pages/Dashboard.tsx:50 | A string of white space trims to the empty string |
| Strings.SeparatorSplit | src/collab/useCollaboration.ts:13 | A separator absent from the first part splits a joined string back into its parts |

## Left out

- The Yjs and y-websocket libraries are not part of this model. That covers the CRDT merge, `observe`, `Y.Doc` internals, the WebSocket connection and its reconnects, and the `WS_URL` derivation from the page location. The containers are single-replica values.
- React plumbing is left out: the snapshot hooks, effect timing, batching and stale closures. Each handler is one atomic step.
- Fabric canvas calls, the DOM, and export through html2pdf and PptxGenJS are left out; `escapeHtml` is left out too. The canvas is an opaque serialization with its size. The PDF export keeps only its page-break rule.
- Network and environment are parameters: the `fetch` in the outline request, `import.meta.env`, the clipboard and `window.print`.
- Floating-point display maths is left out: preview scaling in the social and print editors, and opacity rounding in the photo editor. Coordinates, sizes and durations are integers.
- Identifiers from `Date.now()` and `Math.random()` are parameters.
- Dashboard.ChooseDocId: `generateId` can return an empty or short string; the generated id is taken as given.
- src/apps/presentation/templates.ts is static data with no logic, and is not part of this model. Neither are the routing in App.tsx, main.tsx, ErrorBoundary.tsx, EditorLayout.tsx, vite.config.ts and node_modules.
- SheetTypes.ColumnLetter: requires a non-negative column below 702. For a negative column the source returns `undefined`. Past ZZ the source indexes beyond the alphabet and builds a string containing "undefined", which is not modelled.
- Shared.SharedArray.Insert and Shared.SharedArray.Delete require in-range positions, since Yjs throws outside them. Every editor guards its calls, except the as-written `updateSlide` and `applyTemplate` (src/apps/presentation/PresentationEditor.tsx:116-137) on an empty shared array. There the view shows initSlides(), index 0 passes the guard and `ySlides.delete(0, 1)` throws; Presentation.UpdateAsWritten leaves the array unchanged instead of modelling the throw.
- Whiteboard.WhiteboardEditor.ShapeClick: requires the index of a rendered shape, since only rendered shapes can be clicked.
- WebApp.FieldPatch: requires one of the three field names, since only those three inputs exist.
- Photo.PhotoEditor.Edit stands for the handlers that save and persist: `object:modified`, `addLayer`, `deleteSelected`, finishing a rectangle, placing an ellipse or text, drawing a path, and opening an image. Photo.PhotoEditor.PersistOnlyEdit stands for `setLayerVisibility`, `updateSelectedOpacity` and `updateSelectedName`, and Photo.PhotoEditor.RemoveFromPanel for the × button. The Fabric changes themselves are the `updated` parameter. The guard on a selected object is left to the caller, since the selection is not modelled.
- GenerateSlides.InterpretResponse: JSON numbers are integers, and `res.text()` failing is not modelled.
- GenerateSlides.ConvertItems: `String(...)` is the parameter `str`, which gives `None` where it throws. Only the object case of its TypeError is stated, as GenerateSlides.ThrowsOnToStringKey. Arrays holding such objects throw too; the parameter can express that, but the model does not require it.
- Presentation.Kept: its own contract only bounds the length; the contents are stated by Presentation.KeptOfWellFormed, Presentation.KeptAppend and Presentation.RawPositionShows.

## Findings

| source | as written | input that shows it | evidently intended | confidence | as-written member | corrected member |
|---|---|---|---|---|---|---|
| src/apps/presentation/PresentationEditor.tsx:131-140 | `updateSlide` (and `applyTemplate`, lines 116-129) take the slide from the normalised view but delete and insert at the same index of the shared array | shared array `[null, slide1, slide2]`, `updateSlide(0, {title: "Edited"})`: the null entry is replaced and slide1 stays, so the view grows from 2 to 3 slides | patch the displayed slide where it is stored, keeping the view's length and changing only that slide | not executed | Presentation.UpdateAsWrittenMisplaces | Presentation.UpdateAtChangesOnlyIndex |
| src/apps/photo/PhotoEditor.tsx:541 | the layer panel's × button calls only `canvas.remove(obj)`: unlike `deleteSelected` (lines 217-228) it neither saves a snapshot nor persists the canvas | a persisted canvas with a background and one layer; click × on the layer: the stored canvasJson still holds the layer, so a reload or another editor shows it again, and undo cannot return to the removal | remove the layer the way `deleteSelected` does: save, then persist | not executed | Photo.PanelRemovalNotPersisted | Photo.PhotoEditor.Edit |
| src/apps/presentation/PresentationEditor.tsx:113 | `addSlide` sets the current index to `ySlides.length - 1`, a position in the shared array | shared array `[null, slide1]`: the index becomes 2 while the view has 2 slides, so no slide is current | make the new slide, last in the view, current | not executed | Presentation.AddedIndexAsWrittenOverruns | Presentation.AddedIndex |
