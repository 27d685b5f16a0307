/** The presentation editor (src/apps/presentation/PresentationEditor.tsx):
    the shared "slides" array, the normalised list the editor displays, and
    the edits it makes. Entries of the shared array may be ill formed (written
    by another client or an older version); the displayed list skips them. */
module Presentation {
  import opened Shared

  /** src/apps/presentation/types.ts */
  datatype Slide = Slide(
    id: string, title: string, content: string, bg: string,
    bgImage: Option<string>, textColor: Option<string>)

  /** What one entry of the shared "slides" array can hold. */
  datatype Entry =
    | Item(slide: Slide)         // an object with an `id`
    | ObjectWithoutId            // an object that has no `id` key
    | Nested(items: seq<Entry>)  // an array
    | Nil                        // null or undefined
    | Scalar                     // a string, number or boolean

  /** `initSlides`: the two slides shown for, and seeded into, an empty deck. */
  function InitSlides(): seq<Slide> {
    [ Slide("1", "Title Slide", "Click to edit", "#1a1a2e", None, None),
      Slide("2", "Content", "Add your content here", "#16213e", None, None) ]
  }

  // ---------------------------------------------------------------------
  // The displayed list
  // ---------------------------------------------------------------------

  /** `Array.isArray(item) ? item[0] : item`; an empty array yields undefined. */
  function Unwrap(e: Entry): Entry {
    match e
    case Nested(xs) => if xs == [] then Nil else xs[0]
    case _ => e
  }

  /** What one entry contributes to the displayed list. */
  function Shown(e: Entry): seq<Slide> {
    var u := Unwrap(e);
    if u.Item? then [u.slide] else []
  }

  /** The `map`/`filter` of `slidesList`: unwrap each entry and keep the
      objects that have an `id`, in order. */
  function Kept(raw: seq<Entry>): (r: seq<Slide>)
    ensures |r| <= |raw|
  {
    if raw == [] then [] else Shown(raw[0]) + Kept(raw[1..])
  }

  /** `slidesList`: the normalised entries, or `initSlides()` while the shared
      array is empty. */
  function SlideList(raw: seq<Entry>): (r: seq<Slide>)
    ensures raw == [] ==> r == InitSlides()
    ensures raw != [] ==> |r| <= |raw|
  {
    if |raw| > 0 then Kept(raw) else InitSlides()
  }

  predicate AllWellFormed(raw: seq<Entry>) {
    forall k :: 0 <= k < |raw| ==> raw[k].Item?
  }

  /** Normalisation keeps every well-formed entry. */
  lemma {:induction false} KeptOfWellFormed(raw: seq<Entry>)
    requires AllWellFormed(raw)
    ensures |Kept(raw)| == |raw|
    ensures forall k :: 0 <= k < |raw| ==> Kept(raw)[k] == raw[k].slide
  {
    if raw != [] {
      KeptOfWellFormed(raw[1..]);
    }
  }

  lemma {:induction false} KeptAppend(a: seq<Entry>, b: seq<Entry>)
    ensures Kept(a + b) == Kept(a) + Kept(b)
  {
    if a == [] {
      assert a + b == b;
    } else {
      assert (a + b)[0] == a[0];
      assert (a + b)[1..] == a[1..] + b;
      KeptAppend(a[1..], b);
    }
  }

  lemma KeptOne(e: Entry)
    ensures Kept([e]) == Shown(e)
  {
    assert [e][1..] == [];
  }

  /** The position in the shared array of the `k`-th displayed slide. */
  function RawPosition(raw: seq<Entry>, k: nat): (p: nat)
    requires k < |Kept(raw)|
    ensures p < |raw|
  {
    if Shown(raw[0]) != [] then
      if k == 0 then 0 else 1 + RawPosition(raw[1..], k - 1)
    else
      1 + RawPosition(raw[1..], k)
  }

  /** The `k`-th displayed slide is shown by the entry at its raw position,
      and exactly `k` displayed slides come before that entry. */
  lemma {:induction false} RawPositionShows(raw: seq<Entry>, k: nat)
    requires k < |Kept(raw)|
    ensures var p := RawPosition(raw, k);
      Shown(raw[p]) == [Kept(raw)[k]] && |Kept(raw[..p])| == k
  {
    var p := RawPosition(raw, k);
    if Shown(raw[0]) != [] && k == 0 {
      assert raw[..0] == [];
    } else {
      var j := RawPositionStep(raw, k);
      RawPositionShows(raw[1..], j);
      KeptPrefixOfTail(raw, p);
    }
  }

  /** One step of `RawPosition` past the first entry. */
  lemma RawPositionStep(raw: seq<Entry>, k: nat) returns (j: nat)
    requires k < |Kept(raw)|
    requires !(Shown(raw[0]) != [] && k == 0)
    ensures j < |Kept(raw[1..])| && k == |Shown(raw[0])| + j
    ensures RawPosition(raw, k) == 1 + RawPosition(raw[1..], j)
    ensures Kept(raw)[k] == Kept(raw[1..])[j]
  {
    assert Kept(raw) == Shown(raw[0]) + Kept(raw[1..]);
    j := k - |Shown(raw[0])|;
  }

  /** A prefix of at least one entry shows its first entry, then the rest. */
  lemma KeptPrefixOfTail(raw: seq<Entry>, p: nat)
    requires 0 < p <= |raw|
    ensures Kept(raw[..p]) == Shown(raw[0]) + Kept(raw[1..][..p - 1])
  {
    assert raw[..p] == [raw[0]] + raw[1..][..p - 1];
    KeptAppend([raw[0]], raw[1..][..p - 1]);
    KeptOne(raw[0]);
  }

  lemma KeptPrefixMonotone(raw: seq<Entry>, i: nat, j: nat)
    requires i <= j <= |raw|
    ensures |Kept(raw[..i])| <= |Kept(raw[..j])|
  {
    assert raw[..j] == raw[..i] + raw[i..j];
    KeptAppend(raw[..i], raw[i..j]);
  }

  /** Normalisation never reorders: the displayed slides come from strictly
      increasing positions of the shared array. */
  lemma KeptPreservesOrder(raw: seq<Entry>, j: nat, k: nat)
    requires j < k < |Kept(raw)|
    ensures RawPosition(raw, j) < RawPosition(raw, k)
  {
    var pj, pk := RawPosition(raw, j), RawPosition(raw, k);
    RawPositionShows(raw, j);
    RawPositionShows(raw, k);
    if pk <= pj {
      KeptPrefixMonotone(raw, pk, pj);
    }
  }

  /** An empty shared array displays exactly the two default slides. */
  lemma EmptyShowsDefaults()
    ensures SlideList([]) == InitSlides()
    ensures |SlideList([])| == 2 && SlideList([])[0].id == "1" && SlideList([])[1].id == "2"
  {
  }

  // ---------------------------------------------------------------------
  // Seeding and adding slides
  // ---------------------------------------------------------------------

  /** What the seed effect pushes: each default slide as one entry. */
  function SeedEntries(): (r: seq<Entry>)
    ensures |r| == 2 && AllWellFormed(r) && Kept(r) == InitSlides()
  {
    var r := [Item(InitSlides()[0]), Item(InitSlides()[1])];
    KeptOfWellFormed(r);
    r
  }

  /** Seeding does not change what is displayed: the defaults were already
      shown for the empty array. */
  lemma SeedKeepsDisplay()
    ensures SlideList(SeedEntries()) == SlideList([])
  {
  }

  /** The slide `addSlide` appends. */
  function NewSlide(id: string): (s: Slide)
    ensures s.id == id && s.title == "New Slide" && s.content == ""
  {
    Slide(id, "New Slide", "", "#16213e", None, None)
  }

  /** The current index `addSlide` sets, as written: the last position of the
      SHARED array after the push, `ySlides.length - 1`. */
  function AddedIndexAsWritten(raw: seq<Entry>, id: string): (i: int)
    ensures i == |raw|
  {
    |raw + [Item(NewSlide(id))]| - 1
  }

  /** The index the new slide has in the DISPLAYED list after the push. */
  function AddedIndex(raw: seq<Entry>, id: string): (i: int)
    ensures var after := SlideList(raw + [Item(NewSlide(id))]);
      0 <= i < |after| && i == |after| - 1 && after[i] == NewSlide(id)
      && after[..i] == Kept(raw)
  {
    KeptAppend(raw, [Item(NewSlide(id))]);
    KeptOne(Item(NewSlide(id)));
    |Kept(raw)|
  }

  /** As written, when an ill-formed entry is in the shared array the index
      `addSlide` sets lies past the end of the displayed list, so no slide is
      current afterwards. */
  lemma AddedIndexAsWrittenOverruns()
    ensures var raw := [Nil, Item(InitSlides()[0])];
      AddedIndexAsWritten(raw, "3") == 2 && |SlideList(raw + [Item(NewSlide("3"))])| == 2
  {
    var raw := [Nil, Item(InitSlides()[0])];
    var after := raw + [Item(NewSlide("3"))];
    assert after[1..] == [Item(InitSlides()[0]), Item(NewSlide("3"))];
    KeptOfWellFormed(after[1..]);
  }

  /** With only well-formed entries the two indices agree. */
  lemma AddedIndexAgreesWhenWellFormed(raw: seq<Entry>, id: string)
    requires AllWellFormed(raw)
    ensures AddedIndexAsWritten(raw, id) == AddedIndex(raw, id)
  {
    KeptOfWellFormed(raw);
  }

  // ---------------------------------------------------------------------
  // Updating a slide
  // ---------------------------------------------------------------------

  /** A `Partial<Slide>`: `Some` for each key the patch object has. */
  datatype SlidePatch = SlidePatch(
    id: Option<string>, title: Option<string>, content: Option<string>, bg: Option<string>,
    bgImage: Option<string>, textColor: Option<string>)

  function Pick(patch: Option<string>, current: string): string {
    if patch.Some? then patch.value else current
  }

  /** `{ ...s, ...patch }`: the patch's keys win, the slide supplies the rest. */
  function Patched(s: Slide, p: SlidePatch): Slide {
    Slide(Pick(p.id, s.id), Pick(p.title, s.title), Pick(p.content, s.content), Pick(p.bg, s.bg),
          if p.bgImage.Some? then p.bgImage else s.bgImage,
          if p.textColor.Some? then p.textColor else s.textColor)
  }

  /** The builder's templates: background, title and content for a slide. */
  datatype Template = Template(id: string, name: string, bg: string, title: string, content: string)

  const Templates: seq<Template> := [
    Template("title", "Title", "#1a1a2e", "Title Slide", "Click to edit"),
    Template("content", "Content", "#16213e", "Content", "Add your content here"),
    Template("pitch", "Pitch", "#0f3460", "Pitch", "Your key points"),
    Template("creative", "Creative", "#533483", "Creative", "Ideas and inspiration")
  ]

  /** `applyTemplate` sets bg, title and content and nothing else. */
  function TemplatePatch(t: Template): SlidePatch {
    SlidePatch(None, Some(t.title), Some(t.content), Some(t.bg), None, None)
  }

  /** Applying a template keeps the slide's id and optional fields and
      replaces its background, title and content by the template's. */
  lemma TemplateKeepsIdentity(s: Slide, t: Template)
    ensures var r := Patched(s, TemplatePatch(t));
      r.id == s.id && r.bgImage == s.bgImage && r.textColor == s.textColor &&
      r.bg == t.bg && r.title == t.title && r.content == t.content
  {
  }

  /** `updateSlide` and `applyTemplate` as written: the slide is looked up in
      the displayed list, but the delete and insert use the same index in the
      shared array. While the array is still empty the displayed list holds
      the defaults and the delete fails, so nothing changes. */
  function UpdateAsWritten(raw: seq<Entry>, index: int, patch: SlidePatch): (r: seq<Entry>)
    ensures 0 <= index < |SlideList(raw)| && index < |raw| ==>
      r == raw[index := Item(Patched(SlideList(raw)[index], patch))]
    ensures !(0 <= index < |SlideList(raw)| && index < |raw|) ==> r == raw
  {
    var view := SlideList(raw);
    if 0 <= index < |view| && index < |raw| then
      DeleteThenInsertReplaces(raw, index, Item(Patched(view[index], patch)));
      Inserted(Removed(raw, index, 1), index, [Item(Patched(view[index], patch))])
    else raw
  }

  /** An ill-formed first entry makes the as-written update overwrite it and
      keep the old slide, so the displayed list grows from two to three. */
  lemma UpdateAsWrittenMisplaces()
    ensures var raw := [Nil, Item(InitSlides()[0]), Item(InitSlides()[1])];
      var patch := SlidePatch(None, Some("Edited"), None, None, None, None);
      |SlideList(raw)| == 2 && |SlideList(UpdateAsWritten(raw, 0, patch))| == 3
  {
    var raw := [Nil, Item(InitSlides()[0]), Item(InitSlides()[1])];
    var patch := SlidePatch(None, Some("Edited"), None, None, None, None);
    KeptOfWellFormed(raw[1..]);
    var r := UpdateAsWritten(raw, 0, patch);
    assert r == [Item(Patched(InitSlides()[0], patch)), Item(InitSlides()[0]), Item(InitSlides()[1])];
    KeptOfWellFormed(r);
  }

  /** The update the editor means: patch the `index`-th displayed slide where
      it is stored. An index outside the displayed list changes nothing. */
  function UpdateAt(raw: seq<Entry>, index: int, patch: SlidePatch): (r: seq<Entry>)
    ensures |r| == |raw|
    ensures raw != [] && 0 <= index < |Kept(raw)| ==>
      r[RawPosition(raw, index)] == Item(Patched(Kept(raw)[index], patch)) &&
      forall k :: 0 <= k < |raw| && k != RawPosition(raw, index) ==> r[k] == raw[k]
    ensures !(raw != [] && 0 <= index < |Kept(raw)|) ==> r == raw
  {
    if raw != [] && 0 <= index < |Kept(raw)| then
      raw[RawPosition(raw, index) := Item(Patched(Kept(raw)[index], patch))]
    else raw
  }

  /** The corrected update keeps the displayed list's length and changes only
      its `index`-th slide, to `{ ...old, ...patch }`. */
  lemma UpdateAtChangesOnlyIndex(raw: seq<Entry>, index: int, patch: SlidePatch)
    requires raw != []
    ensures var before := SlideList(raw);
      var after := SlideList(UpdateAt(raw, index, patch));
      (0 <= index < |before| ==> after == before[index := Patched(before[index], patch)]) &&
      (!(0 <= index < |before|) ==> after == before)
  {
    if 0 <= index < |Kept(raw)| {
      var p := RawPosition(raw, index);
      var y := Kept(raw)[index];
      var x := Patched(y, patch);
      RawPositionShows(raw, index);
      KeptUpdate(raw, p, Item(x));
      KeptUpdate(raw, p, raw[p]);
      assert raw[p := raw[p]] == raw;
      ReplaceMiddle(Kept(raw[..p]), y, x, Kept(raw[p + 1..]));
    }
  }

  /** What the list shows after one entry is replaced. */
  lemma KeptUpdate(raw: seq<Entry>, p: nat, e: Entry)
    requires p < |raw|
    ensures Kept(raw[p := e]) == Kept(raw[..p]) + Shown(e) + Kept(raw[p + 1..])
  {
    assert raw[p := e] == raw[..p] + [e] + raw[p + 1..];
    KeptSplice(raw[..p], e, raw[p + 1..]);
  }

  /** What a list with one entry in the middle shows. */
  lemma KeptSplice(pre: seq<Entry>, e: Entry, post: seq<Entry>)
    ensures Kept(pre + [e] + post) == Kept(pre) + Shown(e) + Kept(post)
  {
    KeptAppend(pre + [e], post);
    KeptAppend(pre, [e]);
    KeptOne(e);
  }

  lemma ReplaceMiddle(a: seq<Slide>, y: Slide, x: Slide, b: seq<Slide>)
    ensures a + [x] + b == (a + [y] + b)[|a| := x]
  {
  }

  lemma {:induction false} RawPositionOfWellFormed(raw: seq<Entry>, k: nat)
    requires AllWellFormed(raw)
    requires k < |raw|
    ensures k < |Kept(raw)| && RawPosition(raw, k) == k
  {
    KeptOfWellFormed(raw);
    if k > 0 {
      KeptOfWellFormed(raw[1..]);
      RawPositionOfWellFormed(raw[1..], k - 1);
    }
  }

  /** With only well-formed entries the as-written update is the intended one. */
  lemma UpdateAsWrittenAgreesWhenWellFormed(raw: seq<Entry>, index: int, patch: SlidePatch)
    requires AllWellFormed(raw)
    ensures UpdateAsWritten(raw, index, patch) == UpdateAt(raw, index, patch)
  {
    KeptOfWellFormed(raw);
    if raw != [] && 0 <= index < |raw| {
      RawPositionOfWellFormed(raw, index);
      DeleteThenInsertReplaces(raw, index, Item(Patched(Kept(raw)[index], patch)));
    }
  }

  // ---------------------------------------------------------------------
  // PDF export
  // ---------------------------------------------------------------------

  datatype PageBreak = Always | Auto

  /** Every page but the last breaks after itself. */
  function PageBreaks(n: nat): (r: seq<PageBreak>)
    ensures |r| == n
    ensures forall i :: 0 <= i < n ==> (r[i] == Auto <==> i == n - 1)
  {
    seq(n, i requires 0 <= i < n => if i < n - 1 then Always else Auto)
  }

  // ---------------------------------------------------------------------
  // The editor: the shared array and the current slide
  // ---------------------------------------------------------------------

  class PresentationEditor {
    /** The document's shared array "slides". */
    const slides: SharedArray<Entry>
    var currentIndex: int

    constructor (slides: SharedArray<Entry>)
      ensures this.slides == slides && currentIndex == 0
    {
      this.slides := slides;
      currentIndex := 0;
    }

    /** `current`: the displayed slide at the current index, if any. */
    function Current(): Option<Slide>
      reads this, slides
    {
      var view := SlideList(slides.items);
      if 0 <= currentIndex < |view| then Some(view[currentIndex]) else None
    }

    /** The seed effect: an empty array gets the two default slides; a
        non-empty one is left alone. */
    method Seed()
      modifies slides
      ensures old(slides.items) == [] ==> slides.items == SeedEntries()
      ensures old(slides.items) != [] ==> slides.items == old(slides.items)
    {
      if |slides.items| == 0 {
        slides.Push([Item(InitSlides()[0])]);
        slides.Push([Item(InitSlides()[1])]);
      }
    }

    /** `addSlide`: appends one new slide and makes it current. */
    method AddSlide(id: string)
      modifies slides, this
      ensures slides.items == old(slides.items) + [Item(NewSlide(id))]
      ensures currentIndex == AddedIndex(old(slides.items), id)
      ensures Current() == Some(NewSlide(id))
    {
      var index := AddedIndex(slides.items, id);
      slides.Push([Item(NewSlide(id))]);
      currentIndex := index;
    }

    /** A click on a thumbnail. */
    method SelectSlide(i: int)
      modifies this
      ensures currentIndex == i
    {
      currentIndex := i;
    }

    /** `updateSlide`, replacing the displayed slide where it is stored by
        deleting and inserting there. */
    method UpdateSlide(index: int, patch: SlidePatch)
      modifies slides
      ensures slides.items == UpdateAt(old(slides.items), index, patch)
    {
      var raw := slides.items;
      if raw == [] || !(0 <= index < |Kept(raw)|) {
        return;
      }
      var p := RawPosition(raw, index);
      var updated := Patched(Kept(raw)[index], patch);
      slides.Delete(p, 1);
      slides.Insert(p, [Item(updated)]);
      DeleteThenInsertReplaces(raw, p, Item(updated));
    }

    /** `applyTemplate`: the current slide takes the template's background,
        title and content; with no current slide nothing changes. */
    method ApplyTemplate(t: Template)
      modifies slides
      ensures slides.items == UpdateAt(old(slides.items), currentIndex, TemplatePatch(t))
      ensures old(Current()).None? ==> slides.items == old(slides.items)
    {
      UpdateSlide(currentIndex, TemplatePatch(t));
    }
  }
}
