/** The video editor (src/apps/video/VideoEditor.tsx): a timeline held in the
    shared array "clips", to which clips and text overlays are appended, each
    starting where the existing clips end. */
module Video {
  import opened Shared
  import opened Strings

  datatype ClipKind = VideoClip | TextClip

  datatype Clip = Clip(id: string, name: string, start: int, duration: int, kind: ClipKind)

  const ClipDuration := 5
  const OverlayDuration := 3

  /** `clips.reduce((s, c) => s + c.duration, 0)`: the durations added from
      the first clip to the last. */
  function TotalDuration(clips: seq<Clip>): int {
    if clips == [] then 0 else TotalDuration(clips[..|clips| - 1]) + clips[|clips| - 1].duration
  }

  /** Every clip starts where the clips before it end. */
  predicate Contiguous(clips: seq<Clip>) {
    forall k :: 0 <= k < |clips| ==> clips[k].start == TotalDuration(clips[..k])
  }

  /** Appending a clip that starts at the current total keeps the timeline
      contiguous and lengthens it by exactly the clip's duration. */
  lemma AppendAtEnd(clips: seq<Clip>, c: Clip)
    requires c.start == TotalDuration(clips)
    ensures TotalDuration(clips + [c]) == TotalDuration(clips) + c.duration
    ensures Contiguous(clips) ==> Contiguous(clips + [c])
  {
    var after := clips + [c];
    assert after[..|after| - 1] == clips;
    assert after[..|clips|] == clips;
    forall k | 0 <= k < |clips|
      ensures after[..k] == clips[..k]
    {
    }
  }

  /** The clip `addClip` appends: named by its position, five long. */
  function NewClip(clips: seq<Clip>, id: string): (c: Clip)
    ensures c.id == id && c.kind == VideoClip && c.start == TotalDuration(clips) && c.duration == ClipDuration
    ensures c.name == "Clip " + IntString(|clips| + 1)
  {
    Clip(id, "Clip " + IntString(|clips| + 1), TotalDuration(clips), ClipDuration, VideoClip)
  }

  /** The overlay `addTextOverlay` appends: three long. */
  function NewOverlay(clips: seq<Clip>, id: string): (c: Clip)
    ensures c.id == id && c.kind == TextClip && c.start == TotalDuration(clips) && c.duration == OverlayDuration
    ensures c.name == "Text overlay"
  {
    Clip(id, "Text overlay", TotalDuration(clips), OverlayDuration, TextClip)
  }

  /** Both appends keep the timeline contiguous; the clip adds five to the
      total and the overlay three. */
  lemma AppendsKeepContiguity(clips: seq<Clip>, id: string)
    ensures TotalDuration(clips + [NewClip(clips, id)]) == TotalDuration(clips) + 5
    ensures TotalDuration(clips + [NewOverlay(clips, id)]) == TotalDuration(clips) + 3
    ensures Contiguous(clips) ==> Contiguous(clips + [NewClip(clips, id)])
    ensures Contiguous(clips) ==> Contiguous(clips + [NewOverlay(clips, id)])
  {
    AppendAtEnd(clips, NewClip(clips, id));
    AppendAtEnd(clips, NewOverlay(clips, id));
  }

  /** The n-th clip added to an empty timeline is named "Clip n". */
  lemma FirstClipNames()
    ensures NewClip([], "a").name == "Clip 1" && NewClip([], "a").start == 0
  {
  }

  class VideoEditor {
    /** The document's shared array "clips". */
    const clips: SharedArray<Clip>

    constructor (clips: SharedArray<Clip>)
      ensures this.clips == clips
    {
      this.clips := clips;
    }

    /** `addClip`; `id` is the creation time the source uses. Existing clips
        are untouched and the new one starts at the end of the timeline. */
    method AddClip(id: string)
      modifies clips
      ensures clips.items == old(clips.items) + [NewClip(old(clips.items), id)]
      ensures Contiguous(old(clips.items)) ==> Contiguous(clips.items)
      ensures TotalDuration(clips.items) == TotalDuration(old(clips.items)) + ClipDuration
    {
      AppendsKeepContiguity(clips.items, id);
      clips.Push([NewClip(clips.items, id)]);
    }

    /** `addTextOverlay`, likewise with a three-unit text clip. */
    method AddTextOverlay(id: string)
      modifies clips
      ensures clips.items == old(clips.items) + [NewOverlay(old(clips.items), id)]
      ensures Contiguous(old(clips.items)) ==> Contiguous(clips.items)
      ensures TotalDuration(clips.items) == TotalDuration(old(clips.items)) + OverlayDuration
    {
      AppendsKeepContiguity(clips.items, id);
      clips.Push([NewOverlay(clips.items, id)]);
    }
  }
}
