/** Slide-outline generation (src/apps/presentation/generateSlides.ts): the
    endpoint URL, the handling of the service's HTTP answer, the extraction
    of a JSON array of slides from the model's reply, and placeholder image
    URLs. `JSON.parse`, `String(...)` and `encodeURIComponent` are passed in
    as functions; the request itself is not modelled. */
module GenerateSlides {
  import opened Shared
  import opened Strings

  /** A parsed JSON value. */
  datatype Json =
    | Null
    | Bool(b: bool)
    | Num(n: int)
    | Str(s: string)
    | Arr(items: seq<Json>)
    | Obj(fields: map<string, Json>)

  /** `GeneratedSlideInput`. */
  datatype SlideInput = SlideInput(title: string, content: string)

  datatype GenError =
    | ParseFailed              // `JSON.parse` threw
    | NotAnArray
    | MissingTitleOrContent
    | NotConvertible           // `String(...)` threw a TypeError
    | Unreachable
    | RequestFailed(text: string)
    | BodyNotJson              // `res.json()` rejected
    | NullBody                 // `data.response` was read on `null`
    | InvalidFormat

  // ---------------------------------------------------------------------
  // The endpoint
  // ---------------------------------------------------------------------

  const DefaultOllamaBase := "/api/ollama"

  /** `getApiBase`: the configured URL unless it is missing or empty. */
  function ApiBase(configured: Option<string>): (r: string)
    ensures r != []
    ensures configured.Some? && configured.value != "" ==> r == configured.value
    ensures configured.None? || configured.value == "" ==> r == DefaultOllamaBase
  {
    if configured.Some? && configured.value != "" then configured.value else DefaultOllamaBase
  }

  /** `replace(/\/$/, '')`: one slash at the very end is removed. */
  function StripTrailingSlash(base: string): (r: string)
    ensures base == r || base == r + "/"
    ensures base != [] && base[|base| - 1] == '/' ==> base == r + "/"
    ensures (base == [] || base[|base| - 1] != '/') ==> r == base
  {
    if base != [] && base[|base| - 1] == '/' then base[..|base| - 1] else base
  }

  /** Only one slash goes: a base ending in two keeps the first. */
  lemma StripRemovesOneSlash()
    ensures StripTrailingSlash("http://host//") == "http://host/"
    ensures StripTrailingSlash("http://host") == "http://host"
  {
    assert "http://host//"[..12] == "http://host/";
  }

  /** The request goes to `/api/generate` under the base, without the
      base's own trailing slash. */
  function GenerateUrl(configured: Option<string>): (r: string)
    ensures |r| >= 13 && r[|r| - 13..] == "/api/generate"
    ensures r[..|r| - 13] == StripTrailingSlash(ApiBase(configured))
  {
    var base := StripTrailingSlash(ApiBase(configured));
    assert (base + "/api/generate")[..|base|] == base;
    base + "/api/generate"
  }

  /** Unconfigured, requests go to the local Ollama proxy; a configured base
      with or without its trailing slash gives the same URL. */
  lemma GenerateUrlExamples(base: string)
    requires base != [] && base[|base| - 1] != '/'
    ensures GenerateUrl(None) == "/api/ollama/api/generate"
    ensures GenerateUrl(Some("")) == GenerateUrl(None)
    ensures GenerateUrl(Some(base + "/")) == GenerateUrl(Some(base))
  {
    assert (base + "/")[..|base|] == base;
  }

  // ---------------------------------------------------------------------
  // The fenced code block
  // ---------------------------------------------------------------------

  const Fence := "```"

  predicate FenceAt(s: string, i: int) {
    0 <= i && i + 3 <= |s| && s[i..i + 3] == Fence
  }

  /** The first position at or after `from` where a fence starts. */
  function FirstFence(s: string, from: nat): (r: Option<nat>)
    requires from <= |s|
    ensures r.Some? ==> from <= r.value && FenceAt(s, r.value)
    ensures forall j :: from <= j && (r.None? || j < r.value) ==> !FenceAt(s, j)
    decreases |s| - from
  {
    if from + 3 > |s| then None
    else if s[from..from + 3] == Fence then Some(from)
    else FirstFence(s, from + 1)
  }

  /** The trimmed body `/```(?:json)?\s*([\s\S]*?)```/` captures in `t`, if it
      matches: the text after the first fence (and after `json` when it
      follows the fence) up to the next fence. White space the pattern's
      `\s*` skips is removed by the trim as well. */
  function FencedBody(t: string): (r: Option<string>)
    ensures FirstFence(t, 0).None? ==> r.None?
    ensures r.Some? ==> r.value == [] || (!IsSpace(r.value[0]) && !IsSpace(r.value[|r.value| - 1]))
  {
    match FirstFence(t, 0)
    case None => None
    case Some(p) =>
      var b := TagEnd(t, p);
      match FirstFence(t, b)
      case None => None
      case Some(q) => Some(Trim(t[b..q]))
  }

  /** Where the pattern's capture starts after the fence at `p`: past the
      `json` tag when it follows. */
  function TagEnd(t: string, p: nat): (b: nat)
    requires p + 3 <= |t|
    ensures p + 3 <= b <= |t|
  {
    if p + 7 <= |t| && t[p + 3..p + 7] == "json" then p + 7 else p + 3
  }

  /** The body found between the fence at `p` and the next one, at `q`. */
  lemma FencedBodyAt(t: string, p: nat, q: nat)
    requires FirstFence(t, 0) == Some(p) && p + 3 <= |t|
    requires FirstFence(t, TagEnd(t, p)) == Some(q)
    ensures TagEnd(t, p) <= q <= |t|
    ensures FencedBody(t) == Some(Trim(t[TagEnd(t, p)..q]))
  {
  }

  /** The text `extractJsonArray` hands to `JSON.parse`. */
  function RawText(text: string): (r: string)
    ensures r == [] || (!IsSpace(r[0]) && !IsSpace(r[|r| - 1]))
    ensures FencedBody(Trim(text)).None? ==> r == Trim(text)
  {
    var t := Trim(text);
    match FencedBody(t)
    case Some(body) => body
    case None => t
  }

  lemma NoFenceIn(s: string)
    requires '`' !in s
    ensures forall j :: !FenceAt(s, j)
  {
    forall j | 0 <= j && j + 3 <= |s|
      ensures !FenceAt(s, j)
    {
      assert s[j..j + 3][0] == s[j] && s[j] in s;
    }
  }

  /** A reply with no backtick is parsed whole, after trimming. */
  lemma UnfencedReplyParsedWhole(text: string)
    requires '`' !in text
    ensures RawText(text) == Trim(text)
  {
    var t := Trim(text);
    assert forall k :: 0 <= k < |t| ==> t[k] in text;
    NoFenceIn(t);
  }

  /** A reply holding one fenced block, with text before and after it. */
  function Block(pre: string, body: string, post: string): string {
    pre + Fence + body + Fence + post
  }

  /** Where the parts of a block lie. */
  lemma BlockShape(pre: string, body: string, post: string)
    ensures var s := Block(pre, body, post); var o := |pre|;
      |s| == o + |body| + 6 + |post| &&
      s[..o] == pre && s[o..o + 3] == Fence && s[o + 3..o + 3 + |body|] == body &&
      s[o + 3 + |body|..o + 6 + |body|] == Fence
  {
  }

  lemma FenceStartsWithBacktick(s: string, j: int)
    ensures FenceAt(s, j) ==> s[j] == '`'
  {
    if FenceAt(s, j) {
      assert s[j..j + 3][0] == s[j];
    }
  }

  /** With no backtick before it, the block's opening fence is the first. */
  lemma OpeningFence(pre: string, body: string, post: string)
    requires '`' !in pre
    ensures FirstFence(Block(pre, body, post), 0) == Some(|pre|)
  {
    var s := Block(pre, body, post);
    BlockShape(pre, body, post);
    forall j | 0 <= j < |pre|
      ensures !FenceAt(s, j)
    {
      assert s[j] == s[..|pre|][j] == pre[j] && pre[j] in pre;
      FenceStartsWithBacktick(s, j);
    }
    assert FenceAt(s, |pre|);
  }

  /** The language tag the pattern skips after the opening fence. */
  function Untagged(body: string): string {
    if |body| >= 4 && body[..4] == "json" then body[4..] else body
  }

  /** Where the captured body starts: after the tag when there is one. */
  lemma BodyStart(pre: string, body: string, post: string)
    ensures var s := Block(pre, body, post); var o := |pre|;
      o + 3 <= |s| && var b := TagEnd(s, o);
      b <= o + 3 + |body| && s[b..o + 3 + |body|] == Untagged(body)
  {
    var s := Block(pre, body, post);
    var o := |pre|;
    BlockShape(pre, body, post);
    assert s[o + 3..o + 3 + |body|] == body;
    if |body| >= 4 {
      assert s[o + 3..o + 7] == body[..4];
    } else if o + 7 <= |s| {
      assert s[o + 3 + |body|] == s[o + 3 + |body|..o + 6 + |body|][0] == '`';
      assert s[o + 3..o + 7][|body|] == s[o + 3 + |body|];
    }
  }

  /** Inside the block the next fence after the opening one is the closing
      one. */
  lemma ClosingFence(pre: string, body: string, post: string, b: nat)
    requires '`' !in body && |pre| + 3 <= b <= |pre| + 3 + |body|
    ensures FirstFence(Block(pre, body, post), b) == Some(|pre| + 3 + |body|)
  {
    var s := Block(pre, body, post);
    var o := |pre|;
    BlockShape(pre, body, post);
    forall j | b <= j < o + 3 + |body|
      ensures !FenceAt(s, j)
    {
      assert s[j] == s[o + 3..o + 3 + |body|][j - o - 3] == body[j - o - 3];
      assert body[j - o - 3] in body;
      FenceStartsWithBacktick(s, j);
    }
    assert FenceAt(s, o + 3 + |body|);
  }

  /** A fenced block after text without backticks yields its body, without
      the `json` tag, trimmed, whatever follows the block. */
  lemma FencedBodyOfBlock(pre: string, body: string, post: string)
    requires '`' !in pre && '`' !in body
    ensures FencedBody(Block(pre, body, post)) == Some(Trim(Untagged(body)))
  {
    var s := Block(pre, body, post);
    var o := |pre|;
    OpeningFence(pre, body, post);
    BodyStart(pre, body, post);
    BlockShape(pre, body, post);
    var b := TagEnd(s, o);
    ClosingFence(pre, body, post, b);
    FencedBodyAt(s, o, o + 3 + |body|);
  }

  /** When the trimmed reply holds a fenced block, with prose before and
      after it, only the block's trimmed body is parsed, without the `json`
      tag when there is one. */
  lemma FencedReplyParsedBody(text: string, pre: string, body: string, post: string)
    requires '`' !in pre && '`' !in body
    requires Trim(text) == Block(pre, body, post)
    ensures RawText(text) == Trim(Untagged(body))
  {
    FencedBodyOfBlock(pre, body, post);
  }

  // ---------------------------------------------------------------------
  // The array of slides
  // ---------------------------------------------------------------------

  /** `item && typeof item === 'object' && 'title' in item && 'content' in item`:
      null, arrays and scalars fail the test. */
  predicate IsSlideItem(item: Json) {
    item.Obj? && "title" in item.fields && "content" in item.fields
  }

  /** `String(v)` is the parameter `str`, which gives `None` where it throws. */
  predicate Convertible(item: Json, str: Json -> Option<string>) {
    IsSlideItem(item) && str(item.fields["title"]).Some? && str(item.fields["content"]).Some?
  }

  /** What JavaScript guarantees of `String(v)` on a parsed value: an object
      with its own `toString` key holds no function there (JSON has none), and
      `Object.prototype.valueOf` gives back the object, so no primitive is
      found and a TypeError is thrown. */
  ghost predicate ThrowsOnToStringKey(str: Json -> Option<string>) {
    forall v: Json :: v.Obj? && "toString" in v.fields ==> str(v).None?
  }

  function Converted(item: Json, str: Json -> Option<string>): SlideInput
    requires Convertible(item, str)
  {
    SlideInput(str(item.fields["title"]).value, str(item.fields["content"]).value)
  }

  /** Item `k` is the first that cannot be converted. */
  predicate FirstBad(items: seq<Json>, k: int, str: Json -> Option<string>) {
    0 <= k < |items| && !Convertible(items[k], str) &&
    forall j :: 0 <= j < k ==> Convertible(items[j], str)
  }

  /** Why an item that cannot be converted stops the `map`. */
  function ItemError(item: Json, str: Json -> Option<string>): GenError {
    if IsSlideItem(item) then NotConvertible else MissingTitleOrContent
  }

  /** The `map` over the parsed array. Either every item is a slide whose title
      and content convert, and each is converted in place, or the call fails
      with the error of the first item that does not. */
  function ConvertItems(items: seq<Json>, str: Json -> Option<string>): (r: Result<seq<SlideInput>, GenError>)
    ensures r.Ok? <==> forall k :: 0 <= k < |items| ==> Convertible(items[k], str)
    ensures r.Ok? ==> (|r.value| == |items| &&
      forall k :: 0 <= k < |items| ==> r.value[k] == Converted(items[k], str))
    ensures r.Err? ==> exists k :: FirstBad(items, k, str) && r.error == ItemError(items[k], str)
  {
    if items == [] then Ok([])
    else if !Convertible(items[0], str) then Err(ItemError(items[0], str))
    else
      match ConvertItems(items[1..], str)
      case Err(e) => FirstBadShifts(items, str, e); Err(e)
      case Ok(rest) => Ok([Converted(items[0], str)] + rest)
  }

  /** The first failing item of the tail is the first failing item of the
      whole array when the head converts. */
  lemma FirstBadShifts(items: seq<Json>, str: Json -> Option<string>, e: GenError)
    requires items != [] && Convertible(items[0], str)
    requires exists k :: FirstBad(items[1..], k, str) && e == ItemError(items[1..][k], str)
    ensures exists k :: FirstBad(items, k, str) && e == ItemError(items[k], str)
  {
    var k :| FirstBad(items[1..], k, str) && e == ItemError(items[1..][k], str);
    assert items[k + 1] == items[1..][k];
    forall j | 0 <= j < k + 1
      ensures Convertible(items[j], str)
    {
      if j > 0 {
        assert items[j] == items[1..][j - 1];
      }
    }
    assert FirstBad(items, k + 1, str);
  }

  /** `extractJsonArray`: a reply that does not parse, or parses to anything
      but an array, is rejected; an array is converted item by item. */
  function ExtractJsonArray(text: string, parse: string -> Option<Json>, str: Json -> Option<string>)
    : (r: Result<seq<SlideInput>, GenError>)
    ensures parse(RawText(text)).None? <==> r == Err(ParseFailed)
    ensures r == Err(NotAnArray) <==> (parse(RawText(text)).Some? && !parse(RawText(text)).value.Arr?)
    ensures parse(RawText(text)).Some? && parse(RawText(text)).value.Arr? ==>
      r == ConvertItems(parse(RawText(text)).value.items, str)
    ensures r.Ok? ==> (parse(RawText(text)).Some? && parse(RawText(text)).value.Arr? &&
      var items := parse(RawText(text)).value.items;
      (forall k :: 0 <= k < |items| ==> Convertible(items[k], str)) &&
      |r.value| == |items| && forall k :: 0 <= k < |items| ==> r.value[k] == Converted(items[k], str))
  {
    match parse(RawText(text))
    case None => Err(ParseFailed)
    case Some(v) =>
      if !v.Arr? then Err(NotAnArray) else ConvertItems(v.items, str)
  }

  /** An item without title or content makes the whole call fail, with that
      item's error when every item before it converts. */
  lemma OneBadItemFailsAll(items: seq<Json>, k: int, str: Json -> Option<string>)
    requires 0 <= k < |items| && !IsSlideItem(items[k])
    ensures ConvertItems(items, str).Err?
    ensures (forall j :: 0 <= j < k ==> Convertible(items[j], str)) ==>
      ConvertItems(items, str) == Err(MissingTitleOrContent)
  {
    var r := ConvertItems(items, str);
    if forall j :: 0 <= j < k ==> Convertible(items[j], str) {
      var m :| FirstBad(items, m, str) && r.error == ItemError(items[m], str);
      assert m == k;
    }
  }

  /** A title that is an object with a `toString` key, as in
      `[{"title": {"toString": 0}, "content": "x"}]`, makes `String` throw, so
      the call fails although the item has a title and a content. */
  lemma ToStringKeyRejected(str: Json -> Option<string>)
    requires ThrowsOnToStringKey(str)
    ensures var item := Obj(map["title" := Obj(map["toString" := Num(0)]), "content" := Str("x")]);
      IsSlideItem(item) && ConvertItems([item], str) == Err(NotConvertible)
  {
    var title := Obj(map["toString" := Num(0)]);
    var item := Obj(map["title" := title, "content" := Str("x")]);
    assert item.fields["title"] == title;
    assert str(title).None?;
    assert !Convertible(item, str);
  }

  // ---------------------------------------------------------------------
  // The service's answer
  // ---------------------------------------------------------------------

  /** `s.includes(part)`. */
  predicate Contains(s: string, part: string) {
    (|part| <= |s| && s[..|part|] == part) || (s != [] && Contains(s[1..], part))
  }

  /** The failures reported as the service being unreachable. */
  predicate UnreachableAnswer(status: int, errText: string) {
    status == 404 || Contains(errText, "connection refused") || Contains(errText, "Failed to fetch")
  }

  /** `data.response` is a non-empty string: `!responseText || typeof
      responseText !== 'string'` lets nothing else through. */
  predicate HasResponseText(data: Json) {
    data.Obj? && "response" in data.fields && data.fields["response"].Str? && data.fields["response"].s != ""
  }

  /** The handling after `fetch`. A failed request is reported as the service
      being unreachable (404, or a refused connection) or with its text. The
      answer's body is `data`, `None` when `res.json()` rejects; `null` makes
      reading `data.response` throw; an answer whose `response` is not a
      non-empty string is rejected; the rest goes to `extractJsonArray`. */
  function InterpretResponse(ok: bool, status: int, errText: string, data: Option<Json>,
                             parse: string -> Option<Json>, str: Json -> Option<string>)
    : (r: Result<seq<SlideInput>, GenError>)
    ensures !ok && UnreachableAnswer(status, errText) ==> r == Err(Unreachable)
    ensures !ok && !UnreachableAnswer(status, errText) ==>
      r == Err(RequestFailed(if errText != "" then errText else "AI request failed: " + IntString(status)))
    ensures ok && data.None? ==> r == Err(BodyNotJson)
    ensures ok && data == Some(Null) ==> r == Err(NullBody)
    ensures ok && data.Some? && data.value != Null && !HasResponseText(data.value) ==> r == Err(InvalidFormat)
    ensures ok && data.Some? && HasResponseText(data.value) ==>
      r == ExtractJsonArray(data.value.fields["response"].s, parse, str)
  {
    if !ok then
      if UnreachableAnswer(status, errText) then Err(Unreachable)
      else Err(RequestFailed(if errText != "" then errText else "AI request failed: " + IntString(status)))
    else
      if data.None? then Err(BodyNotJson)
      else if data.value.Null? then Err(NullBody)
      else if HasResponseText(data.value) then ExtractJsonArray(data.value.fields["response"].s, parse, str)
      else Err(InvalidFormat)
  }

  /** An answer whose `response` holds a fenced block with a JSON array of
      slides yields exactly those slides, converted in order. */
  lemma FencedAnswerYieldsSlides(reply: string, pre: string, body: string, post: string, items: seq<Json>,
                                 parse: string -> Option<Json>, str: Json -> Option<string>)
    requires '`' !in pre && '`' !in body
    requires Trim(reply) == Block(pre, body, post)
    requires parse(Trim(Untagged(body))) == Some(Arr(items))
    requires forall k :: 0 <= k < |items| ==> Convertible(items[k], str)
    ensures var r := InterpretResponse(true, 200, "", Some(Obj(map["response" := Str(reply)])), parse, str);
      r.Ok? && |r.value| == |items| && forall k :: 0 <= k < |items| ==> r.value[k] == Converted(items[k], str)
  {
    BlockShape(pre, body, post);
    assert reply != [];
    var data := Obj(map["response" := Str(reply)]);
    assert data.fields["response"].s == reply;
    var r := InterpretResponse(true, 200, "", Some(data), parse, str);
    assert r == ExtractJsonArray(reply, parse, str);
    FencedReplyParsedBody(reply, pre, body, post);
    assert parse(RawText(reply)) == Some(Arr(items));
    assert r == ConvertItems(items, str);
  }

  // ---------------------------------------------------------------------
  // Placeholder images
  // ---------------------------------------------------------------------

  const PicsumSeed := "https://picsum.photos/seed/"

  /** `placeholderImageUrl`, 720 by 405 unless a size is given. */
  function PlaceholderImageUrl(seed: string, encode: string -> string, width: int := 720, height: int := 405)
    : (r: string)
    ensures |r| > |PicsumSeed| && r[..|PicsumSeed|] == PicsumSeed
    ensures r[|PicsumSeed|..] == encode(seed) + "/" + IntString(width) + "/" + IntString(height)
  {
    PicsumSeed + encode(seed) + "/" + IntString(width) + "/" + IntString(height)
  }

  lemma NoSlashInIntString(n: int)
    ensures '/' !in IntString(n)
  {
    var r := IntString(n);
    forall k | 0 <= k < |r|
      ensures r[k] != '/'
    {
      assert IsDigit(r[k]) || r[k] == '-';
    }
  }

  lemma PrefixCancel(p: string, a: string, b: string)
    requires p + a == p + b
    ensures a == b
  {
    assert a == (p + a)[|p|..];
    assert b == (p + b)[|p|..];
  }

  lemma UrlShape(e: string, w: string, h: string)
    ensures PicsumSeed + e + "/" + w + "/" + h == PicsumSeed + (e + ['/'] + (w + ['/'] + h))
  {
  }

  /** The URL determines the encoded seed and the size: the encoded seed
      (which `encodeURIComponent` escapes slashes out of) and the numbers
      contain no slash. */
  lemma PlaceholderUrlDeterminesParts(s1: string, w1: int, h1: int, s2: string, w2: int, h2: int,
                                      encode: string -> string)
    requires '/' !in encode(s1) && '/' !in encode(s2)
    requires PlaceholderImageUrl(s1, encode, w1, h1) == PlaceholderImageUrl(s2, encode, w2, h2)
    ensures encode(s1) == encode(s2) && w1 == w2 && h1 == h2
  {
    var e1, e2 := encode(s1), encode(s2);
    var n1, n2, m1, m2 := IntString(w1), IntString(w2), IntString(h1), IntString(h2);
    UrlShape(e1, n1, m1);
    UrlShape(e2, n2, m2);
    PrefixCancel(PicsumSeed, e1 + ['/'] + (n1 + ['/'] + m1), e2 + ['/'] + (n2 + ['/'] + m2));
    SeparatorSplit(e1, n1 + ['/'] + m1, e2, n2 + ['/'] + m2, '/');
    NoSlashInIntString(w1);
    NoSlashInIntString(w2);
    SeparatorSplit(n1, m1, n2, m2, '/');
    IntStringInjective(w1, w2);
    IntStringInjective(h1, h2);
  }
}
