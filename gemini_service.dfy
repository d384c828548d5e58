/** The deterministic part of the four remote-service wrappers: what each one
    does with the generative model's response, and how each turns a failure
    into its own fixed result. The model calls themselves are not modelled:
    each wrapper receives the call's outcome, and `generateImage` also hands
    back the request it would have sent. */
module GeminiService {
  import opened Types

  const HISTORY_FETCH_ERROR := "역사 정보를 가져오는 중 오류가 발생했습니다."
  const PLAN_ERROR := "콘텐츠 기획안 생성 중 오류가 발생했습니다."
  const POST_ERROR := "SNS 포스트 생성 중 오류가 발생했습니다."
  /** The summary used when the model's response has no text. */
  const SUMMARY_NOT_FOUND := "정보를 찾을 수 없습니다."
  /** The title given to a cited page that has none. */
  const UNTITLED_SOURCE := "출처"
  /** How much of the history summary goes into an image prompt. */
  const HISTORY_EXCERPT_LENGTH := 500
  const WEBTOON_ASPECT_RATIO := "3:4"
  const DEFAULT_ASPECT_RATIO := "4:3"

  // The parts of the SDK's response that the wrappers look at. Every field
  // is optional in the SDK, so every field is an Option here.

  datatype Web = Web(uri: Option<string>, title: Option<string>)
  datatype GroundingChunk = GroundingChunk(web: Option<Web>)
  datatype GroundingMetadata = GroundingMetadata(groundingChunks: Option<seq<GroundingChunk>>)
  datatype Blob = Blob(mimeType: Option<string>, data: Option<string>)
  datatype Part = Part(inlineData: Option<Blob>)
  datatype Content = Content(parts: Option<seq<Part>>)
  datatype Candidate = Candidate(content: Option<Content>, groundingMetadata: Option<GroundingMetadata>)
  datatype GenerateContentResponse = GenerateContentResponse(text: Option<string>, candidates: Option<seq<Candidate>>)

  /** JavaScript truthiness of an optional string. */
  predicate Truthy(s: Option<string>)
  {
    s.Some? && s.value != ""
  }

  /** `s || fallback` on an optional string. */
  function OrElse(s: Option<string>, fallback: string): string
  {
    if Truthy(s) then s.value else fallback
  }

  /** `response.candidates?.[0]` */
  function FirstCandidate(response: GenerateContentResponse): Option<Candidate>
  {
    if response.candidates.Some? && |response.candidates.value| > 0
    then Some(response.candidates.value[0]) else None
  }

  /** `response.candidates?.[0]?.groundingMetadata?.groundingChunks` */
  function GroundingChunks(response: GenerateContentResponse): Option<seq<GroundingChunk>>
  {
    match FirstCandidate(response)
    case Some(Candidate(_, Some(metadata))) => metadata.groundingChunks
    case _ => None
  }

  /** `response.candidates?.[0]?.content?.parts || []` */
  function Parts(response: GenerateContentResponse): seq<Part>
  {
    match FirstCandidate(response)
    case Some(Candidate(Some(Content(Some(parts))), _)) => parts
    case _ => []
  }

  // ---------------------------------------------------------------------
  // fetchHistory

  /** The history summary: the response text, or a fixed notice when the
      model gave none. It is never empty. */
  function Summary(text: Option<string>): (summary: string)
    ensures summary != ""
    ensures Truthy(text) <==> Some(summary) == text
    ensures !Truthy(text) ==> summary == SUMMARY_NOT_FOUND
  {
    OrElse(text, SUMMARY_NOT_FOUND)
  }

  /** Whether a grounding chunk is cited: `chunk.web?.uri` is truthy. */
  predicate IsCited(chunk: GroundingChunk)
  {
    chunk.web.Some? && Truthy(chunk.web.value.uri)
  }

  /** The source cited by a chunk. */
  function SourceOf(chunk: GroundingChunk): (source: Source)
    requires IsCited(chunk)
    ensures source.url == chunk.web.value.uri.value
    ensures Truthy(chunk.web.value.title) ==> source.title == chunk.web.value.title.value
    ensures !Truthy(chunk.web.value.title) ==> source.title == UNTITLED_SOURCE
  {
    Source(OrElse(chunk.web.value.title, UNTITLED_SOURCE), chunk.web.value.uri.value)
  }

  /** The sources cited by a list of grounding chunks, in order. Every one
      has a non-empty title and a non-empty address, and there are no more
      of them than chunks. */
  function SourcesOf(chunks: seq<GroundingChunk>): (sources: seq<Source>)
    ensures |sources| <= |chunks|
    ensures forall s :: s in sources ==> s.url != "" && s.title != ""
  {
    if chunks == [] then []
    else (if IsCited(chunks[0]) then [SourceOf(chunks[0])] else []) + SourcesOf(chunks[1..])
  }

  /** The history the service hands back for a response. */
  function HistoryOf(response: GenerateContentResponse): (history: HistoryData)
    ensures history.summary != ""
    ensures GroundingChunks(response).None? ==> history.sourceUrls == []
    ensures forall s :: s in history.sourceUrls ==> s.url != "" && s.title != ""
  {
    HistoryData(
      Summary(response.text),
      match GroundingChunks(response) case Some(chunks) => SourcesOf(chunks) case None => [])
  }

  /** Extracting the sources of two runs of chunks one after the other is
      extracting them from the whole run. */
  lemma {:induction false} SourcesOfAppend(a: seq<GroundingChunk>, b: seq<GroundingChunk>)
    ensures SourcesOf(a + b) == SourcesOf(a) + SourcesOf(b)
  {
    if a == [] {
      assert a + b == b;
    } else {
      var cited := if IsCited(a[0]) then [SourceOf(a[0])] else [];
      assert (a + b)[0] == a[0] && (a + b)[1..] == a[1..] + b;
      assert SourcesOf(a + b) == cited + SourcesOf(a[1..] + b);
      SourcesOfAppend(a[1..], b);
      assert SourcesOf(a) == cited + SourcesOf(a[1..]);
    }
  }

  /** A source is extracted exactly when some cited chunk yields it. */
  lemma {:induction false} SourcesOfMembership(chunks: seq<GroundingChunk>, source: Source)
    ensures source in SourcesOf(chunks) <==>
              exists k :: 0 <= k < |chunks| && IsCited(chunks[k]) && SourceOf(chunks[k]) == source
  {
    if chunks != [] {
      SourcesOfMembership(chunks[1..], source);
      if source in SourcesOf(chunks[1..]) {
        var k :| 0 <= k < |chunks[1..]| && IsCited(chunks[1..][k]) && SourceOf(chunks[1..][k]) == source;
        assert chunks[k + 1] == chunks[1..][k];
      }
      if exists k :: 0 <= k < |chunks| && IsCited(chunks[k]) && SourceOf(chunks[k]) == source {
        var k :| 0 <= k < |chunks| && IsCited(chunks[k]) && SourceOf(chunks[k]) == source;
        if k > 0 {
          assert chunks[1..][k - 1] == chunks[k];
        }
      }
    }
  }

  /** No sources at all exactly when no chunk is cited. */
  lemma {:induction false} SourcesOfEmptyIff(chunks: seq<GroundingChunk>)
    ensures SourcesOf(chunks) == [] <==> forall k :: 0 <= k < |chunks| ==> !IsCited(chunks[k])
  {
    if SourcesOf(chunks) != [] {
      SourcesOfMembership(chunks, SourcesOf(chunks)[0]);
    } else {
      forall k | 0 <= k < |chunks| ensures !IsCited(chunks[k]) {
        if IsCited(chunks[k]) {
          SourcesOfMembership(chunks, SourceOf(chunks[k]));
        }
      }
    }
  }

  /** A response without a first candidate, metadata or chunk list cites nothing. */
  lemma MissingChunksCiteNothing(response: GenerateContentResponse)
    requires GroundingChunks(response).None?
    ensures HistoryOf(response).sourceUrls == []
  {
  }

  /** `fetchHistory`: builds the summary and, chunk by chunk, the list of
      cited sources; any failure of the call becomes the fixed history error. */
  method FetchHistory(outcome: Result<GenerateContentResponse>) returns (r: Result<HistoryData>)
    ensures outcome.Err? ==> r == Err(HISTORY_FETCH_ERROR)
    ensures outcome.Ok? ==> r == Ok(HistoryOf(outcome.value))
  {
    if outcome.Err? {
      return Err(HISTORY_FETCH_ERROR);
    }
    var response := outcome.value;
    var text := OrElse(response.text, SUMMARY_NOT_FOUND);
    var sources: seq<Source> := [];
    var chunks := GroundingChunks(response);
    if chunks.Some? {
      var all := chunks.value;
      var i := 0;
      while i < |all|
        invariant 0 <= i <= |all|
        invariant sources == SourcesOf(all[..i])
      {
        var chunk := all[i];
        if chunk.web.Some? && Truthy(chunk.web.value.uri) {
          sources := sources + [Source(OrElse(chunk.web.value.title, UNTITLED_SOURCE), chunk.web.value.uri.value)];
        }
        assert all[..i + 1] == all[..i] + [chunk];
        SourcesOfAppend(all[..i], [chunk]);
        i := i + 1;
      }
      assert all[..i] == all;
    }
    r := Ok(HistoryData(text, sources));
  }

  // ---------------------------------------------------------------------
  // generateContentPlan and generateSocialPost

  /** `generateContentPlan`: the parsed plan, or the fixed plan error. */
  function GenerateContentPlan(outcome: Result<ContentPlan>): (r: Result<ContentPlan>)
    ensures r.Ok? <==> outcome.Ok?
    ensures r.Ok? ==> r.value == outcome.value
    ensures r.Err? ==> r.message == PLAN_ERROR
  {
    match outcome
    case Ok(plan) => Ok(plan)
    case Err(_) => Err(PLAN_ERROR)
  }

  /** `generateSocialPost`: the parsed post, or the fixed post error. */
  function GenerateSocialPost(outcome: Result<SocialPost>): (r: Result<SocialPost>)
    ensures r.Ok? <==> outcome.Ok?
    ensures r.Ok? ==> r.value == outcome.value
    ensures r.Err? ==> r.message == POST_ERROR
  {
    match outcome
    case Ok(post) => Ok(post)
    case Err(_) => Err(POST_ERROR)
  }

  // ---------------------------------------------------------------------
  // generateImage

  /** The part of the history that goes into an image prompt:
      `history.slice(0, 500)`, the longest prefix of at most 500 characters. */
  function HistoryExcerpt(history: string): (excerpt: string)
    ensures excerpt <= history
    ensures |excerpt| <= HISTORY_EXCERPT_LENGTH
    ensures |history| <= HISTORY_EXCERPT_LENGTH ==> excerpt == history
    ensures |history| > HISTORY_EXCERPT_LENGTH ==> |excerpt| == HISTORY_EXCERPT_LENGTH
  {
    if |history| <= HISTORY_EXCERPT_LENGTH then history else history[..HISTORY_EXCERPT_LENGTH]
  }

  /** The facts every image prompt starts from. */
  datatype ImageContext = ImageContext(place: string, history: string, emotion: string)

  /** Which prompt is sent, with the plan fields it carries (wording aside). */
  datatype ImagePrompt =
    | FourPanelWebtoon(context: ImageContext, plot: string, characters: string)
    | ConceptPoster(context: ImageContext, characters: string)

  /** What `generateImage` asks the image model for. */
  datatype ImageRequest = ImageRequest(prompt: ImagePrompt, aspectRatio: string)

  /** `String(x)` inside a template literal: an absent value prints as "undefined". */
  function Stringify(s: Option<string>): string
  {
    if s.Some? then s.value else "undefined"
  }

  /** A base64 data URL, `data:<mime type>;base64,<data>` (section 3 of RFC 2397). */
  function DataUrl(mimeType: string, data: string): (url: string)
    ensures |url| == 13 + |mimeType| + |data|
    ensures url[..5] == "data:"
    ensures url[5..5 + |mimeType|] == mimeType
    ensures url[5 + |mimeType|..13 + |mimeType|] == ";base64,"
    ensures url[13 + |mimeType|..] == data
  {
    "data:" + mimeType + ";base64," + data
  }

  /** The data URL built from an inline-data part. */
  function DataUrlOf(blob: Blob): string
  {
    DataUrl(Stringify(blob.mimeType), Stringify(blob.data))
  }

  /** The position of the first `c` in `s`, or `|s|` if there is none. */
  function IndexOf(s: string, c: char): (i: nat)
    ensures i <= |s|
    ensures i < |s| ==> s[i] == c
    ensures forall j :: 0 <= j < i ==> s[j] != c
  {
    if s == [] then 0 else if s[0] == c then 0 else 1 + IndexOf(s[1..], c)
  }

  /** Reads a base64 data URL back into its media type and its data, the
      media type running up to the first ';'. */
  function ParseDataUrl(url: string): Option<(string, string)>
  {
    if |url| < 5 || url[..5] != "data:" then None
    else
      var rest := url[5..];
      var i := IndexOf(rest, ';');
      if i + 8 <= |rest| && rest[i..i + 8] == ";base64," then Some((rest[..i], rest[i + 8..]))
      else None
  }

  /** A data URL gives back the media type and the data it was built from,
      when the media type carries no parameters. */
  lemma DataUrlRoundTrip(mimeType: string, data: string)
    requires forall k :: 0 <= k < |mimeType| ==> mimeType[k] != ';'
    ensures ParseDataUrl(DataUrl(mimeType, data)) == Some((mimeType, data))
  {
    var url := DataUrl(mimeType, data);
    var rest := url[5..];
    assert rest == mimeType + ";base64," + data;
    var i := IndexOf(rest, ';');
    assert rest[|mimeType|] == ';';
    assert i == |mimeType|;
    assert rest[i..i + 8] == ";base64,";
    assert rest[..i] == mimeType;
    assert rest[i + 8..] == data;
  }

  /** The inline data of the first part that has any. */
  function FirstInlineData(parts: seq<Part>): (first: Option<Blob>)
    ensures first.None? || first in set k | 0 <= k < |parts| :: parts[k].inlineData
  {
    if parts == [] then None
    else if parts[0].inlineData.Some? then parts[0].inlineData
    else FirstInlineData(parts[1..])
  }

  /** FirstInlineData is absent exactly when no part has inline data, and
      otherwise is the inline data of a part that no earlier part precedes
      with inline data of its own. */
  lemma {:induction false} FirstInlineDataIsFirst(parts: seq<Part>)
    ensures FirstInlineData(parts).None? <==> forall k :: 0 <= k < |parts| ==> parts[k].inlineData.None?
    ensures FirstInlineData(parts).Some? ==>
              exists k :: 0 <= k < |parts| && parts[k].inlineData == FirstInlineData(parts) &&
                          forall j :: 0 <= j < k ==> parts[j].inlineData.None?
  {
    if parts != [] && parts[0].inlineData.None? {
      FirstInlineDataIsFirst(parts[1..]);
      if FirstInlineData(parts).None? {
        forall k | 0 <= k < |parts| ensures parts[k].inlineData.None? {
          if k > 0 { assert parts[k] == parts[1..][k - 1]; }
        }
      } else {
        var k :| 0 <= k < |parts[1..]| && parts[1..][k].inlineData == FirstInlineData(parts[1..]) &&
                 forall j :: 0 <= j < k ==> parts[1..][j].inlineData.None?;
        assert parts[k + 1] == parts[1..][k];
        forall j | 0 <= j < k + 1 ensures parts[j].inlineData.None? {
          if j > 0 { assert parts[j] == parts[1..][j - 1]; }
        }
      }
    } else if parts != [] {
      assert parts[0].inlineData == FirstInlineData(parts);
    }
  }

  /** The image a response carries: the data URL of its first inline-data part. */
  function ImageUrlOf(parts: seq<Part>): (url: Option<string>)
    ensures url.Some? <==> FirstInlineData(parts).Some?
    ensures url.Some? ==> "data:" <= url.value
  {
    match FirstInlineData(parts)
    case Some(blob) => Some(DataUrlOf(blob))
    case None => None
  }

  /** `generateImage`: picks the prompt and the aspect ratio by content type,
      with at most 500 characters of history, then scans the response's parts
      for the first with inline data. It never fails: a failed call, or a
      response without an image, gives no URL. */
  method GenerateImage(place: string, emotion: string, history: string, plan: ContentPlan,
                       contentType: ContentType, outcome: Result<GenerateContentResponse>)
    returns (request: ImageRequest, imageUrl: Option<string>)
    ensures request.aspectRatio == WEBTOON_ASPECT_RATIO <==> contentType == WEBTOON
    ensures request.aspectRatio == WEBTOON_ASPECT_RATIO || request.aspectRatio == DEFAULT_ASPECT_RATIO
    ensures request.prompt.context == ImageContext(place, HistoryExcerpt(history), emotion)
    ensures request.prompt.FourPanelWebtoon? <==> contentType == WEBTOON
    ensures request.prompt.FourPanelWebtoon? ==>
              request.prompt.plot == plan.plot && request.prompt.characters == plan.characters
    ensures request.prompt.ConceptPoster? ==> request.prompt.characters == plan.characters
    ensures outcome.Err? ==> imageUrl == None
    ensures outcome.Ok? ==> imageUrl == ImageUrlOf(Parts(outcome.value))
  {
    var prompt: ImagePrompt;
    var aspectRatio := DEFAULT_ASPECT_RATIO;
    var baseContext := ImageContext(place, HistoryExcerpt(history), emotion);
    if contentType == WEBTOON {
      prompt := FourPanelWebtoon(baseContext, plan.plot, plan.characters);
      aspectRatio := WEBTOON_ASPECT_RATIO;
    } else {
      prompt := ConceptPoster(baseContext, plan.characters);
      aspectRatio := DEFAULT_ASPECT_RATIO;
    }
    request := ImageRequest(prompt, aspectRatio);

    if outcome.Err? {
      return request, None;
    }
    var parts := Parts(outcome.value);
    var i := 0;
    while i < |parts|
      invariant 0 <= i <= |parts|
      invariant FirstInlineData(parts[i..]) == FirstInlineData(parts)
    {
      if parts[i].inlineData.Some? {
        return request, Some(DataUrlOf(parts[i].inlineData.value));
      }
      assert parts[i..][1..] == parts[i + 1..];
      i := i + 1;
    }
    imageUrl := None;
  }
}
