/**
 * The three summarization back ends: selecting one from the settings,
 * building its HTTP request, and turning its HTTP response into a summary.
 * The network exchange itself is a parameter: `Summarize` takes the server
 * as a function from the request sent to the response received.
 */
module Providers {
  import opened Wrappers
  import opened Text
  import opened Config

  /** What a provider call throws. */
  datatype Exception =
    | Error(message: string)
      /** A read of a field the response JSON does not have, such as
          `data.choices[0]` on an empty list; the runtime's own message is not modelled. */
    | TypeError(access: string)

  datatype Kind = OpenAI | OpenRouter | Ollama

  /** A provider instance: its variant and the settings it was built with. */
  datatype Provider = Provider(kind: Kind, settings: Settings)

  /** The settings key that selects each variant. */
  function ProviderKey(kind: Kind): string {
    match kind
    case OpenAI => "openai"
    case OpenRouter => "openrouter"
    case Ollama => "ollama"
  }

  /** The name each variant puts in front of its HTTP error messages. */
  function ApiName(kind: Kind): string {
    match kind
    case OpenAI => "OpenAI"
    case OpenRouter => "OpenRouter"
    case Ollama => "Ollama"
  }

  /**
   * `createProvider`: the variant whose key is `settings.provider`, built
   * with those settings; any other key, the empty one included, throws.
   */
  function CreateProvider(settings: Settings): (r: Result<Provider, Exception>)
    ensures r.Ok? <==> settings.provider in KNOWN_PROVIDERS
    ensures r.Ok? ==> r.value.settings == settings && ProviderKey(r.value.kind) == settings.provider
    ensures r.Err? ==> r.error == Error("Unknown provider: " + settings.provider)
  {
    match settings.provider
    case "openai" => Ok(Provider(OpenAI, settings))
    case "openrouter" => Ok(Provider(OpenRouter, settings))
    case "ollama" => Ok(Provider(Ollama, settings))
    case _ => Err(Error("Unknown provider: " + settings.provider))
  }

  /** Every variant is reached by exactly its own key. */
  lemma CreateProviderSelectsByKey(kind: Kind, settings: Settings)
    requires settings.provider == ProviderKey(kind)
    ensures CreateProvider(settings) == Ok(Provider(kind, settings))
  {
  }

  // ---------------------------------------------------------------------------
  // Requests

  const SYSTEM_PROMPT: string :=
    "You are a summariser model, your task is to summarise posts from the LinkedIn platform, "
    + "you will be provided posts in the format <post> text </post> and should respond in the format "
    + "<response> summaried version of original post text </response> Respond only in the format described, "
    + "do not provide any additional response or commentary. "
    + "Ensure any mentions of company or people names are retained in the summary."

  const OPENAI_ENDPOINT: string := "https://api.openai.com/v1/chat/completions"
  const OPENROUTER_ENDPOINT: string := "https://openrouter.ai/api/v1/chat/completions"
  const OLLAMA_GENERATE_PATH: string := "/api/generate"
  const OPENROUTER_TITLE: string := "LinkedIn Post Summarizer"
  const POST_OPEN: string := "<post>"
  const POST_CLOSE: string := "</post>"
  /** The `max_tokens` / `num_predict` every request asks for. */
  const MAX_TOKENS: nat := 150
  /** The temperature every request asks for, 0.3, in tenths. */
  const TEMPERATURE_TENTHS: nat := 3

  /**
   * The request headers; a header a variant does not send is None.
   * Every request sends `Content-Type: application/json`.
   */
  datatype Headers = Headers(
    contentType: string,
    authorization: Option<string>,
    referer: Option<string>,
    title: Option<string>)

  datatype ChatMessage = ChatMessage(role: string, content: string)

  /** The JSON body of a request (every request is a POST). */
  datatype Body =
    | ChatCompletion(model: string, messages: seq<ChatMessage>, maxTokens: nat, temperatureTenths: nat)
    | Generate(model: string, prompt: string, stream: bool, temperatureTenths: nat, numPredict: nat)

  datatype Request = Request(url: string, headers: Headers, body: Body)

  /** The user turn of a chat request: the post between `<post>` tags. */
  function WrapPost(postText: string): string {
    POST_OPEN + postText + POST_CLOSE
  }

  /**
   * `summarize`'s request: endpoint, headers and body for the provider's
   * variant, embedding `postText`. `pageUrl` is the page the script runs on,
   * which OpenRouter receives as its referer.
   */
  function BuildRequest(p: Provider, postText: string, pageUrl: string): (req: Request)
    ensures PromptOf(req) == Some((SYSTEM_PROMPT, postText))
    ensures ModelOf(req.body) == p.settings.model
    ensures GenerationLimits(req.body) == (MAX_TOKENS, TEMPERATURE_TENTHS)
    ensures req.headers.contentType == "application/json"
    ensures req.headers.authorization == if p.kind == Ollama then None else Some("Bearer " + p.settings.apiKey)
    ensures req.headers.referer == if p.kind == OpenRouter then Some(pageUrl) else None
    ensures req.headers.title == if p.kind == OpenRouter then Some(OPENROUTER_TITLE) else None
    ensures req.body.ChatCompletion? <==> p.kind != Ollama
    ensures req.url == match p.kind
                       case OpenAI => OPENAI_ENDPOINT
                       case OpenRouter => OPENROUTER_ENDPOINT
                       case Ollama => p.settings.ollamaUrl + OLLAMA_GENERATE_PATH
    ensures req.body.Generate? ==> !req.body.stream
  {
    var bearer := Some("Bearer " + p.settings.apiKey);
    var messages := [ChatMessage("system", SYSTEM_PROMPT), ChatMessage("user", WrapPost(postText))];
    var chat := ChatCompletion(p.settings.model, messages, MAX_TOKENS, TEMPERATURE_TENTHS);
    ChatPromptRoundTrip(postText);
    GeneratePromptRoundTrip(postText);
    match p.kind
    case OpenAI =>
      Request(OPENAI_ENDPOINT, Headers("application/json", bearer, None, None), chat)
    case OpenRouter =>
      Request(OPENROUTER_ENDPOINT,
              Headers("application/json", bearer, Some(pageUrl), Some(OPENROUTER_TITLE)),
              chat)
    case Ollama =>
      Request(p.settings.ollamaUrl + OLLAMA_GENERATE_PATH, Headers("application/json", None, None, None),
              Generate(p.settings.model, SYSTEM_PROMPT + "\n\n" + WrapPost(postText), false,
                       TEMPERATURE_TENTHS, MAX_TOKENS))
  }

  function ModelOf(body: Body): string {
    body.model
  }

  /** The (token limit, temperature in tenths) a request asks for. */
  function GenerationLimits(body: Body): (nat, nat) {
    match body
    case ChatCompletion(_, _, maxTokens, t) => (maxTokens, t)
    case Generate(_, _, _, t, numPredict) => (numPredict, t)
  }

  /** The part of `s` between a leading `prefix` and a trailing `suffix`, if it has both. */
  function Between(s: string, prefix: string, suffix: string): Option<string> {
    if |prefix| + |suffix| <= |s| && s[..|prefix|] == prefix && s[|s| - |suffix|..] == suffix
    then Some(s[|prefix|..|s| - |suffix|])
    else None
  }

  lemma {:induction false} BetweenRecovers(prefix: string, x: string, suffix: string)
    ensures Between(prefix + x + suffix, prefix, suffix) == Some(x)
  {
    var s := prefix + x + suffix;
    assert s[..|prefix|] == prefix;
    assert s[|s| - |suffix|..] == suffix;
    assert s[|prefix|..|s| - |suffix|] == x;
  }

  /**
   * What the completion model is asked to do, read back from a request: the
   * instruction and the post text. Chat requests carry them as a system turn
   * and a `<post>`-wrapped user turn; Ollama requests as one flat prompt.
   */
  function PromptOf(req: Request): Option<(string, string)> {
    match req.body
    case ChatCompletion(_, messages, _, _) =>
      if |messages| == 2 && messages[0].role == "system" && messages[1].role == "user" then
        match Between(messages[1].content, POST_OPEN, POST_CLOSE)
        case Some(post) => Some((messages[0].content, post))
        case None => None
      else None
    case Generate(_, prompt, _, _, _) =>
      match Between(prompt, SYSTEM_PROMPT + "\n\n" + POST_OPEN, POST_CLOSE)
      case Some(post) => Some((SYSTEM_PROMPT, post))
      case None => None
  }

  lemma ChatPromptRoundTrip(postText: string)
    ensures Between(WrapPost(postText), POST_OPEN, POST_CLOSE) == Some(postText)
  {
    BetweenRecovers(POST_OPEN, postText, POST_CLOSE);
  }

  lemma GeneratePromptRoundTrip(postText: string)
    ensures Between(SYSTEM_PROMPT + "\n\n" + WrapPost(postText), SYSTEM_PROMPT + "\n\n" + POST_OPEN, POST_CLOSE)
            == Some(postText)
  {
    assert SYSTEM_PROMPT + "\n\n" + WrapPost(postText) == (SYSTEM_PROMPT + "\n\n" + POST_OPEN) + postText + POST_CLOSE;
    BetweenRecovers(SYSTEM_PROMPT + "\n\n" + POST_OPEN, postText, POST_CLOSE);
  }

  // ---------------------------------------------------------------------------
  // Responses

  /**
   * The fields of a response's JSON body that the providers read:
   * the `message.content` of each entry of `choices` (None where it is not a
   * string) and the top-level `response` (None where it is not a string).
   */
  datatype ResponseBody = ResponseBody(choiceContents: seq<Option<string>>, response: Option<string>)

  datatype HttpResponse = HttpResponse(status: int, statusText: string, body: ResponseBody)

  /** `response.ok`. */
  predicate IsOk(resp: HttpResponse) {
    200 <= resp.status <= 299
  }

  /** The completion text a variant reads from the response body, or the TypeError reading it throws. */
  function RawText(kind: Kind, body: ResponseBody): (r: Result<string, Exception>)
    ensures kind == Ollama ==>
              && (r.Ok? <==> body.response.Some?)
              && (r.Ok? ==> r.value == body.response.value)
              && (r.Err? ==> r.error == TypeError("data.response"))
    ensures kind != Ollama ==>
              && (r.Ok? <==> |body.choiceContents| > 0 && body.choiceContents[0].Some?)
              && (r.Ok? ==> r.value == body.choiceContents[0].value)
              && (r.Err? ==> r.error == TypeError("data.choices[0].message.content"))
  {
    if kind == Ollama then
      if body.response.Some? then Ok(body.response.value) else Err(TypeError("data.response"))
    else if |body.choiceContents| > 0 && body.choiceContents[0].Some? then Ok(body.choiceContents[0].value)
    else Err(TypeError("data.choices[0].message.content"))
  }

  /**
   * The rest of `summarize` once the response has arrived: a failed status
   * throws `<API> API error: <statusText>` before the body is read; otherwise
   * the completion text goes through `ExtractResponse`.
   */
  function HandleResponse(p: Provider, resp: HttpResponse): (r: Result<string, Exception>)
    ensures !IsOk(resp) ==> r == Err(Error(ApiName(p.kind) + " API error: " + resp.statusText))
    ensures r.Ok? ==> IsOk(resp) && IsTrimmed(r.value) && !HasTaggedSegment(r.value)
    ensures IsOk(resp) ==> r.Ok? == RawText(p.kind, resp.body).Ok?
    ensures IsOk(resp) && RawText(p.kind, resp.body).Ok? ==> r.value == ExtractResponse(RawText(p.kind, resp.body).value)
    ensures IsOk(resp) && RawText(p.kind, resp.body).Err? ==> r == Err(RawText(p.kind, resp.body).error)
  {
    if !IsOk(resp) then Err(Error(ApiName(p.kind) + " API error: " + resp.statusText))
    else match RawText(p.kind, resp.body)
      case Ok(text) => Ok(ExtractResponse(text))
      case Err(e) => Err(e)
  }

  /** A failed status is reported the same way whatever the body holds. */
  lemma FailedStatusIgnoresBody(p: Provider, resp: HttpResponse, other: ResponseBody)
    requires !IsOk(resp)
    ensures HandleResponse(p, resp) == HandleResponse(p, resp.(body := other))
    ensures HandleResponse(p, resp).Err? && HandleResponse(p, resp).error.Error?
  {
  }

  /** `provider.summarize(postText)` against `server`, which answers the one request sent. */
  function Summarize(p: Provider, postText: string, pageUrl: string, server: Request -> HttpResponse)
    : (r: Result<string, Exception>)
    ensures r.Ok? ==> IsTrimmed(r.value) && ExtractResponse(r.value) == r.value
    ensures var resp := server(BuildRequest(p, postText, pageUrl));
            && (!IsOk(resp) ==> r == Err(Error(ApiName(p.kind) + " API error: " + resp.statusText)))
            && (IsOk(resp) ==> r == match RawText(p.kind, resp.body)
                                    case Ok(text) => Ok(ExtractResponse(text))
                                    case Err(e) => Err(e))
  {
    var r := HandleResponse(p, server(BuildRequest(p, postText, pageUrl)));
    if r.Ok? then ExtractIdempotentOnResult(r.value); r else r
  }

  /** `createProvider(settings).summarize(postText)`, as the content script calls it. */
  function SummarizeWith(settings: Settings, postText: string, pageUrl: string, server: Request -> HttpResponse)
    : (r: Result<string, Exception>)
    ensures settings.provider !in KNOWN_PROVIDERS ==> r == Err(Error("Unknown provider: " + settings.provider))
    ensures CreateProvider(settings).Ok? ==> r == Summarize(CreateProvider(settings).value, postText, pageUrl, server)
    ensures r.Ok? ==> IsTrimmed(r.value) && ExtractResponse(r.value) == r.value
  {
    match CreateProvider(settings)
    case Ok(p) => Summarize(p, postText, pageUrl, server)
    case Err(e) => Err(e)
  }

  // ---------------------------------------------------------------------------
  // Extraction: /<response>(.*?)<\/response>/s followed by trim

  const OPEN_TAG: string := "<response>"
  const CLOSE_TAG: string := "</response>"

  /** `i` is the first index at or after `from` where `pat` occurs in `s`. */
  ghost predicate IsFirstFrom(s: string, pat: string, from: int, i: int) {
    from <= i && OccursAt(s, pat, i) && forall k :: from <= k < i ==> !OccursAt(s, pat, k)
  }

  /** Some `<response>` in `s` is followed, after its end, by a `</response>`. */
  ghost predicate HasTaggedSegment(s: string) {
    exists i, j :: OccursAt(s, OPEN_TAG, i) && i + |OPEN_TAG| <= j && OccursAt(s, CLOSE_TAG, j)
  }

  /** Where the regular expression matches: the start of its `<response>` and of its `</response>`. */
  datatype TagMatch = TagMatch(open: nat, close: nat)

  /**
   * The match of `/<response>(.*?)<\/response>/s`: the regular expression
   * matches at the first `<response>` (if that one has no `</response>` after
   * it, no later one has) and its lazy group stops at the first `</response>`
   * after it. `.` matches newlines under the `s` flag, and the tags are
   * compared case-sensitively.
   */
  function MatchResponseTag(text: string): (m: Option<TagMatch>)
    ensures m.Some? <==> HasTaggedSegment(text)
    ensures m.Some? ==> IsFirstFrom(text, OPEN_TAG, 0, m.value.open)
                        && IsFirstFrom(text, CLOSE_TAG, m.value.open + |OPEN_TAG|, m.value.close)
  {
    match IndexOf(text, OPEN_TAG, 0)
    case None => None
    case Some(i) =>
      match IndexOf(text, CLOSE_TAG, i + |OPEN_TAG|)
      case None => None
      case Some(j) => Some(TagMatch(i, j))
  }

  /**
   * `extractResponse` (identical in all three variants): the trimmed group of
   * the match, or the whole text trimmed when there is no match. The result
   * has no whitespace at either end and no tagged segment left in it.
   */
  function ExtractResponse(text: string): (r: string)
    ensures IsTrimmed(r)
    ensures !HasTaggedSegment(r)
    ensures !HasTaggedSegment(text) ==> r == Trim(text)
  {
    match MatchResponseTag(text)
    case Some(m) =>
      var group := text[m.open + |OPEN_TAG|..m.close];
      GroupHasNoCloseTag(text, m.open + |OPEN_TAG|, m.close);
      NoSegmentSurvivesTrim(group);
      Trim(group)
    case None =>
      NoSegmentSurvivesTrim(text);
      Trim(text)
  }

  /**
   * The group between a `<response>` and the first `</response>` after it
   * contains no `</response>`, so no tagged segment either.
   */
  lemma GroupHasNoCloseTag(text: string, start: int, close: int)
    requires 0 <= start && IsFirstFrom(text, CLOSE_TAG, start, close)
    ensures !Contains(text[start..close], CLOSE_TAG)
    ensures !HasTaggedSegment(text[start..close])
  {
    var group := text[start..close];
    forall k | OccursAt(group, CLOSE_TAG, k)
      ensures false
    {
      assert IsSliceAt(text, group, start);
      OccursInSlice(text, group, start, CLOSE_TAG, k);
    }
  }

  /** A string without a tagged segment keeps none when trimmed. */
  lemma NoSegmentSurvivesTrim(s: string)
    requires !HasTaggedSegment(s)
    ensures !HasTaggedSegment(Trim(s))
  {
    var r := Trim(s);
    var k :| 0 <= k <= |s| - |r| && IsSliceAt(s, r, k);
    if HasTaggedSegment(r) {
      var i, j :| OccursAt(r, OPEN_TAG, i) && i + |OPEN_TAG| <= j && OccursAt(r, CLOSE_TAG, j);
      OccursInSlice(s, r, k, OPEN_TAG, i);
      OccursInSlice(s, r, k, CLOSE_TAG, j);
      assert false;
    }
  }

  /**
   * With a `<response>` at `i` that has none before it, and the first
   * `</response>` after it at `j`, the result is the text between them, trimmed.
   */
  lemma ExtractFirstSegment(text: string, i: int, j: int)
    requires IsFirstFrom(text, OPEN_TAG, 0, i)
    requires IsFirstFrom(text, CLOSE_TAG, i + |OPEN_TAG|, j)
    ensures ExtractResponse(text) == Trim(text[i + |OPEN_TAG|..j])
  {
    var m := MatchResponseTag(text);
    assert m.Some?;
    assert m.value.open == i;
    assert m.value.close == j;
  }

  /** Applying `extractResponse` to its own result changes nothing. */
  lemma ExtractIdempotent(text: string)
    ensures ExtractResponse(ExtractResponse(text)) == ExtractResponse(text)
  {
    ExtractIdempotentOnResult(ExtractResponse(text));
  }

  lemma ExtractIdempotentOnResult(r: string)
    requires IsTrimmed(r) && !HasTaggedSegment(r)
    ensures ExtractResponse(r) == r
  {
    TrimmedIsFixed(r);
  }

  /**
   * No occurrence of a tag starts in the part `u` of `text` that runs from
   * `from` up to a `<` at `n`, when `u` holds no such tag: an occurrence
   * reaching past `n` would need a second `<`, and tags have only the first.
   */
  lemma NoTagBefore(text: string, pat: string, from: int, n: int, u: string)
    requires 0 <= from <= n < |text| && text[from..n] == u && text[n] == '<'
    requires pat != [] && '<' !in pat[1..] && !Contains(u, pat)
    ensures forall k :: from <= k < n ==> !OccursAt(text, pat, k)
  {
    forall k | from <= k < n
      ensures !OccursAt(text, pat, k)
    {
      if k + |pat| <= n {
        forall t | k <= t < k + |pat|
          ensures text[t] == u[t - from]
        {
          assert text[from..n][t - from] == text[t];
        }
        assert text[k..k + |pat|] == u[k - from..k - from + |pat|];
        assert !OccursAt(u, pat, k - from);
      } else if k + |pat| <= |text| {
        assert text[k..k + |pat|][n - k] == '<';
        assert pat[1..][n - k - 1] == pat[n - k];
      }
    }
  }

  /**
   * A tagged reply: when nothing before the opening tag is a `<response>` and
   * the text between the tags holds no `</response>`, the result is that text
   * trimmed, whatever follows the closing tag.
   */
  lemma {:induction false} ExtractTaggedReply(before: string, x: string, after: string)
    requires !Contains(before, OPEN_TAG) && !Contains(x, CLOSE_TAG)
    ensures ExtractResponse(before + OPEN_TAG + x + CLOSE_TAG + after) == Trim(x)
  {
    var text := before + OPEN_TAG + x + CLOSE_TAG + after;
    var i := |before|;
    var j := i + |OPEN_TAG| + |x|;
    assert text[i..i + |OPEN_TAG|] == OPEN_TAG;
    assert text[j..j + |CLOSE_TAG|] == CLOSE_TAG;
    assert text[0..i] == before;
    NoTagBefore(text, OPEN_TAG, 0, i, before);
    assert text[i + |OPEN_TAG|..j] == x;
    NoTagBefore(text, CLOSE_TAG, i + |OPEN_TAG|, j, x);
    ExtractFirstSegment(text, i, j);
  }

  /** A reply that is exactly one tagged segment yields its content, trimmed. */
  lemma ExtractWholeTaggedReply(x: string)
    requires !Contains(x, CLOSE_TAG)
    ensures ExtractResponse(OPEN_TAG + x + CLOSE_TAG) == Trim(x)
  {
    assert OPEN_TAG + x + CLOSE_TAG == "" + OPEN_TAG + x + CLOSE_TAG + "";
    ExtractTaggedReply("", x, "");
  }

  /** `<response>summary</response>` yields `summary`. */
  lemma ExtractBareTaggedSummary()
    ensures ExtractResponse(OPEN_TAG + "summary" + CLOSE_TAG) == "summary"
  {
    var x := "summary";
    assert !Contains(x, CLOSE_TAG);
    ExtractWholeTaggedReply(x);
    assert IsTrimmed(x);
    TrimmedIsFixed(x);
  }

  /**
   * A chat provider whose server answers `200` with `<response>x</response>`
   * returns `x` trimmed, provided `x` holds no closing tag itself.
   */
  lemma SummarizeTaggedReply(x: string, p: Provider, postText: string, pageUrl: string, server: Request -> HttpResponse)
    requires p.kind != Ollama
    requires !Contains(x, CLOSE_TAG)
    requires server(BuildRequest(p, postText, pageUrl))
             == HttpResponse(200, "OK", ResponseBody([Some(OPEN_TAG + x + CLOSE_TAG)], None))
    ensures Summarize(p, postText, pageUrl, server) == Ok(Trim(x))
  {
    var resp := server(BuildRequest(p, postText, pageUrl));
    assert RawText(p.kind, resp.body) == Ok(OPEN_TAG + x + CLOSE_TAG);
    ExtractWholeTaggedReply(x);
  }
}
