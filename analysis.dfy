/** The analyze route of the server: request validation, the demo analysis used
    when no model key is configured, selection of the model's text, the
    whole-string / brace-scan JSON extraction and the synthesised fallback. */
module Analysis {
  import opened Wrappers
  import opened Values
  import opened Strings

  /** How many characters of the model's text the fallback keeps as its summary. */
  const SummaryLimit: nat := 1000

  /** `label` is a keyword here, so the JSON field `label` is called `name`. */
  datatype Sentiment = Sentiment(name: string, positive: real, neutral: real, negative: real)
  datatype Bias = Bias(name: string, confidence: real)
  datatype Credibility = Credibility(score: int, verified: bool)
  datatype Perspective = Perspective(source: string, summary: string, url: Option<string>)

  /** An analysis built by the server itself; `analyzedAt` is an instant in milliseconds. */
  datatype AnalysisResult = AnalysisResult(
    truthScore: int,
    sentiment: Sentiment,
    bias: Bias,
    sourceCredibility: Credibility,
    factCheckSummary: string,
    perspectives: seq<Perspective>,
    analyzedAt: int)

  /** The fields of the posted article that the route reads. */
  datatype AnalyzeRequest = AnalyzeRequest(
    title: Option<string>,
    summary: Option<string>,
    link: Option<string>,
    sourceName: Option<string>)

  /** The parts of a chat-completions response body that the route reads. */
  datatype ChatMessage = ChatMessage(content: Option<string>)
  datatype Choice = Choice(message: Option<ChatMessage>, text: Option<string>)
  datatype ChatBody = ChatBody(choices: Option<seq<Choice>>)

  /** The model call: a rejected fetch, or a status and a body that decodes (Some) or not (None). */
  datatype ProviderReply = Unreachable | Answered(status: int, body: Option<ChatBody>)

  /** The outcome of the extraction: a parsed value, a brace slice that does not
      parse (JSON.parse throws), or no usable brace pair. */
  datatype Extraction<J> = Extracted(value: J) | SliceUnparseable | NoBracePair

  /** What the route answers. `Upstream` is JSON taken from the model's text. */
  datatype AnalyzeResponse<J> =
    | BadRequest(message: string)
    | ServerError(message: string)
    | Upstream(value: J)
    | Synthesized(result: AnalysisResult)

  /** The posted body is present and has a truthy title. */
  predicate IsValidRequest(body: Option<AnalyzeRequest>)
    ensures IsValidRequest(body) ==> body.Some? && body.value.title.Some? && |body.value.title.value| > 0
  {
    body.Some? && Truthy(body.value.title)
  }

  /** Some `{` of the text comes strictly before some `}`. */
  ghost predicate HasBracePair(content: string) {
    exists i, j :: 0 <= i < j < |content| && content[i] == '{' && content[j] == '}'
  }

  /** `choices?.[0]?.message?.content ?? choices?.[0]?.text ?? ""`. */
  function SelectContent(body: ChatBody): (content: string)
    ensures body.choices.None? || body.choices.value == [] ==> content == ""
    ensures body.choices.Some? && body.choices.value != [] ==>
      var first := body.choices.value[0];
      content == if first.message.Some? && first.message.value.content.Some?
                 then first.message.value.content.value
                 else first.text.GetOr("")
  {
    var first: Option<Choice> :=
      if body.choices.Some? && |body.choices.value| > 0 then Some(body.choices.value[0]) else None;
    var fromMessage: Option<string> :=
      if first.Some? && first.value.message.Some? then first.value.message.value.content else None;
    var fromText: Option<string> := if first.Some? then first.value.text else None;
    fromMessage.OrElse(fromText).GetOr("")
  }

  /** The positions of the first `{` and the last `}`, when the last strictly follows the first. */
  function BraceSpan(content: string): (span: Option<(nat, nat)>)
    ensures span.Some? <==> HasBracePair(content)
    ensures span.Some? ==>
      var (s, e) := span.value;
      s < e < |content| && content[s] == '{' && content[e] == '}' &&
      '{' !in content[..s] && '}' !in content[e + 1..] &&
      (forall i :: 0 <= i < |content| && content[i] == '{' ==> s <= i) &&
      (forall j :: 0 <= j < |content| && content[j] == '}' ==> j <= e)
  {
    var s := IndexOf(content, '{');
    var e := LastIndexOf(content, '}');
    if s != -1 && e != -1 && e > s then Some((s, e)) else None
  }

  /** Parse the whole text; failing that, parse the slice from the first `{`
      to the last `}` inclusive. */
  function ExtractJson<J>(content: string, parse: string -> Option<J>): (r: Extraction<J>)
    ensures parse(content).Some? ==> r == Extracted(parse(content).value)
    ensures r.NoBracePair? <==> parse(content).None? && !HasBracePair(content)
    ensures parse(content).None? && BraceSpan(content).Some? ==>
      var (s, e) := BraceSpan(content).value;
      r == match parse(content[s..e + 1])
           case Some(v) => Extracted(v)
           case None => SliceUnparseable
  {
    match parse(content)
    case Some(v) => Extracted(v)
    case None =>
      match BraceSpan(content)
      case None => NoBracePair
      case Some((s, e)) =>
        match parse(content[s..e + 1])
        case Some(v) => Extracted(v)
        case None => SliceUnparseable
  }

  /** A JSON object wrapped in prose is recovered when the prose before it has no
      `{` and the prose after it has no `}`. */
  lemma ExtractFromProse<J>(prefix: string, json: string, suffix: string, parse: string -> Option<J>)
    requires '{' !in prefix && '}' !in suffix
    requires |json| > 0 && json[0] == '{' && json[|json| - 1] == '}'
    requires parse(prefix + json + suffix).None?
    requires parse(json).Some?
    ensures ExtractJson(prefix + json + suffix, parse) == Extracted(parse(json).value)
  {
    var content := prefix + json + suffix;
    var n, m := |prefix|, |json|;
    assert content[n] == '{' && content[n + m - 1] == '}';
    assert n < n + m - 1;
    assert HasBracePair(content);
    var (s, e) := BraceSpan(content).value;
    assert s == n;
    assert e == n + m - 1;
    assert content[s..e + 1] == json;
  }

  /** Text with no braces at all falls through to the synthesised fallback. */
  lemma NoBracesFallsBack<J>(content: string, parse: string -> Option<J>)
    requires '{' !in content
    requires parse(content).None?
    ensures ExtractJson(content, parse) == NoBracePair
  {
  }

  /** The analysis returned when no model key is configured (`??` defaults). */
  function DemoAnalysis(req: AnalyzeRequest, now: int): (r: AnalysisResult)
    ensures r.truthScore == 65 && r.sourceCredibility == Credibility(60, false)
    ensures r.sentiment.name == "neutral" && r.bias.name == "center"
    ensures r.perspectives == [Perspective(req.sourceName.GetOr("Original"), req.summary.GetOr(""), req.link)]
    ensures r.analyzedAt == now
  {
    AnalysisResult(
      65,
      Sentiment("neutral", 0.2, 0.6, 0.2),
      Bias("center", 0.6),
      Credibility(60, false),
      "OpenAI key not configured - demo summary.",
      [Perspective(req.sourceName.GetOr("Original"), req.summary.GetOr(""), req.link)],
      now)
  }

  /** The analysis synthesised when the model's text has no usable brace pair (`||` defaults). */
  function FallbackAnalysis(content: string, req: AnalyzeRequest, now: int): (r: AnalysisResult)
    ensures |r.factCheckSummary| == if |content| < SummaryLimit then |content| else SummaryLimit
    ensures r.factCheckSummary <= content
    ensures r.truthScore == 60 && r.sourceCredibility == Credibility(50, false)
    ensures r.sentiment.name == "neutral" && r.bias.name == "unknown"
    ensures |r.perspectives| == 1
    ensures r.perspectives[0].source != ""
    ensures r.perspectives[0] == Perspective(Or(req.sourceName, "Original"), Or(req.summary, ""), req.link)
    ensures r.analyzedAt == now
  {
    var limit := if |content| < SummaryLimit then |content| else SummaryLimit;
    AnalysisResult(
      60,
      Sentiment("neutral", 0.2, 0.6, 0.2),
      Bias("unknown", 0.5),
      Credibility(50, false),
      content[..limit],
      [Perspective(Or(req.sourceName, "Original"), Or(req.summary, ""), req.link)],
      now)
  }

  /** An empty source name is kept by the demo (`??`) but replaced by the fallback (`||`). */
  lemma EmptySourceName(req: AnalyzeRequest, content: string, now: int)
    requires req.sourceName == Some("")
    ensures DemoAnalysis(req, now).perspectives[0].source == ""
    ensures FallbackAnalysis(content, req, now).perspectives[0].source == "Original"
  {
  }

  /** The `POST /api/analyze` handler. `hasKey` is the truthiness of the model key,
      `reply` what the model call produced and `now` the instant of the answer. */
  function Analyze<J>(body: Option<AnalyzeRequest>, hasKey: bool, reply: ProviderReply,
                      parse: string -> Option<J>, now: int): (r: AnalyzeResponse<J>)
    ensures r.BadRequest? <==> !IsValidRequest(body)
    ensures IsValidRequest(body) && !hasKey ==> r == Synthesized(DemoAnalysis(body.value, now))
    ensures IsValidRequest(body) && hasKey && reply.Answered? && !IsOkStatus(reply.status) ==>
      r == ServerError("OpenAI API failed")
    ensures IsValidRequest(body) && hasKey && (reply.Unreachable? || (IsOkStatus(reply.status) && reply.body.None?)) ==>
      r == ServerError("Analyze failed")
    ensures r.Synthesized? ==> |r.result.perspectives| == 1 && r.result.perspectives[0].url == body.value.link
    ensures r.Synthesized? ==> r.result.analyzedAt == now
    ensures r.Synthesized? && hasKey ==>
      reply.Answered? && reply.body.Some? && !HasBracePair(SelectContent(reply.body.value))
    ensures IsValidRequest(body) && hasKey && reply.Answered? && IsOkStatus(reply.status) && reply.body.Some? ==>
      var content := SelectContent(reply.body.value);
      r == match ExtractJson(content, parse)
           case Extracted(v) => Upstream(v)
           case SliceUnparseable => ServerError("Analyze failed")
           case NoBracePair => Synthesized(FallbackAnalysis(content, body.value, now))
  {
    if !IsValidRequest(body) then BadRequest("Missing article")
    else if !hasKey then Synthesized(DemoAnalysis(body.value, now))
    else match reply
      case Unreachable => ServerError("Analyze failed")
      case Answered(status, chat) =>
        if !IsOkStatus(status) then ServerError("OpenAI API failed")
        else if chat.None? then ServerError("Analyze failed")
        else
          var content := SelectContent(chat.value);
          match ExtractJson(content, parse)
          case Extracted(v) => Upstream(v)
          case SliceUnparseable => ServerError("Analyze failed")
          case NoBracePair => Synthesized(FallbackAnalysis(content, body.value, now))
  }

  /** With a key configured and the model answering, well-formed JSON text is passed through. */
  lemma ParsedTextPassesThrough<J>(req: AnalyzeRequest, status: int, chat: ChatBody, parse: string -> Option<J>, now: int)
    requires Truthy(req.title) && IsOkStatus(status)
    requires parse(SelectContent(chat)).Some?
    ensures Analyze(Some(req), true, Answered(status, Some(chat)), parse, now) == Upstream(parse(SelectContent(chat)).value)
  {
  }

  /** A body without a title (`{}`) is refused before anything else happens. */
  lemma EmptyBodyIsRefused<J>(hasKey: bool, reply: ProviderReply, parse: string -> Option<J>, now: int)
    ensures Analyze(Some(AnalyzeRequest(None, None, None, None)), hasKey, reply, parse, now) == BadRequest("Missing article")
  {
  }

  /** The no-key demo echoes the article's source, summary and link. */
  lemma DemoScenario<J>(reply: ProviderReply, parse: string -> Option<J>, now: int)
    ensures var r := Analyze(Some(AnalyzeRequest(Some("T"), Some("S"), Some("L"), Some("Src"))), false, reply, parse, now);
      r.Synthesized? && r.result.analyzedAt == now && r.result.perspectives[0] == Perspective("Src", "S", Some("L"))
  {
  }
}
