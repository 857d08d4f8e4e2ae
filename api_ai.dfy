/** api/ai.ts: the serverless proxy in front of Gemini. It picks a prompt
    for the requested action, calls the model with up to two attempts and a
    linear backoff, cuts the JSON object out of the model's text and chooses
    the HTTP status of the reply.

    The request is given as its method, the configured key and its body;
    the model's answers are the parameter `gemini`, where `gemini(prompt)(k)`
    is what the k-th call with that prompt did.

    String literals are written as concatenations of short pieces, which
    keeps their verification cheap; each concatenation spells the source's
    string exactly. */
module ApiAi {
  import opened Wrappers
  import opened Text
  import opened Retry

  // ------------------------------------------------------------- prompts

  const RANDOM_TOPIC_LINES: seq<string> := [
    "Return JSON " + "only with " + "one field: " + "topic.",
    "Provide a " + "single " + "debate " + "topic that " + "is safe, " +
      "non-violent, " + "and not " + "hateful.",
    "Make it " + "quick and " + "relevant to " + "current " + "global " +
      "events or " + "trending " + "public " + "issues.",
    "Keep it " + "concise and " + "suitable " + "for a fun " + "debate " +
      "stage.",
    "Output format:",
    "{\"topic\":\"...\"}"
  ]

  const FRAMING_LINES: seq<string> := [
    "Return JSON " + "only with " + "three " + "fields: " + "topic, " +
      "proHeadline, " + "conHeadline.",
    "Create " + "compelling, " + "concise " + "headlines " + "for both " +
      "PRO and CON " + "positions.",
    "Headlines " + "should be " + "5-10 words " + "max.",
    "Output format:",
    "{\"topic\":" + "\"...\"," + "\"proHeadline\":" + "\"...\"," + "\"conHeadline\":" + "\"...\"}"
  ]

  const DEBATE_LINES: seq<string> := [
    "Return JSON " + "only with " + "these " + "fields: " + "topic, " +
      "proHeadline, " + "conHeadline, " + "rounds.",
    "Rounds is " + "an array of " + "6 debate " + "round " + "objects " +
      "(alternate " + "PRO/CON).",
    "Each round: " + "{round, " + "speaker, " + "headline, " + "argument, " +
      "data_points, " + "logic_score, " + "emotion_score, " + "rebuttal_strength}",
    "Scores: " + "0-100. " + "data_points: " + "list of 2-3 " + "key points.",
    "Output format:",
    "{\"topic\":" + "\"...\"," + "\"proHeadline\":" + "\"...\"," + "\"conHeadline\":" + "\"...\"," +
      "\"rounds\":" + "[...]}"
  ]

  const RANDOM_TOPIC: string := "random_" + "topic"
  const GENERATE_FRAMING: string := "generate_" + "framing"
  const GENERATE_DEBATE: string := "generate_" + "debate"

  /** `${topic}` of an optional topic: an absent one renders as "undefined". */
  function TopicText(topic: Option<string>): string {
    match topic
    case Some(t) => t
    case None => "undefined"
  }

  /** `buildPrompt(action, topic)`: the three prompts, the debate one being
      the default for every other action. */
  function BuildPrompt(action: string, topic: Option<string>): (r: string)
    ensures action != RANDOM_TOPIC ==> ("Topic: " + TopicText(topic) + "\n") <= r
  {
    if action == RANDOM_TOPIC then Join(RANDOM_TOPIC_LINES, "\n")
    else
      var first := "Topic: " + TopicText(topic);
      var rest := if action == GENERATE_FRAMING then FRAMING_LINES else DEBATE_LINES;
      JoinCons(first, rest, "\n");
      Join([first] + rest, "\n")
  }

  /** The random-topic prompt does not mention the topic. */
  lemma RandomTopicPromptIgnoresTopic(t1: Option<string>, t2: Option<string>)
    ensures BuildPrompt(RANDOM_TOPIC, t1) == BuildPrompt(RANDOM_TOPIC, t2)
  {
  }

  /** The framing and debate prompts open with the topic line. */
  lemma PromptsOpenWithTopic(action: string, topic: Option<string>)
    requires action != RANDOM_TOPIC
    ensures ("Topic: " + TopicText(topic) + "\n") <= BuildPrompt(action, topic)
  {
  }

  /** Every action other than the two named ones is answered with the debate
      prompt. */
  lemma OtherActionsGetDebatePrompt(action: string, topic: Option<string>)
    requires action != RANDOM_TOPIC && action != GENERATE_FRAMING
    ensures BuildPrompt(action, topic) == BuildPrompt(GENERATE_DEBATE, topic)
  {
    assert |GENERATE_DEBATE| != |RANDOM_TOPIC| && |GENERATE_DEBATE| != |GENERATE_FRAMING|;
  }

  // -------------------------------------------------------- extractJson

  /** The `throw new Error('No JSON object found')` of `extractJson`. */
  datatype JsonError = NoJsonObject

  /** `extractJson(text)` up to `JSON.parse`: the text from the first `{` to
      the last `}`, both included. */
  function ExtractJson(text: string): (r: Result<string, JsonError>)
    ensures r.Failure? <==> '{' !in text || '}' !in text || LastIndexOf(text, '}') <= IndexOf(text, '{')
    ensures r.Success? ==>
              var start := IndexOf(text, '{');
              var end := LastIndexOf(text, '}');
              0 <= start < end < |text| && r.value == text[start..end + 1] &&
              r.value[0] == '{' && r.value[|r.value| - 1] == '}' &&
              '{' !in text[..start] && '}' !in text[end + 1..]
  {
    var start := IndexOf(text, '{');
    var end := LastIndexOf(text, '}');
    if start == -1 || end == -1 || end <= start then Failure(NoJsonObject)
    else Success(text[start..end + 1])
  }

  /** The partner of `ExtractJson`: an object with `{` first and `}` last,
      framed by text with no `{` before it and no `}` after it, is cut out
      exactly. */
  lemma ExtractJsonFindsFramedObject(before: string, obj: string, after: string)
    requires |obj| >= 2 && obj[0] == '{' && obj[|obj| - 1] == '}'
    requires '{' !in before && '}' !in after
    ensures ExtractJson(before + obj + after) == Success(obj)
  {
    var text := before + obj + after;
    var start := IndexOf(text, '{');
    var end := LastIndexOf(text, '}');
    assert text[..|before|] == before;
    assert text[|before| + |obj|..] == after;
    assert text[|before|] == '{';
    assert text[|before| + |obj| - 1] == '}';
    assert start == |before|;
    assert end == |before| + |obj| - 1;
    assert text[start..end + 1] == obj;
  }

  // --------------------------------------------------- callGeminiWithRetry

  const RETRY_DELAY_MS: int := 1000

  /** `callGeminiWithRetry(prompt, apiKey, model, attempts)`: the retry loop
      with a 1000 ms base delay. */
  method CallGeminiWithRetry(gemini: nat -> Attempt<string, string>, attempts: int)
    returns (result: Result<string, RetryError<string>>, calls: nat, waits: seq<int>)
    ensures calls <= Max0(attempts) && FailedThrough(gemini, calls - 1)
    ensures result.Failure? <==> FailedThrough(gemini, attempts)
    ensures result.Success? ==>
              calls >= 1 && gemini(calls) == Resolved(result.value) && waits == Backoff(RETRY_DELAY_MS, calls - 1)
    ensures attempts == 2 && result.Failure? ==>
              calls == 2 && waits == [1000] && result.error == LastError(gemini(2).error)
  {
    result, calls, waits := WithRetry(gemini, attempts, RETRY_DELAY_MS);
    if attempts == 2 && result.Failure? {
      assert waits == Backoff(1000, 1);
    }
  }

  // ------------------------------------------------------------- handler

  /** `{ action?, topic? }`. */
  datatype Payload = Payload(action: Option<string>, topic: Option<string>)

  /** What `JSON.parse` makes of a string body: it throws (and `payload`
      keeps its initial `{}`), it yields `null`, or it yields a value whose
      `action` and `topic` fields are read. */
  datatype Parsed = ParseFailed | ParsedNull | ParsedValue(payload: Payload)

  /** `req.body` as Vercel hands it over: a string still to be parsed (with
      what `JSON.parse` made of it), an object, or nothing. */
  datatype RequestBody = TextBody(parsed: Parsed) | ObjectBody(payload: Payload) | NoBody

  /** The payload the handler works with; a missing body is read as `{}`. */
  function PayloadOf(body: RequestBody): (r: Parsed)
    ensures body.TextBody? ==> r == body.parsed
    ensures !body.TextBody? ==> r.ParsedValue?
  {
    match body
    case TextBody(parsed) => parsed
    case ObjectBody(p) => ParsedValue(p)
    case NoBody => ParsedValue(Payload(None, None))
  }

  /** `payload.action || 'generate_debate'`. */
  function ActionOf(p: Payload): (a: string)
    ensures p.action.None? || p.action == Some("") ==> a == GENERATE_DEBATE
    ensures p.action.Some? && p.action.value != "" ==> a == p.action.value
  {
    match p.action
    case Some(a) => if a != "" then a else GENERATE_DEBATE
    case None => GENERATE_DEBATE
  }

  /** The three error replies. */
  datatype ApiError = MethodNotAllowed | MissingApiKey | AiRequestFailed

  function ErrorMessage(e: ApiError): string {
    match e
    case MethodNotAllowed => "Method " + "Not Allowed"
    case MissingApiKey => "Server " + "configuration " + "error: " + "Missing API " + "key"
    case AiRequestFailed => "AI request " + "failed. " + "Please try " + "again."
  }

  datatype ReplyBody = EmptyBody | ErrorBody(error: ApiError) | JsonBody(json: string)

  /** A reply sent with a status and a body, or none at all: when the body
      parses to `null`, reading `payload.action` throws in the `try` and again
      in the `catch`, so the handler rejects before anything is sent. */
  datatype Reply = Reply(status: int, body: ReplyBody) | NoReply

  /** The reply once the model answered with `text`; `parses(json)` says
      whether `JSON.parse` accepts the cut-out object. */
  function ReplyTo(text: string, parses: string -> bool): (r: Reply)
    ensures r.Reply?
    ensures r.status == 200 <==> ExtractJson(text).Success? && parses(ExtractJson(text).value)
    ensures r.status == 200 ==> r.body == JsonBody(ExtractJson(text).value)
    ensures r.status != 200 ==> r == Reply(502, ErrorBody(AiRequestFailed))
  {
    match ExtractJson(text)
    case Success(json) => if parses(json) then Reply(200, JsonBody(json)) else Reply(502, ErrorBody(AiRequestFailed))
    case Failure(_) => Reply(502, ErrorBody(AiRequestFailed))
  }

  /** `handler(req, res)`: the early returns for preflight, wrong method and
      missing key, then the proxied call, where any failure becomes a 502,
      except a body that parses to `null`, which leaves the request without a
      reply. */
  method Handler(httpMethod: string, apiKey: Option<string>, body: RequestBody,
                 gemini: string -> nat -> Attempt<string, string>, parses: string -> bool)
    returns (reply: Reply)
    ensures httpMethod == "OPTIONS" ==> reply == Reply(200, EmptyBody)
    ensures httpMethod != "OPTIONS" && httpMethod != "POST" ==> reply == Reply(405, ErrorBody(MethodNotAllowed))
    ensures httpMethod == "POST" && apiKey.GetOr("") == "" ==> reply == Reply(500, ErrorBody(MissingApiKey))
    ensures httpMethod == "POST" && apiKey.GetOr("") != "" && !PayloadOf(body).ParsedNull? ==>
              reply.Reply? && (reply.status == 200 || reply.status == 502)
    ensures httpMethod == "POST" && apiKey.GetOr("") != "" && PayloadOf(body).ParseFailed? ==>
              reply == Reply(502, ErrorBody(AiRequestFailed))
    ensures httpMethod == "POST" && apiKey.GetOr("") != "" && PayloadOf(body).ParsedNull? ==> reply == NoReply
    ensures reply == NoReply <==> httpMethod == "POST" && apiKey.GetOr("") != "" && PayloadOf(body).ParsedNull?
    ensures httpMethod == "POST" && apiKey.GetOr("") != "" && PayloadOf(body).ParsedValue? ==>
              var p := PayloadOf(body).payload;
              var call := gemini(BuildPrompt(ActionOf(p), p.topic));
              (FailedThrough(call, 2) ==> reply == Reply(502, ErrorBody(AiRequestFailed))) &&
              (!FailedThrough(call, 2) ==>
                 exists k :: 1 <= k <= 2 && FailedThrough(call, k - 1) && call(k).Resolved? &&
                             reply == ReplyTo(call(k).value, parses))
  {
    if httpMethod == "OPTIONS" {
      return Reply(200, EmptyBody);
    }
    if httpMethod != "POST" {
      return Reply(405, ErrorBody(MethodNotAllowed));
    }
    var key := apiKey.GetOr("");
    if key == "" {
      return Reply(500, ErrorBody(MissingApiKey));
    }
    var payload := PayloadOf(body);
    if payload.ParseFailed? {
      return Reply(502, ErrorBody(AiRequestFailed));
    }
    if payload.ParsedNull? {
      return NoReply;
    }
    var p := payload.payload;
    var prompt := BuildPrompt(ActionOf(p), p.topic);
    var text, calls, waits := CallGeminiWithRetry(gemini(prompt), 2);
    if text.Failure? {
      return Reply(502, ErrorBody(AiRequestFailed));
    }
    reply := ReplyTo(text.value, parses);
  }
}
