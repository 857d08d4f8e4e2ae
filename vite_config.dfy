/** The development proxy in vite.config.ts: the same `/api/ai` endpoint as
    api/ai.ts, served by Vite's middleware with its own prompts, one model
    call and no retry, and plain-text error replies with status 500.

    Reading the request body is left out; the body arrives as a string.
    `JSON.parse` and the model call, which can throw, are parameters whose
    outcome is an `Attempt`.

    String literals are written as concatenations of short pieces, which
    keeps their verification cheap; each concatenation spells the source's
    string exactly. */
module ViteProxy {
  import opened Wrappers
  import opened Text
  import opened Retry
  import Api = ApiAi

  // ------------------------------------------------------------- prompts

  const RANDOM_TOPIC_LINES: seq<string> := [
    "Return JSON " + "only with " + "one field: " + "topic.",
    "Provide a " + "single " + "debate " + "topic that " + "is safe, " +
      "non-violent, " + "and not " + "hateful.",
    "Keep it " + "concise and " + "suitable " + "for a fun " + "debate " +
      "stage.",
    "Output format:",
    "{\"topic\":\"...\"}"
  ]

  const DEBATE_LINES: seq<string> := [
    "You are " + "generating " + "structured " + "debate " + "content.",
    "Return JSON " + "only with " + "fields: " + "topic, " + "proHeadline, " +
      "conHeadline, " + "rounds.",
    "rounds must " + "be an array " + "of 10 items " + "(5 rounds x " + "2 speakers).",
    "Each round " + "item " + "fields: " + "round (1-5), " + "speaker (PRO " +
      "or CON), " + "headline, " + "argument, " + "data_points " + "(string " +
      "array), " + "emotion_" + "score " + "(0-100), " + "logic_score " +
      "(0-100), " + "rebuttal_" + "strength " + "(0-100).",
    "Keep the " + "content " + "safe, " + "non-violent, " + "and not " + "hateful."
  ]

  /** `buildPrompt(action, topic)`: the random-topic prompt, or the debate
      prompt closing with `Topic: ${topic ?? ''}` for every other action. */
  function BuildPrompt(action: string, topic: Option<string>): (r: string)
    ensures action != Api.RANDOM_TOPIC ==> r == Join(DEBATE_LINES, "\n") + "\n" + "Topic: " + topic.GetOr("")
  {
    if action == Api.RANDOM_TOPIC then Join(RANDOM_TOPIC_LINES, "\n")
    else
      JoinSnoc(DEBATE_LINES, "Topic: " + topic.GetOr(""), "\n");
      Join(DEBATE_LINES + ["Topic: " + topic.GetOr("")], "\n")
  }

  /** The random-topic prompt does not mention the topic. */
  lemma RandomTopicPromptIgnoresTopic(t1: Option<string>, t2: Option<string>)
    ensures BuildPrompt(Api.RANDOM_TOPIC, t1) == BuildPrompt(Api.RANDOM_TOPIC, t2)
  {
  }

  /** Every other action gets the fixed debate instructions followed by the
      topic line, an absent topic giving an empty one. */
  lemma DebatePromptEndsWithTopic(action: string, topic: Option<string>)
    requires action != Api.RANDOM_TOPIC
    ensures BuildPrompt(action, topic) == Join(DEBATE_LINES, "\n") + "\n" + "Topic: " + topic.GetOr("")
    ensures topic.None? ==> BuildPrompt(action, topic) == Join(DEBATE_LINES, "\n") + "\n" + "Topic: "
  {
  }

  // ---------------------------------------------------------- middleware

  /** `body || '{}'`: an empty body is read as the empty object. */
  function BodyText(body: string): (r: string)
    ensures body == "" ==> r == "{}"
    ensures body != "" ==> r == body
  {
    if body == "" then "{" + "}" else body
  }

  /** What the middleware writes: a status, whether the JSON content type
      was set, and the text sent. */
  datatype Reply = Reply(status: int, isJson: bool, text: string)

  const NO_JSON_MESSAGE: string := "No JSON " + "object found"
  const MISSING_KEY_MESSAGE: string := "Missing " + "GEMINI_" + "API_KEY"

  /** `(error as Error).message || 'AI proxy failed'`. */
  function ErrorText(message: string): (r: string)
    ensures r != ""
    ensures message != "" ==> r == message
  {
    if message != "" then message else "AI proxy " + "failed"
  }

  function Failed(message: string): (r: Reply)
    ensures r.status == 500 && !r.isJson && r.text != ""
  {
    Reply(500, false, ErrorText(message))
  }

  /** The reply once the model answered with `text`: the extracted object,
      re-serialised, or a 500 carrying the error's message. */
  function ReplyTo(text: string, parseJson: string -> Attempt<string, string>): (r: Reply)
    ensures Api.ExtractJson(text).Failure? ==> r == Failed(NO_JSON_MESSAGE)
    ensures Api.ExtractJson(text).Success? ==>
              var parsed := parseJson(Api.ExtractJson(text).value);
              r == (if parsed.Resolved? then Reply(200, true, parsed.value) else Failed(parsed.error))
  {
    match Api.ExtractJson(text)
    case Failure(_) => Failed(NO_JSON_MESSAGE)
    case Success(jsonText) =>
      match parseJson(jsonText)
      case Resolved(json) => Reply(200, true, json)
      case Threw(message) => Failed(message)
  }

  /** The `/api/ai` middleware. Only POST is served. The body is parsed
      first, so a malformed body is reported before a missing key; the key
      is only looked at when the model is about to be called. */
  function Middleware(httpMethod: string, apiKey: Option<string>, body: string,
                      parseBody: string -> Attempt<Api.Payload, string>,
                      gemini: string -> Attempt<string, string>,
                      parseJson: string -> Attempt<string, string>): (r: Reply)
    ensures httpMethod != "POST" ==> r == Reply(405, false, "Method " + "Not Allowed")
    ensures httpMethod == "POST" && parseBody(BodyText(body)).Threw? ==>
              r == Failed(parseBody(BodyText(body)).error)
    ensures httpMethod == "POST" && parseBody(BodyText(body)).Resolved? ==>
              var p := parseBody(BodyText(body)).value;
              var answer := gemini(BuildPrompt(Api.ActionOf(p), p.topic));
              r == if apiKey.GetOr("") == "" then Failed(MISSING_KEY_MESSAGE)
                   else if answer.Threw? then Failed(answer.error)
                   else ReplyTo(answer.value, parseJson)
    ensures r.status == 200 || r.status == 405 || r.status == 500
    ensures r.isJson <==> r.status == 200
  {
    if httpMethod != "POST" then Reply(405, false, "Method " + "Not Allowed")
    else
      match parseBody(BodyText(body))
      case Threw(message) => Failed(message)
      case Resolved(p) =>
        if apiKey.GetOr("") == "" then Failed(MISSING_KEY_MESSAGE)
        else
          match gemini(BuildPrompt(Api.ActionOf(p), p.topic))
          case Threw(message) => Failed(message)
          case Resolved(text) => ReplyTo(text, parseJson)
  }

  /** An empty request body is served exactly as the body `{}`. */
  lemma EmptyBodyIsEmptyObject(httpMethod: string, apiKey: Option<string>,
                                parseBody: string -> Attempt<Api.Payload, string>,
                                gemini: string -> Attempt<string, string>,
                                parseJson: string -> Attempt<string, string>)
    ensures Middleware(httpMethod, apiKey, "", parseBody, gemini, parseJson) ==
            Middleware(httpMethod, apiKey, "{}", parseBody, gemini, parseJson)
  {
  }

  /** A body without an action is answered with the debate prompt. */
  lemma MissingActionGetsDebatePrompt(p: Api.Payload)
    requires p.action.None? || p.action == Some("")
    ensures BuildPrompt(Api.ActionOf(p), p.topic) == BuildPrompt(Api.GENERATE_DEBATE, p.topic)
  {
  }

  /** Every error reply carries a non-empty text. */
  lemma ErrorRepliesSaySomething(httpMethod: string, apiKey: Option<string>, body: string,
                                 parseBody: string -> Attempt<Api.Payload, string>,
                                 gemini: string -> Attempt<string, string>,
                                 parseJson: string -> Attempt<string, string>)
    ensures var r := Middleware(httpMethod, apiKey, body, parseBody, gemini, parseJson);
            r.status != 200 ==> r.text != ""
  {
  }
}
