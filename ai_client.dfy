/** src/engine/aiClient.ts: turning an untrusted AI reply into typed rounds and
    headlines, and the three fetch operations built on the retry loop.

    The reply arrives as parsed JSON of unknown shape. It is represented here
    by datatypes whose fields record only what the normaliser can observe:
    absent/`null` versus present, string versus non-string, array versus not,
    and for numbers the value that `Number(...)` yields. */
module AiClient {
  import opened Wrappers
  import opened Text
  import opened Rounds
  import opened Scoring
  import opened Retry

  /** A numeric field of the reply. `Missing` is absent or `null` (so `?? 60`
      applies, and `typeof` is not 'number'); `Num` is an integral number;
      `NaN` is what `Number(...)` makes of a non-numeric value. */
  datatype RawNumber = Missing | Num(n: int) | NaN

  /** One element of a `data_points` array. */
  datatype RawItem = Str(s: string) | NonString

  /** One element of the reply's `rounds` array. A non-null primitive element
      behaves like an object with every field absent. */
  datatype RawRound = RawRound(
    round: RawNumber,
    speaker: Option<string>,
    headline: Option<string>,
    argument: Option<string>,
    dataPoints: Option<seq<RawItem>>,
    emotionScore: RawNumber,
    logicScore: RawNumber,
    rebuttalStrength: RawNumber,
    totalScore: RawNumber)

  /** A `null` element makes `raw.speaker` throw a TypeError. */
  datatype RawEntry = NullEntry | Entry(fields: RawRound)

  /** A reply field read without a type check: absent (`undefined` or
      `null`), a string, or another JSON value, truthy or not. */
  datatype RawField = Absent | Text(s: string) | NonText(truthy: bool)

  /** A reply to `generate_debate`, once known to be truthy. */
  datatype RawDebate = RawDebate(
    topic: RawField,
    proHeadline: Option<string>,
    conHeadline: Option<string>,
    rounds: Option<seq<RawEntry>>)

  /** A reply to `generate_framing`, once known to be truthy. */
  datatype RawFraming = RawFraming(
    topic: Option<string>,
    proHeadline: Option<string>,
    conHeadline: Option<string>)

  /** A reply to `random_topic`, once known to be truthy. */
  datatype RawTopic = RawTopic(topic: Option<string>)

  /** The topic is whatever `data.topic ?? ''` gave, so never `Absent`. */
  datatype AiDebateResponse = AiDebateResponse(
    topic: RawField, proHeadline: string, conHeadline: string, rounds: seq<RoundData>)

  datatype AiFramingResponse = AiFramingResponse(
    topic: string, proHeadline: string, conHeadline: string)

  datatype AiError =
    | MissingDebateData        // 'AI response missing debate data.'
    | RoundNotAnObject         // the TypeError from reading a field of null
    | NotEnoughRounds          // 'AI response did not provide enough rounds.'
    | MissingFramingData       // 'AI response missing framing data.'
    | MissingTopic             // 'AI response missing topic.'
    | RequestFailed(cause: RetryError<string>)

  /** A JavaScript number as far as the clamping sees it. */
  datatype JsNumber = Finite(n: int) | NotANumber

  // ------------------------------------------------------------- clampScore

  /** `clampScore(value, min = 0, max = 100)`. */
  function ClampScore(value: JsNumber, min: int := 0, max: int := 100): (r: int)
    ensures value.NotANumber? ==> r == min
    ensures min <= max ==> min <= r <= max
    ensures value.Finite? && min <= value.n <= max ==> r == value.n
    ensures value.Finite? && value.n < min ==> r == (if min <= max then min else max)
    ensures value.Finite? && value.n > max ==> r == max
  {
    match value
    case NotANumber => min
    case Finite(v) =>
      var lifted := if v > min then v else min;
      if max < lifted then max else lifted
  }

  /** `Number(raw ?? 60)`: an absent score reads as 60. */
  function ScoreInput(raw: RawNumber): (v: JsNumber)
    ensures raw.Missing? ==> v == Finite(60)
    ensures raw.Num? ==> v == Finite(raw.n)
    ensures raw.NaN? ==> v.NotANumber?
  {
    match raw
    case Missing => Finite(60)
    case Num(n) => Finite(n)
    case NaN => NotANumber
  }

  // --------------------------------------------------------- normalizeRound

  /** `raw.data_points.filter(p => typeof p === 'string')`. */
  function StringsOf(items: seq<RawItem>): (r: seq<string>)
    ensures |r| <= |items|
    ensures forall s :: s in r ==> Str(s) in items
    ensures forall i :: 0 <= i < |items| && items[i].Str? ==> items[i].s in r
  {
    if items == [] then []
    else
      var rest := StringsOf(items[1..]);
      assert forall i :: 1 <= i < |items| ==> items[i] == items[1..][i - 1];
      Kept(items[0]) + rest
  }

  /** On one entry it keeps exactly a string; with `StringsOfAppend` this
      pins the filter: every string entry kept, in order. */
  lemma StringsOfSingleton(item: RawItem)
    ensures StringsOf([item]) == (if item.Str? then [item.s] else [])
  {
    assert [item][1..] == [];
  }

  function Kept(item: RawItem): seq<string> {
    if item.Str? then [item.s] else []
  }

  /** The filter keeps the string entries in their original order. */
  lemma {:induction false} StringsOfAppend(a: seq<RawItem>, b: seq<RawItem>)
    ensures StringsOf(a + b) == StringsOf(a) + StringsOf(b)
  {
    if a == [] {
      assert a + b == b;
    } else {
      calc {
        StringsOf(a + b);
        Kept(a[0]) + StringsOf((a + b)[1..]);
        { assert (a + b)[1..] == a[1..] + b; }
        Kept(a[0]) + StringsOf(a[1..] + b);
        { StringsOfAppend(a[1..], b); }
        Kept(a[0]) + (StringsOf(a[1..]) + StringsOf(b));
      }
    }
  }

  /** The stage number: a raw number in 1..3 is kept, anything else becomes
      the position-derived stage `floor(index / 2) + 1`. */
  function RoundNumber(raw: RawNumber, index: nat): (n: int)
    ensures n >= 1
    ensures raw.Num? && 1 <= raw.n <= 3 ==> n == raw.n
    ensures !(raw.Num? && 1 <= raw.n <= 3) ==> n == index / 2 + 1
  {
    if raw.Num? && raw.n >= 1 && raw.n <= 3 then raw.n else index / 2 + 1
  }

  const NO_ARGUMENT: string := "No argument provided."

  function DefaultHeadline(round: int, speaker: Speaker): string {
    "ROUND " + IntToString(round) + ": " + SpeakerName(speaker) + " STATEMENT"
  }

  /** `normalizeRound(raw, index)`. */
  function NormalizeRound(raw: RawRound, index: nat): (r: RoundData)
    ensures r.speaker == Con <==> raw.speaker == Some("CON")
    ensures r.round >= 1 && r.round == RoundNumber(raw.round, index)
    ensures r.argument == raw.argument.GetOr(NO_ARGUMENT)
    ensures r.headline == raw.headline.GetOr(DefaultHeadline(r.round, r.speaker))
    ensures r.dataPoints == (if raw.dataPoints.Some? then StringsOf(raw.dataPoints.value) else [])
    ensures 0 <= r.logicScore <= 100 && 0 <= r.emotionScore <= 100 && 0 <= r.rebuttalStrength <= 100
    ensures raw.logicScore.Missing? ==> r.logicScore == 60
    ensures raw.emotionScore.Missing? ==> r.emotionScore == 60
    ensures raw.rebuttalStrength.Missing? ==> r.rebuttalStrength == 60
    ensures r.logicScore == ClampScore(ScoreInput(raw.logicScore))
    ensures r.emotionScore == ClampScore(ScoreInput(raw.emotionScore))
    ensures r.rebuttalStrength == ClampScore(ScoreInput(raw.rebuttalStrength))
    ensures r.totalScore == CalculateScore(r.argument, r.logicScore, r.emotionScore, r.rebuttalStrength)
  {
    var speaker := if raw.speaker == Some("CON") then Con else Pro;
    var round := RoundNumber(raw.round, index);
    var argument := if raw.argument.Some? then raw.argument.value else NO_ARGUMENT;
    var headline := if raw.headline.Some? then raw.headline.value else DefaultHeadline(round, speaker);
    var dataPoints := if raw.dataPoints.Some? then StringsOf(raw.dataPoints.value) else [];
    var logic := ClampScore(ScoreInput(raw.logicScore));
    var emotion := ClampScore(ScoreInput(raw.emotionScore));
    var rebuttal := ClampScore(ScoreInput(raw.rebuttalStrength));
    Complete(Draft(round, speaker, headline, argument, dataPoints, emotion, logic, rebuttal))
  }

  /** The reply's own `total_score` is never read: it cannot change the result. */
  lemma ReplyTotalIgnored(raw: RawRound, index: nat, claimed: RawNumber)
    ensures NormalizeRound(raw.(totalScore := claimed), index) == NormalizeRound(raw, index)
  {
  }

  // --------------------------------------------------- ensureDebateResponse

  predicate Truthy(s: Option<string>) {
    s.Some? && s.value != ""
  }

  predicate AllObjects(entries: seq<RawEntry>) {
    forall i :: 0 <= i < |entries| ==> entries[i].Entry?
  }

  /** `rounds.map((round, index) => normalizeRound(round, index))`. */
  function NormalizeRounds(entries: seq<RawEntry>): (r: seq<RoundData>)
    requires AllObjects(entries)
    ensures |r| == |entries|
    ensures forall i :: 0 <= i < |r| ==> r[i] == NormalizeRound(entries[i].fields, i)
  {
    seq(|entries|, i requires 0 <= i < |entries| => NormalizeRound(entries[i].fields, i))
  }

  /** `ensureDebateResponse(raw)`, where `None` is a falsy reply. */
  function EnsureDebateResponse(raw: Option<RawDebate>): (r: Result<AiDebateResponse, AiError>)
    ensures r.Success? <==>
      raw.Some? && Truthy(raw.value.proHeadline) && Truthy(raw.value.conHeadline) &&
      raw.value.rounds.Some? && AllObjects(raw.value.rounds.value) && |raw.value.rounds.value| >= 2
    ensures r.Success? ==>
      r.value.topic == (if raw.value.topic.Absent? then Text("") else raw.value.topic) &&
      r.value.proHeadline == raw.value.proHeadline.value &&
      r.value.conHeadline == raw.value.conHeadline.value &&
      |r.value.rounds| == |raw.value.rounds.value| >= 2 &&
      forall i :: 0 <= i < |r.value.rounds| ==>
        r.value.rounds[i] == NormalizeRound(raw.value.rounds.value[i].fields, i)
    ensures r == Failure(MissingDebateData) <==>
      raw.None? || !Truthy(raw.value.proHeadline) || !Truthy(raw.value.conHeadline) || raw.value.rounds.None?
    ensures r == Failure(RoundNotAnObject) <==>
      r != Failure(MissingDebateData) && raw.value.rounds.Some? && !AllObjects(raw.value.rounds.value)
    ensures r == Failure(NotEnoughRounds) <==>
      r != Failure(MissingDebateData) && raw.value.rounds.Some? && AllObjects(raw.value.rounds.value) &&
      |raw.value.rounds.value| < 2
  {
    if raw.None? || !Truthy(raw.value.proHeadline) || !Truthy(raw.value.conHeadline) || raw.value.rounds.None? then
      Failure(MissingDebateData)
    else
      var data := raw.value;
      var entries := data.rounds.value;
      if !AllObjects(entries) then Failure(RoundNotAnObject)
      else
        var rounds := NormalizeRounds(entries);
        if |rounds| < 2 then Failure(NotEnoughRounds)
        else Success(AiDebateResponse(if data.topic.Absent? then Text("") else data.topic, data.proHeadline.value, data.conHeadline.value, rounds))
  }

  /** Every accepted debate carries rounds whose scores are the local formula
      over clamped sub-scores, whatever the reply claimed. */
  lemma AcceptedRoundsAreRescored(raw: Option<RawDebate>)
    requires EnsureDebateResponse(raw).Success?
    ensures forall rd :: rd in EnsureDebateResponse(raw).value.rounds ==>
      0 <= rd.logicScore <= 100 && 0 <= rd.emotionScore <= 100 && 0 <= rd.rebuttalStrength <= 100 &&
      rd.round >= 1 &&
      rd.totalScore == CalculateScore(rd.argument, rd.logicScore, rd.emotionScore, rd.rebuttalStrength)
  {
    var rounds := EnsureDebateResponse(raw).value.rounds;
    forall rd | rd in rounds
      ensures 0 <= rd.logicScore <= 100 && 0 <= rd.emotionScore <= 100 && 0 <= rd.rebuttalStrength <= 100
      ensures rd.round >= 1
      ensures rd.totalScore == CalculateScore(rd.argument, rd.logicScore, rd.emotionScore, rd.rebuttalStrength)
    {
      var i :| 0 <= i < |rounds| && rounds[i] == rd;
      assert rd == NormalizeRound(raw.value.rounds.value[i].fields, i);
    }
  }

  // -------------------------------------------------- ensureFramingResponse

  /** `ensureFramingResponse(raw, fallbackTopic)`. */
  function EnsureFramingResponse(raw: Option<RawFraming>, fallbackTopic: string): (r: Result<AiFramingResponse, AiError>)
    ensures r.Success? <==> raw.Some? && Truthy(raw.value.proHeadline) && Truthy(raw.value.conHeadline)
    ensures r.Failure? ==> r.error == MissingFramingData
    ensures r.Success? ==>
      r.value == AiFramingResponse(raw.value.topic.GetOr(fallbackTopic),
                                   raw.value.proHeadline.value, raw.value.conHeadline.value)
  {
    if raw.None? || !Truthy(raw.value.proHeadline) || !Truthy(raw.value.conHeadline) then
      Failure(MissingFramingData)
    else
      Success(AiFramingResponse(raw.value.topic.GetOr(fallbackTopic),
                                raw.value.proHeadline.value, raw.value.conHeadline.value))
  }

  /** The check in `fetchAiRandomTopic`: a non-empty string topic. */
  function CheckRandomTopic(raw: Option<RawTopic>): (r: Result<string, AiError>)
    ensures r.Success? <==> raw.Some? && Truthy(raw.value.topic)
    ensures r.Success? ==> r.value == raw.value.topic.value && r.value != ""
    ensures r.Failure? ==> r.error == MissingTopic
  {
    if raw.Some? && Truthy(raw.value.topic) then Success(raw.value.topic.value) else Failure(MissingTopic)
  }

  // ----------------------------------------------------- the fetch operations

  datatype RetryOptions = RetryOptions(attempts: Option<int>, delayMs: Option<int>)

  const DEFAULT_ATTEMPTS: int := 3
  const DEFAULT_DELAY_MS: int := 500

  /** `postAiWithRetry(payload, options)`: the retry loop with the client's
      defaults of 3 attempts and 500 ms. `call(k)` is what the k-th POST did. */
  method PostAiWithRetry<T>(call: nat -> Attempt<T, string>, options: RetryOptions)
    returns (result: Result<T, RetryError<string>>, calls: nat, waits: seq<int>)
    ensures calls <= Max0(options.attempts.GetOr(DEFAULT_ATTEMPTS))
    ensures FailedThrough(call, calls - 1)
    ensures result.Failure? <==> FailedThrough(call, options.attempts.GetOr(DEFAULT_ATTEMPTS))
    ensures result.Success? ==>
              calls >= 1 && call(calls) == Resolved(result.value) &&
              waits == Backoff(options.delayMs.GetOr(DEFAULT_DELAY_MS), calls - 1)
    ensures options == RetryOptions(None, None) && result.Failure? ==>
              calls == 3 && waits == [500, 1000] && result.error == LastError(call(3).error)
  {
    var attempts := options.attempts.GetOr(DEFAULT_ATTEMPTS);
    var delayMs := options.delayMs.GetOr(DEFAULT_DELAY_MS);
    result, calls, waits := WithRetry(call, attempts, delayMs);
    if options == RetryOptions(None, None) && result.Failure? {
      assert waits == Backoff(500, 2);
    }
  }

  /** `fetchAiDebate(topic, options)`: retried POST, then validation. */
  method FetchAiDebate(call: nat -> Attempt<Option<RawDebate>, string>, options: RetryOptions)
    returns (r: Result<AiDebateResponse, AiError>)
    ensures r.Failure? && r.error.RequestFailed? <==> FailedThrough(call, options.attempts.GetOr(DEFAULT_ATTEMPTS))
    ensures !(r.Failure? && r.error.RequestFailed?) ==>
              exists k :: 1 <= k && FailedThrough(call, k - 1) && call(k).Resolved? &&
                          r == EnsureDebateResponse(call(k).value)
  {
    var reply, calls, waits := PostAiWithRetry(call, options);
    if reply.Failure? {
      r := Failure(RequestFailed(reply.error));
    } else {
      r := EnsureDebateResponse(reply.value);
      assert call(calls).Resolved? && FailedThrough(call, calls - 1);
    }
  }

  /** `fetchAiFraming(topic, options)`: a missing topic in the reply falls
      back to the requested one. */
  method FetchAiFraming(topic: string, call: nat -> Attempt<Option<RawFraming>, string>, options: RetryOptions)
    returns (r: Result<AiFramingResponse, AiError>)
    ensures r.Failure? && r.error.RequestFailed? <==> FailedThrough(call, options.attempts.GetOr(DEFAULT_ATTEMPTS))
    ensures !(r.Failure? && r.error.RequestFailed?) ==>
              exists k :: 1 <= k && FailedThrough(call, k - 1) && call(k).Resolved? &&
                          r == EnsureFramingResponse(call(k).value, topic)
  {
    var reply, calls, waits := PostAiWithRetry(call, options);
    if reply.Failure? {
      r := Failure(RequestFailed(reply.error));
    } else {
      r := EnsureFramingResponse(reply.value, topic);
      assert call(calls).Resolved? && FailedThrough(call, calls - 1);
    }
  }

  /** `fetchAiRandomTopic()`: default retry options, then the topic check. */
  method FetchAiRandomTopic(call: nat -> Attempt<Option<RawTopic>, string>)
    returns (r: Result<string, AiError>)
    ensures r.Failure? && r.error.RequestFailed? <==> FailedThrough(call, DEFAULT_ATTEMPTS)
    ensures r.Success? ==>
              r.value != "" &&
              exists k :: 1 <= k <= DEFAULT_ATTEMPTS && FailedThrough(call, k - 1) && call(k).Resolved? &&
                          call(k).value.Some? && call(k).value.value.topic == Some(r.value)
    ensures !(r.Failure? && r.error.RequestFailed?) ==>
              exists k :: 1 <= k <= DEFAULT_ATTEMPTS && FailedThrough(call, k - 1) && call(k).Resolved? &&
                          r == CheckRandomTopic(call(k).value)
  {
    var reply, calls, waits := PostAiWithRetry(call, RetryOptions(None, None));
    if reply.Failure? {
      r := Failure(RequestFailed(reply.error));
    } else {
      r := CheckRandomTopic(reply.value);
      assert call(calls).Resolved? && FailedThrough(call, calls - 1);
    }
  }
}
