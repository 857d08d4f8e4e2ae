# DebaZ debate pipeline in Dafny

DebaZ stages a two-sided debate on a topic. A topic typed by the user (or a
trending one) passes a safety filter, is framed into a PRO and a CON headline,
and is debated over five stages (opening, rebuttal, evidence, emotional
appeal, closing), one PRO and one CON round each. Rounds come from a Gemini
proxy when it answers and from a local template generator when it does not.
Every round is scored from its word count and three sub-scores, the scores
are totalled per side, the audience can add vote bonuses, and a winner is
declared. The voice services turn each round into an SSML text or a voice
prompt.

This project models that pipeline and proves what each piece promises:

- `wrappers.dfy`, `text.dfy`, `rounds.dfy`, `retry.dfy`: shared pieces.
  These are `Option`/`Result`, the JavaScript string operations the sources
  rely on (`trim`, `split(/\s+/)`, `split(sep)`, `join`, `indexOf`,
  `lastIndexOf`, ASCII case mapping), the round record, and the bounded retry
  loop with linear backoff that `aiClient.ts` and `api/ai.ts` both use.
- `scoring.dfy`: `scoringEngine.ts`, and the `calcTotal` copies in
  `aiClient.ts` and `debateGenerator.ts`.
- `ai_client.dfy`: normalisation of an untrusted AI reply, and the retrying
  fetches.
- `safety_filter.dfy`, `framing_engine.dfy`, `debate_generator.dfy`,
  `rebuttal_analyzer.dfy`: the local content engines.
- `debate_state.dfy`: the session store. It is a class whose fields the
  transitions update in place. Each transition is specified by a function on
  a snapshot of the fields.
- `api_ai.dfy`, `vite_config.dfy`: the two `/api/ai` proxies, the serverless
  one and the development one.
- `google_tts.dfy`, `elevenlabs.dfy`: the text rewriting and prompt building
  of the two voice services.

Randomness is always injected:

- a table index `pick`, a template index `frame`, or a `Draw` record of the
  generator's choices;
- each comes with a precondition giving the range `Math.random` can produce.

Network answers are parameters:

- an `Attempt` per call, a resolved value or a thrown message;
- for the store, a `Result` with the outcome of `fetchAiDebate` or
  `fetchAiRandomTopic`.

Scores are integers: sub-scores are clamped integers, and
`Math.round(w * 0.5 + S)` is modelled with `real` and shown to equal
`S + (w + 1) / 2`.

## Model

| member | source | states |
|---|---|---|
| Text.Trim | src/engine/safetyFilter.ts:67 | The trimmed text is empty exactly when the input is all whitespace; otherwise it starts and ends with a non-space; it is a slice of the input with only whitespace before and after it |
| Text.TrimUnique | src/engine/safetyFilter.ts:67 | Any slice with non-space ends and only whitespace around it is the trimmed text, so the trim is determined |
| Text.SplitWs | src/engine/framingEngine.ts:33 | `split(/\s+/)` yields at least one piece; no piece contains whitespace; only the first and last piece can be empty; the first is non-empty when the text starts with a non-space |
| Text.SplitJoin | src/engine/framingEngine.ts:33-34 | Splitting the single-space join of whitespace-free, inner-non-empty tokens gives back exactly those tokens |
| Text.WordCount | src/engine/scoringEngine.ts:4 | The length of `split(/\s+/)` is at least 1, even for the empty string |
| Text.WordCountIsRunsPlusOne | src/engine/scoringEngine.ts:4 | The word count is the number of maximal whitespace runs plus one |
| Text.SingleWordIffNoSpace | src/engine/safetyFilter.ts:82-83 | `split(/\s+/)` gives one piece exactly when the text contains no whitespace |
| Text.LongerThan | src/engine/debateGenerator.ts:91 | The filter keeps only words longer than n, each taken from the input, and no more words than the input has |
| Text.LongerThanKeepsAll | src/engine/debateGenerator.ts:91 | Every input word longer than n survives the filter |
| Text.LongerThanAppend | src/engine/debateGenerator.ts:91 | Filtering a concatenation concatenates the filtered parts, so the long words keep their order and repeats |
| Text.LongerThanSingleton | src/engine/debateGenerator.ts:91 | One word is kept exactly when it is longer than n |
| Text.Find | src/engine/googleTtsVoiceService.ts:56 | The separator search returns the first position where the separator occurs, or the length when it does not occur |
| Text.SplitOn | src/engine/googleTtsVoiceService.ts:56 | `split(sep)` yields at least one piece |
| Text.JoinSplitOn | src/engine/googleTtsVoiceService.ts:56-61 | Joining the pieces of `split(sep)` with `sep` gives back the text |
| Text.BeforeFirst | src/engine/debateGenerator.ts:91 | `topic.split(' ')[0]`: a prefix without the character, followed by it when shorter than the text |
| Text.IndexOf | api/ai.ts:95 | `indexOf` is -1 exactly when the character is absent; otherwise that character is there and does not occur earlier |
| Text.LastIndexOf | api/ai.ts:96 | `lastIndexOf` is -1 exactly when the character is absent; otherwise that character is there and does not occur later |
| Text.Lower | src/engine/safetyFilter.ts:74 | `toLowerCase` keeps the length and maps each character (ASCII letters only) |
| Text.Upper | src/engine/framingEngine.ts:7 | `toUpperCase` keeps the length and maps each character (ASCII letters only) |
| Text.LowerKeepsSpaces | src/engine/rebuttalAnalyzer.ts:5 | Lower-casing neither creates nor removes whitespace, so it does not change how the text splits |
| Text.IntToString | src/engine/aiClient.ts:71 | The decimal rendering is non-empty and starts with '-' exactly for negative numbers |
| Retry.Backoff | src/engine/aiClient.ts:129-130 | The k-th wait (counting from 1) is `delayMs * k` |
| Retry.WithRetry | src/engine/aiClient.ts:119-136 | At most `attempts` calls; every call before the last one made failed; failure exactly when all `attempts` calls fail, with the last error rethrown (or the generic one when no call was made); on success the value is the first resolved call's, after the waits `delayMs * k` for k before it |
| Scoring.MathRound | src/engine/scoringEngine.ts:10 | `Math.round` gives the integer within half a unit, ties rounding up |
| Scoring.HalfWordsRoundUp | src/engine/scoringEngine.ts:5-10 | Rounding `w * 0.5 + S` gives `S + (w + 1) / 2` |
| Scoring.CalculateScore | src/engine/scoringEngine.ts:3-11 | The score is the three sub-scores plus half the word count rounded up, plus 50 exactly when logic > 75 and emotion > 75; without the bonus it is the sub-scores plus (whitespace runs + 2) / 2 |
| Scoring.Complete | src/engine/debateGenerator.ts:236-241 | `calcTotal` of the other fields is stored as the total and every other field is kept |
| Scoring.Share | src/engine/scoringEngine.ts:17-18 | A round's score goes entirely to one side, to CON whenever the speaker is not PRO |
| Scoring.CalculateTotalScores | src/engine/scoringEngine.ts:13-21 | The accumulating loop yields each side's sum of scores, and pro + con is the sum of all scores |
| Scoring.TotalsArePartitionSums | src/engine/scoringEngine.ts:16-19 | The totals are the PRO-round sum and the CON-round sum |
| Scoring.TotalsSumAll | src/engine/scoringEngine.ts:13-21 | pro + con equals the sum of every round's score |
| Scoring.TotalsAppend | src/engine/scoringEngine.ts:16-19 | Totals of a concatenation are the componentwise sum of the totals |
| Scoring.GetWinner | src/engine/scoringEngine.ts:23-28 | TIE exactly when the side sums are equal, PRO exactly when pro > con, CON exactly when con > pro |
| AiClient.ClampScore | src/engine/aiClient.ts:50-53 | NaN gives `min`; a result within [min, max]; in-range values unchanged; values below go to `min`, above to `max` |
| AiClient.ScoreInput | src/engine/aiClient.ts:77-79 | A missing score becomes 60, a number stays, NaN stays NaN before clamping |
| AiClient.StringsOf | src/engine/aiClient.ts:73-75 | The filter keeps every string entry of the array and nothing else, never more entries than it has |
| AiClient.StringsOfAppend | src/engine/aiClient.ts:74 | The filter works entry by entry: filtering a concatenation concatenates the filtered parts, so order is kept |
| AiClient.StringsOfSingleton | src/engine/aiClient.ts:74 | One entry is kept, as its string, exactly when it is a string |
| AiClient.RoundNumber | src/engine/aiClient.ts:64-66 | A raw round in 1..3 is kept; anything else becomes `index / 2 + 1`; always at least 1 |
| AiClient.NormalizeRound | src/engine/aiClient.ts:62-96 | Speaker CON exactly when the raw speaker is "CON"; round, argument, headline, data points as the defaults say; each sub-score is the clamped, defaulted raw value; the total is `calcTotal` of the normalised fields |
| AiClient.ReplyTotalIgnored | src/engine/aiClient.ts:92-95 | A total claimed by the reply has no effect on the normalised round |
| AiClient.NormalizeRounds | src/engine/aiClient.ts:144 | As many rounds as entries, each normalised with its own index |
| AiClient.EnsureDebateResponse | src/engine/aiClient.ts:138-155 | Accepted exactly when both headlines are non-empty, the rounds are an array of objects and there are at least two; then an absent topic becomes "" and any other topic value is kept, and the rounds are the normalised entries; missing data is reported first, then a non-object round, then a short round list |
| AiClient.AcceptedRoundsAreRescored | src/engine/aiClient.ts:77-95 | Every accepted round has sub-scores in [0, 100], a round number of at least 1 and its total recomputed from its fields |
| AiClient.EnsureFramingResponse | src/engine/aiClient.ts:157-168 | Accepted exactly when both headlines are non-empty; the topic falls back to the one asked about |
| AiClient.CheckRandomTopic | src/engine/aiClient.ts:182-186 | Accepted exactly when the reply has a non-empty topic, which is returned |
| AiClient.PostAiWithRetry | src/engine/aiClient.ts:119-136 | The retry loop with the defaults 3 attempts and 500 ms |
| AiClient.FetchAiDebate | src/engine/aiClient.ts:170-173 | A request failure exactly when every attempt failed; otherwise the checked first resolved reply |
| AiClient.FetchAiFraming | src/engine/aiClient.ts:175-178 | A request failure exactly when every attempt failed; otherwise the first resolved reply checked with the requested topic as fallback |
| AiClient.FetchAiRandomTopic | src/engine/aiClient.ts:180-187 | A request failure exactly when all three attempts failed; otherwise the outcome is the topic check of the first resolved reply, so a success is its non-empty topic |
| SafetyFilter.Capitalise | src/engine/safetyFilter.ts:86 | The first character is upper-cased, the rest kept |
| SafetyFilter.ExpandWord | src/engine/safetyFilter.ts:84-86 | A word whose lower-case form is a table key gets its question; any other word gets "The Impact of <Word> on Modern Society"; never empty |
| SafetyFilter.FilterTopic | src/engine/safetyFilter.ts:66-90 | Always safe and non-empty; blank input gives the drawn trending topic as topic and suggestion; an offensive substring gives "Technology in Education" before any expansion; a single word is expanded; several words come back trimmed |
| SafetyFilter.GetRandomTopic | src/engine/safetyFilter.ts:92-94 | A member of the trending list |
| SafetyFilter.RandomTopicsCoverTable | src/engine/safetyFilter.ts:70 | Every trending topic can be drawn, and blank input draws as `getRandomTopic` does |
| SafetyFilter.SkillIsReplaced | src/engine/safetyFilter.ts:76-80 | Substring matching replaces the harmless "skill", which contains "kill" |
| SafetyFilter.ObjectLookup | src/engine/safetyFilter.ts:39-64 | A property read on the table yields the entry for its own keys and nothing for other keys, except the inherited `constructor` and `__proto__` |
| SafetyFilter.FilterTopicAsWritten | src/engine/safetyFilter.ts:66-90 | The filter with JavaScript's property read agrees with `FilterTopic` except on the inherited names; a single word yields the looked-up value whenever it is truthy |
| SafetyFilter.ConstructorAsWritten | src/engine/safetyFilter.ts:84-85 | As written, the topic "constructor" yields the inherited function, not a string |
| SafetyFilter.ConstructorCorrected | src/engine/safetyFilter.ts:84-86 | With own-key lookup, "constructor" is expanded like any other word |
| SafetyFilter.ConstructorTopicIsNotAString | src/engine/safetyFilter.ts:84-86 | The two readings side by side on the input "constructor" |
| FramingEngine.Apply | src/engine/framingEngine.ts:6-30 | A template puts the upper-cased core between its fixed prefix and suffix |
| FramingEngine.TemplateListsParallel | src/engine/framingEngine.ts:6-30 | Both template lists have 10 entries, so one index fits both |
| FramingEngine.Core | src/engine/framingEngine.ts:33-34 | More than 3 tokens give the first four joined by single spaces; otherwise the topic unchanged |
| FramingEngine.CoreIsFirstFourWords | src/engine/framingEngine.ts:33-34 | The core of a long topic splits back into its first four tokens, and a core never has more than four words |
| FramingEngine.FrameTopic | src/engine/framingEngine.ts:32-47 | Stances PRO and CON; both headlines come from the same template index; each contains the upper-cased core |
| DebateGenerator.EvidenceRanges | src/engine/debateGenerator.ts:122-150 | Each evidence set prints three random numbers |
| DebateGenerator.RenderAppend | src/engine/debateGenerator.ts:56-209 | Rendering a template literal is compositional |
| DebateGenerator.RenderShowsValues | src/engine/debateGenerator.ts:56-209 | A rendered template contains the value of every placeholder it mentions |
| DebateGenerator.SourceTextsFit | src/engine/debateGenerator.ts:27-209 | The repository's tables have the sizes the generators index into, and every argument quotes what its stage is about |
| DebateGenerator.OpeningArgument | src/engine/debateGenerator.ts:59-75 | The opening argument quotes the side's headline |
| DebateGenerator.GenerateOpening | src/engine/debateGenerator.ts:56-86 | Round 1, "ROUND 1: OPENING — " + headline, one statistic as data point, rebuttal 0, logic in [60, 85], emotion in [40, 65] |
| DebateGenerator.Keyword | src/engine/debateGenerator.ts:91 | Word k of the opponent's words longer than 5 characters, or the topic's first space-token when there is no such word |
| DebateGenerator.RebuttalArgument | src/engine/debateGenerator.ts:92-105 | The rebuttal argument quotes the keyword |
| DebateGenerator.GenerateRebuttal | src/engine/debateGenerator.ts:88-120 | Round 2 with the fixed headline, the keyword note as its only data point and sub-scores within their ranges |
| DebateGenerator.EvidencePoints | src/engine/debateGenerator.ts:125-139 | The three data points of the chosen set, filled with the drawn numbers |
| DebateGenerator.EvidenceArgument | src/engine/debateGenerator.ts:140-141 | The evidence argument quotes all three data points |
| DebateGenerator.GenerateEvidence | src/engine/debateGenerator.ts:122-150 | Round 3 with exactly 3 data points, emotion in [30, 55], logic in [75, 95], rebuttal in [50, 75] |
| DebateGenerator.EmotionalArgument | src/engine/debateGenerator.ts:155-169 | The emotional argument quotes its scenario |
| DebateGenerator.GenerateEmotional | src/engine/debateGenerator.ts:152-180 | Round 4 whose one data point is the side's scenario, emotion in [80, 98], logic in [35, 60], rebuttal in [40, 70] |
| DebateGenerator.GenerateClosing | src/engine/debateGenerator.ts:182-209 | Round 5 with no data points and all sub-scores in their closing ranges |
| DebateGenerator.NextDraft | src/engine/debateGenerator.ts:215-231 | Loop step i generates the stage i/2 for the side i mod 2 with round i/2 + 1; no round before the closings can earn the bonus |
| DebateGenerator.Build | src/engine/debateGenerator.ts:223-233 | n pushes give n rounds |
| DebateGenerator.FullDebate | src/engine/debateGenerator.ts:211-234 | Exactly 10 rounds |
| DebateGenerator.GenerateFullDebate | src/engine/debateGenerator.ts:211-234 | The push loop builds exactly the rounds `FullDebate` specifies |
| DebateGenerator.BuildPrefix | src/engine/debateGenerator.ts:223-231 | Later pushes never change earlier rounds |
| DebateGenerator.RoundAt | src/engine/debateGenerator.ts:217-230 | Round i is the scored draft generated from the rounds before it |
| DebateGenerator.DebateShape | src/engine/debateGenerator.ts:223-231 | Index 2k is PRO and 2k+1 is CON, both round k+1, and every total is `calcTotal` of the round |
| DebateGenerator.OpeningRounds | src/engine/debateGenerator.ts:79-84 | The openings carry each side's own headline and one statistic |
| DebateGenerator.ProRebuttalRound | src/engine/debateGenerator.ts:88-120 | PRO's rebuttal keyword comes from CON's opening, is noted as its data point and is quoted |
| DebateGenerator.ConRebuttalRound | src/engine/debateGenerator.ts:88-120 | CON's rebuttal keyword comes from PRO's rebuttal, is noted as its data point and is quoted |
| DebateGenerator.EvidenceRounds | src/engine/debateGenerator.ts:137-145 | Both evidence rounds have 3 data points, each quoted in the argument |
| DebateGenerator.EmotionalRounds | src/engine/debateGenerator.ts:154-175 | Each emotional round's data point is a scenario of its own side's table |
| DebateGenerator.ClosingRounds | src/engine/debateGenerator.ts:204 | Closing rounds have no data points |
| DebateGenerator.ClosingArgument | src/engine/debateGenerator.ts:185-197 | A closing template that interpolates the topic shows it, as written or lower-cased as the template asks |
| DebateGenerator.ClosingsQuote | src/engine/debateGenerator.ts:185-195 | Each of the six closings interpolates the topic, as written or lower-cased |
| DebateGenerator.SourceClosingsShowTopic | src/engine/debateGenerator.ts:182-197 | Every closing built from the repository's texts contains the topic or its lower-case form |
| DebateGenerator.OnlyClosingsEarnTheBonus | src/engine/debateGenerator.ts:82-241 | The ranges rule out the +50 bonus in every round before the closings |
| RebuttalAnalyzer.FirstThree | src/engine/rebuttalAnalyzer.ts:15 | `slice(0, 3)`: a prefix of at most three terms |
| RebuttalAnalyzer.Messages | src/engine/rebuttalAnalyzer.ts:8-19 | One message per insight |
| RebuttalAnalyzer.AnalyzeRebuttal | src/engine/rebuttalAnalyzer.ts:3-21 | The pushes yield the messages of the insights the opponent's round calls for, whatever the current round |
| RebuttalAnalyzer.InsightRules | src/engine/rebuttalAnalyzer.ts:8-19 | Logic hint exactly when logic > 75; emotion hint exactly when emotion > 75; key terms exactly when more than 3 words are longer than 6; data hint exactly when there are data points |
| RebuttalAnalyzer.KeyTermsLine | src/engine/rebuttalAnalyzer.ts:5-16 | The key-terms line lists the first three lower-cased opponent words longer than 6, joined by ", " |
| RebuttalAnalyzer.AtMostFourInsights | src/engine/rebuttalAnalyzer.ts:3-21 | At most four insights |
| RebuttalAnalyzer.InsightsInOrder | src/engine/rebuttalAnalyzer.ts:8-19 | Insights appear in the fixed order, each at most once |
| DebateState.FromReply | src/state/debateState.ts:58-69 | A reply whose topic is a truthy non-string makes the filter throw; any other stages its own headlines and rounds and the filtered reply topic, or the input when that topic is falsy, and marks the content AI-generated |
| DebateState.Fallback | src/state/debateState.ts:72-84 | Without the AI the filtered topic is framed locally: no rounds, not AI-generated, both headlines containing the upper-cased core |
| DebateState.Store.constructor | src/state/debateState.ts:38-52 | The store starts with the initial values |
| DebateState.Store.Reset | src/state/debateState.ts:177-193 | Every field is restored to its initial value |
| DebateState.Store.SubmitTopic | src/state/debateState.ts:54-88 | The new state is `Submit` of the old one |
| DebateState.Store.RandomTopic | src/state/debateState.ts:90-125 | The new state is `Random` of the old one |
| DebateState.Store.StartDebate | src/state/debateState.ts:127-137 | The new state is `Start` of the old one |
| DebateState.Store.AdvanceRound | src/state/debateState.ts:139-160 | The new state is `Advance` of the old one |
| DebateState.Store.SetAnimating | src/state/debateState.ts:162 | Only the animation flag changes |
| DebateState.Store.VoteFor | src/state/debateState.ts:164-170 | The new state is `Vote` of the old one |
| DebateState.Store.TriggerShake | src/state/debateState.ts:172-173 | Only the shake flag is raised |
| DebateState.Store.ShakeTimerFired | src/state/debateState.ts:174 | The timer callback only lowers the shake flag |
| DebateState.Submit | src/state/debateState.ts:54-88 | A blank submission leaves the state as it was; any other reaches framing, not loading, with a non-empty topic |
| DebateState.Random | src/state/debateState.ts:90-125 | Framing, not loading, with a non-empty topic; the AI's rounds are staged and marked AI-generated when it answered with a topic the filter takes, and otherwise no rounds are staged |
| DebateState.Start | src/state/debateState.ts:127-137 | Phase debate, cursor 0, both scores 0, at least one round, and staged rounds kept |
| DebateState.Advance | src/state/debateState.ts:139-160 | Rounds and bonuses kept; past the last round the phase is victory with the rounds' winner, otherwise the cursor moves by one and phase and winner stay |
| DebateState.Vote | src/state/debateState.ts:164-170 | Scores minus bonuses are unchanged and the bonuses grow by the amount in total |
| DebateState.BlankSubmitIsNoOp | src/state/debateState.ts:55-56 | A blank or whitespace-only submission leaves the state unchanged; any other reaches the framing phase |
| DebateState.StagedFraming | src/state/debateState.ts:58-124 | After a topic action the phase is framing, loading is over and the topic is non-empty; when the AI answered with a topic the filter takes, the reply's rounds and headlines are staged; otherwise the rounds are empty, the content is not AI-generated and the headlines frame the filtered input |
| DebateState.NonTextTopicFallsBack | src/state/debateState.ts:58-86 | A reply with a truthy non-string topic ends the submission exactly as a failed request does |
| DebateState.StartState | src/state/debateState.ts:127-137 | Cursor 0, phase debate, both scores 0, vote bonuses untouched; staged rounds are kept, otherwise the 10 generated rounds are used |
| DebateState.NonFinalAdvance | src/state/debateState.ts:151-158 | A non-final advance moves the cursor by one and sets each score to its side's sum over `rounds[0..next)` plus its bonus; nothing else changes |
| DebateState.FinalAdvance | src/state/debateState.ts:141-150 | The final advance sets phase victory, full totals plus bonuses and the winner `getWinner(rounds)`, and keeps the cursor |
| DebateState.AdvanceKeepsCursorOnARound | src/state/debateState.ts:141-159 | An advance never moves the cursor past the last round |
| DebateState.WinnerIgnoresVotes | src/state/debateState.ts:144 | The declared winner does not depend on the vote bonuses |
| DebateState.WinnerCanTrailOnDisplayedScores | src/state/debateState.ts:144-149 | Bonuses can leave the declared winner behind on the displayed scores |
| DebateState.VoteTouchesOneSide | src/state/debateState.ts:164-170 | A vote adds the amount to that side's bonus and score and changes nothing else |
| DebateState.TopicActionsKeepCursorValid | src/state/debateState.ts:54-125 | The topic actions preserve the cursor invariant |
| DebateState.PlayKeepsCursorValid | src/state/debateState.ts:127-193 | The initial state has a valid cursor, and start, advance, vote and the flag setters preserve it |
| DebateState.InitialTallied | src/state/debateState.ts:38-52 | Initially the scores are the tallies of the rounds before the cursor plus the bonuses |
| DebateState.AdvanceTallies | src/state/debateState.ts:151-158 | After a non-final advance the scores are the tallies of the rounds before the cursor plus the bonuses |
| DebateState.VoteKeepsTally | src/state/debateState.ts:164-170 | A vote keeps scores equal to tallies plus bonuses |
| DebateState.StartTallies | src/state/debateState.ts:130-136 | Start resets the scores but not the bonuses, so the tally holds afterwards exactly when no votes were cast |
| ApiAi.RandomTopicPromptIgnoresTopic | api/ai.ts:4-13 | The random-topic prompt does not depend on the topic |
| ApiAi.BuildPrompt | api/ai.ts:3-36 | Every prompt other than the random-topic one starts with the line "Topic: " and the topic, `undefined` when absent |
| ApiAi.PromptsOpenWithTopic | api/ai.ts:15-35 | Every prompt other than the random-topic one opens with "Topic: " and the topic (`undefined` when absent) |
| ApiAi.OtherActionsGetDebatePrompt | api/ai.ts:26-35 | Any action other than random-topic and framing gets the debate prompt |
| ApiAi.ExtractJson | api/ai.ts:94-109 | Fails exactly when there is no '{', no '}', or the last '}' is at or before the first '{'; otherwise the slice from the first '{' to the last '}' inclusive |
| ApiAi.ExtractJsonFindsFramedObject | api/ai.ts:94-104 | An object framed by text without braces is cut out exactly |
| ApiAi.CallGeminiWithRetry | api/ai.ts:76-92 | The retry loop with a 1000 ms base delay; with the handler's two attempts a double failure waits once for 1000 ms and rethrows the second error |
| ApiAi.ActionOf | api/ai.ts:141-142 | A missing or empty action defaults to "generate_debate" |
| ApiAi.ReplyTo | api/ai.ts:146-153 | 200 with the object exactly when one is found and parses; otherwise 502 |
| ApiAi.Handler | api/ai.ts:111-154 | OPTIONS gives 200; another non-POST gives 405; a missing key gives 500; a body that parses to `null` gets no reply at all, and only it; after that, 502 for any failure and 200 with the object of the first resolved attempt |
| ViteProxy.RandomTopicPromptIgnoresTopic | vite.config.ts:17-25 | The random-topic prompt does not depend on the topic |
| ViteProxy.BuildPrompt | vite.config.ts:16-35 | Every action other than random-topic gets the debate instructions and then the line "Topic: " with the topic or nothing |
| ViteProxy.DebatePromptEndsWithTopic | vite.config.ts:27-34 | Every other action gets the debate instructions with the last line "Topic: " + (topic ?? "") |
| ViteProxy.BodyText | vite.config.ts:105 | An empty body is read as "{}" |
| ViteProxy.ErrorText | vite.config.ts:115 | An error reply's text is the message, or "AI proxy failed" when the message is empty |
| ViteProxy.Failed | vite.config.ts:113-116 | Every caught error becomes a plain-text 500 with a non-empty text |
| ViteProxy.ReplyTo | vite.config.ts:79-112 | The same fail/slice contract as the serverless proxy; 200 with the serialised object, or a 500 with the error's message |
| ViteProxy.Middleware | vite.config.ts:96-117 | 405 for non-POST; a body parse error, then a missing key, then a model error give 500; otherwise the reply for the model's text; the status is 200, 405 or 500, JSON exactly for 200 |
| ViteProxy.EmptyBodyIsEmptyObject | vite.config.ts:104-105 | An empty request body is served exactly as "{}" |
| ViteProxy.MissingActionGetsDebatePrompt | vite.config.ts:106-107 | A missing or empty action gets the debate prompt |
| ViteProxy.ErrorRepliesSaySomething | vite.config.ts:97-116 | Every non-200 reply has a non-empty text |
| GoogleTts.WithBreaks | src/engine/googleTtsVoiceService.ts:57-60 | The map keeps the number of sentences |
| GoogleTts.BreaksFollowEachSeparator | src/engine/googleTtsVoiceService.ts:55-61 | The split/map/join rewrite puts the 200 ms break after every ". " and changes nothing else |
| GoogleTts.EmphasisCases | src/engine/googleTtsVoiceService.ts:51-70 | Emotion > 75 inserts the breaks; otherwise logic > 80 wraps the text in the 1.1 prosody; otherwise the text is unchanged |
| GoogleTts.AddEmphasis | src/engine/googleTtsVoiceService.ts:51-70 | Emotion > 75 puts the pause after every sentence separator; emotion <= 75 and logic <= 80 leave the text unchanged |
| GoogleTts.EmotionTakesPrecedence | src/engine/googleTtsVoiceService.ts:53-67 | In the emotional case the logic score plays no part |
| GoogleTts.OneSentenceHasNoBreak | src/engine/googleTtsVoiceService.ts:55-61 | Emotional text without ". " comes back unchanged |
| GoogleTts.GetCharacterInfo | src/engine/googleTtsVoiceService.ts:176-181 | The name and voice of the speaker's entry |
| GoogleTts.CharactersAreDistinct | src/engine/googleTtsVoiceService.ts:18-31 | The two sides have different names and voices, both en-US |
| ElevenLabs.GetRoundStyle | src/engine/elevenlabsVoiceService.ts:90-96 | Rounds 1 to 4 map to opening, rebuttal, evidence, emotional, each exactly; every other number maps to closing |
| ElevenLabs.RoundStylesDiffer | src/engine/elevenlabsVoiceService.ts:90-96 | The five rounds get five different styles |
| ElevenLabs.StyleAlwaysDefined | src/engine/elevenlabsVoiceService.ts:31-69 | The style lookup never misses, for either speaker |
| ElevenLabs.VoiceStyle | src/engine/elevenlabsVoiceService.ts:31-46 | Every speaker and style has a non-empty tone description |
| ElevenLabs.GenerateVoicePrompt | src/engine/elevenlabsVoiceService.ts:66-88 | The `+=` steps build the prompt "[Speaker: …] [Tone: …] [Delivery: …] …" from the speaker tag, the round's style and the delivery instructions its scores call for |
| ElevenLabs.CueRules | src/engine/elevenlabsVoiceService.ts:74-85 | Each delivery sentence is present exactly when its own threshold test holds |
| ElevenLabs.CuesInOrder | src/engine/elevenlabsVoiceService.ts:74-85 | Delivery sentences appear in test order, each at most once |
| ElevenLabs.CoolExcludesPassion | src/engine/elevenlabsVoiceService.ts:74-85 | The cool, factual delivery comes only with conviction, never with passion or balance |
| ElevenLabs.QuietRoundHasNoDelivery | src/engine/elevenlabsVoiceService.ts:74-85 | Low scores leave the delivery slot empty |
| ElevenLabs.SameCharacters | src/engine/elevenlabsVoiceService.ts:199-201 | The speaker tag is the speaker's character (ALEX for PRO, SOPHIA for CON), the same as in the Google voice service |
| ElevenLabs.GetCharacterInfo | src/engine/elevenlabsVoiceService.ts:199-201 | The character's name is the one the Google voice service gives the same speaker |

## Left out

- Network I/O is not modelled. This covers `postAi`, both `callGemini` copies, `fetchGoogleTTSAudio`, `fetchElevenLabsAudio`, `readBody`, the `res.*` calls and the CORS headers. Only their outcomes appear, as parameters.
- `JSON.parse`, `JSON.stringify` and `Number()` are not modelled: they are foreign code. The parsed reply is a datatype with optional fields, the debate reply's topic is absent, a string or another truthy or falsy value, and a raw score is Missing, Num or NaN. Whether a cut-out object parses is a parameter.
- `Math.random` is replaced by injected indices and `Draw` values, each with a range precondition.
- Overlapping `submitTopic`/`randomTopic` calls are not modelled, because they are concurrency. Each topic action is one atomic step, and the transient `isLoadingAI = true` is not observed.
- Floating point is not modelled: scores are integers, and clamped AI scores are assumed integral. This leaves out `getVoiceParams` in `src/engine/voiceService.ts`, the stability and style numbers of `playDebateVoice`, and the chart and meter percentages.
- Audio playback, `isPlaying`, `stopVoice`, `testVoice` and the audio caches are not modelled: they are browser media APIs.
- The React components and `App.tsx` are not modelled: they are rendering.
- The `triggerShake` timer is not modelled as a timer. Its callback is the separate method `ShakeTimerFired`.
- `tailwind.config.js` is not modelled: it is styling.
- Case mapping is ASCII only. String lengths count characters, not UTF-16 units.
- The logging (`console.error`) is not modelled.
- The model names and URLs of the Gemini calls are not modelled.
- `DebateGenerator`: the argument and scenario texts are a `Texts` parameter of the generators rather than constants. `SourceTextsFit` proves that the repository's own tables have the required shape and quote what each stage is about.
- `DebateGenerator.Build`, `DebateGenerator.FullDebate`: the rounds pushed are stated through `RoundAt` and the per-stage lemmas, not in their own ensures.
- `Text.IntToString`: its contract states only the sign and non-emptiness, not the decimal digits.
- AiClient.RawDebate, AiClient.RawFraming: the headlines, and the framing reply's topic, are a string or absent. A truthy non-string headline passes the source's checks and would be stored in the store as the headline; the model cannot represent it, and so does not promise what the store then holds.
- DebateState.FromReply, DebateState.Fallback: the staged topic is built with the corrected, own-key `SafetyFilter.FilterTopic`, so the store does not reproduce the `constructor` / `__proto__` finding below. As written, such a topic on the AI path would stage the inherited object member as the topic, and on the fallback path `frameTopic` would throw inside the `catch`, so only `isLoadingAI` would be reset and the phase would stay as it was. `FilterTopicAsWritten` proves the two filters agree on every other input.

Two behaviours of the code worth noting:

- The declared winner is `getWinner(rounds)`, which ignores vote bonuses, even though the displayed scores include them. `WinnerCanTrailOnDisplayedScores` shows the consequence.
- `normalizeRound` accepts only round numbers 1 to 3, while the local generator numbers rounds 1 to 5.

## Findings

| source | as written | input that shows it | evidently intended | confidence | as-written member | corrected member |
|---|---|---|---|---|---|---|
| src/engine/safetyFilter.ts:84-85 | `VAGUE_EXPANSIONS[lower]` is a property read on a plain object literal, so the inherited names `constructor` and `__proto__` are found and truthy | the topic "constructor" gives the topic `Object` (a function), not a string | only the table's own keys expand; any other single word becomes "The Impact of … on Modern Society" | not executed | SafetyFilter.ConstructorAsWritten | SafetyFilter.ConstructorCorrected |
