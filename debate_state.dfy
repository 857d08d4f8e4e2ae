/** src/state/debateState.ts: the session store. Its fields are a `Store`
    object updated in place by the transitions; each transition is specified
    by a function from the old `Session` snapshot to the new one, and what the
    store promises is proved about those functions.

    The outcomes of the network calls and of `Math.random` are parameters:
    `ai` is what `fetchAiDebate` resolved to or threw, `aiTopic` what
    `fetchAiRandomTopic` did, `pick`/`topicPick` the random indices drawn by
    `filterTopic`/`getRandomTopic`, `frame` the template index drawn by
    `frameTopic`, and `draws` the random choices of `generateFullDebate`. */
module DebateState {
  import opened Wrappers
  import opened Text
  import opened Rounds
  import opened Scoring
  import SF = SafetyFilter
  import FE = FramingEngine
  import DG = DebateGenerator
  import AI = AiClient

  /** `AppPhase`. */
  datatype Phase = Input | Framing | Debate | Victory

  /** The data fields of the store, as one value. */
  datatype Session = Session(
    phase: Phase,
    topic: string,
    proHeadline: string,
    conHeadline: string,
    rounds: seq<RoundData>,
    currentRoundIndex: nat,
    isAnimating: bool,
    proScore: int,
    conScore: int,
    voteProBonus: int,
    voteConBonus: int,
    winner: Option<Verdict>,
    shakeScreen: bool,
    isLoadingAI: bool,
    aiGenerated: bool)

  /** The initial store, which `reset` restores field by field. */
  const INITIAL: Session :=
    Session(Input, "", "", "", [], 0, false, 0, 0, 0, 0, None, false, false, false)

  // -------------------------------------------------------- the transitions

  /** The fields both topic actions `set` when they reach the framing phase
      (besides the phase itself). */
  datatype Framed = Framed(topic: string, proHeadline: string, conHeadline: string,
                           rounds: seq<RoundData>, aiGenerated: bool)

  /** A reply topic that is a truthy non-string: `ai.topic || input` passes
      it on and `filterTopic` throws on its `trim`, before anything is set. */
  predicate TopicThrows(reply: AI.AiDebateResponse) {
    reply.topic == AI.NonText(true)
  }

  /** `tryAi(input)` once `fetchAiDebate(input)` resolved with `reply`: a
      falsy reply topic falls back to `input`, and the topic is filtered.
      `None` when the filter throws. */
  function FromReply(reply: AI.AiDebateResponse, input: string, pick: nat): (f: Option<Framed>)
    requires pick < |SF.TRENDING_TOPICS|
    ensures f.None? <==> TopicThrows(reply)
    ensures f.Some? ==> f.value.topic != "" && f.value.aiGenerated && f.value.rounds == reply.rounds
    ensures f.Some? ==> f.value.proHeadline == reply.proHeadline && f.value.conHeadline == reply.conHeadline
    ensures f.Some? ==>
              f.value.topic == SF.FilterTopic(if reply.topic.Text? && reply.topic.s != "" then reply.topic.s
                                              else input, pick).topic
  {
    match reply.topic
    case NonText(truthy) =>
      if truthy then None
      else Some(Framed(SF.FilterTopic(input, pick).topic, reply.proHeadline, reply.conHeadline, reply.rounds, true))
    case Text(t) =>
      var safe := SF.FilterTopic(if t != "" then t else input, pick).topic;
      Some(Framed(safe, reply.proHeadline, reply.conHeadline, reply.rounds, true))
    case Absent =>
      Some(Framed(SF.FilterTopic(input, pick).topic, reply.proHeadline, reply.conHeadline, reply.rounds, true))
  }

  /** The `catch` branch: the local framing of the filtered input, with no
      rounds yet. */
  function Fallback(input: string, pick: nat, frame: nat): (f: Framed)
    requires pick < |SF.TRENDING_TOPICS| && frame < |FE.PRO_TEMPLATES|
    ensures f.topic != "" && !f.aiGenerated && f.rounds == []
    ensures Contains(f.proHeadline, Upper(FE.Core(f.topic))) && Contains(f.conHeadline, Upper(FE.Core(f.topic)))
  {
    var safe := SF.FilterTopic(input, pick).topic;
    var framed := FE.FrameTopic(safe, frame);
    Framed(safe, framed.pro.headline, framed.con.headline, [], false)
  }

  /** What the topic actions stage for `input`, given how `fetchAiDebate`
      fared: the AI's framing, or the `catch` branch when the request failed
      or the filter threw on the reply's topic. */
  function Outcome(input: string, ai: Result<AI.AiDebateResponse, AI.AiError>, pick: nat, frame: nat): Framed
    requires pick < |SF.TRENDING_TOPICS| && frame < |FE.PRO_TEMPLATES|
  {
    match ai
    case Success(reply) => (
      match FromReply(reply, input, pick)
      case Some(f) => f
      case None => Fallback(input, pick, frame))
    case Failure(_) => Fallback(input, pick, frame)
  }

  /** The session once `f` is set, the phase is framing and the `finally`
      has cleared the loading flag. */
  function Staged(s: Session, f: Framed): Session {
    s.(topic := f.topic, proHeadline := f.proHeadline, conHeadline := f.conHeadline,
       rounds := f.rounds, aiGenerated := f.aiGenerated, phase := Framing, isLoadingAI := false)
  }

  /** `submitTopic(raw)`: a blank input returns before anything is set. */
  function Submit(s: Session, raw: string, ai: Result<AI.AiDebateResponse, AI.AiError>, pick: nat, frame: nat): (r: Session)
    requires pick < |SF.TRENDING_TOPICS| && frame < |FE.PRO_TEMPLATES|
    ensures AllSpace(raw) ==> r == s
    ensures !AllSpace(raw) ==> r.phase == Framing && !r.isLoadingAI && r.topic != ""
  {
    var trimmed := Trim(raw);
    if trimmed == "" then s else Staged(s, Outcome(trimmed, ai, pick, frame))
  }

  /** The topic `randomTopic` asks the AI about: the AI's own suggestion, or
      a trending topic when that request failed. */
  function RandomTopicChoice(aiTopic: Result<string, AI.AiError>, topicPick: nat): string
    requires topicPick < |SF.TRENDING_TOPICS|
  {
    match aiTopic
    case Success(t) => t
    case Failure(_) => SF.GetRandomTopic(topicPick)
  }

  /** `randomTopic()`. */
  function Random(s: Session, aiTopic: Result<string, AI.AiError>, topicPick: nat,
                  ai: Result<AI.AiDebateResponse, AI.AiError>, pick: nat, frame: nat): (r: Session)
    requires topicPick < |SF.TRENDING_TOPICS| && pick < |SF.TRENDING_TOPICS| && frame < |FE.PRO_TEMPLATES|
    ensures r.phase == Framing && !r.isLoadingAI && r.topic != ""
    ensures ai.Success? && !TopicThrows(ai.value) ==> r.aiGenerated && r.rounds == ai.value.rounds
    ensures ai.Failure? || TopicThrows(ai.value) ==> !r.aiGenerated && r.rounds == []
  {
    Staged(s, Outcome(RandomTopicChoice(aiTopic, topicPick), ai, pick, frame))
  }

  /** `startDebate()`: the staged rounds, or ten generated ones when none
      were staged; the cursor and the scores restart. */
  function Start(s: Session, texts: DG.Texts, draws: seq<DG.Draw>): (r: Session)
    requires DG.Shaped(texts) && DG.ValidDraws(draws)
    ensures r.phase == Debate && r.currentRoundIndex == 0 && r.proScore == 0 && r.conScore == 0
    ensures |r.rounds| > 0 && (|s.rounds| > 0 ==> r.rounds == s.rounds)
  {
    Begun(s, if |s.rounds| != 0 then s.rounds
             else DG.FullDebate(texts, s.topic, s.proHeadline, s.conHeadline, draws))
  }

  /** The `set` that opens the debate on `rounds`. */
  function Begun(s: Session, rounds: seq<RoundData>): Session {
    s.(rounds := rounds, currentRoundIndex := 0, phase := Debate, proScore := 0, conScore := 0)
  }

  /** `advanceRound()`. Past the last round it declares the winner and scores
      every round; otherwise it moves the cursor and scores the rounds before
      the new cursor position. Both add the vote bonuses to the scores. */
  function Advance(s: Session): (r: Session)
    ensures r.rounds == s.rounds && r.voteProBonus == s.voteProBonus && r.voteConBonus == s.voteConBonus
    ensures s.currentRoundIndex + 1 >= |s.rounds| ==> r.phase == Victory && r.winner == Some(GetWinner(s.rounds))
    ensures s.currentRoundIndex + 1 < |s.rounds| ==>
              r.phase == s.phase && r.winner == s.winner && r.currentRoundIndex == s.currentRoundIndex + 1
  {
    var next := s.currentRoundIndex + 1;
    if next >= |s.rounds| then Finished(s, TotalsOf(s.rounds), GetWinner(s.rounds))
    else Moved(s, next, TotalsOf(s.rounds[..next]))
  }

  /** The `set` past the last round, with the round totals and the verdict. */
  function Finished(s: Session, scores: Totals, verdict: Verdict): Session {
    s.(proScore := scores.pro + s.voteProBonus, conScore := scores.con + s.voteConBonus,
       winner := Some(verdict), phase := Victory)
  }

  /** The `set` that moves the cursor to `next`, with the totals so far. */
  function Moved(s: Session, next: nat, scores: Totals): Session {
    s.(currentRoundIndex := next,
       proScore := scores.pro + s.voteProBonus, conScore := scores.con + s.voteConBonus)
  }

  /** `voteFor(side, amount)`. */
  function Vote(s: Session, side: Speaker, amount: int): (r: Session)
    ensures r.proScore - r.voteProBonus == s.proScore - s.voteProBonus
    ensures r.conScore - r.voteConBonus == s.conScore - s.voteConBonus
    ensures r.voteProBonus + r.voteConBonus == s.voteProBonus + s.voteConBonus + amount
  {
    if side == Pro then s.(voteProBonus := s.voteProBonus + amount, proScore := s.proScore + amount)
    else s.(voteConBonus := s.voteConBonus + amount, conScore := s.conScore + amount)
  }

  // ------------------------------------------------------------- the store

  class Store {
    var phase: Phase
    var topic: string
    var proHeadline: string
    var conHeadline: string
    var rounds: seq<RoundData>
    var currentRoundIndex: nat
    var isAnimating: bool
    var proScore: int
    var conScore: int
    var voteProBonus: int
    var voteConBonus: int
    var winner: Option<Verdict>
    var shakeScreen: bool
    var isLoadingAI: bool
    var aiGenerated: bool

    function State(): Session
      reads this
    {
      Session(phase, topic, proHeadline, conHeadline, rounds, currentRoundIndex, isAnimating,
              proScore, conScore, voteProBonus, voteConBonus, winner, shakeScreen, isLoadingAI,
              aiGenerated)
    }

    constructor()
      ensures State() == INITIAL
    {
      new;
      Reset();
    }

    method Reset()
      modifies this
      ensures State() == INITIAL
    {
      ClearStaging();
      ClearPlay();
    }

    /** The half of `reset` that the topic actions also set. */
    method ClearStaging()
      modifies this`phase, this`topic, this`proHeadline, this`conHeadline, this`rounds,
               this`aiGenerated, this`isLoadingAI
      ensures phase == Input && topic == "" && proHeadline == "" && conHeadline == ""
      ensures rounds == [] && !aiGenerated && !isLoadingAI
    {
      phase := Input;
      topic := "";
      proHeadline := "";
      conHeadline := "";
      rounds := [];
      aiGenerated := false;
      isLoadingAI := false;
    }

    /** The other half: cursor, scores, bonuses, winner and display flags. */
    method ClearPlay()
      modifies this`currentRoundIndex, this`isAnimating, this`proScore, this`conScore,
               this`voteProBonus, this`voteConBonus, this`winner, this`shakeScreen
      ensures currentRoundIndex == 0 && !isAnimating && proScore == 0 && conScore == 0
      ensures voteProBonus == 0 && voteConBonus == 0 && winner == None && !shakeScreen
    {
      currentRoundIndex := 0;
      isAnimating := false;
      proScore := 0;
      conScore := 0;
      voteProBonus := 0;
      voteConBonus := 0;
      winner := None;
      shakeScreen := false;
    }

    /** The body shared by both topic actions: the loading flag is raised,
        the outcome `f` of `tryAi` or of its fallback is set, and the
        `finally` lowers the flag. */
    method Stage(f: Framed)
      modifies this`phase, this`topic, this`proHeadline, this`conHeadline, this`rounds,
               this`aiGenerated, this`isLoadingAI
      ensures State() == Staged(old(State()), f)
    {
      isLoadingAI := true;
      SetFramed(f);
      isLoadingAI := false;
    }

    /** The `set` call that enters the framing phase. */
    method SetFramed(f: Framed)
      modifies this`phase, this`topic, this`proHeadline, this`conHeadline, this`rounds, this`aiGenerated
      ensures topic == f.topic && proHeadline == f.proHeadline && conHeadline == f.conHeadline
      ensures rounds == f.rounds && aiGenerated == f.aiGenerated && phase == Framing
    {
      topic := f.topic;
      proHeadline := f.proHeadline;
      conHeadline := f.conHeadline;
      rounds := f.rounds;
      aiGenerated := f.aiGenerated;
      phase := Framing;
    }

    method SubmitTopic(raw: string, ai: Result<AI.AiDebateResponse, AI.AiError>, pick: nat, frame: nat)
      requires pick < |SF.TRENDING_TOPICS| && frame < |FE.PRO_TEMPLATES|
      modifies this`phase, this`topic, this`proHeadline, this`conHeadline, this`rounds,
               this`aiGenerated, this`isLoadingAI
      ensures State() == Submit(old(State()), raw, ai, pick, frame)
    {
      var trimmed := Trim(raw);
      if trimmed == "" {
        return;
      }
      Stage(Outcome(trimmed, ai, pick, frame));
    }

    method RandomTopic(aiTopic: Result<string, AI.AiError>, topicPick: nat,
                       ai: Result<AI.AiDebateResponse, AI.AiError>, pick: nat, frame: nat)
      requires topicPick < |SF.TRENDING_TOPICS| && pick < |SF.TRENDING_TOPICS| && frame < |FE.PRO_TEMPLATES|
      modifies this`phase, this`topic, this`proHeadline, this`conHeadline, this`rounds,
               this`aiGenerated, this`isLoadingAI
      ensures State() == Random(old(State()), aiTopic, topicPick, ai, pick, frame)
    {
      var chosen := "";
      if aiTopic.Success? {
        chosen := aiTopic.value;
      } else {
        chosen := SF.GetRandomTopic(topicPick);
      }
      Stage(Outcome(chosen, ai, pick, frame));
    }

    method StartDebate(texts: DG.Texts, draws: seq<DG.Draw>)
      requires DG.Shaped(texts) && DG.ValidDraws(draws)
      modifies this`rounds, this`currentRoundIndex, this`phase, this`proScore, this`conScore
      ensures State() == Start(old(State()), texts, draws)
    {
      var chosen := rounds;
      if |rounds| == 0 {
        chosen := DG.GenerateFullDebate(texts, topic, proHeadline, conHeadline, draws);
      }
      Begin(chosen);
    }

    method Begin(chosen: seq<RoundData>)
      modifies this`rounds, this`currentRoundIndex, this`phase, this`proScore, this`conScore
      ensures State() == Begun(old(State()), chosen)
    {
      rounds := chosen;
      currentRoundIndex := 0;
      phase := Debate;
      proScore := 0;
      conScore := 0;
    }

    method AdvanceRound()
      modifies this`proScore, this`conScore, this`winner, this`phase, this`currentRoundIndex
      ensures State() == Advance(old(State()))
    {
      var next := currentRoundIndex + 1;
      if next >= |rounds| {
        FinishDebate();
      } else {
        NextRound(next);
      }
    }

    /** The branch of `advanceRound` past the last round. */
    method FinishDebate()
      requires currentRoundIndex + 1 >= |rounds|
      modifies this`proScore, this`conScore, this`winner, this`phase
      ensures State() == Advance(old(State()))
    {
      var scores := CalculateTotalScores(rounds);
      DeclareVictory(scores, GetWinner(rounds));
    }

    method DeclareVictory(scores: Totals, verdict: Verdict)
      modifies this`proScore, this`conScore, this`winner, this`phase
      ensures State() == Finished(old(State()), scores, verdict)
    {
      proScore := scores.pro + voteProBonus;
      conScore := scores.con + voteConBonus;
      winner := Some(verdict);
      phase := Victory;
    }

    /** The branch of `advanceRound` that moves to round `next`. */
    method NextRound(next: nat)
      requires next == currentRoundIndex + 1 && next < |rounds|
      modifies this`proScore, this`conScore, this`currentRoundIndex
      ensures State() == Advance(old(State()))
    {
      var scores := CalculateTotalScores(rounds[..next]);
      MoveCursor(next, scores);
    }

    method MoveCursor(next: nat, scores: Totals)
      modifies this`currentRoundIndex, this`proScore, this`conScore
      ensures State() == Moved(old(State()), next, scores)
    {
      currentRoundIndex := next;
      proScore := scores.pro + voteProBonus;
      conScore := scores.con + voteConBonus;
    }

    method SetAnimating(v: bool)
      modifies this`isAnimating
      ensures State() == old(State()).(isAnimating := v)
    {
      isAnimating := v;
    }

    method VoteFor(side: Speaker, amount: int)
      modifies this`voteProBonus, this`proScore, this`voteConBonus, this`conScore
      ensures State() == Vote(old(State()), side, amount)
    {
      if side == Pro {
        voteProBonus := voteProBonus + amount;
        proScore := proScore + amount;
      } else {
        voteConBonus := voteConBonus + amount;
        conScore := conScore + amount;
      }
    }

    /** `triggerShake()` up to its timer: the flag is raised. */
    method TriggerShake()
      modifies this`shakeScreen
      ensures State() == old(State()).(shakeScreen := true)
    {
      shakeScreen := true;
    }

    /** The callback `triggerShake` schedules 500 ms later. */
    method ShakeTimerFired()
      modifies this`shakeScreen
      ensures State() == old(State()).(shakeScreen := false)
    {
      shakeScreen := false;
    }
  }

  // -------------------------------------------------------------- properties

  /** A whitespace-only submission changes nothing. */
  lemma BlankSubmitIsNoOp(s: Session, raw: string, ai: Result<AI.AiDebateResponse, AI.AiError>, pick: nat, frame: nat)
    requires pick < |SF.TRENDING_TOPICS| && frame < |FE.PRO_TEMPLATES|
    ensures AllSpace(raw) ==> Submit(s, raw, ai, pick, frame) == s
    ensures !AllSpace(raw) ==> Submit(s, raw, ai, pick, frame).phase == Framing
  {
  }

  /** After either topic action the store is framing, not loading, and holds
      a non-empty filtered topic; the AI's rounds are kept when it answered
      with a topic the filter accepts, and otherwise there are no rounds and
      the headlines are the local framing of the topic. Nothing else
      changes. */
  lemma StagedFraming(s: Session, input: string, ai: Result<AI.AiDebateResponse, AI.AiError>, pick: nat, frame: nat)
    requires pick < |SF.TRENDING_TOPICS| && frame < |FE.PRO_TEMPLATES|
    ensures var r := Staged(s, Outcome(input, ai, pick, frame));
            r.phase == Framing && !r.isLoadingAI && r.topic != "" &&
            (ai.Success? && !TopicThrows(ai.value) ==>
               r.aiGenerated && r.rounds == ai.value.rounds &&
               r.proHeadline == ai.value.proHeadline && r.conHeadline == ai.value.conHeadline) &&
            (ai.Failure? || TopicThrows(ai.value) ==>
               !r.aiGenerated && r.rounds == [] && r.topic == SF.FilterTopic(input, pick).topic &&
               Contains(r.proHeadline, Upper(FE.Core(r.topic))) &&
               Contains(r.conHeadline, Upper(FE.Core(r.topic)))) &&
            r.(topic := s.topic, proHeadline := s.proHeadline, conHeadline := s.conHeadline,
               rounds := s.rounds, aiGenerated := s.aiGenerated, phase := s.phase,
               isLoadingAI := s.isLoadingAI) == s
  {
  }

  /** A reply whose topic is a truthy non-string makes the topic action end
      exactly as if the request had failed. */
  lemma NonTextTopicFallsBack(s: Session, raw: string, reply: AI.AiDebateResponse, e: AI.AiError,
                              pick: nat, frame: nat)
    requires pick < |SF.TRENDING_TOPICS| && frame < |FE.PRO_TEMPLATES|
    requires TopicThrows(reply)
    ensures Submit(s, raw, Success(reply), pick, frame) == Submit(s, raw, Failure(e), pick, frame)
  {
  }

  /** `startDebate` restarts the cursor and the scores, keeps the bonuses and
      any staged rounds, and otherwise uses the ten generated rounds. */
  lemma StartState(s: Session, texts: DG.Texts, draws: seq<DG.Draw>)
    requires DG.Shaped(texts) && DG.ValidDraws(draws)
    ensures var r := Start(s, texts, draws);
            r.phase == Debate && r.currentRoundIndex == 0 && r.proScore == 0 && r.conScore == 0 &&
            |r.rounds| > 0 &&
            (|s.rounds| > 0 ==> r.rounds == s.rounds) &&
            (|s.rounds| == 0 ==> r.rounds == DG.FullDebate(texts, s.topic, s.proHeadline, s.conHeadline, draws)) &&
            r.(rounds := s.rounds, currentRoundIndex := s.currentRoundIndex, phase := s.phase,
               proScore := s.proScore, conScore := s.conScore) == s
  {
  }

  /** A non-final advance moves the cursor by one and scores exactly the
      rounds before it, so the round now current is not yet counted. */
  lemma NonFinalAdvance(s: Session)
    requires s.currentRoundIndex + 1 < |s.rounds|
    ensures var r := Advance(s);
            r.currentRoundIndex == s.currentRoundIndex + 1 && r.phase == s.phase && r.winner == s.winner &&
            r.proScore == SideSum(s.rounds[..r.currentRoundIndex], Pro) + s.voteProBonus &&
            r.conScore == SideSum(s.rounds[..r.currentRoundIndex], Con) + s.voteConBonus &&
            r.(currentRoundIndex := s.currentRoundIndex, proScore := s.proScore, conScore := s.conScore) == s
  {
    TotalsArePartitionSums(s.rounds[..s.currentRoundIndex + 1]);
  }

  /** The final advance declares the victory, scores every round plus the
      bonuses, and leaves the cursor where it was. */
  lemma FinalAdvance(s: Session)
    requires s.currentRoundIndex + 1 >= |s.rounds|
    ensures var r := Advance(s);
            r.phase == Victory && r.currentRoundIndex == s.currentRoundIndex &&
            r.proScore == SideSum(s.rounds, Pro) + s.voteProBonus &&
            r.conScore == SideSum(s.rounds, Con) + s.voteConBonus &&
            r.winner == Some(GetWinner(s.rounds)) &&
            r.(proScore := s.proScore, conScore := s.conScore, winner := s.winner, phase := s.phase) == s
  {
    TotalsArePartitionSums(s.rounds);
  }

  /** An advance only ever moves the cursor onto an existing round. */
  lemma AdvanceKeepsCursorOnARound(s: Session)
    ensures Advance(s).currentRoundIndex != s.currentRoundIndex ==>
              Advance(s).currentRoundIndex < |Advance(s).rounds|
  {
  }

  /** The winner depends on the rounds alone: the vote bonuses, which do
      change the displayed scores, never change it. */
  lemma WinnerIgnoresVotes(s: Session, proBonus: int, conBonus: int)
    ensures Advance(s.(voteProBonus := proBonus, voteConBonus := conBonus)).winner == Advance(s).winner
  {
  }

  /** So the declared winner can trail on the displayed scores: whenever
      the audience gives the side behind on the rounds more than its deficit
      (PRO 100 and CON 90 on the rounds, CON's audience adding 20), the
      other side is still declared the winner. */
  lemma WinnerCanTrailOnDisplayedScores(s: Session)
    requires s.currentRoundIndex + 1 >= |s.rounds|
    requires SideSum(s.rounds, Pro) > SideSum(s.rounds, Con)
    requires s.voteConBonus - s.voteProBonus > SideSum(s.rounds, Pro) - SideSum(s.rounds, Con)
    ensures Advance(s).winner == Some(ProWins) && Advance(s).conScore > Advance(s).proScore
  {
    FinalAdvance(s);
  }

  /** A vote adds the amount to one side's bonus and score, and nothing else:
      the score minus the bonus stays what the rounds gave. */
  lemma VoteTouchesOneSide(s: Session, side: Speaker, amount: int)
    ensures var r := Vote(s, side, amount);
            r.proScore - r.voteProBonus == s.proScore - s.voteProBonus &&
            r.conScore - r.voteConBonus == s.conScore - s.voteConBonus &&
            (side == Pro ==> r.voteProBonus == s.voteProBonus + amount && r.voteConBonus == s.voteConBonus) &&
            (side == Con ==> r.voteConBonus == s.voteConBonus + amount && r.voteProBonus == s.voteProBonus) &&
            r.(proScore := s.proScore, conScore := s.conScore,
               voteProBonus := s.voteProBonus, voteConBonus := s.voteConBonus) == s
  {
  }

  // --------------------------------------------------------- the invariants

  /** While debating, the cursor is on a round. */
  predicate CursorValid(s: Session) {
    s.phase == Debate ==> s.currentRoundIndex < |s.rounds|
  }

  /** Each displayed score is its side's total over the rounds before the
      cursor plus the audience bonus. */
  predicate Tallied(s: Session) {
    s.currentRoundIndex <= |s.rounds| &&
    s.proScore == SideSum(s.rounds[..s.currentRoundIndex], Pro) + s.voteProBonus &&
    s.conScore == SideSum(s.rounds[..s.currentRoundIndex], Con) + s.voteConBonus
  }

  /** The topic actions keep the cursor on a round while debating: they
      leave the debate phase. */
  lemma TopicActionsKeepCursorValid(s: Session, raw: string, aiTopic: Result<string, AI.AiError>,
                                    ai: Result<AI.AiDebateResponse, AI.AiError>, topicPick: nat, pick: nat,
                                    frame: nat)
    requires topicPick < |SF.TRENDING_TOPICS| && pick < |SF.TRENDING_TOPICS| && frame < |FE.PRO_TEMPLATES|
    requires CursorValid(s)
    ensures CursorValid(Submit(s, raw, ai, pick, frame))
    ensures CursorValid(Random(s, aiTopic, topicPick, ai, pick, frame))
  {
  }

  /** So do the initial store and every other transition. */
  lemma PlayKeepsCursorValid(s: Session, texts: DG.Texts, draws: seq<DG.Draw>, side: Speaker,
                             amount: int, v: bool)
    requires DG.Shaped(texts) && DG.ValidDraws(draws)
    requires CursorValid(s)
    ensures CursorValid(INITIAL)
    ensures CursorValid(Start(s, texts, draws))
    ensures CursorValid(Advance(s))
    ensures CursorValid(Vote(s, side, amount))
    ensures CursorValid(s.(isAnimating := v)) && CursorValid(s.(shakeScreen := v))
  {
    StartState(s, texts, draws);
  }

  /** The running tally holds from the start. */
  lemma InitialTallied()
    ensures Tallied(INITIAL)
  {
    assert INITIAL.rounds[..0] == [];
  }

  /** Every non-final advance re-establishes the tally, whatever came before. */
  lemma AdvanceTallies(s: Session)
    requires s.currentRoundIndex + 1 < |s.rounds|
    ensures Tallied(Advance(s))
  {
    NonFinalAdvance(s);
  }

  /** Votes keep the tally. */
  lemma VoteKeepsTally(s: Session, side: Speaker, amount: int)
    requires Tallied(s)
    ensures Tallied(Vote(s, side, amount))
  {
  }

  /** `startDebate` establishes the tally only when no bonus is pending: it
      zeroes the scores but keeps the bonuses. */
  lemma StartTallies(s: Session, texts: DG.Texts, draws: seq<DG.Draw>)
    requires DG.Shaped(texts) && DG.ValidDraws(draws)
    ensures Tallied(Start(s, texts, draws)) <==> s.voteProBonus == 0 && s.voteConBonus == 0
  {
    StartState(s, texts, draws);
    assert Start(s, texts, draws).rounds[..0] == [];
  }
}
