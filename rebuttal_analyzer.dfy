/** src/engine/rebuttalAnalyzer.ts: coaching hints about the opponent's last
    round. `analyzeRebuttal` collects up to four fixed insights by
    conditional pushes; the current round is not consulted.

    String literals are written as concatenations of short pieces, which
    keeps their verification cheap; each concatenation spells the source's
    string exactly. */
module RebuttalAnalyzer {
  import opened Text
  import opened Rounds

  const LOGIC_INSIGHT: string :=
    "Opponent " + "relies " + "heavily on " + "logical " + "framing — " +
    "consider " + "questioning " + "their data " + "context"
  const EMOTION_INSIGHT: string :=
    "Opponent " + "uses strong " + "emotional " + "appeal — " + "counter " +
    "with hard " + "evidence"
  const DATA_INSIGHT: string :=
    "Opponent " + "cites data " + "— challenge " + "methodology " + "or sample " +
    "size"
  const KEY_TERMS_PREFIX: string := "Key terms " + "detected: "

  /** The opponent's lowercased words longer than six characters. */
  function KeyTerms(opponent: RoundData): seq<string> {
    LongerThan(SplitWs(Lower(opponent.argument)), 6)
  }

  /** The four kinds of insight; the key-terms one carries the long words found. */
  datatype Insight = LogicHint | EmotionHint | KeyTermsHint(terms: seq<string>) | DataHint

  /** `keywords.slice(0, 3)`. */
  function FirstThree(terms: seq<string>): (r: seq<string>)
    ensures |r| == if |terms| < 3 then |terms| else 3
    ensures r <= terms
  {
    if |terms| < 3 then terms else terms[..3]
  }

  /** The text pushed for an insight. */
  function Message(i: Insight): string {
    match i
    case LogicHint => LOGIC_INSIGHT
    case EmotionHint => EMOTION_INSIGHT
    case KeyTermsHint(terms) => KEY_TERMS_PREFIX + Join(FirstThree(terms), ", ")
    case DataHint => DATA_INSIGHT
  }

  /** The insights `analyzeRebuttal` gives about an opponent round, in push order. */
  function Insights(opponent: RoundData): seq<Insight> {
    var terms := KeyTerms(opponent);
    (if opponent.logicScore > 75 then [LogicHint] else []) +
    (if opponent.emotionScore > 75 then [EmotionHint] else []) +
    (if |terms| > 3 then [KeyTermsHint(terms)] else []) +
    (if |opponent.dataPoints| > 0 then [DataHint] else [])
  }

  function Messages(insights: seq<Insight>): (r: seq<string>)
    ensures |r| == |insights|
  {
    if insights == [] then [] else [Message(insights[0])] + Messages(insights[1..])
  }

  lemma {:induction false} MessagesSnoc(insights: seq<Insight>, i: Insight)
    ensures Messages(insights + [i]) == Messages(insights) + [Message(i)]
  {
    if insights != [] {
      assert (insights + [i])[1..] == insights[1..] + [i];
      MessagesSnoc(insights[1..], i);
    } else {
      assert insights + [i] == [i];
    }
  }

  /** `analyzeRebuttal(current, opponent)`: the messages of `Insights(opponent)`. */
  method AnalyzeRebuttal(current: RoundData, opponent: RoundData) returns (insights: seq<string>)
    ensures insights == Messages(Insights(opponent))
  {
    insights := [];
    var oppWords := SplitWs(Lower(opponent.argument));
    var keywords := LongerThan(oppWords, 6);
    ghost var pushed: seq<Insight> := [];
    assert insights == Messages(pushed);
    if opponent.logicScore > 75 {
      insights := insights + [LOGIC_INSIGHT];
      MessagesSnoc(pushed, LogicHint);
      pushed := pushed + [LogicHint];
    }
    assert pushed == (if opponent.logicScore > 75 then [LogicHint] else []);
    if opponent.emotionScore > 75 {
      insights := insights + [EMOTION_INSIGHT];
      MessagesSnoc(pushed, EmotionHint);
      pushed := pushed + [EmotionHint];
    }
    assert pushed == (if opponent.logicScore > 75 then [LogicHint] else []) + (if opponent.emotionScore > 75 then [EmotionHint] else []);
    assert keywords == KeyTerms(opponent);
    if |keywords| > 3 {
      var line := KEY_TERMS_PREFIX + Join(FirstThree(keywords), ", ");
      assert line == Message(KeyTermsHint(keywords));
      insights := insights + [line];
      MessagesSnoc(pushed, KeyTermsHint(keywords));
      pushed := pushed + [KeyTermsHint(keywords)];
    }
    assert pushed == (if opponent.logicScore > 75 then [LogicHint] else []) + (if opponent.emotionScore > 75 then [EmotionHint] else []) + (if |keywords| > 3 then [KeyTermsHint(keywords)] else []);
    if |opponent.dataPoints| > 0 {
      insights := insights + [DATA_INSIGHT];
      MessagesSnoc(pushed, DataHint);
      pushed := pushed + [DataHint];
    }
    assert pushed == (if opponent.logicScore > 75 then [LogicHint] else []) + (if opponent.emotionScore > 75 then [EmotionHint] else []) + (if |keywords| > 3 then [KeyTermsHint(keywords)] else []) + (if |opponent.dataPoints| > 0 then [DataHint] else []);
    assert pushed == Insights(opponent);
  }

  // ---------------------------------------------------------------- properties

  /** At most one insight per rule. */
  lemma AtMostFourInsights(opponent: RoundData)
    ensures |Insights(opponent)| <= 4
  {
  }

  /** Each insight is given exactly when its rule fires. */
  lemma InsightRules(opponent: RoundData)
    ensures LogicHint in Insights(opponent) <==> opponent.logicScore > 75
    ensures EmotionHint in Insights(opponent) <==> opponent.emotionScore > 75
    ensures DataHint in Insights(opponent) <==> |opponent.dataPoints| > 0
    ensures (exists t :: KeyTermsHint(t) in Insights(opponent)) <==> |KeyTerms(opponent)| > 3
  {
    var terms := KeyTerms(opponent);
    if |terms| > 3 {
      assert KeyTermsHint(terms) in Insights(opponent);
    }
  }

  lemma KeyTermsHintIsKeyTerms(opponent: RoundData, t: seq<string>)
    requires KeyTermsHint(t) in Insights(opponent)
    ensures t == KeyTerms(opponent) && |t| > 3
  {
  }

  /** The key-terms line lists the first three words longer than six
      characters of the lowercased opponent argument. */
  lemma KeyTermsLine(opponent: RoundData, t: seq<string>)
    requires KeyTermsHint(t) in Insights(opponent)
    ensures t == KeyTerms(opponent) && |t| > 3
    ensures Message(KeyTermsHint(t)) == KEY_TERMS_PREFIX + t[0] + ", " + t[1] + ", " + t[2]
    ensures forall k :: 0 <= k < 3 ==> |t[k]| > 6 && t[k] in SplitWs(Lower(opponent.argument))
  {
    KeyTermsHintIsKeyTerms(opponent, t);
    KeyTermsMessage(t);
  }

  lemma KeyTermsMessage(t: seq<string>)
    requires |t| >= 3
    ensures Message(KeyTermsHint(t)) == KEY_TERMS_PREFIX + t[0] + ", " + t[1] + ", " + t[2]
  {
    assert FirstThree(t) == t[..3];
    JoinThree(t[..3], ", ");
    assert t[..3][0] == t[0] && t[..3][1] == t[1] && t[..3][2] == t[2];
  }

  /** The order of the pushes: logic, emotion, key terms, data. */
  function Rank(i: Insight): nat {
    match i
    case LogicHint => 0
    case EmotionHint => 1
    case KeyTermsHint(_) => 2
    case DataHint => 3
  }

  lemma InsightsInOrder(opponent: RoundData)
    ensures var r := Insights(opponent);
            forall i, j :: 0 <= i < j < |r| ==> Rank(r[i]) < Rank(r[j])
  {
  }
}
