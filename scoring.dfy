/** src/engine/scoringEngine.ts: the score of one round, the per-side totals
    and the winner. */
module Scoring {
  import opened Text
  import opened Rounds

  /** `Math.round`: the nearest integer, halves rounded towards +infinity. */
  function MathRound(x: real): (r: int)
    ensures r as real - 0.5 <= x < r as real + 0.5
  {
    (x + 0.5).Floor
  }

  /** Both sub-scores strictly above 75 earn the 50-point bonus. */
  predicate EarnsBonus(logic: int, emotion: int) {
    logic > 75 && emotion > 75
  }

  const BONUS: int := 50

  /** `calculateScore` (and the two `calcTotal` copies, which compute the same
      formula): `Math.round(0.5 * words + logic + emotion + rebuttal [+ 50])`.
      The half-point from an odd word count always rounds up, so the score is
      the integer sum plus half the word count rounded up. */
  function CalculateScore(argument: string, logic: int, emotion: int, rebuttal: int): (r: int)
    ensures r == logic + emotion + rebuttal + (if EarnsBonus(logic, emotion) then BONUS else 0)
                 + (WordCount(argument) + 1) / 2
    ensures !EarnsBonus(logic, emotion) ==> r == logic + emotion + rebuttal + (Runs(argument) + 2) / 2
  {
    var words := WordCount(argument);
    var base := words as real * 0.5 + logic as real + emotion as real;
    var base' := base + rebuttal as real;
    var base'' := if EarnsBonus(logic, emotion) then base' + BONUS as real else base';
    WordCountIsRunsPlusOne(argument);
    HalfWordsRoundUp(logic + emotion + rebuttal + (if EarnsBonus(logic, emotion) then BONUS else 0), words);
    MathRound(base'')
  }

  lemma HalfWordsRoundUp(sum: int, words: nat)
    ensures MathRound(words as real * 0.5 + sum as real) == sum + (words + 1) / 2
  {
  }

  /** The round's score from its own fields. */
  function ScoreOf(r: RoundData): int {
    CalculateScore(r.argument, r.logicScore, r.emotionScore, r.rebuttalStrength)
  }

  /** A draft completed with the score the formula gives it. */
  function Complete(d: Draft): (r: RoundData)
    ensures r.totalScore == CalculateScore(d.argument, d.logicScore, d.emotionScore, d.rebuttalStrength)
    ensures r == d.WithTotal(r.totalScore)
  {
    d.WithTotal(CalculateScore(d.argument, d.logicScore, d.emotionScore, d.rebuttalStrength))
  }

  // ------------------------------------------------------------------ totals

  datatype Totals = Totals(pro: int, con: int)

  function Plus(a: Totals, b: Totals): Totals {
    Totals(a.pro + b.pro, a.con + b.con)
  }

  /** What one round adds: a round whose speaker is not PRO counts for CON. */
  function Share(r: RoundData): (t: Totals)
    ensures t.pro + t.con == r.totalScore
    ensures r.speaker != Pro ==> t == Totals(0, r.totalScore)
  {
    if r.speaker == Pro then Totals(r.totalScore, 0) else Totals(0, r.totalScore)
  }

  /** The totals of a prefix, grown one round at a time from the left as the
      source's loop does. */
  function TotalsOf(rounds: seq<RoundData>): Totals
    decreases |rounds|
  {
    if rounds == [] then Totals(0, 0)
    else Plus(TotalsOf(rounds[..|rounds| - 1]), Share(rounds[|rounds| - 1]))
  }

  /** `calculateTotalScores`: a single pass with two running accumulators. */
  method CalculateTotalScores(rounds: seq<RoundData>) returns (t: Totals)
    ensures t == TotalsOf(rounds)
    ensures t.pro == SideSum(rounds, Pro) && t.con == SideSum(rounds, Con)
    ensures t.pro + t.con == SumScores(rounds)
  {
    var pro := 0;
    var con := 0;
    for i := 0 to |rounds|
      invariant Totals(pro, con) == TotalsOf(rounds[..i])
    {
      var r := rounds[i];
      assert rounds[..i + 1][..i] == rounds[..i];
      if r.speaker == Pro {
        pro := pro + r.totalScore;
      } else {
        con := con + r.totalScore;
      }
    }
    assert rounds[..|rounds|] == rounds;
    t := Totals(pro, con);
    TotalsArePartitionSums(rounds);
    TotalsSumAll(rounds);
  }

  // ------------------------------------------------- reference definitions

  /** Sum of every round's score. */
  function SumScores(rounds: seq<RoundData>): int {
    if rounds == [] then 0 else rounds[0].totalScore + SumScores(rounds[1..])
  }

  /** Sum of the scores of the rounds spoken by `side`. */
  function SideSum(rounds: seq<RoundData>, side: Speaker): int {
    if rounds == [] then 0
    else (if rounds[0].speaker == side then rounds[0].totalScore else 0) + SideSum(rounds[1..], side)
  }

  lemma {:induction false} SideSumAppend(a: seq<RoundData>, b: seq<RoundData>, side: Speaker)
    ensures SideSum(a + b, side) == SideSum(a, side) + SideSum(b, side)
  {
    if a == [] {
      assert a + b == b;
    } else {
      assert (a + b)[1..] == a[1..] + b;
      SideSumAppend(a[1..], b, side);
    }
  }

  lemma {:induction false} SumScoresAppend(a: seq<RoundData>, b: seq<RoundData>)
    ensures SumScores(a + b) == SumScores(a) + SumScores(b)
  {
    if a == [] {
      assert a + b == b;
    } else {
      assert (a + b)[1..] == a[1..] + b;
      SumScoresAppend(a[1..], b);
    }
  }

  /** The totals are the per-side sums of the partition by speaker. */
  lemma {:induction false} TotalsArePartitionSums(rounds: seq<RoundData>)
    ensures TotalsOf(rounds).pro == SideSum(rounds, Pro)
    ensures TotalsOf(rounds).con == SideSum(rounds, Con)
    decreases |rounds|
  {
    if rounds != [] {
      var init := rounds[..|rounds| - 1];
      var last := rounds[|rounds| - 1];
      assert rounds == init + [last];
      TotalsArePartitionSums(init);
      SideSumAppend(init, [last], Pro);
      SideSumAppend(init, [last], Con);
    }
  }

  /** pro + con is the sum of every round's score; nothing is lost or counted twice. */
  lemma {:induction false} TotalsSumAll(rounds: seq<RoundData>)
    ensures TotalsOf(rounds).pro + TotalsOf(rounds).con == SumScores(rounds)
    decreases |rounds|
  {
    if rounds != [] {
      var init := rounds[..|rounds| - 1];
      var last := rounds[|rounds| - 1];
      assert rounds == init + [last];
      TotalsSumAll(init);
      SumScoresAppend(init, [last]);
    }
  }

  /** Totals are additive over concatenation. */
  lemma {:induction false} TotalsAppend(a: seq<RoundData>, b: seq<RoundData>)
    ensures TotalsOf(a + b) == Plus(TotalsOf(a), TotalsOf(b))
    decreases |b|
  {
    if b == [] {
      assert a + b == a;
    } else {
      var init := b[..|b| - 1];
      var last := b[|b| - 1];
      assert (a + b)[..|a + b| - 1] == a + init;
      assert (a + b)[|a + b| - 1] == last;
      TotalsAppend(a, init);
    }
  }

  // ------------------------------------------------------------------ winner

  /** `getWinner`: a strict majority of the partition sums wins, equality ties. */
  function GetWinner(rounds: seq<RoundData>): (v: Verdict)
    ensures v == Tie <==> SideSum(rounds, Pro) == SideSum(rounds, Con)
    ensures v == ProWins <==> SideSum(rounds, Pro) > SideSum(rounds, Con)
    ensures v == ConWins <==> SideSum(rounds, Con) > SideSum(rounds, Pro)
  {
    var t := TotalsOf(rounds);
    TotalsArePartitionSums(rounds);
    if t.pro > t.con then ProWins
    else if t.con > t.pro then ConWins
    else Tie
  }
}
