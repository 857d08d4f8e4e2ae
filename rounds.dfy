/** The round record shared by every stage of the pipeline (`RoundData` in
    src/engine/debateGenerator.ts) and its score-less draft
    (`Omit<RoundData, 'total_score'>`). */
module Rounds {

  /** The two sides. Everything that reaches a `RoundData` has already been
      normalised to one of these two values. */
  datatype Speaker = Pro | Con

  /** `'PRO' | 'CON' | 'TIE'`. */
  datatype Verdict = ProWins | ConWins | Tie

  function SpeakerName(s: Speaker): string {
    match s
    case Pro => "PRO"
    case Con => "CON"
  }

  /** A round before its total score is computed. */
  datatype Draft = Draft(
    round: int,
    speaker: Speaker,
    headline: string,
    argument: string,
    dataPoints: seq<string>,
    emotionScore: int,
    logicScore: int,
    rebuttalStrength: int)
  {
    function WithTotal(total: int): RoundData {
      RoundData(round, speaker, headline, argument, dataPoints,
                emotionScore, logicScore, rebuttalStrength, total)
    }
  }

  datatype RoundData = RoundData(
    round: int,
    speaker: Speaker,
    headline: string,
    argument: string,
    dataPoints: seq<string>,
    emotionScore: int,
    logicScore: int,
    rebuttalStrength: int,
    totalScore: int)

  /** `VoiceConfig`, declared identically by both voice services: what the
      speech layer is told about the round being read out. */
  datatype VoiceConfig = VoiceConfig(
    speaker: Speaker,
    round: int,
    logicScore: int,
    emotionScore: int,
    argument: string)
}
