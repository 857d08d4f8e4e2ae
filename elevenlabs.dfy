/** src/engine/elevenlabsVoiceService.ts: the ElevenLabs voice service.
    What is modelled is how a round picks its stage style, the delivery
    prompt built from the round's scores, and the character table.

    String literals are written as concatenations of short pieces, which
    keeps their verification cheap; each concatenation spells the source's
    string exactly. */
module ElevenLabs {
  import opened Rounds
  import Tts = GoogleTts

  // --------------------------------------------------------------- styles

  /** The keys of a `VOICE_STYLES` entry. */
  datatype Style = Opening | Rebuttal | Evidence | Emotional | Closing

  /** The key as the source spells it. */
  function StyleKey(s: Style): string {
    match s
    case Opening => "opening"
    case Rebuttal => "rebuttal"
    case Evidence => "evidence"
    case Emotional => "emotional"
    case Closing => "closing"
  }

  /** `getRoundStyle(round)`: rounds 1 to 4 have their own style, every
      other round number is a closing. */
  function GetRoundStyle(round: int): (s: Style)
    ensures round == 1 <==> s == Opening
    ensures round == 2 <==> s == Rebuttal
    ensures round == 3 <==> s == Evidence
    ensures round == 4 <==> s == Emotional
    ensures !(1 <= round <= 4) <==> s == Closing
  {
    if round == 1 then Opening
    else if round == 2 then Rebuttal
    else if round == 3 then Evidence
    else if round == 4 then Emotional
    else Closing
  }

  /** The five rounds of a debate get five different styles. */
  lemma RoundStylesDiffer(r1: int, r2: int)
    requires 1 <= r1 <= 5 && 1 <= r2 <= 5 && r1 != r2
    ensures GetRoundStyle(r1) != GetRoundStyle(r2)
  {
  }

  /** `VOICE_STYLES[speaker][style]`: defined for every speaker and style. */
  function VoiceStyle(speaker: Speaker, style: Style): (r: string)
    ensures r != ""
  {
    match speaker
    case Pro => (
      match style
      case Opening => "Confident, " + "engaging, " + "forward-" + "thinking, " + "energetic"
      case Rebuttal => "Sharp, " + "logical, " + "dismissive " + "of " + "opposition, " + "quick-paced"
      case Evidence => "Data-driven, " + "analytical, " + "fast-paced, " + "authoritative"
      case Emotional => "Passionate, " + "inspiring, " + "hopeful, " + "motivating"
      case Closing => "Powerful, " + "memorable, " + "confident, " + "commanding")
    case Con => (
      match style
      case Opening => "Thoughtful, " + "measured, " + "cautious, " + "wise"
      case Rebuttal => "Skeptical, " + "probing, " + "critical, " + "methodical"
      case Evidence => "Precise, " + "technical, " + "detail-" + "oriented, " + "careful"
      case Emotional => "Compassionate, " + "concerned, " + "protective, " + "grounded"
      case Closing => "Serious, " + "resolute, " + "cautious, " + "responsible")
  }

  /** The lookup with the key `getRoundStyle` returns never misses, so the
      tone of a prompt is never empty. */
  lemma StyleAlwaysDefined(speaker: Speaker, round: int)
    ensures VoiceStyle(speaker, GetRoundStyle(round)) != ""
  {
    var s := VoiceStyle(speaker, GetRoundStyle(round));
    assert |s| > 0;
  }

  // --------------------------------------------------------------- prompt

  /** The four delivery instructions, in the order they are appended. */
  datatype Cue = Conviction | Passion | Balance | CoolFacts

  function CueText(c: Cue): string {
    match c
    case Conviction => "Speak with " + "conviction " + "and " + "authority. "
    case Passion => "Convey " + "strong " + "emotion and " + "passion. "
    case Balance => "Balance " + "powerful " + "reasoning " + "with " + "emotional " + "resonance. "
    case CoolFacts => "Maintain " + "cool, " + "measured " + "delivery " + "focused on " + "facts. "
  }

  /** The instructions a round's scores call for. */
  function Cues(config: VoiceConfig): seq<Cue> {
    (if config.logicScore > 80 then [Conviction] else []) +
    (if config.emotionScore > 80 then [Passion] else []) +
    (if config.logicScore > 75 && config.emotionScore > 75 then [Balance] else []) +
    (if config.emotionScore < 50 && config.logicScore > 80 then [CoolFacts] else [])
  }

  /** The instructions run together, as `+=` leaves them. */
  function Delivery(cues: seq<Cue>): string {
    if cues == [] then "" else Delivery(cues[..|cues| - 1]) + CueText(cues[|cues| - 1])
  }

  lemma DeliverySnoc(cues: seq<Cue>, c: Cue)
    ensures Delivery(cues + [c]) == Delivery(cues) + CueText(c)
  {
    assert (cues + [c])[..|cues|] == cues;
  }

  /** `config.speaker === 'PRO' ? 'ALEX' : 'SOPHIA'`. */
  function SpeakerTag(speaker: Speaker): string {
    if speaker == Pro then "ALEX" else "SOPHIA"
  }

  /** The prompt around its three slots. */
  function PromptText(speaker: string, style: string, delivery: string): string {
    "[Speaker: " + speaker + "] [Tone: " + style + "] [Delivery: " + delivery +
    "] Speak this " + "debate " + "argument " + "naturally " + "and " + "expressively."
  }

  /** One `if (test) deliveryInstructions += text;` on instructions that so
      far read `Delivery(given)`. */
  method AppendCueIf(delivery: string, ghost given: seq<Cue>, test: bool, c: Cue)
    returns (extended: string, ghost now: seq<Cue>)
    requires delivery == Delivery(given)
    ensures now == given + (if test then [c] else [])
    ensures extended == Delivery(now)
  {
    extended, now := delivery, given;
    if test {
      extended := delivery + CueText(c);
      DeliverySnoc(given, c);
      now := given + [c];
    } else {
      assert given + [] == given;
    }
  }

  /** `generateVoicePrompt(config)`: the delivery instructions are appended
      one test at a time, then put into the prompt with the speaker's name
      and the style of the round. */
  method GenerateVoicePrompt(config: VoiceConfig) returns (prompt: string)
    ensures prompt == PromptText(SpeakerTag(config.speaker),
                                 VoiceStyle(config.speaker, GetRoundStyle(config.round)),
                                 Delivery(Cues(config)))
  {
    var speaker := if config.speaker == Pro then "ALEX" else "SOPHIA";
    var styleKey := GetRoundStyle(config.round);
    var style := VoiceStyle(config.speaker, styleKey);
    var deliveryInstructions := "";
    ghost var given: seq<Cue> := [];
    deliveryInstructions, given :=
      AppendCueIf(deliveryInstructions, given, config.logicScore > 80, Conviction);
    deliveryInstructions, given :=
      AppendCueIf(deliveryInstructions, given, config.emotionScore > 80, Passion);
    deliveryInstructions, given :=
      AppendCueIf(deliveryInstructions, given, config.logicScore > 75 && config.emotionScore > 75, Balance);
    deliveryInstructions, given :=
      AppendCueIf(deliveryInstructions, given, config.emotionScore < 50 && config.logicScore > 80, CoolFacts);
    assert given == Cues(config);
    prompt := PromptText(speaker, style, deliveryInstructions);
  }

  /** Each instruction is given exactly when its own test holds. */
  lemma CueRules(config: VoiceConfig)
    ensures Conviction in Cues(config) <==> config.logicScore > 80
    ensures Passion in Cues(config) <==> config.emotionScore > 80
    ensures Balance in Cues(config) <==> config.logicScore > 75 && config.emotionScore > 75
    ensures CoolFacts in Cues(config) <==> config.emotionScore < 50 && config.logicScore > 80
  {
  }

  /** The order of the tests. */
  function Rank(c: Cue): nat {
    match c
    case Conviction => 0
    case Passion => 1
    case Balance => 2
    case CoolFacts => 3
  }

  /** Instructions appear in test order, each at most once. */
  lemma CuesInOrder(config: VoiceConfig)
    ensures var c := Cues(config);
            forall i, j :: 0 <= i < j < |c| ==> Rank(c[i]) < Rank(c[j])
  {
  }

  /** The cool, factual delivery is never combined with passion or balance,
      and always comes with conviction. */
  lemma CoolExcludesPassion(config: VoiceConfig)
    requires CoolFacts in Cues(config)
    ensures Passion !in Cues(config) && Balance !in Cues(config)
    ensures Cues(config) == [Conviction, CoolFacts]
  {
    CueRules(config);
  }

  /** Without any instruction the delivery slot is empty. */
  lemma QuietRoundHasNoDelivery(config: VoiceConfig)
    requires config.logicScore <= 75 && config.emotionScore <= 80
    ensures Cues(config) == [] && Delivery(Cues(config)) == ""
  {
  }

  // ----------------------------------------------------------- characters

  /** One entry of `VOICE_CONFIG`. */
  datatype Character = Character(name: string, voiceId: string, description: string)

  /** `getCharacterInfo(speaker)`. */
  function GetCharacterInfo(speaker: Speaker): (r: Character)
    ensures r.name == Tts.GetCharacterInfo(speaker).name
  {
    match speaker
    case Pro => Character("ALEX", "EXAVITQu4E" + "sNXjluf0ak",
                          "Confident " + "debater " + "with " + "authoritative " + "tone")
    case Con => Character("SOPHIA", "nPczCjzI2d" + "evNBz1zQrH",
                          "Analytical " + "debater " + "with " + "balanced " + "delivery")
  }

  /** The prompt's speaker tag is the speaker's character, and both voice
      services cast the same two characters. */
  lemma SameCharacters(speaker: Speaker)
    ensures SpeakerTag(speaker) == GetCharacterInfo(speaker).name
    ensures GetCharacterInfo(speaker).name == Tts.GetCharacterInfo(speaker).name
    ensures GetCharacterInfo(Pro).name != GetCharacterInfo(Con).name
  {
    Tts.CharactersAreDistinct();
  }
}
