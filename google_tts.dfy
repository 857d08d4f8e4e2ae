/** src/engine/googleTtsVoiceService.ts: the Google Cloud text-to-speech
    service. What is modelled is the SSML rewriting `addEmphasis` applies to
    an argument before it is synthesised, and the character table.

    String literals are written as concatenations of short pieces, which
    keeps their verification cheap; each concatenation spells the source's
    string exactly. */
module GoogleTts {
  import opened Text
  import opened Rounds

  /** The separator `addEmphasis` splits sentences on. */
  const SENTENCE_SEP: string := ". "
  /** The pause put before every sentence but the first. */
  const BREAK: string := "<break " + "time=" + "\"200ms\"" + "/>"
  const PROSODY_OPEN: string := "<prosody " + "rate=\"1.1\">"
  const PROSODY_CLOSE: string := "</prosody>"

  /** `.map((sentence, i) => i > 0 ? BREAK + sentence : sentence)`. */
  function WithBreaks(sentences: seq<string>): (r: seq<string>)
    requires |sentences| >= 1
    ensures |r| == |sentences|
  {
    [sentences[0]] + seq(|sentences| - 1, k requires 0 <= k < |sentences| - 1 => BREAK + sentences[k + 1])
  }

  /** `addEmphasis(text, config)`. */
  function AddEmphasis(text: string, config: VoiceConfig): (r: string)
    ensures config.emotionScore > 75 ==> r == InsertAfterEach(text, SENTENCE_SEP, BREAK)
    ensures config.emotionScore <= 75 && config.logicScore <= 80 ==> r == text
  {
    if config.emotionScore > 75 then
      BreaksFollowEachSeparator(text);
      Join(WithBreaks(SplitOn(text, SENTENCE_SEP)), SENTENCE_SEP)
    else if config.logicScore > 80 then PROSODY_OPEN + text + PROSODY_CLOSE
    else text
  }

  /** An independent description of the emotional rewrite: every occurrence
      of the separator, taken left to right, is followed by the pause. */
  function InsertAfterEach(s: string, sep: string, ins: string): string
    requires |sep| > 0
    decreases |s|
  {
    var i := Find(s, sep);
    if i == |s| then s else s[..i] + sep + ins + InsertAfterEach(s[i + |sep|..], sep, ins)
  }

  lemma JoinPrefixFirst(x: string, p: seq<string>, pre: string, sep: string)
    ensures Join([pre + x] + p, sep) == pre + Join([x] + p, sep)
  {
    if p != [] {
      JoinCons(pre + x, p, sep);
      JoinCons(x, p, sep);
    }
  }

  /** Splitting off the first sentence before or after adding the pauses
      agrees. */
  lemma WithBreaksCons(a: string, tail: seq<string>)
    requires |tail| >= 1
    ensures WithBreaks([a] + tail) == [a] + [BREAK + tail[0]] + WithBreaks(tail)[1..]
  {
    var r := WithBreaks([a] + tail);
    var q := [a] + [BREAK + tail[0]] + WithBreaks(tail)[1..];
    assert |r| == |q|;
    forall k | 0 <= k < |r| ensures r[k] == q[k] {
      if k >= 2 {
        assert r[k] == BREAK + ([a] + tail)[k];
        assert q[k] == WithBreaks(tail)[k - 1];
      }
    }
  }

  /** The emotional rewrite puts the pause after every sentence separator
      and changes nothing else. */
  lemma {:induction false} BreaksFollowEachSeparator(text: string)
    ensures Join(WithBreaks(SplitOn(text, SENTENCE_SEP)), SENTENCE_SEP) ==
            InsertAfterEach(text, SENTENCE_SEP, BREAK)
    decreases |text|
  {
    var sep := SENTENCE_SEP;
    var i := Find(text, sep);
    if i < |text| {
      var rest := text[i + |sep|..];
      SplitOnStep(text, sep, i);
      BreaksFollowEachSeparator(rest);
      JoinWithBreaksCons(text[..i], SplitOn(rest, sep));
    } else {
      assert SplitOn(text, sep) == [text];
    }
  }

  /** Adding a first sentence in front adds it, the separator and a pause. */
  lemma JoinWithBreaksCons(a: string, tail: seq<string>)
    requires |tail| >= 1
    ensures Join(WithBreaks([a] + tail), SENTENCE_SEP) ==
            a + SENTENCE_SEP + BREAK + Join(WithBreaks(tail), SENTENCE_SEP)
  {
    var sep := SENTENCE_SEP;
    var wt := WithBreaks(tail);
    WithBreaksCons(a, tail);
    assert wt == [tail[0]] + wt[1..];
    assert [a] + [BREAK + tail[0]] + wt[1..] == [a] + ([BREAK + tail[0]] + wt[1..]);
    JoinCons(a, [BREAK + tail[0]] + wt[1..], sep);
    JoinPrefixFirst(tail[0], wt[1..], BREAK, sep);
  }

  /** The SSML rewrite, case by case: emotion first, then logic, otherwise
      the text as given. */
  lemma EmphasisCases(text: string, config: VoiceConfig)
    ensures config.emotionScore > 75 ==> AddEmphasis(text, config) == InsertAfterEach(text, SENTENCE_SEP, BREAK)
    ensures config.emotionScore <= 75 && config.logicScore > 80 ==>
              AddEmphasis(text, config) == PROSODY_OPEN + text + PROSODY_CLOSE
    ensures config.emotionScore <= 75 && config.logicScore <= 80 ==> AddEmphasis(text, config) == text
  {
  }

  /** In the emotional case the logic score plays no part. */
  lemma EmotionTakesPrecedence(text: string, config: VoiceConfig, logic: int)
    requires config.emotionScore > 75
    ensures AddEmphasis(text, config) == AddEmphasis(text, config.(logicScore := logic))
  {
  }

  /** A single sentence gets no pause, whatever its scores. */
  lemma OneSentenceHasNoBreak(text: string, config: VoiceConfig)
    requires config.emotionScore > 75 && !Contains(text, SENTENCE_SEP)
    ensures AddEmphasis(text, config) == text
  {
    SplitOnWithoutSeparator(text, SENTENCE_SEP);
    assert WithBreaks([text]) == [text];
  }

  // ----------------------------------------------------------- characters

  /** One entry of `VOICE_CONFIG`. */
  datatype Voice = Voice(name: string, languageCode: string, voiceName: string, ssmlGender: string)

  function VoiceOf(speaker: Speaker): Voice {
    match speaker
    case Pro => Voice("ALEX", "en-US", "en-US-" + "Neural2-C", "MALE")
    case Con => Voice("SOPHIA", "en-US", "en-US-" + "Neural2-F", "FEMALE")
  }

  datatype CharacterInfo = CharacterInfo(name: string, voiceName: string)

  /** `getCharacterInfo(speaker)`: the name and voice of the speaker's
      `VOICE_CONFIG` entry. */
  function GetCharacterInfo(speaker: Speaker): (r: CharacterInfo)
    ensures r.name == VoiceOf(speaker).name && r.voiceName == VoiceOf(speaker).voiceName
  {
    CharacterInfo(VoiceOf(speaker).name, VoiceOf(speaker).voiceName)
  }

  /** The two sides are voiced by different characters with different
      voices, both American English. */
  lemma CharactersAreDistinct()
    ensures GetCharacterInfo(Pro).name != GetCharacterInfo(Con).name
    ensures GetCharacterInfo(Pro).voiceName != GetCharacterInfo(Con).voiceName
    ensures VoiceOf(Pro).languageCode == VoiceOf(Con).languageCode == "en-US"
  {
    assert |GetCharacterInfo(Pro).name| != |GetCharacterInfo(Con).name|;
    assert GetCharacterInfo(Pro).voiceName[|"en-US-Neural2-"|] != GetCharacterInfo(Con).voiceName[|"en-US-Neural2-"|];
  }
}
