/** src/engine/safetyFilter.ts: the topic filter applied to user input before
    framing. It never rejects a topic; it substitutes, expands or keeps it.
    The random choice of a trending topic is the injected index `pick`.

    String literals are written as concatenations of short pieces, which
    keeps their verification cheap; each concatenation spells the source's
    string exactly. */
module SafetyFilter {
  import opened Wrappers
  import opened Text

  const OFFENSIVE_WORDS: seq<string> := [
    "kill", "murder", "terrorist", "racism", "nazi", "hate", "slur",
    "genocide", "supremacy", "violence against"
  ]

  const TRENDING_TOPICS: seq<string> := [
    "Artificial " + "Intelligence " + "in Education",
    "Remote Work " + "vs Office " + "Work",
    "Space " + "Exploration " + "Funding",
    "Social " + "Media " + "Impact on " + "Youth",
    "Electric " + "Vehicles vs " + "Gasoline " + "Cars",
    "Universal " + "Basic Income",
    "Renewable " + "Energy " + "Transition",
    "Genetic " + "Engineering " + "Ethics",
    "Cryptocurrency " + "as Currency",
    "Nuclear " + "Energy " + "Future",
    "Metaverse " + "and Virtual " + "Reality",
    "Automation " + "in Workforce",
    "Cybersecurity " + "Privacy Laws",
    "Food " + "Technology " + "and " + "Lab-Grown " + "Meat",
    "Quantum " + "Computing " + "Applications",
    "Bioethics " + "and Human " + "Cloning",
    "Smart City " + "Infrastructure",
    "Blockchain and Web3",
    "Mental " + "Health Tech " + "Solutions",
    "Sustainable " + "Fashion " + "Innovation",
    "Gene " + "Therapy " + "Accessibility",
    "AI-Generated " + "Content " + "Rights",
    "Mars " + "Colonization " + "Viability",
    "Ocean " + "Conservation " + "Tech",
    "Brain-Computer " + "Interfaces",
    "Drone " + "Delivery " + "Systems",
    "Vertical " + "Farming " + "Solutions",
    "Autonomous " + "Vehicle " + "Safety",
    "Digital " + "Currencies " + "and CBDCs",
    "Extended " + "Reality in " + "Medicine"
  ]

  /** The own keys of the expansion table and what they map to. */
  const VAGUE_EXPANSIONS: map<string, string> := map[
    "ai" := "Artificial " + "Intelligence " + "Should " + "Replace " + "Human " + "Decision-Making",
    "money" := "Wealth " + "Inequality " + "Is the " + "Biggest " + "Global " + "Threat",
    "school" := "Traditional " + "Schooling " + "Is Outdated",
    "war" := "Military " + "Intervention " + "Can Be " + "Justified",
    "food" := "Plant-Based " + "Diets " + "Should Be " + "the Global " + "Standard",
    "tech" := "Technology " + "Does More " + "Harm Than " + "Good",
    "health" := "Universal " + "Healthcare " + "Is a " + "Fundamental " + "Right",
    "space" := "Space " + "Colonization " + "Should Be " + "Humanity's " + "Priority",
    "climate" := "Climate " + "Change " + "Requires " + "Radical " + "Economic " + "Reform",
    "games" := "Video Games " + "Are a Net " + "Positive " + "for Society",
    "robots" := "Robots " + "Should " + "Replace " + "Humans in " + "Dangerous " + "Jobs",
    "internet" := "The " + "Internet " + "Should Be " + "Regulated " + "Like a " + "Public " + "Utility",
    "vr" := "Virtual " + "Reality " + "Will " + "Replace " + "Physical " + "Experiences",
    "drones" := "Autonomous " + "Drones " + "Should Be " + "Widely " + "Available",
    "crypto" := "Cryptocurrency " + "Is Better " + "Than " + "Traditional " + "Currency",
    "social" := "Social " + "Media Does " + "More Harm " + "Than Good",
    "privacy" := "Data " + "Privacy " + "Should Be a " + "Constitutional " + "Right",
    "energy" := "Renewable " + "Energy " + "Should 100% " + "Replace " + "Fossil Fuels",
    "ethics" := "Technology " + "Should Be " + "Regulated " + "by " + "Government",
    "innovation" := "Rapid " + "Innovation " + "Is Better " + "Than Caution",
    "work" := "Remote Work " + "Is the " + "Future of " + "Employment",
    "education" := "AI Will " + "Revolutionize " + "Learning",
    "environment" := "Environmental " + "Protection " + "Should " + "Outweigh " + "Economics",
    "rights" := "Digital " + "Rights Are " + "as " + "Important " + "as Physical " + "Rights"
  ]

  const SAFE_REPLACEMENT: string := "Technology " + "in Education"

  /** `{ safe, topic, suggestion? }`. */
  datatype FilterResult = FilterResult(safe: bool, topic: string, suggestion: Option<string>)

  /** Some offensive word occurs as a substring of `lower`. */
  predicate Offensive(lower: string) {
    exists w :: w in OFFENSIVE_WORDS && Contains(lower, w)
  }

  /** `trimmed.charAt(0).toUpperCase() + trimmed.slice(1)`. */
  function Capitalise(s: string): (r: string)
    ensures |r| == |s|
    ensures s != [] ==> r[0] == UpperChar(s[0]) && r[1..] == s[1..]
  {
    if s == [] then [] else [UpperChar(s[0])] + s[1..]
  }

  function ImpactOf(word: string): string {
    "The Impact of " + Capitalise(word) + " on Modern Society"
  }

  /** The expansion of a single word: its table entry when it is one of the
      table's own keys, otherwise the generic "impact" question. */
  function ExpandWord(trimmed: string): (r: string)
    ensures r != ""
    ensures Lower(trimmed) in VAGUE_EXPANSIONS ==> r == VAGUE_EXPANSIONS[Lower(trimmed)]
    ensures Lower(trimmed) !in VAGUE_EXPANSIONS ==> r == ImpactOf(trimmed)
  {
    var lower := Lower(trimmed);
    if lower in VAGUE_EXPANSIONS then VAGUE_EXPANSIONS[lower] else ImpactOf(trimmed)
  }

  /** `filterTopic(input)`, with the own-key reading of the expansion table. */
  function FilterTopic(input: string, pick: nat): (r: FilterResult)
    requires pick < |TRENDING_TOPICS|
    ensures r.safe && r.topic != ""
    ensures AllSpace(input) ==> r.topic == TRENDING_TOPICS[pick] && r.suggestion == Some(r.topic)
    ensures !AllSpace(input) ==> r.suggestion.None?
    ensures !AllSpace(input) && Offensive(Lower(Trim(input))) ==> r.topic == SAFE_REPLACEMENT
    ensures !AllSpace(input) && !Offensive(Lower(Trim(input))) && NoSpace(Trim(input)) ==>
              r.topic == ExpandWord(Trim(input))
    ensures !AllSpace(input) && !Offensive(Lower(Trim(input))) && !NoSpace(Trim(input)) ==>
              r.topic == Trim(input)
  {
    var trimmed := Trim(input);
    if trimmed == "" then
      var random := TRENDING_TOPICS[pick];
      FilterResult(true, random, Some(random))
    else
      var lower := Lower(trimmed);
      if Offensive(lower) then FilterResult(true, SAFE_REPLACEMENT, None)
      else
        var words := SplitWs(trimmed);
        SingleWordIffNoSpace(trimmed);
        if |words| <= 1 then FilterResult(true, ExpandWord(trimmed), None)
        else FilterResult(true, trimmed, None)
  }

  /** `getRandomTopic()`. */
  function GetRandomTopic(pick: nat): (r: string)
    requires pick < |TRENDING_TOPICS|
    ensures r in TRENDING_TOPICS && r != ""
  {
    TRENDING_TOPICS[pick]
  }

  /** Every trending topic can be drawn, and a blank input draws from the
      same list as `getRandomTopic`. */
  lemma RandomTopicsCoverTable(input: string, pick: nat)
    requires pick < |TRENDING_TOPICS|
    ensures forall t :: t in TRENDING_TOPICS ==> exists p :: 0 <= p < |TRENDING_TOPICS| && GetRandomTopic(p) == t
    ensures AllSpace(input) ==> FilterTopic(input, pick).topic == GetRandomTopic(pick)
  {
    forall t | t in TRENDING_TOPICS
      ensures exists p :: 0 <= p < |TRENDING_TOPICS| && GetRandomTopic(p) == t
    {
      var p :| 0 <= p < |TRENDING_TOPICS| && TRENDING_TOPICS[p] == t;
      assert GetRandomTopic(p) == t;
    }
  }

  /** Substring matching also catches harmless words: "skill" contains "kill". */
  lemma SkillIsReplaced(pick: nat)
    requires pick < |TRENDING_TOPICS|
    ensures FilterTopic("skill", pick).topic == SAFE_REPLACEMENT
  {
    assert SliceAt("skill", "kill", 1);
    assert Offensive(Lower(Trim("skill"))) by {
      assert Trim("skill") == "skill" by { TrimOfTrimmed("skill"); }
      assert Lower("skill") == "skill";
      assert "kill" in OFFENSIVE_WORDS;
    }
  }

  // ------------------------------------------- the table as a JS object

  /** What a property read on a plain object literal can yield. */
  datatype JsValue = JsString(s: string) | JsFunction | JsObject | JsUndefined

  /** `VAGUE_EXPANSIONS[key]` as JavaScript evaluates it: the own keys first,
      then the lower-case names that every object literal inherits from
      `Object.prototype` (`constructor` is a function, `__proto__` the
      prototype object). */
  function ObjectLookup(key: string): (v: JsValue)
    ensures key in VAGUE_EXPANSIONS ==> v == JsString(VAGUE_EXPANSIONS[key])
    ensures key !in VAGUE_EXPANSIONS && key != "constructor" && key != "__proto__" ==> v == JsUndefined
  {
    if key in VAGUE_EXPANSIONS then JsString(VAGUE_EXPANSIONS[key])
    else if key == "constructor" then JsFunction
    else if key == "__proto__" then JsObject
    else JsUndefined
  }

  predicate JsTruthy(v: JsValue) {
    match v
    case JsString(s) => s != ""
    case JsFunction => true
    case JsObject => true
    case JsUndefined => false
  }

  /** The filter as written: the topic is whatever the property read yielded
      when that is truthy. */
  function FilterTopicAsWritten(input: string, pick: nat): (r: (bool, JsValue))
    requires pick < |TRENDING_TOPICS|
    ensures !(NoSpace(Trim(input)) && Lower(Trim(input)) in {"constructor", "__proto__"}) ==>
              r == (true, JsString(FilterTopic(input, pick).topic))
    ensures !AllSpace(input) && !Offensive(Lower(Trim(input))) && NoSpace(Trim(input)) ==>
              r.1 == (if JsTruthy(ObjectLookup(Lower(Trim(input)))) then ObjectLookup(Lower(Trim(input)))
                      else JsString(ImpactOf(Trim(input))))
  {
    var trimmed := Trim(input);
    if trimmed == "" then (true, JsString(TRENDING_TOPICS[pick]))
    else
      var lower := Lower(trimmed);
      if Offensive(lower) then (true, JsString(SAFE_REPLACEMENT))
      else
        SingleWordIffNoSpace(trimmed);
        if |SplitWs(trimmed)| <= 1 then
          var expanded := ObjectLookup(lower);
          if JsTruthy(expanded) then (true, expanded)
          else (true, JsString(ImpactOf(trimmed)))
        else (true, JsString(trimmed))
  }

  /** A word containing a character that `s` lacks does not occur in `s`. */
  lemma AbsentCharBlocks(s: string, sub: string, c: char)
    requires c in sub && c !in s
    ensures !Contains(s, sub)
  {
    forall i | 0 <= i <= |s| - |sub| ensures !SliceAt(s, sub, i) {
      var j :| 0 <= j < |sub| && sub[j] == c;
      assert s[i..i + |sub|][j] == s[i + j];
    }
  }

  lemma ConstructorIsInoffensive()
    ensures !Offensive("constructor")
  {
    ConstructorAvoidsFirstWords();
    ConstructorAvoidsLastWords();
    NoWordNotOffensive("constructor");
  }

  lemma ConstructorAvoidsFirstWords()
    ensures forall o :: o in OFFENSIVE_WORDS[..5] ==> !Contains("constructor", o)
  {
    var w := "constructor";
    assert !Contains(w, "kill") by { AbsentCharBlocks(w, "kill", 'k'); }
    assert !Contains(w, "murder") by { AbsentCharBlocks(w, "murder", 'm'); }
    assert !Contains(w, "terrorist") by { AbsentCharBlocks(w, "terrorist", 'e'); }
    assert !Contains(w, "racism") by { AbsentCharBlocks(w, "racism", 'a'); }
    assert !Contains(w, "nazi") by { AbsentCharBlocks(w, "nazi", 'a'); }
  }

  lemma ConstructorAvoidsLastWords()
    ensures forall o :: o in OFFENSIVE_WORDS[5..] ==> !Contains("constructor", o)
  {
    var w := "constructor";
    assert !Contains(w, "hate") by { AbsentCharBlocks(w, "hate", 'h'); }
    assert !Contains(w, "slur") by { AbsentCharBlocks(w, "slur", 'l'); }
    assert !Contains(w, "genocide") by { AbsentCharBlocks(w, "genocide", 'g'); }
    assert !Contains(w, "supremacy") by { AbsentCharBlocks(w, "supremacy", 'p'); }
    assert !Contains(w, "violence against") by { AbsentCharBlocks(w, "violence against", 'v'); }
  }

  lemma NoWordNotOffensive(lower: string)
    requires forall o :: o in OFFENSIVE_WORDS[..5] ==> !Contains(lower, o)
    requires forall o :: o in OFFENSIVE_WORDS[5..] ==> !Contains(lower, o)
    ensures !Offensive(lower)
  {
    assert OFFENSIVE_WORDS == OFFENSIVE_WORDS[..5] + OFFENSIVE_WORDS[5..];
  }

  /** "constructor" is neither blank nor offensive, yet as written it comes
      back with a function where the topic string should be; the own-key
      reading gives the generic question instead. */
  lemma ConstructorTopicIsNotAString(pick: nat)
    requires pick < |TRENDING_TOPICS|
    ensures FilterTopicAsWritten("constructor", pick).1 == JsFunction
    ensures FilterTopic("constructor", pick).topic == "The Impact of Constructor on Modern Society"
  {
    ConstructorAsWritten(pick);
    ConstructorCorrected(pick);
  }

  /** The spelling facts about the word "constructor" that both readings
      turn on. */
  lemma ConstructorSpelling()
    ensures Trim("constructor") == "constructor" && Lower("constructor") == "constructor"
    ensures NoSpace("constructor") && !AllSpace("constructor")
  {
    ConstructorTrimmed();
    LowerConstructor();
    ConstructorHasNoSpace();
  }

  lemma ConstructorTrimmed()
    ensures Trim("constructor") == "constructor"
  {
    var w := "constructor";
    assert !IsSpace(w[0]) && !IsSpace(w[|w| - 1]);
    TrimOfTrimmed(w);
  }

  lemma ConstructorHasNoSpace()
    ensures NoSpace("constructor") && !AllSpace("constructor")
  {
    var w := "constructor";
    assert !IsSpace(w[0]);
  }

  lemma ConstructorNotAKey()
    ensures "constructor" !in VAGUE_EXPANSIONS
  {
  }

  lemma ConstructorAsWritten(pick: nat)
    requires pick < |TRENDING_TOPICS|
    ensures FilterTopicAsWritten("constructor", pick).1 == JsFunction
  {
    ConstructorSpelling();
    ConstructorIsInoffensive();
    ConstructorNotAKey();
    assert ObjectLookup("constructor") == JsFunction;
  }

  lemma ConstructorCorrected(pick: nat)
    requires pick < |TRENDING_TOPICS|
    ensures FilterTopic("constructor", pick).topic == "The Impact of Constructor on Modern Society"
  {
    ConstructorSpelling();
    ConstructorIsInoffensive();
    ConstructorNotAKey();
    assert ImpactOf("constructor") == "The Impact of Constructor on Modern Society" by {
      CapitaliseConstructor();
      ImpactText();
    }
  }

  lemma CapitaliseConstructor()
    ensures Capitalise("constructor") == "Constructor"
  {
    assert "constructor"[1..] == "onstructor";
  }

  lemma ImpactText()
    ensures "The Impact of " + "Constructor" + " on Modern Society" == "The Impact of Constructor on Modern Society"
  {
  }

  lemma LowerConstructor()
    ensures Lower("constructor") == "constructor"
  {
  }
}
