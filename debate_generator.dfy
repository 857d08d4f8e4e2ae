/** src/engine/debateGenerator.ts: the local, template-based debate used when
    the AI is unavailable. Five stage generators produce a PRO and a CON round
    each; `generateFullDebate` interleaves them and scores every round.

    Every value the source takes from `Math.random` is supplied in a `Draw`:
    the table entry (`item`), the template (`pick`), the three sub-scores and,
    for the evidence stage, the numbers printed inside the data points.

    String literals are written as concatenations of short pieces, which
    keeps their verification cheap; each concatenation spells the source's
    string exactly. */
module DebateGenerator {
  import opened Text
  import opened Rounds
  import opened Scoring

  /** The random choices one generator call consumes. */
  datatype Draw = Draw(item: nat, pick: nat, logic: int, emotion: int, rebuttal: int, nums: seq<int>)

  datatype Stage = Opening | Rebuttal | Evidence | Emotional | Closing

  /** The stage generated at loop iteration i. */
  function StageAt(i: nat): Stage
    requires i < 5
  {
    if i == 0 then Opening else if i == 1 then Rebuttal else if i == 2 then Evidence
    else if i == 3 then Emotional else Closing
  }

  /** `rand(min, max)` yields an integer in [min, max]. */
  predicate InRange(v: int, lo: int, hi: int) {
    lo <= v <= hi
  }

  /** The ranges of the three numbers printed in each evidence set. */
  const PRO_EVIDENCE_RANGES: seq<seq<(int, int)>> := [[(25, 60), (70, 95), (2, 15)], [(20, 45), (60, 88), (3, 8)], [(15, 40), (10, 35), (80, 97)]]
  const CON_EVIDENCE_RANGES: seq<seq<(int, int)>> := [[(30, 55), (2, 5), (5, 20)], [(40, 65), (200, 500), (3, 7)], [(15, 35), (25, 50), (1, 10)]]

  function EvidenceRanges(side: Speaker, choice: nat): (r: seq<(int, int)>)
    requires choice < 3
    ensures |r| == 3
  {
    if side == Pro then PRO_EVIDENCE_RANGES[choice] else CON_EVIDENCE_RANGES[choice]
  }

  /** What `Math.random` can supply to each stage's generator for each side. */
  predicate ValidDraw(stage: Stage, side: Speaker, d: Draw) {
    match stage
    case Opening =>
      d.item < 10 && d.pick < 3 && InRange(d.logic, 60, 85) && InRange(d.emotion, 40, 65)
    case Rebuttal =>
      d.item < 3 && d.pick < 3 &&
      InRange(d.logic, 65, 90) && InRange(d.emotion, 45, 70) && InRange(d.rebuttal, 60, 90)
    case Evidence =>
      d.pick < 3 && |d.nums| == 3 &&
      (forall j :: 0 <= j < 3 ==> InRange(d.nums[j], EvidenceRanges(side, d.pick)[j].0, EvidenceRanges(side, d.pick)[j].1)) &&
      InRange(d.emotion, 30, 55) && InRange(d.logic, 75, 95) && InRange(d.rebuttal, 50, 75)
    case Emotional =>
      d.item < 5 && d.pick < 2 &&
      InRange(d.emotion, 80, 98) && InRange(d.logic, 35, 60) && InRange(d.rebuttal, 40, 70)
    case Closing =>
      d.pick < 3 && InRange(d.emotion, 70, 90) && InRange(d.logic, 70, 90) && InRange(d.rebuttal, 50, 80)
  }

  // ---------------------------------------------------------- template literals

  /** A `${...}` placeholder of an argument template. */
  datatype Hole =
    | TopicText | TopicLower | HeadlineText | StatText | StatLower | KeywordText | ScenarioText
    | PointText(k: nat) | NumberText(k: nat)
    | Purpose

  /** One piece of a template literal: fixed text or a placeholder. */
  datatype Part = Fixed(text: string) | Slot(hole: Hole)

  type Template = seq<Part>

  /** The values the placeholders are filled with. */
  datatype Bindings = Bindings(side: Speaker, topic: string, headline: string, stat: string,
                               keyword: string, scenario: string, points: seq<string>, nums: seq<int>)

  function NoBindings(side: Speaker, topic: string): Bindings {
    Bindings(side, topic, "", "", "", "", [], [])
  }

  function Value(h: Hole, b: Bindings): string {
    match h
    case TopicText => b.topic
    case TopicLower => Lower(b.topic)
    case HeadlineText => b.headline
    case StatText => b.stat
    case StatLower => Lower(b.stat)
    case KeywordText => b.keyword
    case ScenarioText => b.scenario
    case PointText(k) => if k < |b.points| then b.points[k] else ""
    case NumberText(k) => if k < |b.nums| then IntToString(b.nums[k]) else ""
    case Purpose => if b.side == Pro then "prove the " + "transformative " + "potential" else "expose the " + "real costs"
  }

  function Piece(p: Part, b: Bindings): string {
    match p
    case Fixed(s) => s
    case Slot(h) => Value(h, b)
  }

  /** The template literal evaluated: its pieces in order, each placeholder
      replaced by its value. */
  function Render(t: Template, b: Bindings): string {
    if t == [] then "" else Piece(t[0], b) + Render(t[1..], b)
  }

  /** Rendering distributes over concatenation of templates. */
  lemma {:induction false} RenderAppend(t: Template, u: Template, b: Bindings)
    ensures Render(t + u, b) == Render(t, b) + Render(u, b)
  {
    if t == [] {
      assert t + u == u;
    } else {
      assert (t + u)[1..] == t[1..] + u;
      RenderAppend(t[1..], u, b);
    }
  }

  /** Every piece of a template appears, filled in, in its rendering. */
  lemma RenderShowsPiece(t: Template, b: Bindings, i: nat)
    requires i < |t|
    ensures Contains(Render(t, b), Piece(t[i], b))
  {
    assert t == t[..i] + [t[i]] + t[i + 1..];
    RenderAppend(t[..i] + [t[i]], t[i + 1..], b);
    RenderAppend(t[..i], [t[i]], b);
    assert Render([t[i]], b) == Piece(t[i], b) by {
      assert [t[i]][1..] == [];
    }
    var r := Render(t, b);
    var k := |Render(t[..i], b)|;
    assert r[k..k + |Piece(t[i], b)|] == Piece(t[i], b);
    assert SliceAt(r, Piece(t[i], b), k);
  }

  /** The template has a placeholder for h. */
  predicate Mentions(t: Template, h: Hole) {
    exists i | 0 <= i < |t| :: t[i] == Slot(h)
  }

  /** Every placeholder of a template shows its value in the rendering. */
  lemma RenderShowsValues(t: Template, b: Bindings)
    ensures forall h :: Mentions(t, h) ==> Contains(Render(t, b), Value(h, b))
  {
    forall h | Mentions(t, h)
      ensures Contains(Render(t, b), Value(h, b))
    {
      var i :| 0 <= i < |t| && t[i] == Slot(h);
      RenderShowsPiece(t, b, i);
    }
  }

  // ------------------------------------------------------------- the texts

  /** A pair of tables, one per side. */
  datatype PerSide<T> = PerSide(pro: T, con: T) {
    function Of(side: Speaker): T {
      if side == Pro then pro else con
    }
  }

  /** The argument templates of the five stages, per side (the evidence
      argument is shared; its `Purpose` placeholder depends on the side). */
  datatype Texts = Texts(
    headlines: seq<string>,
    stats: seq<string>,
    scenarios: PerSide<seq<string>>,
    openings: PerSide<seq<Template>>,
    rebuttals: PerSide<seq<Template>>,
    evidence: PerSide<seq<seq<Template>>>,
    evidenceArgument: Template,
    emotionals: PerSide<seq<Template>>,
    closings: PerSide<seq<Template>>)

  predicate Sized<T>(p: PerSide<seq<T>>, n: nat) {
    |p.pro| == n && |p.con| == n
  }

  predicate Triples(sets: seq<seq<Template>>) {
    |sets| == 3 && forall c :: 0 <= c < 3 ==> |sets[c]| == 3
  }

  /** The shape the generators index into: five headlines, ten statistics, five scenarios
      per side, three templates per side for
      each stage except the emotional one, which has two, and three evidence
      sets of three data points each. */
  predicate Shaped(x: Texts) {
    |x.headlines| == 5 && |x.stats| == 10 && Sized(x.scenarios, 5) &&
    Sized(x.openings, 3) && Sized(x.rebuttals, 3) && Triples(x.evidence.pro) && Triples(x.evidence.con) &&
    Sized(x.emotionals, 2) && Sized(x.closings, 3)
  }

  /** Every argument quotes what its stage is about: the side's headline in
      the opening, the opponent's keyword in the rebuttal, all three data
      points in the evidence round, the scenario in the emotional appeal. */
  predicate Quoting(x: Texts)
    requires Shaped(x)
  {
    (forall side: Speaker, k :: 0 <= k < 3 ==> Mentions(x.openings.Of(side)[k], HeadlineText)) &&
    (forall side: Speaker, k :: 0 <= k < 3 ==> Mentions(x.rebuttals.Of(side)[k], KeywordText)) &&
    (forall j :: 0 <= j < 3 ==> Mentions(x.evidenceArgument, PointText(j))) &&
    (forall side: Speaker, k :: 0 <= k < 2 ==> Mentions(x.emotionals.Of(side)[k], ScenarioText))
  }

  /** The fixed headline of each stage (the opening one is followed by the
      side's own headline). */
  const HEADLINES: seq<string> := [
    "ROUND 1: OPENING — ",
    "ROUND 2: " + "REBUTTAL — " + "CHALLENGING " + "THE " + "OPPOSITION",
    "ROUND 3: " + "EVIDENCE — " + "DATA SPEAKS",
    "ROUND 4: " + "EMOTIONAL " + "APPEAL — " + "THE HUMAN " + "COST",
    "ROUND 5: " + "CLOSING — " + "FINAL " + "STATEMENT"
  ]

  const STATS: seq<string> := [
    "73% of " + "researchers " + "agree",
    "Studies " + "show a 45% " + "improvement",
    "According " + "to 2025 " + "data, over " + "60% of " + "users " + "report " + "positive " + "outcomes",
    "A Harvard " + "study found " + "82% " + "correlation",
    "Global " + "surveys " + "indicate 3 " + "in 4 " + "experts " + "support " + "this view",
    "Economic " + "models " + "predict a " + "35% " + "efficiency " + "gain",
    "WHO reports " + "indicate a " + "50% " + "reduction " + "in related " + "issues",
    "MIT " + "research " + "confirms a " + "2.7x " + "improvement " + "factor",
    "Data from " + "40 " + "countries " + "shows " + "consistent " + "positive " + "trends",
    "A " + "meta-analysis " + "of 200 " + "studies " + "confirms " + "the pattern"
  ]

  const EMOTIONAL_SCENARIOS: seq<string> := [
    "Imagine a " + "child " + "discovering " + "their " + "potential " + "because of " + "this",
    "Picture a " + "family " + "whose life " + "was " + "transformed " + "overnight",
    "Think of " + "the single " + "parent who " + "finally " + "found a " + "path forward",
    "Consider " + "the student " + "from a " + "disadvantaged " + "background " + "breaking " + "barriers",
    "Envision " + "communities " + "rebuilding " + "from the " + "ground up"
  ]

  const NEGATIVE_SCENARIOS: seq<string> := [
    "Imagine a " + "community " + "torn apart " + "by " + "unintended " + "consequences",
    "Picture " + "families " + "struggling " + "as " + "traditional " + "safety nets " + "disappear",
    "Think of " + "workers " + "displaced " + "with no " + "alternative " + "in sight",
    "Consider " + "the " + "vulnerable " + "populations " + "left behind " + "by rapid " + "change",
    "Envision a " + "world where " + "the cure " + "becomes " + "worse than " + "the disease"
  ]

  const PRO_OPENINGS: seq<Template> := [
    [Fixed("The " + "evidence is " + "overwhelming. "), Slot(HeadlineText),
     Fixed(" — and the " + "numbers " + "back it up. "), Slot(StatText),
     Fixed(". We stand " + "at a " + "pivotal " + "moment " + "where " + "embracing "),
     Slot(TopicLower), Fixed(" can unlock " + "unprecedented " + "human " +
     "potential. " + "The " + "question " + "isn't " + "whether to " + "act, but " +
     "how fast we " + "can move " + "forward.")],
    [Fixed("Let me be " + "crystal " + "clear. "), Slot(StatText), Fixed(". "),
     Slot(HeadlineText), Fixed(" This isn't " + "speculation " + "— it's the " +
     "trajectory " + "of " + "progress. " + "Every major " + "advancement " +
     "in history " + "started " + "with bold " + "adoption. "), Slot(TopicText),
     Fixed(" is our " + "generation's " + "defining " + "opportunity.")],
    [Fixed("History " + "will judge " + "us by this " + "moment. "), Slot(StatText),
     Fixed(". "), Slot(HeadlineText), Fixed(" The benefits of "), Slot(TopicLower),
     Fixed(" are " + "documented, " + "measurable, " + "and " + "transformative. " +
     "Those who " + "resist " + "progress " + "have always " + "been on the " +
     "wrong side " + "of history.")]
  ]

  const CON_OPENINGS: seq<Template> := [
    [Fixed("We need to " + "face " + "uncomfortable " + "truths. "), Slot(HeadlineText),
     Fixed(" While " + "proponents " + "paint rosy " + "pictures, "), Slot(StatLower),
     Fixed(" — but they " + "ignore the " + "cost. The " + "rush to " + "embrace "),
     Slot(TopicLower), Fixed(" without " + "guardrails " + "is reckless " + "and " +
     "shortsighted.")],
    [Fixed("Don't be " + "seduced by " + "the hype. "), Slot(HeadlineText),
     Fixed(" Yes, "), Slot(StatLower), Fixed(", but " + "correlation " + "isn't " +
     "causation. " + "The hidden " + "dangers of "), Slot(TopicLower),
     Fixed(" are real, " + "documented, " + "and " + "growing. We " + "must pump " +
     "the brakes " + "before it's " + "too late.")],
    [Fixed("Here's what " + "they won't " + "tell you. "), Slot(HeadlineText), Fixed(" "),
     Slot(StatText), Fixed(", sure — " + "but at what " + "price? The " + "uncritical " +
     "embrace of "), Slot(TopicLower), Fixed(" threatens " + "the very " +
     "foundations " + "we've built " + "our " + "progress " + "upon.")]
  ]

  const PRO_REBUTTALS: seq<Template> := [
    [Fixed("My opponent " + "mentioned \""), Slot(KeywordText), Fixed("\" — but " +
     "let's " + "examine " + "this claim " + "critically. " + "Their " + "argument " +
     "crumbles " + "under " + "scrutiny. " + "The " + "so-called " + "risks are " +
     "theoretical, " + "while the " + "benefits " + "are " + "tangible " + "and " +
     "measurable. " + "You can't " + "build the " + "future with " + "fear.")],
    [Fixed("Interesting that \""), Slot(KeywordText), Fixed("\" was " + "brought up. " +
     "This " + "actually " + "proves MY " + "point. " + "Every " + "transformative " +
     "technology " + "faced " + "resistance. " + "The real " + "danger " + "isn't " +
     "moving " + "forward — " + "it's " + "standing " + "still while " + "the world " +
     "evolves " + "around us.")],
    [Fixed("Let's address the \""), Slot(KeywordText), Fixed("\" argument " +
     "directly. " + "My opponent " + "cherry-picks " + "concerns " + "while " +
     "ignoring " + "overwhelming " + "evidence. " + "Progress " + "requires " +
     "courage, " + "not " + "caution. " + "The data " + "speaks " + "louder than " +
     "fear.")]
  ]

  const CON_REBUTTALS: seq<Template> := [
    [Fixed("My opponent uses \""), Slot(KeywordText), Fixed("\" to paint " + "an " +
     "optimistic " + "picture — " + "but " + "optimism " + "isn't a " + "strategy. " +
     "Their " + "argument " + "ignores " + "systemic " + "risks that " + "affect " +
     "millions. " + "We cannot " + "gamble with " + "people's " + "futures " +
     "based on " + "incomplete " + "data.")],
    [Fixed("The mention of \""), Slot(KeywordText), Fixed("\" reveals a " + "critical " +
     "blind spot. " + "My opponent " + "sees only " + "upside " + "while " +
     "dismissing " + "documented " + "downsides. " + "Responsible " + "progress " +
     "means " + "acknowledging " + "ALL " + "consequences, " + "not just " +
     "convenient " + "ones.")],
    [Fixed("Let's talk about \""), Slot(KeywordText), Fixed("\" — because " + "my " +
     "opponent's " + "framing is " + "dangerously " + "one-sided. " + "History is " +
     "littered " + "with " + "innovations " + "that " + "promised " + "utopia and " +
     "delivered " + "chaos. " + "Skepticism " + "isn't fear; " + "it's wisdom.")]
  ]

  /** The three evidence sets of each side; NumberText(j) is the j-th random number. */
  const PRO_EVIDENCE: seq<seq<Template>> := [
    [[Fixed("Productivity " + "increases " + "by "), Slot(NumberText(0)), Fixed("% in " +
      "adoption " + "studies")],
     [Slot(NumberText(1)), Fixed("% of early " + "adopters " + "report " + "satisfaction")],
     [Fixed("Economic " + "output " + "grows by $"), Slot(NumberText(2)),
      Fixed(" billion " + "annually in " + "supporting " + "sectors")]],
    [[Fixed("Academic " + "performance " + "improves by "), Slot(NumberText(0)),
      Fixed("% with integration")],
     [Slot(NumberText(1)), Fixed("% reduction " + "in resource " + "waste " +
      "documented")],
     [Fixed("Innovation " + "patents " + "increased "), Slot(NumberText(2)),
      Fixed("x in " + "related " + "fields " + "since 2020")]],
    [[Fixed("Quality of " + "life index " + "rises "), Slot(NumberText(0)),
      Fixed(" points in " + "implementing " + "regions")],
     [Fixed("Healthcare " + "costs drop " + "by "), Slot(NumberText(1)),
      Fixed("% through " + "related " + "improvements")],
     [Slot(NumberText(2)), Fixed("% of " + "industry " + "leaders " + "advocate " +
      "for " + "accelerated " + "adoption")]]
  ]

  const CON_EVIDENCE: seq<seq<Template>> := [
    [[Slot(NumberText(0)), Fixed("% of " + "affected " + "workers " + "report " +
      "negative " + "impacts")],
     [Fixed("Mental " + "health " + "concerns " + "increased "), Slot(NumberText(1)),
      Fixed("x in " + "heavy-use " + "demographics")],
     [Fixed("$"), Slot(NumberText(2)), Fixed(" billion in " + "annual " + "damages " +
      "attributed " + "to misuse")]],
    [[Slot(NumberText(0)), Fixed("% of " + "regulatory " + "bodies flag " + "serious " +
      "concerns")],
     [Fixed("Privacy " + "violations " + "increased " + "by "), Slot(NumberText(1)),
      Fixed("% in the " + "past 3 years")],
     [Slot(NumberText(2)), Fixed(" major " + "incidents " + "documented " +
      "in the last " + "12 months " + "alone")]],
    [[Fixed("Income " + "inequality " + "widened by "), Slot(NumberText(0)),
      Fixed("% in " + "early-adoption " + "regions")],
     [Slot(NumberText(1)), Fixed("% of small " + "businesses " + "face " +
      "existential " + "threats")],
     [Fixed("Environmental " + "costs " + "estimated " + "at "), Slot(NumberText(2)),
      Fixed(" million " + "tons of CO2 " + "equivalent")]]
  ]

  const EVIDENCE_ARGUMENT: Template := [Fixed("The " + "evidence " + "speaks for " + "itself. Let " + "me present " +
     "three " + "undeniable " + "facts:\n\n• "), Slot(PointText(0)), Fixed("\n• "),
     Slot(PointText(1)), Fixed("\n• "), Slot(PointText(2)), Fixed("\n\nThese " +
     "aren't " + "opinions — " + "they're " + "verified " + "data points " + "that "),
     Slot(Purpose), Fixed(" of "), Slot(TopicLower), Fixed(".")]

  const PRO_EMOTIONALS: seq<Template> := [
    [Slot(ScenarioText), Fixed(". This " + "isn't " + "abstract " + "policy — " +
     "it's about " + "real human " + "lives. " + "Every day " + "we delay " +
     "embracing "), Slot(TopicLower), Fixed(", someone " + "misses " + "their " +
     "chance at a " + "better " + "life. I've " + "seen the " + "hope in " + "people's " +
     "eyes when " + "they " + "experience " + "what's " + "possible. " + "Can we " +
     "really deny " + "them that " + "future?")],
    [Fixed("Close your " + "eyes for a " + "moment. "), Slot(ScenarioText),
     Fixed(". That's what "), Slot(TopicLower), Fixed(" makes " + "possible. " +
     "Behind " + "every " + "statistic " + "is a human " + "story of " +
     "transformation. " + "We have the " + "power to " + "make this " + "real for " +
     "millions. " + "How can we " + "look them " + "in the eye " + "and say " +
     "\"not yet\"?")]
  ]

  const CON_EMOTIONALS: seq<Template> := [
    [Slot(ScenarioText), Fixed(". This " + "isn't " + "fear-mongering " + "— it's " +
     "reality. " + "While my " + "opponent " + "speaks of " + "progress, " +
     "real people " + "are paying " + "the price. " + "I've " + "witnessed " + "the " +
     "devastation " + "firsthand. " + "We cannot " + "sacrifice " + "human " +
     "dignity on " + "the altar " + "of " + "innovation.")],
    [Fixed("Let me make " + "this " + "personal. "), Slot(ScenarioText),
     Fixed(". The human " + "cost of " + "reckless " + "adoption " + "isn't a " +
     "footnote — " + "it's a " + "headline. " + "Every " + "rushed " + "implementation " +
     "leaves " + "casualties. " + "Are we " + "willing to " + "tell those " +
     "affected " + "that " + "they're " + "acceptable " + "losses?")]
  ]

  const PRO_CLOSINGS: seq<Template> := [
    [Fixed("The future " + "belongs to " + "the bold. "), Slot(TopicText),
     Fixed(" isn't just " + "an option — " + "it's an " + "imperative. " + "Progress " +
     "waits for " + "no one. " + "Choose " + "forward. " + "Choose " + "courage. " +
     "Choose the " + "future.")],
    [Fixed("History " + "remembers " + "the " + "builders, " + "not the " + "blockers. "),
     Slot(TopicText), Fixed(" is " + "humanity's " + "next great " + "leap. Stand " +
     "with " + "progress. " + "Stand with " + "possibility. " + "Stand with " +
     "tomorrow.")],
    [Fixed("In every " + "generation, " + "there's a " + "moment that " + "defines " +
     "everything. " + "This is " + "ours. " + "Embrace "), Slot(TopicLower),
     Fixed(". Embrace " + "progress. " + "The best is " + "yet to come.")]
  ]

  const CON_CLOSINGS: seq<Template> := [
    [Fixed("Wisdom " + "isn't about " + "saying yes " + "to " + "everything " +
     "— it's " + "about " + "knowing " + "when to say " + "\"not like " + "this.\" "),
     Slot(TopicText), Fixed(" needs " + "guardrails, " + "not " + "cheerleaders. " +
     "Choose " + "wisdom. " + "Choose " + "caution. " + "Choose " + "humanity.")],
    [Fixed("Speed " + "without " + "direction " + "is just " + "chaos. " + "Before we " +
     "race " + "forward " + "with "), Slot(TopicLower), Fixed(", we must " + "ask: at " +
     "what cost? " + "Some prices " + "are too " + "high. " + "Protect " + "what " +
     "matters " + "most.")],
    [Fixed("The measure " + "of a " + "society " + "isn't how " + "fast it " +
     "moves, but " + "who it " + "protects " + "along the " + "way. "), Slot(TopicText),
     Fixed(" demands " + "responsibility, " + "not " + "recklessness. " + "Think " +
     "before you " + "leap.")]
  ]

  /** The repository's own texts. */
  const SOURCE_TEXTS: Texts :=
    Texts(HEADLINES, STATS, PerSide(EMOTIONAL_SCENARIOS, NEGATIVE_SCENARIOS),
          PerSide(PRO_OPENINGS, CON_OPENINGS), PerSide(PRO_REBUTTALS, CON_REBUTTALS),
          PerSide(PRO_EVIDENCE, CON_EVIDENCE), EVIDENCE_ARGUMENT,
          PerSide(PRO_EMOTIONALS, CON_EMOTIONALS), PerSide(PRO_CLOSINGS, CON_CLOSINGS))

  lemma OpeningsQuote()
    ensures forall k :: 0 <= k < 3 ==> Mentions(PRO_OPENINGS[k], HeadlineText) && Mentions(CON_OPENINGS[k], HeadlineText)
  {
    assert PRO_OPENINGS[0][1] == Slot(HeadlineText);
    assert PRO_OPENINGS[1][3] == Slot(HeadlineText);
    assert PRO_OPENINGS[2][3] == Slot(HeadlineText);
    assert CON_OPENINGS[0][1] == Slot(HeadlineText);
    assert CON_OPENINGS[1][1] == Slot(HeadlineText);
    assert CON_OPENINGS[2][1] == Slot(HeadlineText);
  }

  lemma RebuttalsQuote()
    ensures forall k :: 0 <= k < 3 ==> Mentions(PRO_REBUTTALS[k], KeywordText) && Mentions(CON_REBUTTALS[k], KeywordText)
  {
    assert PRO_REBUTTALS[0][1] == Slot(KeywordText);
    assert PRO_REBUTTALS[1][1] == Slot(KeywordText);
    assert PRO_REBUTTALS[2][1] == Slot(KeywordText);
    assert CON_REBUTTALS[0][1] == Slot(KeywordText);
    assert CON_REBUTTALS[1][1] == Slot(KeywordText);
    assert CON_REBUTTALS[2][1] == Slot(KeywordText);
  }

  lemma EvidenceArgumentQuotes()
    ensures forall j :: 0 <= j < 3 ==> Mentions(EVIDENCE_ARGUMENT, PointText(j))
  {
    assert EVIDENCE_ARGUMENT[1] == Slot(PointText(0));
    assert EVIDENCE_ARGUMENT[3] == Slot(PointText(1));
    assert EVIDENCE_ARGUMENT[5] == Slot(PointText(2));
  }

  lemma EmotionalsQuote()
    ensures forall k :: 0 <= k < 2 ==> Mentions(PRO_EMOTIONALS[k], ScenarioText) && Mentions(CON_EMOTIONALS[k], ScenarioText)
  {
    assert PRO_EMOTIONALS[0][0] == Slot(ScenarioText);
    assert PRO_EMOTIONALS[1][1] == Slot(ScenarioText);
    assert CON_EMOTIONALS[0][0] == Slot(ScenarioText);
    assert CON_EMOTIONALS[1][1] == Slot(ScenarioText);
  }

  /** The repository's texts have the shape the generators need, and every
      argument template quotes what its stage is about. */
  lemma SourceTextsFit()
    ensures Shaped(SOURCE_TEXTS) && Quoting(SOURCE_TEXTS)
  {
    OpeningsQuote();
    RebuttalsQuote();
    EvidenceArgumentQuotes();
    EmotionalsQuote();
  }

  // ------------------------------------------------------------------ opening

  /** Template `pick` of the side's three opening arguments. */
  function OpeningArgument(x: Texts, side: Speaker, topic: string, headline: string, stat: string, pick: nat): (r: string)
    requires Shaped(x) && pick < 3
    ensures Quoting(x) ==> Contains(r, headline)
  {
    var b := NoBindings(side, topic).(headline := headline, stat := stat);
    RenderShowsValues(x.openings.Of(side)[pick], b);
    Render(x.openings.Of(side)[pick], b)
  }

  /** `generateOpening(speaker, topic, headline)`. */
  function GenerateOpening(x: Texts, side: Speaker, topic: string, headline: string, d: Draw): (r: Draft)
    requires Shaped(x) && ValidDraw(Opening, side, d)
    ensures r.round == 1 && r.speaker == side
    ensures r.headline == x.headlines[0] + headline
    ensures r.dataPoints == [x.stats[d.item]] && r.rebuttalStrength == 0
    ensures InRange(r.logicScore, 60, 85) && InRange(r.emotionScore, 40, 65)
    ensures Quoting(x) ==> Contains(r.argument, headline)
  {
    var stat := x.stats[d.item];
    var r := Draft(1, side, x.headlines[0] + headline, OpeningArgument(x, side, topic, headline, stat, d.pick),
                   [stat], d.emotion, d.logic, 0);
    r
  }

  // ----------------------------------------------------------------- rebuttal

  /** The opponent word the rebuttal quotes: long word number k of the
      opponent's argument, or the topic's first space-separated token when
      there are not that many long words. */
  function Keyword(opponentArgument: string, topic: string, k: nat): (kw: string)
    requires k < 3
    ensures k < |LongerThan(SplitWs(opponentArgument), 5)| ==>
              kw == LongerThan(SplitWs(opponentArgument), 5)[k] && |kw| > 5
    ensures k >= |LongerThan(SplitWs(opponentArgument), 5)| ==> kw == BeforeFirst(topic, ' ')
  {
    var long := LongerThan(SplitWs(opponentArgument), 5);
    if k < |long| then long[k] else BeforeFirst(topic, ' ')
  }

  /** Template `pick` of the side's three rebuttals. */
  function RebuttalArgument(x: Texts, side: Speaker, keyword: string, pick: nat): (r: string)
    requires Shaped(x) && pick < 3
    ensures Quoting(x) ==> Contains(r, keyword)
  {
    var b := NoBindings(side, "").(keyword := keyword);
    RenderShowsValues(x.rebuttals.Of(side)[pick], b);
    Render(x.rebuttals.Of(side)[pick], b)
  }

  function KeywordNote(keyword: string): string {
    "Referenced " + "opponent " + "keyword: \"" + keyword + "\""
  }

  /** `generateRebuttal(speaker, topic, opponentArg)`. */
  function GenerateRebuttal(x: Texts, side: Speaker, topic: string, opponent: RoundData, d: Draw): (r: Draft)
    requires Shaped(x) && ValidDraw(Rebuttal, side, d)
    ensures r.round == 2 && r.speaker == side
    ensures r.headline == x.headlines[1]
    ensures r.dataPoints == [KeywordNote(Keyword(opponent.argument, topic, d.item))]
    ensures InRange(r.logicScore, 65, 90) && InRange(r.emotionScore, 45, 70) && InRange(r.rebuttalStrength, 60, 90)
    ensures Quoting(x) ==> Contains(r.argument, Keyword(opponent.argument, topic, d.item))
  {
    var keyword := Keyword(opponent.argument, topic, d.item);
    var r := Draft(2, side, x.headlines[1], RebuttalArgument(x, side, keyword, d.pick),
                   [KeywordNote(keyword)], d.emotion, d.logic, d.rebuttal);
    r
  }

  // ----------------------------------------------------------------- evidence

  /** Evidence set number `choice` for `side`, with its three numbers filled in. */
  function EvidencePoints(x: Texts, side: Speaker, choice: nat, nums: seq<int>): (r: seq<string>)
    requires Shaped(x) && choice < 3 && |nums| == 3
    ensures |r| == 3
    ensures forall j :: 0 <= j < 3 ==> r[j] == Render(x.evidence.Of(side)[choice][j], NoBindings(side, "").(nums := nums))
  {
    var chosen := x.evidence.Of(side)[choice];
    var b := NoBindings(side, "").(nums := nums);
    [Render(chosen[0], b), Render(chosen[1], b), Render(chosen[2], b)]
  }

  function EvidenceArgument(x: Texts, side: Speaker, topic: string, points: seq<string>): (r: string)
    requires Shaped(x) && |points| == 3
    ensures Quoting(x) ==> forall j :: 0 <= j < 3 ==> Contains(r, points[j])
  {
    var b := NoBindings(side, topic).(points := points);
    RenderShowsValues(x.evidenceArgument, b);
    assert forall j :: 0 <= j < 3 ==> Value(PointText(j), b) == points[j];
    Render(x.evidenceArgument, b)
  }

  /** `generateEvidence(speaker, topic)`. */
  function GenerateEvidence(x: Texts, side: Speaker, topic: string, d: Draw): (r: Draft)
    requires Shaped(x) && ValidDraw(Evidence, side, d)
    ensures r.round == 3 && r.speaker == side
    ensures r.headline == x.headlines[2]
    ensures |r.dataPoints| == 3 && r.dataPoints == EvidencePoints(x, side, d.pick, d.nums)
    ensures InRange(r.emotionScore, 30, 55) && InRange(r.logicScore, 75, 95) && InRange(r.rebuttalStrength, 50, 75)
    ensures Quoting(x) ==> forall j :: 0 <= j < 3 ==> Contains(r.argument, r.dataPoints[j])
  {
    var points := EvidencePoints(x, side, d.pick, d.nums);
    var r := Draft(3, side, x.headlines[2], EvidenceArgument(x, side, topic, points),
                   points, d.emotion, d.logic, d.rebuttal);
    r
  }

  // ---------------------------------------------------------------- emotional

  /** Template `pick` of the side's two emotional appeals. */
  function EmotionalArgument(x: Texts, side: Speaker, topic: string, scenario: string, pick: nat): (r: string)
    requires Shaped(x) && pick < 2
    ensures Quoting(x) ==> Contains(r, scenario)
  {
    var b := NoBindings(side, topic).(scenario := scenario);
    RenderShowsValues(x.emotionals.Of(side)[pick], b);
    Render(x.emotionals.Of(side)[pick], b)
  }

  /** `generateEmotional(speaker, topic)`. */
  function GenerateEmotional(x: Texts, side: Speaker, topic: string, d: Draw): (r: Draft)
    requires Shaped(x) && ValidDraw(Emotional, side, d)
    ensures r.round == 4 && r.speaker == side
    ensures r.headline == x.headlines[3]
    ensures r.dataPoints == [x.scenarios.Of(side)[d.item]]
    ensures InRange(r.emotionScore, 80, 98) && InRange(r.logicScore, 35, 60) && InRange(r.rebuttalStrength, 40, 70)
    ensures Quoting(x) ==> Contains(r.argument, r.dataPoints[0])
  {
    var scenario := x.scenarios.Of(side)[d.item];
    var r := Draft(4, side, x.headlines[3],
                   EmotionalArgument(x, side, topic, scenario, d.pick), [scenario], d.emotion, d.logic, d.rebuttal);
    r
  }

  // ------------------------------------------------------------------ closing

  /** A closing template that interpolates the topic, as written or in lower case. */
  predicate QuotesTopic(t: Template) {
    Mentions(t, TopicText) || Mentions(t, TopicLower)
  }

  /** Every closing of the repository quotes the topic. */
  lemma ClosingsQuote()
    ensures forall k :: 0 <= k < 3 ==> QuotesTopic(PRO_CLOSINGS[k]) && QuotesTopic(CON_CLOSINGS[k])
  {
    assert PRO_CLOSINGS[0][1] == Slot(TopicText);
    assert PRO_CLOSINGS[1][1] == Slot(TopicText);
    assert PRO_CLOSINGS[2][1] == Slot(TopicLower);
    assert CON_CLOSINGS[0][1] == Slot(TopicText);
    assert CON_CLOSINGS[1][1] == Slot(TopicLower);
    assert CON_CLOSINGS[2][1] == Slot(TopicText);
  }

  /** Template `pick` of the side's three closings; it shows the topic in the
      form its template interpolates. */
  function ClosingArgument(x: Texts, side: Speaker, topic: string, pick: nat): (r: string)
    requires Shaped(x) && pick < 3
    ensures Mentions(x.closings.Of(side)[pick], TopicText) ==> Contains(r, topic)
    ensures Mentions(x.closings.Of(side)[pick], TopicLower) ==> Contains(r, Lower(topic))
  {
    var b := NoBindings(side, topic);
    RenderShowsValues(x.closings.Of(side)[pick], b);
    Render(x.closings.Of(side)[pick], b)
  }

  /** With the repository's texts every closing shows the topic, as written or
      in lower case. */
  lemma SourceClosingsShowTopic(side: Speaker, topic: string, pick: nat)
    requires pick < 3
    ensures Shaped(SOURCE_TEXTS) && (Contains(ClosingArgument(SOURCE_TEXTS, side, topic, pick), topic) ||
                                      Contains(ClosingArgument(SOURCE_TEXTS, side, topic, pick), Lower(topic)))
  {
    SourceTextsFit();
    ClosingsQuote();
  }

  /** `generateClosing(speaker, topic)`. */
  function GenerateClosing(x: Texts, side: Speaker, topic: string, d: Draw): (r: Draft)
    requires Shaped(x) && ValidDraw(Closing, side, d)
    ensures r.round == 5 && r.speaker == side
    ensures r.headline == x.headlines[4]
    ensures r.dataPoints == []
    ensures InRange(r.emotionScore, 70, 90) && InRange(r.logicScore, 70, 90) && InRange(r.rebuttalStrength, 50, 80)
  {
    Draft(5, side, x.headlines[4], ClosingArgument(x, side, topic, d.pick),
          [], d.emotion, d.logic, d.rebuttal)
  }

  // ------------------------------------------------------- the whole debate

  /** Position i of the debate is spoken by PRO when even, CON when odd. */
  function SideAt(i: nat): Speaker {
    if i % 2 == 0 then Pro else Con
  }

  predicate ValidDraws(draws: seq<Draw>) {
    |draws| == 10 && forall i :: 0 <= i < 10 ==> ValidDraw(StageAt(i / 2), SideAt(i), draws[i])
  }

  /** `generators[i / 2](side)` evaluated when `prior` rounds have been pushed. */
  function NextDraft(x: Texts, topic: string, proHeadline: string, conHeadline: string, prior: seq<RoundData>, d: Draw): (r: Draft)
    requires Shaped(x) && |prior| < 10 && ValidDraw(StageAt(|prior| / 2), SideAt(|prior|), d)
    ensures r.speaker == SideAt(|prior|) && r.round == |prior| / 2 + 1
    ensures |prior| < 8 ==> !EarnsBonus(r.logicScore, r.emotionScore)
    ensures 4 <= |prior| < 6 ==> |r.dataPoints| == 3
    ensures 8 <= |prior| ==> r.dataPoints == []
  {
    var side := SideAt(|prior|);
    var stage := |prior| / 2;
    if stage == 0 then GenerateOpening(x, side, topic, if side == Pro then proHeadline else conHeadline, d)
    else if stage == 1 then GenerateRebuttal(x, side, topic, prior[|prior| - 1], d)
    else if stage == 2 then GenerateEvidence(x, side, topic, d)
    else if stage == 3 then GenerateEmotional(x, side, topic, d)
    else GenerateClosing(x, side, topic, d)
  }

  /** The first n rounds of the debate, each completed with its score. */
  function Build(x: Texts, topic: string, proHeadline: string, conHeadline: string, draws: seq<Draw>, n: nat): (r: seq<RoundData>)
    requires Shaped(x) && ValidDraws(draws) && n <= 10
    ensures |r| == n
    decreases n
  {
    if n == 0 then []
    else
      var prior := Build(x, topic, proHeadline, conHeadline, draws, n - 1);
      prior + [Complete(NextDraft(x, topic, proHeadline, conHeadline, prior, draws[n - 1]))]
  }

  function FullDebate(x: Texts, topic: string, proHeadline: string, conHeadline: string, draws: seq<Draw>): (r: seq<RoundData>)
    requires Shaped(x) && ValidDraws(draws)
    ensures |r| == 10
  {
    Build(x, topic, proHeadline, conHeadline, draws, 10)
  }

  /** `generateFullDebate(topic, proHeadline, conHeadline)`: five iterations,
      each pushing the PRO round and then the CON round. */
  method GenerateFullDebate(x: Texts, topic: string, proHeadline: string, conHeadline: string, draws: seq<Draw>)
    returns (rounds: seq<RoundData>)
    requires Shaped(x) && ValidDraws(draws)
    ensures rounds == FullDebate(x, topic, proHeadline, conHeadline, draws)
  {
    rounds := [];
    for i := 0 to 5
      invariant rounds == Build(x, topic, proHeadline, conHeadline, draws, 2 * i)
    {
      var proRound := NextDraft(x, topic, proHeadline, conHeadline, rounds, draws[2 * i]);
      var proTotal := CalculateScore(proRound.argument, proRound.logicScore, proRound.emotionScore, proRound.rebuttalStrength);
      rounds := rounds + [proRound.WithTotal(proTotal)];
      var conRound := NextDraft(x, topic, proHeadline, conHeadline, rounds, draws[2 * i + 1]);
      var conTotal := CalculateScore(conRound.argument, conRound.logicScore, conRound.emotionScore, conRound.rebuttalStrength);
      rounds := rounds + [conRound.WithTotal(conTotal)];
    }
  }

  // ---------------------------------------------------------------- properties

  /** A longer build extends a shorter one. */
  lemma {:induction false} BuildPrefix(x: Texts, topic: string, proHeadline: string, conHeadline: string, draws: seq<Draw>, m: nat, n: nat)
    requires Shaped(x) && ValidDraws(draws) && m <= n <= 10
    ensures Build(x, topic, proHeadline, conHeadline, draws, n)[..m] == Build(x, topic, proHeadline, conHeadline, draws, m)
    decreases n - m
  {
    if m < n {
      BuildPrefix(x, topic, proHeadline, conHeadline, draws, m, n - 1);
      var b := Build(x, topic, proHeadline, conHeadline, draws, n);
      assert b[..n - 1] == Build(x, topic, proHeadline, conHeadline, draws, n - 1);
      assert b[..m] == b[..n - 1][..m];
    }
  }

  /** Round i of the debate is the i-th generator output over the rounds before it. */
  lemma RoundAt(x: Texts, topic: string, proHeadline: string, conHeadline: string, draws: seq<Draw>, i: nat)
    requires Shaped(x) && ValidDraws(draws) && i < 10
    ensures var r := FullDebate(x, topic, proHeadline, conHeadline, draws);
            r[i] == Complete(NextDraft(x, topic, proHeadline, conHeadline, r[..i], draws[i]))
  {
    BuildPrefix(x, topic, proHeadline, conHeadline, draws, i + 1, 10);
    BuildPrefix(x, topic, proHeadline, conHeadline, draws, i, 10);
    var r := FullDebate(x, topic, proHeadline, conHeadline, draws);
    assert r[i] == r[..i + 1][i];
  }

  /** Speakers alternate starting with PRO, each stage takes two positions,
      and every round's total is `calcTotal` of its own fields. */
  lemma DebateShape(x: Texts, topic: string, proHeadline: string, conHeadline: string, draws: seq<Draw>)
    requires Shaped(x) && ValidDraws(draws)
    ensures var r := FullDebate(x, topic, proHeadline, conHeadline, draws);
            forall i :: 0 <= i < 10 ==>
              r[i].speaker == SideAt(i) && r[i].round == i / 2 + 1 &&
              r[i].totalScore == CalculateScore(r[i].argument, r[i].logicScore, r[i].emotionScore, r[i].rebuttalStrength)
  {
    var r := FullDebate(x, topic, proHeadline, conHeadline, draws);
    forall i | 0 <= i < 10
      ensures r[i].speaker == SideAt(i) && r[i].round == i / 2 + 1
      ensures r[i].totalScore == CalculateScore(r[i].argument, r[i].logicScore, r[i].emotionScore, r[i].rebuttalStrength)
    {
      RoundAt(x, topic, proHeadline, conHeadline, draws, i);
    }
  }

  lemma StatDraws(draws: seq<Draw>)
    requires ValidDraws(draws)
    ensures draws[0].item < 10 && draws[1].item < 10
  {
    assert ValidDraw(StageAt(0 / 2), SideAt(0), draws[0]);
    assert ValidDraw(StageAt(1 / 2), SideAt(1), draws[1]);
  }

  /** The openings carry each side's own headline and one statistic, and
      rebut nothing. */
  lemma OpeningRounds(x: Texts, topic: string, proHeadline: string, conHeadline: string, draws: seq<Draw>)
    requires Shaped(x) && ValidDraws(draws)
    ensures var r := FullDebate(x, topic, proHeadline, conHeadline, draws);
            r[0].headline == x.headlines[0] + proHeadline && r[1].headline == x.headlines[0] + conHeadline &&
            draws[0].item < 10 && r[0].dataPoints == [x.stats[draws[0].item]] &&
            draws[1].item < 10 && r[1].dataPoints == [x.stats[draws[1].item]] &&
            r[0].rebuttalStrength == 0 && r[1].rebuttalStrength == 0 &&
            (Quoting(x) ==> Contains(r[0].argument, proHeadline) && Contains(r[1].argument, conHeadline))
  {
    StatDraws(draws);
    RoundAt(x, topic, proHeadline, conHeadline, draws, 0);
    RoundAt(x, topic, proHeadline, conHeadline, draws, 1);
  }

  lemma KeywordDraws(draws: seq<Draw>)
    requires ValidDraws(draws)
    ensures draws[2].item < 3 && draws[3].item < 3
  {
    assert ValidDraw(StageAt(2 / 2), SideAt(2), draws[2]);
    assert ValidDraw(StageAt(3 / 2), SideAt(3), draws[3]);
  }

  /** A rebuttal drafted after `prior` answers the last round of `prior`. */
  lemma RebuttalStep(x: Texts, topic: string, proHeadline: string, conHeadline: string, prior: seq<RoundData>, d: Draw)
    requires Shaped(x) && 2 <= |prior| < 4 && ValidDraw(StageAt(|prior| / 2), SideAt(|prior|), d)
    ensures d.item < 3
    ensures var r := Complete(NextDraft(x, topic, proHeadline, conHeadline, prior, d));
            var word := Keyword(prior[|prior| - 1].argument, topic, d.item);
            r.dataPoints == [KeywordNote(word)] && (Quoting(x) ==> Contains(r.argument, word))
  {
    assert StageAt(|prior| / 2) == Rebuttal;
  }

  /** PRO's rebuttal (position 2) answers the round pushed just before it,
      CON's opening. */
  lemma ProRebuttalRound(x: Texts, topic: string, proHeadline: string, conHeadline: string, draws: seq<Draw>)
    requires Shaped(x) && ValidDraws(draws)
    ensures var r := FullDebate(x, topic, proHeadline, conHeadline, draws);
            draws[2].item < 3 &&
            var word := Keyword(r[1].argument, topic, draws[2].item);
            r[2].dataPoints == [KeywordNote(word)] && (Quoting(x) ==> Contains(r[2].argument, word))
  {
    var r := FullDebate(x, topic, proHeadline, conHeadline, draws);
    KeywordDraws(draws);
    RoundAt(x, topic, proHeadline, conHeadline, draws, 2);
    RebuttalStep(x, topic, proHeadline, conHeadline, r[..2], draws[2]);
    assert r[..2][1] == r[1];
  }

  /** CON's rebuttal (position 3) answers the round pushed just before it,
      which is PRO's rebuttal rather than PRO's opening. */
  lemma ConRebuttalRound(x: Texts, topic: string, proHeadline: string, conHeadline: string, draws: seq<Draw>)
    requires Shaped(x) && ValidDraws(draws)
    ensures var r := FullDebate(x, topic, proHeadline, conHeadline, draws);
            draws[3].item < 3 &&
            var word := Keyword(r[2].argument, topic, draws[3].item);
            r[3].dataPoints == [KeywordNote(word)] && (Quoting(x) ==> Contains(r[3].argument, word))
  {
    var r := FullDebate(x, topic, proHeadline, conHeadline, draws);
    KeywordDraws(draws);
    RoundAt(x, topic, proHeadline, conHeadline, draws, 3);
    RebuttalStep(x, topic, proHeadline, conHeadline, r[..3], draws[3]);
    assert r[..3][2] == r[2];
  }

  /** Evidence rounds cite three data points, each quoted in the argument. */
  lemma EvidenceRounds(x: Texts, topic: string, proHeadline: string, conHeadline: string, draws: seq<Draw>)
    requires Shaped(x) && ValidDraws(draws)
    ensures var r := FullDebate(x, topic, proHeadline, conHeadline, draws);
            |r[4].dataPoints| == 3 && |r[5].dataPoints| == 3 &&
            (Quoting(x) ==> forall j :: 0 <= j < 3 ==> Contains(r[4].argument, r[4].dataPoints[j]) && Contains(r[5].argument, r[5].dataPoints[j]))
  {
    RoundAt(x, topic, proHeadline, conHeadline, draws, 4);
    RoundAt(x, topic, proHeadline, conHeadline, draws, 5);
  }

  lemma ScenarioDraws(draws: seq<Draw>)
    requires ValidDraws(draws)
    ensures draws[6].item < 5 && draws[7].item < 5
  {
    assert ValidDraw(StageAt(6 / 2), SideAt(6), draws[6]);
    assert ValidDraw(StageAt(7 / 2), SideAt(7), draws[7]);
  }

  /** Emotional rounds cite one scenario from the speaker's own table. */
  lemma EmotionalRounds(x: Texts, topic: string, proHeadline: string, conHeadline: string, draws: seq<Draw>)
    requires Shaped(x) && ValidDraws(draws)
    ensures var r := FullDebate(x, topic, proHeadline, conHeadline, draws);
            draws[6].item < 5 && r[6].dataPoints == [x.scenarios.pro[draws[6].item]] &&
            draws[7].item < 5 && r[7].dataPoints == [x.scenarios.con[draws[7].item]]
  {
    ScenarioDraws(draws);
    RoundAt(x, topic, proHeadline, conHeadline, draws, 6);
    RoundAt(x, topic, proHeadline, conHeadline, draws, 7);
  }

  /** Closings cite no data. */
  lemma ClosingRounds(x: Texts, topic: string, proHeadline: string, conHeadline: string, draws: seq<Draw>)
    requires Shaped(x) && ValidDraws(draws)
    ensures var r := FullDebate(x, topic, proHeadline, conHeadline, draws);
            r[8].dataPoints == [] && r[9].dataPoints == []
  {
    RoundAt(x, topic, proHeadline, conHeadline, draws, 8);
    RoundAt(x, topic, proHeadline, conHeadline, draws, 9);
  }

  /** The bonus needs logic and emotion both above 75; the ranges drawn for
      the first four stages never allow both, so only closings can earn it. */
  lemma OnlyClosingsEarnTheBonus(x: Texts, topic: string, proHeadline: string, conHeadline: string, draws: seq<Draw>)
    requires Shaped(x) && ValidDraws(draws)
    ensures var r := FullDebate(x, topic, proHeadline, conHeadline, draws);
            forall i :: 0 <= i < 8 ==> !EarnsBonus(r[i].logicScore, r[i].emotionScore)
  {
    var r := FullDebate(x, topic, proHeadline, conHeadline, draws);
    forall i | 0 <= i < 8
      ensures !EarnsBonus(r[i].logicScore, r[i].emotionScore)
    {
      RoundAt(x, topic, proHeadline, conHeadline, draws, i);
    }
  }
}
