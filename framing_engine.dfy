/** src/engine/framingEngine.ts: a pair of opposing headlines for a topic,
    drawn from two parallel template lists with one shared (injected) index.

    String literals are written as concatenations of short pieces, which
    keeps their verification cheap; each concatenation spells the source's
    string exactly. */
module FramingEngine {
  import opened Text
  import opened Rounds

  /** A template `${prefix}${t.toUpperCase()}${suffix}`. */
  datatype Template = Template(prefix: string, suffix: string)

  function Apply(t: Template, core: string): (r: string)
    ensures r == t.prefix + Upper(core) + t.suffix
    ensures SliceAt(r, Upper(core), |t.prefix|)
  {
    var r := t.prefix + Upper(core) + t.suffix;
    assert r[|t.prefix|..|t.prefix| + |Upper(core)|] == Upper(core);
    r
  }

  const PRO_TEMPLATES: seq<Template> := [
    Template("", " IS THE KEY " + "TO HUMAN " + "PROGRESS!"),
    Template("", " BUILDS A " + "BETTER " + "FUTURE FOR " + "EVERYONE!"),
    Template("", " EMPOWERS " + "INNOVATION " + "AND GROWTH!"),
    Template("", " TRANSFORMS " + "LIVES FOR " + "THE BETTER!"),
    Template("EMBRACING ", " LEADS TO " + "BREAKTHROUGHS!"),
    Template("", " IS " + "ESSENTIAL " + "FOR HUMAN " + "FLOURISHING!"),
    Template("", " UNLOCKS " + "UNLIMITED " + "POTENTIAL!"),
    Template("THE FUTURE " + "BELONGS TO ", " CHAMPIONS!"),
    Template("", " CREATES " + "OPPORTUNITY " + "FOR " + "MILLIONS!"),
    Template("SUPPORTING ", " IS " + "SUPPORTING " + "PROGRESS!")
  ]

  const CON_TEMPLATES: seq<Template> := [
    Template("", " CREATES " + "MORE " + "PROBLEMS " + "THAN " + "SOLUTIONS!"),
    Template("", " THREATENS " + "OUR CORE " + "VALUES!"),
    Template("", " IS A " + "DANGEROUS " + "ILLUSION!"),
    Template("THE HIDDEN COSTS OF ", " ARE DEVASTATING!"),
    Template("", " FUELS " + "INEQUALITY " + "AND " + "DIVISION!"),
    Template("", " PUTS " + "PROFIT OVER " + "PEOPLE!"),
    Template("WE MUST " + "RESIST " + "RECKLESS ", " ADOPTION!"),
    Template("", " SACRIFICES " + "SUSTAINABILITY " + "FOR SPEED!"),
    Template("THE REAL COST OF ", " IS TOO HIGH!"),
    Template("", " UNDERMINES " + "HUMAN " + "DIGNITY!")
  ]

  /** The two lists are parallel, so an index drawn for one is valid for both. */
  lemma TemplateListsParallel()
    ensures |PRO_TEMPLATES| == |CON_TEMPLATES| == 10
  {
  }

  datatype FramedPosition = FramedPosition(headline: string, stance: Speaker)

  datatype Framing = Framing(pro: FramedPosition, con: FramedPosition)

  /** `core`: the first four tokens re-joined by single spaces when the topic
      has more than three tokens, else the topic itself. */
  function Core(topic: string): (core: string)
    ensures WordCount(topic) <= 3 ==> core == topic
    ensures WordCount(topic) > 3 ==> core == Join(SplitWs(topic)[..4], " ")
  {
    var words := SplitWs(topic);
    if |words| > 3 then Join(words[..4], " ") else topic
  }

  /** `frameTopic(topic)` with the template index `idx` drawn by the caller. */
  function FrameTopic(topic: string, idx: nat): (r: Framing)
    requires idx < |PRO_TEMPLATES|
    ensures r.pro.stance == Pro && r.con.stance == Con
    ensures r.pro.headline == Apply(PRO_TEMPLATES[idx], Core(topic))
    ensures r.con.headline == Apply(CON_TEMPLATES[idx], Core(topic))
    ensures Contains(r.pro.headline, Upper(Core(topic))) && Contains(r.con.headline, Upper(Core(topic)))
  {
    TemplateListsParallel();
    var core := Core(topic);
    var pro := Apply(PRO_TEMPLATES[idx], core);
    var con := Apply(CON_TEMPLATES[idx], core);
    ContainsAt(pro, Upper(core), |PRO_TEMPLATES[idx].prefix|);
    ContainsAt(con, Upper(core), |CON_TEMPLATES[idx].prefix|);
    Framing(FramedPosition(pro, Pro), FramedPosition(con, Con))
  }

  lemma ContainsAt(s: string, sub: string, i: int)
    requires SliceAt(s, sub, i)
    ensures Contains(s, sub)
  {
  }

  /** The core never holds more than four tokens: they are the topic's first
      four, in order. */
  lemma CoreIsFirstFourWords(topic: string)
    ensures WordCount(topic) > 3 ==> SplitWs(Core(topic)) == SplitWs(topic)[..4]
    ensures WordCount(Core(topic)) <= 4
  {
    if WordCount(topic) > 3 {
      var ws := SplitWs(topic);
      SplitJoin(ws[..4]);
    }
  }
}
