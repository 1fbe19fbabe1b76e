/** `MedicalAgentRouter`: scores the three specialties against the report
    and symptoms, picks the first best one (or falls back to general
    medicine below 0.3), and fans out to every other specialty above 0.2. */
module Router {
  import opened Wrappers
  import opened Specialties
  import opened Scoring

  /** Below this best score the router falls back to general medicine. */
  const PrimaryThreshold: real := 0.3

  /** Above this score a non-primary specialty is consulted as well. */
  const SecondaryThreshold: real := 0.2

  /** The text the router scores: report and symptoms joined by one space. */
  function ScoredText(report: string, symptoms: string): string {
    report + " " + symptoms
  }

  /** A specialist agent as the router holds it: its specialty and the
      keyword list its `get_specialty_keywords` returns. */
  datatype Agent = Agent(specialty: Specialty, keywords: seq<string>)

  /** The router's `agents` dictionary, in insertion order. */
  datatype AgentRouter = AgentRouter(agents: seq<Agent>)

  /** The four agents in dictionary order, none with an empty keyword list. */
  predicate Valid(router: AgentRouter) {
    && |router.agents| == |RouterOrder|
    && forall i :: 0 <= i < |router.agents| ==>
         router.agents[i].specialty == RouterOrder[i] && |router.agents[i].keywords| > 0
  }

  /** `MedicalAgentRouter.__init__`. The model handle is passed on to the
      agents, which this model does not call, so only its type is kept. */
  function NewRouter<Model>(model: Model): (router: AgentRouter)
    ensures Valid(router)
    ensures forall i :: 0 <= i < |router.agents| ==> router.agents[i].keywords == Keywords(RouterOrder[i])
  {
    AgentRouter(seq(|RouterOrder|, i requires 0 <= i < |RouterOrder| =>
                      Agent(RouterOrder[i], Keywords(RouterOrder[i]))))
  }

  /** One specialty's confidence for a text under the router's keyword lists. */
  function ScoreOf(router: AgentRouter, s: Specialty, text: string): (r: real)
    requires Valid(router)
    ensures 0.0 <= r <= 1.0
  {
    Confidence(router.agents[Rank(s)].keywords, text)
  }

  /** Position of a scored specialty in the router's dictionary order. */
  function Rank(s: Specialty): nat {
    match s
    case Cardiology => 0
    case Psychology => 1
    case Pulmonology => 2
    case General => 3
  }

  lemma RankIsOrder(s: Specialty)
    ensures Rank(s) < |RouterOrder| && RouterOrder[Rank(s)] == s
  {
  }

  /** One entry of the `confidence_scores` dictionary, in insertion order. */
  datatype ScoreEntry = ScoreEntry(agent: Specialty, score: real)

  /** Python's `max(d, key=d.get)` continued from position i, where `best`
      is the best position among the first i: a later entry replaces it only
      when strictly greater, so the first maximal entry wins. */
  function FirstMaxFrom(es: seq<ScoreEntry>, i: nat, best: nat): (k: nat)
    requires best < i <= |es|
    requires forall j :: 0 <= j < i ==> es[j].score <= es[best].score
    requires forall j :: 0 <= j < best ==> es[j].score < es[best].score
    ensures k < |es|
    ensures forall j :: 0 <= j < |es| ==> es[j].score <= es[k].score
    ensures forall j :: 0 <= j < k ==> es[j].score < es[k].score
    decreases |es| - i
  {
    if i == |es| then best
    else if es[i].score > es[best].score then FirstMaxFrom(es, i + 1, i)
    else FirstMaxFrom(es, i + 1, best)
  }

  /** The position of the first maximal score. */
  function FirstMax(es: seq<ScoreEntry>): (k: nat)
    requires |es| > 0
    ensures k < |es|
    ensures forall j :: 0 <= j < |es| ==> es[j].score <= es[k].score
    ensures forall j :: 0 <= j < k ==> es[j].score < es[k].score
  {
    FirstMaxFrom(es, 1, 0)
  }

  /** The scores of the three specialties, in dictionary order. */
  function ScoreAll(router: AgentRouter, text: string): (es: seq<ScoreEntry>)
    requires Valid(router)
    ensures |es| == |Scored|
    ensures forall i :: 0 <= i < |es| ==> es[i] == ScoreEntry(Scored[i], ScoreOf(router, Scored[i], text))
  {
    seq(|Scored|, i requires 0 <= i < |Scored| => ScoreEntry(Scored[i], ScoreOf(router, Scored[i], text)))
  }

  /** The key chosen by `route_to_agent` and its `confidence_scores`. */
  datatype Routing = Routing(primary: Specialty, scores: seq<ScoreEntry>)

  /** Python's `d.get(key)` on the scores dictionary. */
  function Lookup(scores: seq<ScoreEntry>, key: Specialty): (r: Option<real>)
    ensures r.Some? <==> exists i :: 0 <= i < |scores| && scores[i].agent == key
    ensures r.Some? ==> exists i :: 0 <= i < |scores| && scores[i] == ScoreEntry(key, r.value)
  {
    if |scores| == 0 then None
    else if scores[0].agent == key then Some(scores[0].score)
    else
      var r := Lookup(scores[1..], key);
      if r.Some? then
        var i :| 0 <= i < |scores[1..]| && scores[1..][i] == ScoreEntry(key, r.value);
        assert scores[i + 1] == ScoreEntry(key, r.value);
        r
      else r
  }

  /** The selection step of `route_to_agent` on the three scores, in
      dictionary order. */
  function Select(scores: seq<ScoreEntry>): (r: Routing)
    requires |scores| == 3
    requires forall i :: 0 <= i < 3 ==> scores[i].agent == Scored[i]
    ensures r.primary == General <==> forall i :: 0 <= i < 3 ==> scores[i].score < PrimaryThreshold
    ensures r.primary != General ==>
              && scores[Rank(r.primary)].agent == r.primary
              && scores[Rank(r.primary)].score >= PrimaryThreshold
              && (forall i :: 0 <= i < 3 ==> scores[i].score <= scores[Rank(r.primary)].score)
              && (forall i :: 0 <= i < Rank(r.primary) ==> scores[i].score < scores[Rank(r.primary)].score)
    ensures r.primary == General ==> r.scores == scores + [ScoreEntry(General, 1.0)]
    ensures r.primary != General ==> r.scores == scores
  {
    var best := FirstMax(scores);
    if scores[best].score < PrimaryThreshold then
      Routing(General, scores + [ScoreEntry(General, 1.0)])
    else
      assert Rank(scores[best].agent) == best;
      Routing(scores[best].agent, scores)
  }

  /** `route_to_agent`. The medical history is accepted and not scored. The
      scores list holds the three specialties' scores in dictionary order,
      followed by the sentinel 1.0 for general medicine on a fallback. */
  function Route(router: AgentRouter, report: string, symptoms: string, medicalHistory: string): (r: Routing)
    requires Valid(router)
    ensures |r.scores| == 3 || |r.scores| == 4
    ensures forall i :: 0 <= i < 3 ==>
              r.scores[i] == ScoreEntry(Scored[i], ScoreOf(router, Scored[i], ScoredText(report, symptoms)))
    ensures r.primary == General <==> forall i :: 0 <= i < 3 ==> r.scores[i].score < PrimaryThreshold
    ensures |r.scores| == 4 <==> r.primary == General
    ensures |r.scores| == 4 ==> r.scores[3] == ScoreEntry(General, 1.0)
    ensures r.primary != General ==>
              && Rank(r.primary) < 3
              && (forall i :: 0 <= i < 3 ==> r.scores[i].score <= r.scores[Rank(r.primary)].score)
              && (forall i :: 0 <= i < Rank(r.primary) ==> r.scores[i].score < r.scores[Rank(r.primary)].score)
  {
    var scores := ScoreAll(router, ScoredText(report, symptoms));
    var r := Select(scores);
    assert forall i :: 0 <= i < 3 ==> r.scores[i] == scores[i];
    r
  }

  /** The scores list read by specialty: the entry at a specialty's rank is
      its score, and "every entry is below 0.3" means "every specialty other
      than General scores below 0.3". */
  lemma RouteBySpecialty(router: AgentRouter, report: string, symptoms: string, medicalHistory: string)
    requires Valid(router)
    ensures var r := Route(router, report, symptoms, medicalHistory);
            forall s :: s != General ==>
              Rank(s) < 3 && r.scores[Rank(s)] == ScoreEntry(s, ScoreOf(router, s, ScoredText(report, symptoms)))
    ensures var r := Route(router, report, symptoms, medicalHistory);
            (forall i :: 0 <= i < 3 ==> r.scores[i].score < PrimaryThreshold) <==>
            (forall s :: s != General ==> ScoreOf(router, s, ScoredText(report, symptoms)) < PrimaryThreshold)
  {
    var r := Route(router, report, symptoms, medicalHistory);
    var t := ScoredText(report, symptoms);
    forall s | s != General
      ensures Rank(s) < 3 && r.scores[Rank(s)] == ScoreEntry(s, ScoreOf(router, s, t))
    {
      RankIsOrder(s);
    }
    if forall s :: s != General ==> ScoreOf(router, s, t) < PrimaryThreshold {
      forall i | 0 <= i < 3
        ensures r.scores[i].score < PrimaryThreshold
      {
        assert r.scores[i].score == ScoreOf(router, Scored[i], t);
      }
    }
  }

  /** The routing decision by specialty: general medicine exactly when every
      scored specialty is below 0.3; otherwise a specialty at or above 0.3
      whose score no other beats, and which every specialty before it in
      dictionary order scores strictly below. */
  lemma RouteChoosesBest(router: AgentRouter, report: string, symptoms: string, medicalHistory: string)
    requires Valid(router)
    ensures var r := Route(router, report, symptoms, medicalHistory);
            var t := ScoredText(report, symptoms);
            r.primary == General <==> forall s :: s != General ==> ScoreOf(router, s, t) < PrimaryThreshold
    ensures var r := Route(router, report, symptoms, medicalHistory);
            var t := ScoredText(report, symptoms);
            r.primary != General ==>
              && ScoreOf(router, r.primary, t) >= PrimaryThreshold
              && (forall s :: s != General ==> ScoreOf(router, s, t) <= ScoreOf(router, r.primary, t))
              && (forall s :: Rank(s) < Rank(r.primary) ==> ScoreOf(router, s, t) < ScoreOf(router, r.primary, t))
  {
    var r := Route(router, report, symptoms, medicalHistory);
    var t := ScoredText(report, symptoms);
    RouteBySpecialty(router, report, symptoms, medicalHistory);
    BestBySpecialty(r);
  }

  /** The selection conditions of a routing restated by specialty, reading
      each specialty's score at its rank. */
  lemma BestBySpecialty(r: Routing)
    requires |r.scores| >= 3
    requires r.primary != General ==>
               && Rank(r.primary) < 3
               && (forall i :: 0 <= i < 3 ==> r.scores[i].score <= r.scores[Rank(r.primary)].score)
               && (forall i :: 0 <= i < Rank(r.primary) ==> r.scores[i].score < r.scores[Rank(r.primary)].score)
    ensures r.primary != General ==>
              && (forall s :: s != General ==> r.scores[Rank(s)].score <= r.scores[Rank(r.primary)].score)
              && (forall s :: Rank(s) < Rank(r.primary) ==> r.scores[Rank(s)].score < r.scores[Rank(r.primary)].score)
  {
    if r.primary != General {
      forall s | s != General
        ensures r.scores[Rank(s)].score <= r.scores[Rank(r.primary)].score
      {
        RankIsOrder(s);
      }
    }
  }

  /** The confidence reported for the primary: its score, or 1.0 when absent. */
  function PrimaryConfidence(r: Routing): real {
    Lookup(r.scores, r.primary).GetOr(1.0)
  }

  /** Falling back to general medicine records the sentinel 1.0; otherwise the
      primary's own score is reported. */
  lemma PrimaryConfidenceLaw(router: AgentRouter, report: string, symptoms: string, medicalHistory: string)
    requires Valid(router)
    ensures var r := Route(router, report, symptoms, medicalHistory);
            PrimaryConfidence(r) == if r.primary == General then 1.0 else ScoreOf(router, r.primary, ScoredText(report, symptoms))
  {
    var r := Route(router, report, symptoms, medicalHistory);
    var p := r.primary;
    if p != General {
      RankIsOrder(p);
      assert Scored[Rank(p)] == p;
    }
    LookupPrimary(r.scores, p);
  }

  /** The lookup of the primary in a routing's scores list. */
  lemma LookupPrimary(scores: seq<ScoreEntry>, p: Specialty)
    requires |scores| == 3 || |scores| == 4
    requires forall i :: 0 <= i < 3 ==> scores[i].agent == Scored[i]
    requires |scores| == 4 <==> p == General
    requires |scores| == 4 ==> scores[3] == ScoreEntry(General, 1.0)
    requires p != General ==> Rank(p) < 3 && scores[Rank(p)].agent == p
    ensures Lookup(scores, p).GetOr(1.0) == if p == General then 1.0 else scores[Rank(p)].score
  {
    if p == General {
      assert scores[3].agent == General;
    } else {
      assert scores[Rank(p)].agent == p;
    }
    var v := Lookup(scores, p);
    var i :| 0 <= i < |scores| && scores[i] == ScoreEntry(p, v.value);
    if p != General {
      assert i == Rank(p);
    }
  }

  /** The secondary consultations: every other entry scoring above 0.2, in
      dictionary order. */
  function Secondary(scores: seq<ScoreEntry>, primary: Specialty): (sec: seq<ScoreEntry>)
    ensures |sec| <= |scores|
    ensures forall i :: 0 <= i < |sec| ==> sec[i].agent != primary && sec[i].score > SecondaryThreshold
    ensures forall e :: e in sec <==> e in scores && e.agent != primary && e.score > SecondaryThreshold
  {
    if |scores| == 0 then []
    else
      var rest := Secondary(scores[1..], primary);
      var e := scores[0];
      assert forall x :: x in scores <==> x == e || x in scores[1..];
      if e.agent != primary && e.score > SecondaryThreshold then [e] + rest else rest
  }

  /** The filter distributes over concatenation: the secondaries of a joined
      list are those of its first part followed by those of its second. With
      the membership clause of `Secondary` this pins the filter down, order
      included. */
  lemma {:induction false} SecondaryAppend(a: seq<ScoreEntry>, b: seq<ScoreEntry>, primary: Specialty)
    ensures Secondary(a + b, primary) == Secondary(a, primary) + Secondary(b, primary)
  {
    if |a| == 0 {
      assert a + b == b;
    } else {
      assert (a + b)[0] == a[0];
      assert (a + b)[1..] == a[1..] + b;
      SecondaryAppend(a[1..], b, primary);
    }
  }

  /** Entries listed in strictly increasing dictionary order. */
  predicate Ranked(es: seq<ScoreEntry>) {
    forall i, j :: 0 <= i < j < |es| ==> Rank(es[i].agent) < Rank(es[j].agent)
  }

  /** The filter keeps entries in the order it finds them. */
  lemma {:induction false} SecondaryRanked(scores: seq<ScoreEntry>, primary: Specialty)
    requires Ranked(scores)
    ensures Ranked(Secondary(scores, primary))
  {
    if |scores| > 0 {
      var e := scores[0];
      var rest := Secondary(scores[1..], primary);
      RankedTail(scores);
      SecondaryRanked(scores[1..], primary);
      if e.agent != primary && e.score > SecondaryThreshold {
        RankedCons(e, rest);
      }
    }
  }

  /** The tail of a ranked list is ranked, and its head ranks below all of it. */
  lemma RankedTail(es: seq<ScoreEntry>)
    requires |es| > 0 && Ranked(es)
    ensures Ranked(es[1..])
    ensures forall x :: x in es[1..] ==> Rank(es[0].agent) < Rank(x.agent)
  {
    forall x | x in es[1..]
      ensures Rank(es[0].agent) < Rank(x.agent)
    {
      var k :| 0 <= k < |es[1..]| && es[1..][k] == x;
      assert es[k + 1] == x;
    }
  }

  /** An entry ranking below every entry of a ranked list extends it. */
  lemma RankedCons(e: ScoreEntry, rest: seq<ScoreEntry>)
    requires Ranked(rest)
    requires forall x :: x in rest ==> Rank(e.agent) < Rank(x.agent)
    ensures Ranked([e] + rest)
  {
    var es := [e] + rest;
    forall i, j | 0 <= i < j < |es|
      ensures Rank(es[i].agent) < Rank(es[j].agent)
    {
      assert es[j] == rest[j - 1];
      if i > 0 {
        assert es[i] == rest[i - 1];
      }
    }
  }

  /** A routing's scores list is in dictionary order. */
  lemma RouteRanked(router: AgentRouter, report: string, symptoms: string, medicalHistory: string)
    requires Valid(router)
    ensures Ranked(Route(router, report, symptoms, medicalHistory).scores)
  {
    var r := Route(router, report, symptoms, medicalHistory);
    forall i | 0 <= i < |r.scores|
      ensures Rank(r.scores[i].agent) == i
    {
      if i == 3 {
        assert r.scores[3].agent == General;
      } else {
        assert r.scores[i].agent == Scored[i];
      }
    }
  }

  /** The agents of a list of score entries, in order. */
  function AgentsOf(es: seq<ScoreEntry>): (agents: seq<Specialty>)
    ensures |agents| == |es|
    ensures forall i :: 0 <= i < |es| ==> agents[i] == es[i].agent
  {
    seq(|es|, i requires 0 <= i < |es| => es[i].agent)
  }

  /** The specialties consulted as secondaries for a request. */
  function SecondaryAgents(router: AgentRouter, report: string, symptoms: string, medicalHistory: string): seq<Specialty>
    requires Valid(router)
  {
    var r := Route(router, report, symptoms, medicalHistory);
    AgentsOf(Secondary(r.scores, r.primary))
  }

  /** A specialty is among the agents of a list exactly when one of its
      entries is. */
  lemma InAgentsOf(es: seq<ScoreEntry>, s: Specialty)
    ensures s in AgentsOf(es) <==> exists e :: e in es && e.agent == s
  {
    var agents := AgentsOf(es);
    if s in agents {
      var i :| 0 <= i < |agents| && agents[i] == s;
      assert es[i] in es;
    }
    if exists e :: e in es && e.agent == s {
      var e :| e in es && e.agent == s;
      var i :| 0 <= i < |es| && es[i] == e;
      assert agents[i] == s;
    }
  }

  /** Every entry of the routing's scores is its specialty's score, except
      the sentinel general-medicine entry of a fallback. */
  lemma RouteEntry(router: AgentRouter, report: string, symptoms: string, medicalHistory: string, j: nat)
    requires Valid(router)
    requires j < |Route(router, report, symptoms, medicalHistory).scores|
    ensures var r := Route(router, report, symptoms, medicalHistory);
            r.scores[j].agent == General ==> r.primary == General
    ensures var r := Route(router, report, symptoms, medicalHistory);
            r.scores[j].agent != General ==>
              r.scores[j].score == ScoreOf(router, r.scores[j].agent, ScoredText(report, symptoms))
  {
  }

  /** A specialty is a secondary exactly when it is scored, is not the
      primary and scores above 0.2; general medicine never is one. */
  lemma SecondaryLaw(router: AgentRouter, report: string, symptoms: string, medicalHistory: string, s: Specialty)
    requires Valid(router)
    ensures var r := Route(router, report, symptoms, medicalHistory);
            s in SecondaryAgents(router, report, symptoms, medicalHistory) <==>
              s != General && s != r.primary && ScoreOf(router, s, ScoredText(report, symptoms)) > SecondaryThreshold
  {
    var r := Route(router, report, symptoms, medicalHistory);
    var t := ScoredText(report, symptoms);
    var sec := Secondary(r.scores, r.primary);
    InAgentsOf(sec, s);
    if exists e :: e in sec && e.agent == s {
      var e :| e in sec && e.agent == s;
      var j :| 0 <= j < |r.scores| && r.scores[j] == e;
      RouteEntry(router, report, symptoms, medicalHistory, j);
    }
    if s != General && s != r.primary && ScoreOf(router, s, t) > SecondaryThreshold {
      RouteBySpecialty(router, report, symptoms, medicalHistory);
      var e := r.scores[Rank(s)];
      assert e in r.scores;
      assert e in sec;
    }
  }

  /** The analyses produced for one request; `calls` lists the specialties
      whose `analyze_report` ran, in call order. */
  datatype Opinion = Opinion(agent: Specialty, analysis: string, confidence: real)
  datatype MultiAnalysis = MultiAnalysis(
    primary: Opinion,
    secondary: seq<Opinion>,
    allScores: seq<ScoreEntry>,
    calls: seq<Specialty>)

  /** The secondary opinions: each consulted specialty's analysis, reported
      with its score. */
  function Opinions(sec: seq<ScoreEntry>, analyze: Specialty -> string): (ops: seq<Opinion>)
    ensures |ops| == |sec|
    ensures forall i :: 0 <= i < |sec| ==> ops[i] == Opinion(sec[i].agent, analyze(sec[i].agent), sec[i].score)
  {
    seq(|sec|, i requires 0 <= i < |sec| => Opinion(sec[i].agent, analyze(sec[i].agent), sec[i].score))
  }

  /** The order of the `analyze_report` calls: the primary, then the
      secondaries in order. */
  function CallOrder(primary: Specialty, sec: seq<ScoreEntry>): (calls: seq<Specialty>)
    ensures |calls| == |sec| + 1 && calls[0] == primary
    ensures forall i :: 1 <= i < |calls| ==> calls[i] == sec[i - 1].agent
  {
    [primary] + AgentsOf(sec)
  }

  /** The secondaries of a request by position: none is general medicine,
      each carries its specialty's own score, they come in dictionary order,
      and a specialty is among them exactly when it qualifies. */
  lemma SecondaryFacts(router: AgentRouter, report: string, symptoms: string, medicalHistory: string)
    requires Valid(router)
    ensures var r := Route(router, report, symptoms, medicalHistory);
            var sec := Secondary(r.scores, r.primary);
            forall i :: 0 <= i < |sec| ==>
              sec[i].agent != General && sec[i].score == ScoreOf(router, sec[i].agent, ScoredText(report, symptoms))
    ensures var r := Route(router, report, symptoms, medicalHistory);
            Ranked(Secondary(r.scores, r.primary))
    ensures var r := Route(router, report, symptoms, medicalHistory);
            var sec := Secondary(r.scores, r.primary);
            forall s :: (exists i :: 0 <= i < |sec| && sec[i].agent == s) <==>
              s != General && s != r.primary && ScoreOf(router, s, ScoredText(report, symptoms)) > SecondaryThreshold
  {
    var r := Route(router, report, symptoms, medicalHistory);
    var sec := Secondary(r.scores, r.primary);
    forall i | 0 <= i < |sec|
      ensures sec[i].agent != General && sec[i].score == ScoreOf(router, sec[i].agent, ScoredText(report, symptoms))
    {
      assert sec[i] in sec;
      var j :| 0 <= j < |r.scores| && r.scores[j] == sec[i];
      RouteEntry(router, report, symptoms, medicalHistory, j);
    }
    RouteRanked(router, report, symptoms, medicalHistory);
    SecondaryRanked(r.scores, r.primary);
    forall s
      ensures (exists i :: 0 <= i < |sec| && sec[i].agent == s) <==>
              s != General && s != r.primary && ScoreOf(router, s, ScoredText(report, symptoms)) > SecondaryThreshold
    {
      SecondaryLaw(router, report, symptoms, medicalHistory, s);
      var agents := AgentsOf(sec);
      assert agents == SecondaryAgents(router, report, symptoms, medicalHistory);
      if s in agents {
        var i :| 0 <= i < |agents| && agents[i] == s;
        assert sec[i].agent == s;
      }
      if exists i :: 0 <= i < |sec| && sec[i].agent == s {
        var i :| 0 <= i < |sec| && sec[i].agent == s;
        assert agents[i] == s;
      }
    }
  }

  /** At most three specialties are consulted besides the primary. */
  lemma SecondaryAtMostThree(router: AgentRouter, report: string, symptoms: string, medicalHistory: string)
    requires Valid(router)
    ensures var r := Route(router, report, symptoms, medicalHistory);
            |Secondary(r.scores, r.primary)| <= 3
  {
    var r := Route(router, report, symptoms, medicalHistory);
    if r.primary == General {
      assert r.scores[|r.scores| - 1].agent == General;
      SecondaryDropsLast(r.scores, r.primary);
    }
  }

  /** `get_multi_agent_analysis`, with `analyze(s)` standing for the text the
      specialty's `analyze_report` returns for this request. */
  function MultiAgentAnalysis(router: AgentRouter, report: string, symptoms: string, medicalHistory: string,
                              analyze: Specialty -> string): (m: MultiAnalysis)
    requires Valid(router)
    ensures m.primary.agent == Route(router, report, symptoms, medicalHistory).primary
    ensures m.primary.analysis == analyze(m.primary.agent)
    ensures m.allScores == Route(router, report, symptoms, medicalHistory).scores
    ensures |m.calls| == 1 + |m.secondary| <= 4
    ensures m.calls[0] == m.primary.agent
    ensures forall i :: 1 <= i < |m.calls| ==> m.calls[i] == m.secondary[i - 1].agent
    ensures forall i :: 0 <= i < |m.secondary| ==> m.secondary[i].analysis == analyze(m.secondary[i].agent)
    ensures forall i :: 0 <= i < |m.secondary| ==> m.secondary[i].agent != m.primary.agent
    ensures forall i :: 0 <= i < |m.secondary| ==> m.secondary[i].confidence > SecondaryThreshold
    ensures m.primary.confidence ==
              if m.primary.agent == General then 1.0 else ScoreOf(router, m.primary.agent, ScoredText(report, symptoms))
    ensures forall i :: 0 <= i < |m.secondary| ==>
              m.secondary[i].agent != General &&
              m.secondary[i].confidence == ScoreOf(router, m.secondary[i].agent, ScoredText(report, symptoms))
    ensures forall i, j :: 0 <= i < j < |m.secondary| ==> Rank(m.secondary[i].agent) < Rank(m.secondary[j].agent)
    ensures forall s :: (exists i :: 0 <= i < |m.secondary| && m.secondary[i].agent == s) <==>
              s != General && s != m.primary.agent && ScoreOf(router, s, ScoredText(report, symptoms)) > SecondaryThreshold
  {
    var r := Route(router, report, symptoms, medicalHistory);
    var sec := Secondary(r.scores, r.primary);
    SecondaryAtMostThree(router, report, symptoms, medicalHistory);
    PrimaryConfidenceLaw(router, report, symptoms, medicalHistory);
    SecondaryFacts(router, report, symptoms, medicalHistory);
    MultiAnalysis(Opinion(r.primary, analyze(r.primary), PrimaryConfidence(r)), Opinions(sec, analyze),
                  r.scores, CallOrder(r.primary, sec))
  }

  /** When the last entry belongs to the primary, the secondaries are fewer
      than the entries. */
  lemma {:induction false} SecondaryDropsLast(scores: seq<ScoreEntry>, primary: Specialty)
    requires |scores| > 0 && scores[|scores| - 1].agent == primary
    ensures |Secondary(scores, primary)| < |scores|
  {
    if |scores| > 1 {
      SecondaryDropsLast(scores[1..], primary);
    }
  }
}
