/** The bookkeeping of the two front ends: the upload filter, the agent
    descriptions, the diagnosis history and the chat log kept in the user's
    session, the request guards around them and the history statistics.
    Clocks enter as a `Stamp` parameter; the analysis and the chat reply
    enter as functions. */
module Session {
  import opened Wrappers
  import opened Text
  import opened Specialties
  import Scoring
  import Router

  // ---------------------------------------------------------------- uploads

  /** The position of the last '.' in a file name, if any. */
  function LastDot(f: string): (r: Option<nat>)
    ensures r.Some? ==> r.value < |f| && f[r.value] == '.'
    ensures r.Some? ==> forall j :: r.value < j < |f| ==> f[j] != '.'
    ensures r.None? ==> forall j :: 0 <= j < |f| ==> f[j] != '.'
  {
    if |f| == 0 then None
    else if f[|f| - 1] == '.' then Some(|f| - 1)
    else LastDot(f[..|f| - 1])
  }

  /** `allowed_file`: the name has a dot, and the text after the last dot,
      lower-cased, is one of the allowed extensions. */
  predicate AllowedFile(f: string) {
    LastDot(f).Some? && Lower(f[LastDot(f).value + 1..]) in {"txt", "pdf"}
  }

  /** A name is accepted exactly when it ends in ".txt" or ".pdf", in any
      letter case. */
  lemma AllowedFileEndings(f: string)
    ensures AllowedFile(f) <==>
              && |f| >= 4 && f[|f| - 4] == '.'
              && (Lower(f[|f| - 3..]) == "txt" || Lower(f[|f| - 3..]) == "pdf")
  {
    if |f| >= 4 && f[|f| - 4] == '.' && (Lower(f[|f| - 3..]) == "txt" || Lower(f[|f| - 3..]) == "pdf") {
      var ext := Lower(f[|f| - 3..]);
      forall j | |f| - 4 < j < |f|
        ensures f[j] != '.'
      {
        assert ext[j - (|f| - 3)] == LowerChar(f[j]);
      }
      assert LastDot(f) == Some(|f| - 4);
    }
  }

  /** An upper-case extension is accepted. */
  lemma UpperCaseExtensionAllowed(f: string)
    requires f == "scan.PDF"
    ensures AllowedFile(f)
  {
    assert f[4] == '.' && f[5..] == "PDF";
    AllowedFileEndings(f);
  }

  /** Only the last extension counts. */
  lemma InnerExtensionIgnored(f: string)
    requires f == "a.txt.doc"
    ensures !AllowedFile(f)
  {
    assert f[5] == '.' && f[6..] == "doc";
    AllowedFileEndings(f);
  }

  /** A bare extension without a dot is refused. */
  lemma BareExtensionRefused(f: string)
    requires f == "txt"
    ensures !AllowedFile(f)
  {
    AllowedFileEndings(f);
  }

  // ----------------------------------------------------- agent descriptions

  const CardiologyDescription: string := "Heart conditions, blood pressure, cardiovascular health, ECG analysis"
  const PsychologyDescription: string := "Mental health, depression, anxiety, stress management, sleep disorders"
  const PulmonologyDescription: string := "Lung conditions, breathing issues, respiratory health, chest imaging"
  const GeneralDescription: string := "Overall health, lab results, preventive care, specialist referrals"
  const DefaultDescription: string := "Medical analysis and insights"

  /** The description shown for each specialty. */
  function Description(s: Specialty): string {
    match s
    case Cardiology => CardiologyDescription
    case Psychology => PsychologyDescription
    case Pulmonology => PulmonologyDescription
    case General => GeneralDescription
  }

  /** `get_agent_description`: a fixed text per specialty key, and a default
      for any other key. */
  function AgentDescription(key: string): (d: string)
    ensures forall s: Specialty :: key == Key(s) ==> d == Description(s)
    ensures (forall s: Specialty :: key != Key(s)) ==> d == DefaultDescription
  {
    match SpecialtyOfKey(key)
    case Some(s) =>
      assert forall t: Specialty :: key == Key(t) ==> t == s by {
        forall t: Specialty | key == Key(t) ensures t == s {
          KeyAndNameInjective(s, t);
        }
      }
      Description(s)
    case None => DefaultDescription
  }

  /** Every specialty has its own description, distinct from the default. */
  lemma DescriptionsDiffer(s: Specialty, t: Specialty)
    ensures Description(s) != DefaultDescription
    ensures s != t ==> Description(s) != Description(t)
  {
  }

  // ------------------------------------------------------------- history

  /** A date as the statistics use it. */
  datatype Stamp = Stamp(year: int, month: int, day: int)

  /** One saved analysis. `primaryAgent` is absent for entries that lack it,
      which the statistics count under "Unknown". */
  datatype HistoryEntry = HistoryEntry(
    stamp: Stamp,
    reportText: string,
    symptoms: string,
    medicalHistory: string,
    primaryAgent: Option<string>,
    primaryAnalysis: string,
    agentConfidence: real,
    secondaryAgents: seq<string>)

  const PreviewLength: nat := 200
  const Ellipsis: string := "..."

  /** The saved preview of a report: the first 200 characters followed by
      "..." when the report is longer, the report itself otherwise. */
  function Preview(report: string): (r: string)
    ensures |report| <= PreviewLength ==> r == report
    ensures |report| > PreviewLength ==> |r| == PreviewLength + |Ellipsis|
    ensures |report| > PreviewLength ==> r == report[..PreviewLength] + Ellipsis
    ensures r[..if |report| < PreviewLength then |report| else PreviewLength] ==
            report[..if |report| < PreviewLength then |report| else PreviewLength]
  {
    if |report| > PreviewLength then report[..PreviewLength] + Ellipsis else report
  }

  /** Taking the preview of a preview changes nothing. */
  lemma PreviewIdempotent(report: string)
    ensures Preview(Preview(report)) == Preview(report)
  {
    if |report| > PreviewLength {
      var p := Preview(report);
      assert p[..PreviewLength] == report[..PreviewLength];
      assert p[PreviewLength..] == Ellipsis;
      assert p == p[..PreviewLength] + p[PreviewLength..];
    }
  }

  /** The entry saved for one analysis: the report preview, the inputs as
      given, the primary specialist's display name, analysis and confidence,
      and the keys of the secondary specialists in order. */
  function EntryFor(now: Stamp, report: string, symptoms: string, medicalHistory: string,
                    m: Router.MultiAnalysis): (e: HistoryEntry)
    ensures e.stamp == now && e.reportText == Preview(report)
    ensures e.symptoms == symptoms && e.medicalHistory == medicalHistory
    ensures e.primaryAgent == Some(Name(m.primary.agent))
    ensures e.primaryAnalysis == m.primary.analysis && e.agentConfidence == m.primary.confidence
    ensures |e.secondaryAgents| == |m.secondary|
    ensures forall i :: 0 <= i < |m.secondary| ==> e.secondaryAgents[i] == Key(m.secondary[i].agent)
  {
    HistoryEntry(now, Preview(report), symptoms, medicalHistory, Some(Name(m.primary.agent)),
                 m.primary.analysis, m.primary.confidence,
                 seq(|m.secondary|, i requires 0 <= i < |m.secondary| => Key(m.secondary[i].agent)))
  }

  /** One chat message. */
  datatype Role = User | Assistant
  datatype ChatMessage = ChatMessage(role: Role, content: string)

  /** The Flask session: the chat log and the diagnosis history. */
  datatype FlaskSession = FlaskSession(chat: seq<ChatMessage>, diagnoses: seq<HistoryEntry>)

  /** How a request ends: success, or an error status with its message. */
  datatype Status = Ok | Error(code: int, message: string)

  const BadRequest: int := 400
  const ServerError: int := 500

  /** The error messages of the two request handlers. */
  const NoRouterMessage: string := "AI system not available. Please check your API configuration."
  const NoReportMessage: string := "Please provide a medical report (either by uploading a file or entering text manually)."
  const NoChatMessage: string := "AI system not available."
  const EmptyMessageMessage: string := "Please enter a message."

  /** The result of a request: the session afterwards and the status. */
  datatype Handled = Handled(session: FlaskSession, status: Status)

  /** `POST /analyze`. Without a router the request fails with 500; the
      report text (typed, or extracted from an upload, which the extractors
      also strip) is stripped, and an empty report fails with 400; otherwise
      the multi-agent analysis runs and one entry joins the history. */
  function AnalyzeReport(s: FlaskSession, router: Option<Router.AgentRouter>, reportText: string,
                         symptoms: string, medicalHistory: string, now: Stamp,
                         analyze: Specialty -> string): (h: Handled)
    requires router.Some? ==> Router.Valid(router.value)
    ensures router.None? ==> h == Handled(s, Error(ServerError, NoRouterMessage))
    ensures router.Some? && Strip(reportText) == "" ==>
              h == Handled(s, Error(BadRequest, NoReportMessage))
    ensures h.status == Ok <==> router.Some? && Strip(reportText) != ""
    ensures h.session.chat == s.chat
    ensures h.status == Ok ==>
              var m := Router.MultiAgentAnalysis(router.value, Strip(reportText), symptoms, medicalHistory, analyze);
              h.session.diagnoses == s.diagnoses + [EntryFor(now, Strip(reportText), symptoms, medicalHistory, m)]
    ensures h.status != Ok ==> h.session == s
  {
    if router.None? then
      Handled(s, Error(ServerError, NoRouterMessage))
    else
      var report := Strip(reportText);
      if report == "" then
        Handled(s, Error(BadRequest, NoReportMessage))
      else
        var m := Router.MultiAgentAnalysis(router.value, report, symptoms, medicalHistory, analyze);
        Handled(s.(diagnoses := s.diagnoses + [EntryFor(now, report, symptoms, medicalHistory, m)]), Ok)
  }

  /** A saved Flask entry never starts or ends with whitespace and names the
      specialist the router chose. */
  lemma AnalyzeReportEntry(s: FlaskSession, router: Router.AgentRouter, reportText: string,
                           symptoms: string, medicalHistory: string, now: Stamp,
                           analyze: Specialty -> string)
    requires Router.Valid(router)
    requires Strip(reportText) != ""
    ensures var h := AnalyzeReport(s, Some(router), reportText, symptoms, medicalHistory, now, analyze);
            var e := h.session.diagnoses[|s.diagnoses|];
            && |h.session.diagnoses| == |s.diagnoses| + 1
            && e.reportText != "" && !IsSpace(e.reportText[0])
            && e.primaryAgent == Some(Name(Router.Route(router, Strip(reportText), symptoms, medicalHistory).primary))
  {
  }

  /** The Streamlit page keeps its own history list. It checks the stripped
      text for emptiness but analyzes and saves the text as entered. */
  function StreamlitAnalyze(history: seq<HistoryEntry>, router: Router.AgentRouter, reportText: string,
                            symptoms: string, medicalHistory: string, now: Stamp,
                            analyze: Specialty -> string): (r: seq<HistoryEntry>)
    requires Router.Valid(router)
    ensures Strip(reportText) == "" ==> r == history
    ensures Strip(reportText) != "" ==> |r| == |history| + 1 && r[..|history|] == history
    ensures Strip(reportText) != "" ==>
              var e := r[|history|];
              var route := Router.Route(router, reportText, symptoms, medicalHistory);
              var sec := Router.Secondary(route.scores, route.primary);
              && e.stamp == now && e.reportText == Preview(reportText)
              && e.symptoms == symptoms && e.medicalHistory == medicalHistory
              && e.primaryAgent == Some(Name(route.primary))
              && e.primaryAnalysis == analyze(route.primary)
              && e.agentConfidence == Router.PrimaryConfidence(route)
              && |e.secondaryAgents| == |sec|
              && (forall i :: 0 <= i < |sec| ==> e.secondaryAgents[i] == Key(sec[i].agent))
  {
    if Strip(reportText) == "" then history
    else
      var m := Router.MultiAgentAnalysis(router, reportText, symptoms, medicalHistory, analyze);
      history + [EntryFor(now, reportText, symptoms, medicalHistory, m)]
  }

  /** On a report without surrounding whitespace the two front ends leave
      the same history: both refuse it when it is empty, and otherwise both
      append the same entry. */
  lemma FrontEndsAgreeOnTrimmedReports(s: FlaskSession, router: Router.AgentRouter, reportText: string,
                                       symptoms: string, medicalHistory: string, now: Stamp,
                                       analyze: Specialty -> string)
    requires Router.Valid(router)
    requires Strip(reportText) == reportText
    ensures AnalyzeReport(s, Some(router), reportText, symptoms, medicalHistory, now, analyze).session.diagnoses ==
            StreamlitAnalyze(s.diagnoses, router, reportText, symptoms, medicalHistory, now, analyze)
  {
  }

  /** A report that starts with whitespace is saved differently by the two
      front ends: the Streamlit page keeps the leading whitespace in the
      saved preview, while the Flask handler's preview starts with the first
      visible character. */
  lemma FrontEndsDifferOnPaddedReports(s: FlaskSession, router: Router.AgentRouter, reportText: string,
                                       symptoms: string, medicalHistory: string, now: Stamp,
                                       analyze: Specialty -> string)
    requires Router.Valid(router)
    requires Strip(reportText) != "" && IsSpace(reportText[0])
    ensures var flask := AnalyzeReport(s, Some(router), reportText, symptoms, medicalHistory, now, analyze).session.diagnoses;
            var page := StreamlitAnalyze(s.diagnoses, router, reportText, symptoms, medicalHistory, now, analyze);
            && |flask| == |page| == |s.diagnoses| + 1
            && page[|s.diagnoses|].reportText != "" && IsSpace(page[|s.diagnoses|].reportText[0])
            && flask[|s.diagnoses|].reportText != "" && !IsSpace(flask[|s.diagnoses|].reportText[0])
            && flask != page
  {
    var n := |s.diagnoses|;
    AnalyzeReportEntry(s, router, reportText, symptoms, medicalHistory, now, analyze);
    var flask := AnalyzeReport(s, Some(router), reportText, symptoms, medicalHistory, now, analyze).session.diagnoses;
    var page := StreamlitAnalyze(s.diagnoses, router, reportText, symptoms, medicalHistory, now, analyze);
    assert page[n].reportText == Preview(reportText);
    assert Preview(reportText)[0] == reportText[0];
    assert flask[n] != page[n];
  }

  /** Flask strips the report before routing it, the Streamlit page routes
      it as entered, so trailing whitespace in the report can break a keyword
      that spans report and symptoms: for the report "chest " and the
      symptoms "pain", Flask's scored text holds the cardiology keyword
      "chest pain" and the Streamlit page's does not. */
  lemma PaddedReportScoresDifferently(report: string, symptoms: string)
    requires report == "chest " && symptoms == "pain"
    ensures "chest pain" in Keywords(Cardiology)
    ensures Scoring.KeywordOccurs("chest pain", Router.ScoredText(Strip(report), symptoms))
    ensures !Scoring.KeywordOccurs("chest pain", Router.ScoredText(report, symptoms))
  {
    assert Keywords(Cardiology)[11] == "chest pain";
    assert LeadingSpaces(report) == 0;
    assert TrailingStart(report[..5]) == 5;
    assert Strip(report) == "chest";
    var flask := Router.ScoredText(Strip(report), symptoms);
    assert flask == "chest pain";
    Scoring.KeywordAt("chest pain", flask, 0);
    var t := Lower(Router.ScoredText(report, symptoms));
    var p := Lower("chest pain");
    assert |t| == 11 && |p| == 10;
    assert t[6] == ' ' && p[6] == 'p';
    NotOccursAt(t, p, 0, 6);
    assert t[1] == 'h' && p[0] == 'c';
    NotOccursAt(t, p, 1, 0);
  }

  /** `POST /send_message`: 500 without a router; the message is stripped,
      400 when empty; otherwise the user's message and the assistant's reply
      join the chat log. */
  function SendMessage(s: FlaskSession, ready: bool, message: string, respond: string -> string): (h: Handled)
    ensures h.status == Ok <==> ready && Strip(message) != ""
    ensures !ready ==> h.status == Error(ServerError, NoChatMessage)
    ensures ready && Strip(message) == "" ==> h.status == Error(BadRequest, EmptyMessageMessage)
    ensures h.status != Ok ==> h.session == s
    ensures h.session.diagnoses == s.diagnoses
    ensures h.status == Ok ==>
              h.session.chat == s.chat + [ChatMessage(User, Strip(message)), ChatMessage(Assistant, respond(Strip(message)))]
  {
    if !ready then Handled(s, Error(ServerError, NoChatMessage))
    else
      var text := Strip(message);
      if text == "" then Handled(s, Error(BadRequest, EmptyMessageMessage))
      else Handled(s.(chat := s.chat + [ChatMessage(User, text), ChatMessage(Assistant, respond(text))]), Ok)
  }

  /** After any sequence of successful sends the chat log alternates user and
      assistant messages, starting with the user. */
  predicate Alternates(chat: seq<ChatMessage>) {
    |chat| % 2 == 0 && forall i :: 0 <= i < |chat| ==> chat[i].role == (if i % 2 == 0 then User else Assistant)
  }

  lemma SendMessageKeepsAlternation(s: FlaskSession, ready: bool, message: string, respond: string -> string)
    requires Alternates(s.chat)
    ensures Alternates(SendMessage(s, ready, message, respond).session.chat)
  {
    var h := SendMessage(s, ready, message, respond);
    if h.status == Ok {
      var added := [ChatMessage(User, Strip(message)), ChatMessage(Assistant, respond(Strip(message)))];
      var c := s.chat + added;
      assert h.session.chat == c;
      forall i | 0 <= i < |c|
        ensures c[i].role == (if i % 2 == 0 then User else Assistant)
      {
        if i < |s.chat| {
          assert c[i] == s.chat[i];
        } else {
          assert c[i] == added[i - |s.chat|];
        }
      }
    }
  }

  /** `POST /clear_history` empties the diagnosis history only. */
  function ClearHistory(s: FlaskSession): (r: FlaskSession)
    ensures r.diagnoses == [] && r.chat == s.chat
  {
    s.(diagnoses := [])
  }

  /** `POST /clear_chat` empties the chat log only. */
  function ClearChat(s: FlaskSession): (r: FlaskSession)
    ensures r.chat == [] && r.diagnoses == s.diagnoses
  {
    s.(chat := [])
  }

  // ------------------------------------------------------------ statistics

  /** The name an entry is counted under in the usage table. */
  function AgentOf(e: HistoryEntry): string {
    e.primaryAgent.GetOr("Unknown")
  }

  /** How many entries name agent a. */
  function CountAgent(history: seq<HistoryEntry>, a: string): (n: nat)
    ensures n <= |history|
  {
    if |history| == 0 then 0
    else CountAgent(history[..|history| - 1], a) + (if AgentOf(history[|history| - 1]) == a then 1 else 0)
  }

  /** One row of the usage table. */
  datatype Usage = Usage(agent: string, count: nat)

  /** `usage[agent] = usage.get(agent, 0) + 1` on an insertion-ordered table. */
  function Bump(usage: seq<Usage>, a: string): (r: seq<Usage>)
    ensures |r| == |usage| || |r| == |usage| + 1
    ensures forall i :: 0 <= i < |usage| ==> r[i].agent == usage[i].agent
    ensures |r| == |usage| + 1 ==> r[|usage|] == Usage(a, 1)
  {
    if |usage| == 0 then [Usage(a, 1)]
    else if usage[0].agent == a then [Usage(a, usage[0].count + 1)] + usage[1..]
    else [usage[0]] + Bump(usage[1..], a)
  }

  /** The count recorded for a in the table; 0 when a has no row. */
  function UsageOf(usage: seq<Usage>, a: string): nat {
    if |usage| == 0 then 0
    else if usage[0].agent == a then usage[0].count
    else UsageOf(usage[1..], a)
  }

  /** The sum of the recorded counts. */
  function Total(usage: seq<Usage>): nat {
    if |usage| == 0 then 0 else usage[0].count + Total(usage[1..])
  }

  /** No agent has two rows. */
  predicate DistinctAgents(usage: seq<Usage>) {
    forall i, j :: 0 <= i < j < |usage| ==> usage[i].agent != usage[j].agent
  }

  /** The `agent_usage` table, built over the history in order. */
  function AgentUsage(history: seq<HistoryEntry>): seq<Usage> {
    if |history| == 0 then []
    else Bump(AgentUsage(history[..|history| - 1]), AgentOf(history[|history| - 1]))
  }

  lemma {:induction false} BumpCounts(usage: seq<Usage>, a: string, b: string)
    ensures UsageOf(Bump(usage, a), b) == UsageOf(usage, b) + (if a == b then 1 else 0)
    ensures Total(Bump(usage, a)) == Total(usage) + 1
  {
    if |usage| > 0 && usage[0].agent != a {
      BumpCounts(usage[1..], a, b);
      assert Bump(usage, a)[1..] == Bump(usage[1..], a);
    }
    if |usage| > 0 && usage[0].agent == a {
      assert Bump(usage, a)[1..] == usage[1..];
    }
  }

  lemma {:induction false} BumpDistinct(usage: seq<Usage>, a: string)
    requires DistinctAgents(usage)
    ensures DistinctAgents(Bump(usage, a))
  {
    if |usage| > 0 && usage[0].agent != a {
      BumpDistinct(usage[1..], a);
      var r := Bump(usage, a);
      assert r[1..] == Bump(usage[1..], a);
      forall j | 0 < j < |r|
        ensures r[0].agent != r[j].agent
      {
        if j < |usage| {
          assert r[j].agent == usage[j].agent;
        } else {
          assert r[j] == Usage(a, 1);
        }
      }
    }
  }

  /** The usage table counts every entry exactly once under its agent, has
      one row per agent, and its counts add up to the history's length. */
  lemma {:induction false} AgentUsageCounts(history: seq<HistoryEntry>, a: string)
    ensures UsageOf(AgentUsage(history), a) == CountAgent(history, a)
    ensures Total(AgentUsage(history)) == |history|
    ensures DistinctAgents(AgentUsage(history))
  {
    if |history| > 0 {
      var front := history[..|history| - 1];
      AgentUsageCounts(front, a);
      BumpCounts(AgentUsage(front), AgentOf(history[|history| - 1]), a);
      BumpDistinct(AgentUsage(front), AgentOf(history[|history| - 1]));
    }
  }

  /** How many entries fall in the given month of the given year (Flask). */
  function ThisMonth(history: seq<HistoryEntry>, now: Stamp): (n: nat)
    ensures n <= |history|
  {
    if |history| == 0 then 0
    else
      var e := history[|history| - 1];
      ThisMonth(history[..|history| - 1], now) + (if e.stamp.month == now.month && e.stamp.year == now.year then 1 else 0)
  }

  /** How many entries fall in the given month of any year (Streamlit). */
  function SameMonthAnyYear(history: seq<HistoryEntry>, now: Stamp): (n: nat)
    ensures n <= |history|
  {
    if |history| == 0 then 0
    else
      var e := history[|history| - 1];
      SameMonthAnyYear(history[..|history| - 1], now) + (if e.stamp.month == now.month then 1 else 0)
  }

  /** The Streamlit count includes every entry the Flask count does, and the
      two agree when all entries are from the current year. */
  lemma {:induction false} MonthCountsCompare(history: seq<HistoryEntry>, now: Stamp)
    ensures ThisMonth(history, now) <= SameMonthAnyYear(history, now)
    ensures (forall i :: 0 <= i < |history| ==> history[i].stamp.year == now.year) ==>
              ThisMonth(history, now) == SameMonthAnyYear(history, now)
  {
    if |history| > 0 {
      MonthCountsCompare(history[..|history| - 1], now);
    }
  }

  /** The Streamlit count exceeds the Flask count exactly when some entry
      falls in the current month of another year. */
  lemma {:induction false} MonthCountsDiffer(history: seq<HistoryEntry>, now: Stamp)
    ensures ThisMonth(history, now) < SameMonthAnyYear(history, now) <==>
            exists i :: 0 <= i < |history| && history[i].stamp.month == now.month && history[i].stamp.year != now.year
  {
    if |history| > 0 {
      var front := history[..|history| - 1];
      MonthCountsDiffer(front, now);
      MonthCountsCompare(front, now);
      if exists i :: 0 <= i < |front| && front[i].stamp.month == now.month && front[i].stamp.year != now.year {
        var i :| 0 <= i < |front| && front[i].stamp.month == now.month && front[i].stamp.year != now.year;
        assert history[i] == front[i];
      }
      if exists i :: 0 <= i < |history| && history[i].stamp.month == now.month && history[i].stamp.year != now.year {
        var i :| 0 <= i < |history| && history[i].stamp.month == now.month && history[i].stamp.year != now.year;
        if i < |front| {
          assert front[i] == history[i];
        }
      }
    }
  }

  /** The history page's statistics. */
  datatype Stats = Stats(totalAnalyses: nat, thisMonth: nat, lastAnalysis: Option<Stamp>, agentUsage: seq<Usage>)

  function HistoryStats(history: seq<HistoryEntry>, now: Stamp): (st: Stats)
    ensures st.totalAnalyses == |history|
    ensures st.thisMonth <= st.totalAnalyses
    ensures st.lastAnalysis.Some? <==> |history| > 0
    ensures |history| > 0 ==> st.lastAnalysis == Some(history[|history| - 1].stamp)
    ensures Total(st.agentUsage) == st.totalAnalyses && DistinctAgents(st.agentUsage)
  {
    AgentUsageCounts(history, "Unknown");
    Stats(|history|, ThisMonth(history, now),
          if |history| > 0 then Some(history[|history| - 1].stamp) else None,
          AgentUsage(history))
  }

  /** After clearing, the statistics are all zero. */
  lemma ClearedStats(s: FlaskSession, now: Stamp)
    ensures HistoryStats(ClearHistory(s).diagnoses, now) == Stats(0, 0, None, [])
  {
  }

  /** A successful analysis adds one to the total and one to its
      specialist's usage count, and becomes the last analysis. */
  lemma AnalyzeReportUpdatesStats(s: FlaskSession, router: Router.AgentRouter, reportText: string,
                                  symptoms: string, medicalHistory: string, now: Stamp,
                                  analyze: Specialty -> string)
    requires Router.Valid(router)
    requires Strip(reportText) != ""
    ensures var h := AnalyzeReport(s, Some(router), reportText, symptoms, medicalHistory, now, analyze);
            var name := Name(Router.Route(router, Strip(reportText), symptoms, medicalHistory).primary);
            var before := HistoryStats(s.diagnoses, now);
            var after := HistoryStats(h.session.diagnoses, now);
            && after.totalAnalyses == before.totalAnalyses + 1
            && after.thisMonth == before.thisMonth + 1
            && after.lastAnalysis == Some(now)
            && UsageOf(after.agentUsage, name) == UsageOf(before.agentUsage, name) + 1
  {
    var h := AnalyzeReport(s, Some(router), reportText, symptoms, medicalHistory, now, analyze);
    var d := h.session.diagnoses;
    var name := Name(Router.Route(router, Strip(reportText), symptoms, medicalHistory).primary);
    assert d[..|d| - 1] == s.diagnoses;
    AgentUsageCounts(d, name);
    AgentUsageCounts(s.diagnoses, name);
  }
}
