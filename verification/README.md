# Medical agents: routing, prompt trimming, retries and session bookkeeping

A Dafny model of the core of the multi-agent medical diagnosis system. The
system wraps a Gemini model behind four specialist agents: Cardiology,
Psychology, Pulmonology and General Medicine. It is used through a
Streamlit page and a Flask application. The model covers these parts:

- **Keyword confidence score.** Each agent scores a text as
  `min(matches / K * 2, 1.0)`. A match is a case-insensitive, unanchored
  substring hit of one of its `K` keywords (`Specialties`, `Scoring`).
- **The router.** It scores the three non-general specialties on
  `report + " " + symptoms` and picks the first maximal score. It falls back
  to general medicine, with the sentinel score 1.0, when the best score is
  below 0.3. It then consults every other specialty scoring above 0.2 as a
  secondary (`Router`).
- **`optimize_prompt`.** A prompt over the character budget (2000) is split
  at the first line containing `MEDICAL REPORT:` or `Please analyze`. The
  content half is cut with Python slice semantics, a negative stop
  included, and a notice is appended (`Prompt`).
- **The retry wrapper.** It makes up to three attempts. A rate-limited
  attempt with attempts left sleeps for `base * 2^attempt + uniform(0, 1)`
  seconds; a rate limit on the last attempt returns the service-unavailable
  notice without sleeping. Any other error ends the run at once.
  - The agents' variant uses that backoff as is (`Retry`). It serves every
    analysis, on both front ends, and the Flask chat.
  - The Streamlit variant serves only the Streamlit page's chat
    (app.py:185). It raises the sleep to a delay suggested in the error
    message. That delay is found by the regular expression
    `retry_delay.*?seconds:\s*(\d+)`, spelled out in `Suggest`.
- **Session bookkeeping** (`Session`):
  - the Flask upload filter;
  - the agent descriptions;
  - `POST /analyze` and `POST /send_message` with their 400/500 error paths;
  - the two clear operations;
  - the history statistics;
  - the Streamlit page's own history list and its "This Month" count.

Supporting modules:

- `Text` models the string operations the source relies on: `lower`, `in`,
  `split('\n')`, `'\n'.join`, `strip` and slicing.
- `Wrappers` holds `Option`.

The model handle, the clock, `random.uniform` and the Gemini calls are
parameters:

- the backend is a function from the sent prompt and the attempt number to
  an outcome;
- the jitter is a function of the attempt number;
- "now" is a `Stamp`;
- each agent's analysis text is a function of its specialty.

## Model

| member | source | states |
|---|---|---|
| Specialties.Keywords | agents.py:188-306 | every agent's keyword list is non-empty, so the score's division is defined |
| Specialties.KeywordCounts | agents.py:188-306 | the four lists have 29, 30, 28 and 17 keywords, the divisors of the scores |
| Specialties.KeyAndNameInjective | agents.py:313-318 | distinct specialties have distinct dictionary keys and distinct display names |
| Specialties.SpecialtyOfKey | agents.py:313-318 | a key found in the agents dictionary is the key of the returned specialty; a key not found is no specialty's key |
| Specialties.SpecialtyOfKeyInverts | agents.py:313-318 | looking up a specialty's own key finds that specialty |
| Scoring.KeywordOccurs | agents.py:144-146 | a keyword counts when its lower-cased form is a substring of the lower-cased text, inside other words included |
| Scoring.Matches | agents.py:146 | the match count never exceeds the number of keywords |
| Scoring.MatchesCountsHits | agents.py:146 | the match count is exactly the number of keyword positions whose keyword occurs in the lower-cased text |
| Scoring.Confidence | agents.py:141-149 | the confidence lies in [0, 1] |
| Scoring.ConfidenceMeaning | agents.py:146-147 | the confidence is 1 exactly when at least half the keywords match, 0 exactly when none match, and otherwise exactly twice the matched share |
| Scoring.Ratio | agents.py:147 | `min(m / k * 2, 1.0)` lies in [0, 1] |
| Scoring.RatioMeaning | agents.py:147 | `min(m / k * 2, 1.0)` is 1 exactly when 2m >= k, 0 exactly when m = 0, and 2m/k below the cap |
| Scoring.RatioMonotone | agents.py:147 | more matches never give a lower capped ratio |
| Scoring.MatchesCaseInsensitive | agents.py:144-146 | lower-casing the report does not change the match count |
| Scoring.ConfidenceCaseInsensitive | agents.py:144-147 | lower-casing the report does not change the confidence |
| Scoring.MatchesUpperCase | agents.py:144-146 | upper-casing an ASCII report does not change the match count |
| Scoring.ConfidenceUpperCase | agents.py:144-147 | upper-casing an ASCII report does not change the confidence |
| Scoring.MatchesMonotone | agents.py:146 | appending text to a report never lowers its match count |
| Scoring.ConfidenceMonotone | agents.py:146-147 | appending text to a report never lowers its confidence |
| Scoring.OverlappingKeywords | agents.py:146 | the unanchored `in` test lets "Arrhythmia" hit both "rhythm" and "arrhythmia" |
| Scoring.OccurringKeywordMatches | agents.py:146 | any keyword of the list that occurs in the text makes the match count at least one |
| Scoring.KeywordAt | agents.py:144-146 | a keyword written anywhere in the text, in any case, counts as occurring |
| Scoring.HalfTheKeywordsSaturate | agents.py:147 | one hit out of two keywords already gives confidence 1.0 |
| Router.NewRouter | agents.py:311-318 | a new router holds the four agents in dictionary order, each with its own keyword list |
| Router.ScoredText | agents.py:330 | the router scores the report and the symptoms joined by one space; the medical history is not scored |
| Router.ScoreOf | agents.py:330 | each specialty's score for a text lies in [0, 1] |
| Router.RankIsOrder | agents.py:313-318 | the rank of a specialty is its position in the dictionary order |
| Router.FirstMax | agents.py:334 | `max(d, key=d.get)` returns a position whose score no entry exceeds and that every earlier entry scores strictly below |
| Router.ScoreAll | agents.py:328-330 | the scores dictionary holds, in insertion order, each non-general specialty's confidence on the scored text |
| Router.Lookup | agents.py:372 | `d.get(key)` finds a value exactly when an entry has that key, and the value found belongs to such an entry |
| Router.Select | agents.py:332-340 | general medicine is chosen exactly when all three scores are below 0.3, and the sentinel 1.0 is then appended; otherwise the first maximal entry is chosen |
| Router.Route | agents.py:320-345 | the scores list holds the three specialties' scores in order, plus the general sentinel exactly on a fallback; the primary is general exactly when all three scores are below 0.3, and is otherwise the first maximum |
| Router.RouteBySpecialty | agents.py:325-340 | the routing's entry at a specialty's rank is that specialty's score, and "every entry below 0.3" means "every specialty below 0.3" |
| Router.RouteChoosesBest | agents.py:332-343 | the router falls back to general medicine exactly when every specialty scores below 0.3; otherwise the primary scores at least 0.3, no specialty beats it, and every specialty before it in dictionary order scores strictly lower |
| Router.BestBySpecialty | agents.py:334 | the first-maximum conditions by position carry over to conditions by specialty |
| Router.PrimaryConfidence | agents.py:372 | the primary's confidence is `confidence_scores.get(primary, 1.0)` |
| Router.PrimaryConfidenceLaw | agents.py:337-372 | the reported primary confidence is the sentinel 1.0 on a fallback and otherwise the primary's own score |
| Router.LookupPrimary | agents.py:372 | on a routing's scores list, looking up the primary gives 1.0 for general medicine and the primary's entry otherwise |
| Router.Secondary | agents.py:358-365 | the secondaries are exactly the entries of the scores dictionary that are not the primary and score above 0.2 |
| Router.SecondaryAppend | agents.py:359-360 | the filter of a joined list is the filter of its first part followed by the filter of its second, so the secondaries keep the dictionary's order |
| Router.SecondaryRanked | agents.py:359-360 | filtering a list in dictionary order leaves a list in dictionary order |
| Router.RouteRanked | agents.py:325-343 | the scores list of a routing is in dictionary order |
| Router.SecondaryFacts | agents.py:325-365 | no secondary is general medicine; each carries its specialty's own score; the secondaries come in dictionary order; a specialty is among them exactly when it is not general medicine, not the primary, and scores above 0.2 |
| Router.AgentsOf | agents.py:374 | the keys of the secondary consultations, in order |
| Router.InAgentsOf | agents.py:374 | a specialty is among the consulted keys exactly when one of the entries belongs to it |
| Router.RouteEntry | agents.py:325-343 | every entry of the routing's scores is either its specialty's score or the general sentinel on a fallback |
| Router.SecondaryLaw | agents.py:359-360 | a specialty is consulted as a secondary exactly when it is not general medicine, not the primary, and scores above 0.2 |
| Router.SecondaryAtMostThree | agents.py:358-365 | at most three specialties are consulted besides the primary |
| Router.SecondaryDropsLast | agents.py:360 | when the last entry of the list belongs to the primary, there are fewer secondaries than entries |
| Router.Opinions | agents.py:361-365 | each secondary opinion carries its specialty's analysis and its score as the confidence |
| Router.CallOrder | agents.py:355-363 | the agents are asked for analyses in the order primary first, then each secondary in dictionary order |
| Router.MultiAgentAnalysis | agents.py:347-376 | the primary is the router's choice, with its own analysis and a confidence of 1.0 on a fallback and its own score otherwise; the secondaries are exactly the specialties other than general medicine and the primary that score above 0.2, in dictionary order, each with its own analysis and its score as confidence; the full scores list is returned as the routing's scores; the primary is analyzed first, then each secondary, at most four calls in all |
| Prompt.FirstMarker | agents.py:47-49 | the index of the first line containing either marker: no earlier line contains one |
| Prompt.Partition | agents.py:46-54 | the line loop splits the lines into the lines before the first marker line and the rest, together making all the lines |
| Prompt.SystemText | agents.py:46-56 | the system text is the lines before the first marker line, joined by newlines |
| Prompt.ContentText | agents.py:46-57 | the content text is the first marker line and every line after it, joined by newlines |
| Prompt.OptimizePrompt | agents.py:39-64 | a prompt within the budget is returned unchanged; an over-long one starts with its system text and a newline, and ends with the truncation notice whenever the halves together exceed the budget |
| Prompt.AppendEnds | agents.py:60-62 | each output is its first part followed by its appended part |
| Prompt.CutShape | agents.py:59-62 | a cut prompt is the system text, a newline, a prefix of the content text under Python slice semantics, then the notice |
| Prompt.CutPromptFitsBudget | agents.py:59-62 | when the system text is at most the budget minus 100, the cut prompt fits the budget |
| Prompt.NoMarkerAllSystem | agents.py:46-57 | without a marker every line is system text and the content text is empty |
| Prompt.NoMarkerOnlyAppendsNotice | agents.py:41-62 | an over-long prompt without a marker comes back unshortened, as the prompt plus a newline and the notice |
| Prompt.MarkerAtEdgeCuts | agents.py:56-59 | with the marker on the first line, or no marker at all, an over-long prompt is always cut |
| Prompt.UncutIsUnchanged | agents.py:41-62 | an over-long prompt escapes the cut only when it is exactly one character over the budget, and is then returned unchanged |
| Retry.IsRateLimit | agents.py:27 | an error is a rate limit when its text contains "429", or its lower-cased text contains "quota" or "rate limit" |
| Retry.Backoff | agents.py:29 | the backoff is `base_delay * 2 ** attempt` plus the jitter |
| Retry.AgentsText | agents.py:22-37 | the agents' variant returns the generated text, or its one-line unavailable, failure or exhausted message |
| Retry.StreamlitText | app.py:85-130 | the Streamlit variant returns the generated text, its multi-line unavailable notice, or the failure or exhausted message |
| Retry.Pow2 | agents.py:29 | `2 ** attempt` is at least 1 |
| Retry.BackoffWithin | agents.py:29 | with jitter from [0, 1) the backoff lies in [base * 2^attempt, base * 2^attempt + 1) |
| Retry.StreamlitDelay | app.py:93-103 | the Streamlit delay is the larger of the backoff and the suggested delay; it is the backoff when no delay is suggested |
| Retry.Loop | agents.py:19-37 | a run makes at most max_retries calls and sleeps once fewer than it calls; a text reply is the last call's output; a service-unavailable reply means the last allowed call was rate-limited; a failure means the last call raised an error that is not a rate limit |
| Retry.LoopStep | agents.py:27-31 | a rate-limited call with attempts left sleeps its delay and the loop goes on |
| Retry.LoopStops | agents.py:21-35 | any other call ends the run |
| Retry.LoopDelays | agents.py:27-31 | every call before the last was rate-limited, and the sleep after call j is the delay rule for j and that call's error |
| Retry.LoopSuccess | agents.py:19-31 | a success after rate limits is returned at once |
| Retry.LoopFailure | agents.py:19-35 | an error that is not a rate limit ends the loop with the generic failure |
| Retry.LoopAlwaysRateLimited | agents.py:19-33 | persistent rate limits exhaust the attempts |
| Retry.CallWithRetry | agents.py:9-37 | the optimized prompt is sent on every attempt; "maximum retry attempts exceeded" happens exactly when max_retries is at most 0, after no call and no sleep; otherwise one to max_retries calls are made with one sleep fewer, and a text reply is what the last call generated |
| Retry.SuccessAfterRateLimits | agents.py:19-31 | after k rate-limited calls, a success on call k is the reply, after k + 1 calls and k sleeps |
| Retry.FailureAfterRateLimits | agents.py:23-35 | after k rate-limited calls, an error on call k that is not a rate limit yields the failure reply, after k + 1 calls and k sleeps |
| Retry.AlwaysRateLimited | agents.py:27-33 | a backend that always rate-limits yields the service-unavailable reply after max_retries calls and max_retries - 1 sleeps |
| Retry.AgentsDelayBounds | agents.py:27-30 | the agents' i-th sleep follows a rate-limited call i and lies in [base * 2^i, base * 2^i + 1) |
| Retry.StreamlitDelayBounds | app.py:90-108 | the Streamlit i-th sleep follows a rate-limited call i, is at least the backoff, and is at least any delay that call's error suggests |
| Retry.VariantsAgreeWithoutSuggestion | app.py:93-103 | without a suggested delay the two variants sleep alike |
| Suggest.SpaceRun | app.py:100 | `\s*` consumes exactly the whitespace run at a position |
| Suggest.DigitRun | app.py:100 | `\d+` consumes exactly the digit run at a position |
| Suggest.LazyFrom | app.py:100 | the lazy gap succeeds only when "seconds:" occurs |
| Suggest.SearchFrom | app.py:100 | `re.search` succeeds only when a "retry_delay" occurrence is followed by a successful lazy scan |
| Suggest.SuggestedDelay | app.py:96-103 | a suggested delay is found only in messages holding both "retry_delay" and "seconds:" |
| Suggest.GuardIsImpliedBySearch | app.py:96-101 | the `in` guard before the search never rejects a message the search would accept |
| Suggest.SameLineSuggestion | app.py:100-102 | "retry_delay { seconds: 38 }" yields a suggested delay of 38 seconds |
| Suggest.MultiLineSuggestionMissed | app.py:100-101 | the multi-line layout "retry_delay {\n  seconds: 38\n}" yields no suggestion, because `.` does not cross the newline |
| Suggest.NoSecondsAt | app.py:100 | "seconds:" cannot start at a character other than 's' |
| Suggest.OneLineNumber | app.py:100-102 | in the one-line message, `\s*(\d+)` after "seconds:" captures 38 |
| Suggest.LazyStep | app.py:100 | the lazy gap steps over a character that is neither a newline nor the start of "seconds:" |
| Suggest.LazyHit | app.py:100 | "seconds:" followed by a number ends the lazy scan with that number |
| Suggest.LazySkipsGap | app.py:100 | the lazy gap crosses any newline-free run that does not contain an 's', up to a "seconds:" followed by a number |
| Suggest.OneLineLayout | app.py:100 | the one-line message has "seconds:" at position 14 and a newline-free gap before it |
| Suggest.OneLineLazy | app.py:100 | the lazy scan of the one-line message from after "retry_delay" captures 38 |
| Suggest.MultiLineLazy | app.py:100 | in the multi-line message, the lazy scan from after "retry_delay" hits the newline and fails |
| Suggest.SearchOnlyAtStart | app.py:100 | a message whose only "retry_delay" opens it yields no match when the scan from there fails |
| Suggest.KeyUnderscore | app.py:100 | "retry_delay" has its one underscore at position 5 |
| Suggest.MultiLineShape | app.py:100 | the multi-line message opens with "retry_delay" and has no underscore after it |
| Session.LastDot | flask_app.py:59 | `rsplit('.', 1)` splits at the last dot: no dot follows it, and there is none when absent |
| Session.AllowedFile | flask_app.py:56-59 | a file name is allowed when it has a dot and its text after the last dot, lower-cased, is "txt" or "pdf" |
| Session.AllowedFileEndings | flask_app.py:56-59 | a file name is accepted exactly when it ends in a dot and "txt" or "pdf" in any letter case |
| Session.UpperCaseExtensionAllowed | flask_app.py:56-59 | "scan.PDF" is accepted |
| Session.InnerExtensionIgnored | flask_app.py:56-59 | "a.txt.doc" is refused: only the last extension counts |
| Session.BareExtensionRefused | flask_app.py:56-59 | "txt" without a dot is refused |
| Session.AgentDescription | flask_app.py:138-146 | each specialty's key gives that specialty's description; any other key gives the default |
| Session.DescriptionsDiffer | flask_app.py:140-146 | the four descriptions are distinct from each other and from the default |
| Session.Preview | flask_app.py:227 | a report of at most 200 characters is saved whole; a longer one as its first 200 characters followed by "..." |
| Session.PreviewIdempotent | flask_app.py:227 | taking the preview of a preview changes nothing |
| Session.EntryFor | flask_app.py:225-234 | a history entry records the stamp, the preview, the inputs, the primary's display name, analysis and confidence, and the secondaries' keys in order |
| Session.AnalyzeReport | flask_app.py:157-242 | without a router the request fails with 500, and a report that strips to empty fails with 400; both leave the session unchanged; otherwise exactly one entry for the stripped report is appended and the chat log is untouched |
| Session.AnalyzeReportEntry | flask_app.py:168-236 | the saved entry's preview is non-empty, starts with no whitespace, and names the specialist the router chose |
| Session.StreamlitAnalyze | app.py:417-475 | the Streamlit page leaves the history alone for a report that strips to empty; otherwise it keeps the earlier entries and appends one whose preview is taken from the report as entered, and which names the specialist routed on that unstripped report, with its analysis, its confidence and the secondary keys in order |
| Session.FrontEndsAgreeOnTrimmedReports | app.py:417-475 | on a report without surrounding whitespace, the Flask handler and the Streamlit page leave the same history: both refuse an empty report, and otherwise both append the same entry |
| Session.FrontEndsDifferOnPaddedReports | app.py:417-465 | on a report that starts with whitespace, the Streamlit page saves a preview that starts with whitespace, while the Flask handler (flask_app.py:168-227) saves one that does not, so the two histories differ |
| Session.PaddedReportScoresDifferently | flask_app.py:168-197 | Flask strips the report before routing and the Streamlit page (app.py:418-421) does not: for the report "chest " and the symptoms "pain", Flask's scored text holds the cardiology keyword "chest pain" and the Streamlit page's does not |
| Session.SendMessage | flask_app.py:253-325 | without a router the request fails with 500, and a message that strips to empty fails with 400; both leave the session unchanged; otherwise the stripped user message and the reply to it are appended; the diagnosis history is untouched |
| Session.SendMessageKeepsAlternation | flask_app.py:267-315 | a chat log that alternates user and assistant messages keeps alternating |
| Session.ClearHistory | flask_app.py:360-365 | clearing the history empties it and keeps the chat log |
| Session.ClearChat | flask_app.py:367-372 | clearing the chat empties it and keeps the history |
| Session.AgentOf | flask_app.py:350 | an entry is counted under its primary agent's name, or "Unknown" when it has none |
| Session.CountAgent | flask_app.py:350-351 | the count of entries under one agent is at most the history length |
| Session.Bump | flask_app.py:351 | incrementing a usage table keeps its rows in order and appends a row with count 1 only for a new agent |
| Session.BumpCounts | flask_app.py:351 | incrementing adds one to that agent's count, leaves every other count alone, and adds one to the total |
| Session.BumpDistinct | flask_app.py:351 | incrementing keeps one row per agent |
| Session.AgentUsage | flask_app.py:344-351 | the usage table is built by incrementing each entry's agent in history order |
| Session.AgentUsageCounts | flask_app.py:344-351 | the usage table counts each entry once under its agent ("Unknown" when it names none), sums to the history length and has one row per agent |
| Session.ThisMonth | flask_app.py:339-347 | the Flask month count is at most the history length |
| Session.SameMonthAnyYear | app.py:561 | the Streamlit month count is at most the history length |
| Session.MonthCountsCompare | app.py:561 | the Streamlit count, which ignores the year, is never below the Flask count; the two agree when every entry is from the current year |
| Session.MonthCountsDiffer | flask_app.py:339-347 | the Streamlit count (app.py:561) exceeds the Flask count exactly when some entry falls in the current month of another year |
| Session.HistoryStats | flask_app.py:327-358 | the total is the history length and the month count is at most it; there is a last analysis exactly when the history is non-empty, namely the last entry's stamp; the usage table sums to the total with one row per agent |
| Session.ClearedStats | flask_app.py:327-365 | after clearing, the statistics are all zero and empty |
| Session.AnalyzeReportUpdatesStats | flask_app.py:225-354 | a successful analysis adds one to the total, the month count and the chosen specialist's usage, and becomes the last analysis |
| Text.Lower | agents.py:144 | `lower()` maps each character on its own, keeping the length |
| Text.LowerIdempotent | agents.py:144-146 | lower-casing twice is lower-casing once |
| Text.Contains | agents.py:146 | Python's `p in t`: p occurs at some position of t |
| Text.Split | agents.py:42 | `split('\n')` yields pieces without newlines |
| Text.Join | agents.py:56-57 | `'\n'.join` of a single line is that line |
| Text.JoinSplit | agents.py:42-57 | `'\n'.join(s.split('\n'))` gives back s |
| Text.Strip | flask_app.py:168 | `strip()` removes leading and trailing whitespace only: the result is a slice of the input, empty exactly when the input is all whitespace, and otherwise starting and ending with a non-whitespace character |
| Text.SliceTo | agents.py:60 | Python's `s[:n]` keeps a prefix, dropping -n characters from the end for a negative n |

## Left out

- The Gemini client, `configure_gemini`, the model handle and the prompt templates of the agents and the chat. The backend is a function parameter, and each agent's analysis text is a function of its specialty.
- Streamlit and Flask rendering: templates, `st.*` widgets and the JSON formatting of `response_data`. Also the `/`, `/analysis`, `/chat`, `/history` page renders beyond their statistics, and `/export_history`.
- File upload and text extraction (PyPDF2, UTF-8 decoding, `secure_filename`, `file_info`). An uploaded file's text enters the model as the report text. Only `allowed_file` is modelled.
- The exception handlers that turn unexpected errors into 500 responses.
- Retry.StreamlitDelay: takes any suggested delay. In the source, `int()` on Python 3.11 and later raises for a string of more than 4300 digits; the bare `except: pass` then keeps the backoff. The model does not carry that version-dependent limit.
- `time.sleep` and `random.uniform`. The sleeps are recorded as a list of delays, and the jitter is a parameter.
- Dates: `datetime.now()`, ISO strings and `pd.Timestamp` become a `Stamp` of year, month and day. Its rendering as `%Y-%m-%d` is not modelled.
- Scoring.Confidence: computed over reals, not binary floating point, so rounding in `matches / len(keywords) * 2` is not modelled; the retry delays are reals likewise.
- Text.Lower: models ASCII case mapping only. Python's `lower()` also maps non-ASCII characters, some of them onto ASCII letters: U+212A KELVIN SIGN becomes 'k', and 'İ' becomes "i" plus a combining dot. On such a text the source can count a keyword hit that `Scoring.Matches` misses; "smo\u212Aing" hits "smoking" in the source but not in the model.
- Text.Upper: models ASCII case mapping only. Python's `upper()` maps 'ı' to 'I', 'ß' to "SS" and 'ſ' to 'S'.
- Scoring.MatchesCaseInsensitive: states invariance under lower-casing only. Its upper-case counterpart, `Scoring.MatchesUpperCase`, requires an ASCII text, because in the source upper-casing "anxıety" creates a hit on "anxiety".
- Scoring.ConfidenceCaseInsensitive: likewise lower-casing only; `Scoring.ConfidenceUpperCase` requires an ASCII text for the same reason.
- Suggest.DigitRun: models ASCII digits only. Python's `\d` also matches other Unicode decimal digits.
- The `else` branch at agents.py:341-343 is unreachable: the scores dictionary always holds three entries at that point. `Route` therefore has no such branch.
- The second copy of `optimize_prompt` at app.py:42-73 is the same code as the first, differing only in its docstring and comments, and is modelled once, as `Prompt.OptimizePrompt`.
- The Streamlit dashboard's charts, its top specialist and its "Last Analysis" maximum timestamp. Only its "This Month" count (`Session.SameMonthAnyYear`) is modelled.
- The Streamlit chat quick buttons and chat log. The chat is modelled on the Flask side.
- Session.SendMessage: chat messages keep their role and content; the `timestamp` field of flask_app.py:270 and flask_app.py:314 is not recorded, since nothing reads it back.
