/** `optimize_prompt`: a prompt longer than the budget is split into a
    "system" half (the lines before the first marker line) and a "content"
    half, and the content half is cut with a Python slice when the two halves
    together still exceed the budget. The Streamlit front end carries a
    verbatim copy of the same function, so one definition serves both. */
module Prompt {
  import opened Text

  /** The default budget, in characters. */
  const MaxTokens: int := 2000

  /** Appended to the content half whenever it is cut. */
  const Notice: string := "\n\n[Content truncated to reduce token usage]"

  /** The two markers; the test is case-sensitive. */
  const ReportMarker: string := "MEDICAL REPORT:"
  const AnalyzeMarker: string := "Please analyze"

  predicate IsMarkerLine(line: string) {
    Contains(line, ReportMarker) || Contains(line, AnalyzeMarker)
  }

  /** Index of the first marker line, or the number of lines when there is none. */
  function FirstMarker(lines: seq<string>): (k: nat)
    ensures k <= |lines|
    ensures forall j :: 0 <= j < k ==> !IsMarkerLine(lines[j])
    ensures k < |lines| ==> IsMarkerLine(lines[k])
  {
    if |lines| == 0 then 0
    else if IsMarkerLine(lines[0]) then 0
    else 1 + FirstMarker(lines[1..])
  }

  datatype Halves = Halves(system: seq<string>, content: seq<string>)

  /** The source's line loop: `inSystem` switches off at the first marker
      line and never switches back on. */
  function Partition(lines: seq<string>, inSystem: bool): (h: Halves)
    ensures h.system + h.content == lines
    ensures !inSystem ==> h.system == []
    ensures inSystem ==> h.system == lines[..FirstMarker(lines)]
  {
    if |lines| == 0 then Halves([], [])
    else
      var stillSystem := inSystem && !IsMarkerLine(lines[0]);
      var rest := Partition(lines[1..], stillSystem);
      if stillSystem then Halves([lines[0]] + rest.system, rest.content)
      else Halves(rest.system, [lines[0]] + rest.content)
  }

  /** The system text of a prompt: the lines before the first marker line. */
  function SystemText(prompt: string): string {
    Join(Partition(Split(prompt), true).system)
  }

  /** The content text of a prompt: the first marker line and everything after it. */
  function ContentText(prompt: string): string {
    Join(Partition(Split(prompt), true).content)
  }

  /** Whether the slice-and-notice step fires for an over-long prompt. */
  predicate CutsContent(prompt: string, maxTokens: int) {
    |SystemText(prompt)| + |ContentText(prompt)| > maxTokens
  }

  function OptimizePrompt(prompt: string, maxTokens: int): (r: string)
    ensures |prompt| <= maxTokens ==> r == prompt
    ensures |prompt| > maxTokens ==> SystemText(prompt) + "\n" <= r
    ensures |prompt| > maxTokens && CutsContent(prompt, maxTokens) ==>
              |r| >= |Notice| && r[|r| - |Notice|..] == Notice
  {
    if |prompt| > maxTokens then
      var systemText := SystemText(prompt);
      var contentText := ContentText(prompt);
      if |systemText| + |contentText| > maxTokens then
        var head := systemText + "\n" + SliceTo(contentText, maxTokens - |systemText| - 100);
        AppendEnds(systemText + "\n", SliceTo(contentText, maxTokens - |systemText| - 100));
        AppendEnds(head, Notice);
        head + Notice
      else
        AppendEnds(systemText + "\n", contentText);
        systemText + "\n" + contentText
    else prompt
  }

  /** A concatenation starts with its first part and ends with its second. */
  lemma AppendEnds(a: string, b: string)
    ensures a <= a + b
    ensures |a + b| >= |b| && (a + b)[|a + b| - |b|..] == b
  {
    assert (a + b)[..|a|] == a;
  }

  /** The output of an over-long prompt that is cut: the system text, a
      newline, a prefix of the content text, then the notice. A negative
      slice stop (a system text longer than the budget minus 100) removes
      characters from the END of the content text instead of keeping a
      leading part of it. */
  lemma CutShape(prompt: string, maxTokens: int)
    requires |prompt| > maxTokens
    requires CutsContent(prompt, maxTokens)
    ensures var s := SystemText(prompt); var c := ContentText(prompt);
            var r := OptimizePrompt(prompt, maxTokens);
            var kept := SliceTo(c, maxTokens - |s| - 100);
            && r == s + "\n" + kept + Notice
            && kept <= c
  {
  }

  /** With a system text at most the budget minus 100, a cut prompt fits the
      budget and ends with the notice. */
  lemma CutPromptFitsBudget(prompt: string, maxTokens: int)
    requires |prompt| > maxTokens
    requires CutsContent(prompt, maxTokens)
    requires |SystemText(prompt)| <= maxTokens - 100
    ensures |OptimizePrompt(prompt, maxTokens)| <= maxTokens
  {
    CutShape(prompt, maxTokens);
  }

  /** When neither marker occurs in the prompt, every line is system text. */
  lemma NoMarkerAllSystem(prompt: string)
    requires !Contains(prompt, ReportMarker) && !Contains(prompt, AnalyzeMarker)
    ensures SystemText(prompt) == prompt
    ensures ContentText(prompt) == ""
  {
    var lines := Split(prompt);
    var k := FirstMarker(lines);
    if k < |lines| {
      if Contains(lines[k], ReportMarker) {
        SplitPieceInText(prompt, k, ReportMarker);
      } else {
        SplitPieceInText(prompt, k, AnalyzeMarker);
      }
    }
    assert lines[..k] == lines;
    JoinSplit(prompt);
  }

  /** A prompt over the budget with no marker is not cut at all: the notice
      is appended and the result is longer than the input. This is the case
      for an agent prompt whose report, symptoms and history contain neither
      marker, since the agents' template writes "Medical Report:" in mixed
      case. */
  lemma NoMarkerOnlyAppendsNotice(prompt: string, maxTokens: int)
    requires |prompt| > maxTokens
    requires !Contains(prompt, ReportMarker) && !Contains(prompt, AnalyzeMarker)
    ensures OptimizePrompt(prompt, maxTokens) == prompt + "\n" + Notice
    ensures |OptimizePrompt(prompt, maxTokens)| > |prompt|
  {
    NoMarkerAllSystem(prompt);
    assert SliceTo("", maxTokens - |prompt| - 100) == "";
  }

  /** A marker on the first line, or no marker at all, always leads to a cut
      of an over-long prompt: the halves then add up to the whole prompt. */
  lemma MarkerAtEdgeCuts(prompt: string, maxTokens: int)
    requires |prompt| > maxTokens
    ensures var lines := Split(prompt); var k := FirstMarker(lines);
            k == 0 || k == |lines| ==> CutsContent(prompt, maxTokens)
  {
    var lines := Split(prompt);
    var k := FirstMarker(lines);
    var h := Partition(lines, true);
    JoinSplit(prompt);
    if k == 0 {
      assert h.system == [] && h.content == lines;
    } else if k == |lines| {
      assert h.system == lines && h.content == [];
    }
  }

  /** An over-long prompt left uncut is returned unchanged: the marker line
      is neither the first nor absent, and the prompt is exactly one
      character over the budget. */
  lemma {:induction false} UncutIsUnchanged(prompt: string, maxTokens: int)
    requires |prompt| > maxTokens
    requires !CutsContent(prompt, maxTokens)
    ensures OptimizePrompt(prompt, maxTokens) == prompt
    ensures |prompt| == maxTokens + 1
  {
    var lines := Split(prompt);
    var k := FirstMarker(lines);
    var h := Partition(lines, true);
    JoinSplit(prompt);
    assert lines == lines[..k] + lines[k..];
    MarkerAtEdgeCuts(prompt, maxTokens);
    JoinAppend(lines[..k], lines[k..]);
  }
}
