/** The suggested-delay search of the Streamlit retry wrapper: the regular
    expression `retry_delay.*?seconds:\s*(\d+)` applied with `re.search`,
    spelled out as the leftmost match with a lazy, newline-free gap. */
module Suggest {
  import opened Wrappers
  import opened Text

  const RetryKey: string := "retry_delay"
  const SecondsKey: string := "seconds:"

  predicate IsDigit(c: char) {
    '0' <= c <= '9'
  }

  /** Length of the run of whitespace (`\s`) starting at k. */
  function SpaceRun(t: string, k: nat): (n: nat)
    requires k <= |t|
    ensures k + n <= |t|
    ensures forall j :: k <= j < k + n ==> IsSpace(t[j])
    ensures k + n < |t| ==> !IsSpace(t[k + n])
    decreases |t| - k
  {
    if k < |t| && IsSpace(t[k]) then 1 + SpaceRun(t, k + 1) else 0
  }

  /** Length of the run of digits (`\d+`, greedy) starting at k. */
  function DigitRun(t: string, k: nat): (n: nat)
    requires k <= |t|
    ensures k + n <= |t|
    ensures forall j :: k <= j < k + n ==> IsDigit(t[j])
    ensures k + n < |t| ==> !IsDigit(t[k + n])
    decreases |t| - k
  {
    if k < |t| && IsDigit(t[k]) then 1 + DigitRun(t, k + 1) else 0
  }

  /** `\s*(\d+)` at position k: the captured number, if any digits follow
      the whitespace. */
  function NumberAt(t: string, k: nat): Option<nat>
    requires k <= |t|
  {
    var w := k + SpaceRun(t, k);
    var n := DigitRun(t, w);
    if n == 0 then None else Some(DigitsValue(t[w..w + n]))
  }

  /** `.*?seconds:\s*(\d+)` from position j: the lazy gap grows one
      non-newline character at a time until the rest matches. */
  function LazyFrom(t: string, j: nat): (r: Option<nat>)
    requires j <= |t|
    ensures r.Some? ==> Contains(t, SecondsKey)
    decreases |t| - j
  {
    if SecondsKey <= t[j..] && j + |SecondsKey| <= |t| && NumberAt(t, j + |SecondsKey|).Some? then
      ContainsAt(t, SecondsKey, j);
      NumberAt(t, j + |SecondsKey|)
    else if j < |t| && t[j] != '\n' then LazyFrom(t, j + 1)
    else None
  }

  /** `re.search` from position i: the leftmost start of a full match. */
  function SearchFrom(t: string, i: nat): (r: Option<nat>)
    requires i <= |t|
    ensures r.Some? ==> Contains(t, RetryKey) && Contains(t, SecondsKey)
    ensures r.Some? ==> exists k | i <= k <= |t| - |RetryKey| ::
              RetryKey <= t[k..] && r == LazyFrom(t, k + |RetryKey|)
    decreases |t| - i
  {
    if RetryKey <= t[i..] && i + |RetryKey| <= |t| && LazyFrom(t, i + |RetryKey|).Some? then
      ContainsAt(t, RetryKey, i);
      LazyFrom(t, i + |RetryKey|)
    else if i < |t| then SearchFrom(t, i + 1)
    else None
  }

  /** The suggested delay in seconds parsed out of an error message. */
  function SuggestedDelay(error: string): (r: Option<nat>)
    ensures r.Some? ==> Contains(error, RetryKey) && Contains(error, SecondsKey)
  {
    SearchFrom(error, 0)
  }

  /** The guard in front of the search ("retry_delay" and "seconds" both
      occur) never rejects a message the search would accept. */
  lemma GuardIsImpliedBySearch(error: string)
    ensures SuggestedDelay(error).Some? ==> Contains(error, RetryKey) && Contains(error, "seconds")
  {
    if SuggestedDelay(error).Some? {
      ContainsShorter(error, SecondsKey, "seconds");
    }
  }

  lemma NoSecondsAt(t: string, j: nat)
    requires j < |t| && t[j] != 's'
    ensures !(SecondsKey <= t[j..])
  {
    assert t[j..][0] == t[j];
  }

  /** A rate-limit message carrying its suggestion on one line. */
  const OneLineMessage: string := "retry_delay { seconds: 38 }"

  /** The same message in the multi-line layout of the service's errors. */
  const MultiLineMessage: string := "retry_delay {\n  seconds: 38\n}"

  lemma OneLineNumber()
    ensures NumberAt(OneLineMessage, 22) == Some(38)
  {
    var t := OneLineMessage;
    assert t[23..25] == "38";
    assert DigitRun(t, 23) == 2 by {
      assert DigitRun(t, 25) == 0;
      assert DigitRun(t, 24) == 1;
    }
    assert SpaceRun(t, 22) == 1 by {
      assert SpaceRun(t, 23) == 0;
    }
    assert DigitsValue("38") == 38 by {
      assert "38"[..1] == "3";
      assert "3"[..0] == "";
    }
  }

  /** The lazy gap steps over a character that is not a newline and does
      not start "seconds:". */
  lemma LazyStep(t: string, j: nat)
    requires j < |t| && t[j] != '\n' && t[j] != 's'
    ensures LazyFrom(t, j) == LazyFrom(t, j + 1)
  {
    NoSecondsAt(t, j);
  }

  /** "seconds:" followed by a number at j ends the lazy scan there. */
  lemma LazyHit(t: string, j: nat)
    requires j + |SecondsKey| <= |t| && t[j..j + |SecondsKey|] == SecondsKey
    requires NumberAt(t, j + |SecondsKey|).Some?
    ensures LazyFrom(t, j) == NumberAt(t, j + |SecondsKey|)
  {
    assert SecondsKey <= t[j..];
  }

  /** The lazy gap crosses any run of characters, from j up to e, that are
      neither newlines nor the start of "seconds:", up to a "seconds:"
      followed by a number at e. */
  lemma {:induction false} LazySkipsGap(t: string, j: nat, e: nat)
    requires j <= e && e + |SecondsKey| <= |t|
    requires forall k :: j <= k < e ==> t[k] != '\n' && t[k] != 's'
    requires t[e..e + |SecondsKey|] == SecondsKey
    requires NumberAt(t, e + |SecondsKey|).Some?
    ensures LazyFrom(t, j) == NumberAt(t, e + |SecondsKey|)
    decreases e - j
  {
    if j == e {
      LazyHit(t, j);
    } else {
      LazyStep(t, j);
      LazySkipsGap(t, j + 1, e);
    }
  }

  /** Where the parts of the one-line message sit. */
  lemma OneLineLayout(t: string)
    requires t == OneLineMessage
    ensures |t| == 27 && t[14..22] == SecondsKey
    ensures forall k :: 11 <= k < 14 ==> t[k] != '\n' && t[k] != 's'
  {
    assert t[11] == ' ' && t[12] == '{' && t[13] == ' ';
  }

  lemma OneLineLazy(t: string)
    requires t == OneLineMessage
    ensures LazyFrom(t, 11) == Some(38)
  {
    OneLineNumber();
    OneLineLayout(t);
    LazySkipsGap(t, 11, 14);
  }

  /** A suggestion on the same line is found. */
  lemma SameLineSuggestion()
    ensures SuggestedDelay(OneLineMessage) == Some(38)
  {
    OneLineLazy(OneLineMessage);
    assert RetryKey <= OneLineMessage[0..];
  }

  lemma MultiLineLazy(t: string)
    requires t == MultiLineMessage
    ensures LazyFrom(t, 11) == None
  {
    NoSecondsAt(t, 13);
    NoSecondsAt(t, 12);
    NoSecondsAt(t, 11);
  }

  /** A message whose only "retry_delay" opens it, and whose lazy scan
      from there fails, yields no suggestion. */
  lemma SearchOnlyAtStart(t: string)
    requires |t| >= 11 && RetryKey <= t
    requires '_' !in t[11..]
    requires LazyFrom(t, 11) == None
    ensures SearchFrom(t, 0) == None
  {
    var r := SearchFrom(t, 0);
    if r.Some? {
      var k :| 0 <= k <= |t| - 11 && RetryKey <= t[k..] && r == LazyFrom(t, k + 11);
      KeyUnderscore(t[k..]);
      KeyUnderscore(t);
      assert false;
    }
  }

  lemma KeyUnderscore(s: string)
    requires RetryKey <= s
    ensures s[5] == '_' && forall j :: 0 <= j < 11 && j != 5 ==> s[j] != '_'
  {
    assert s[..11] == RetryKey;
  }

  /** The multi-line layout yields no suggestion: `.` does not cross the
      newline between `retry_delay {` and `seconds: 38`. */
  lemma MultiLineSuggestionMissed()
    ensures SuggestedDelay(MultiLineMessage) == None
  {
    MultiLineShape(MultiLineMessage);
    MultiLineLazy(MultiLineMessage);
    SearchOnlyAtStart(MultiLineMessage);
  }

  lemma MultiLineShape(t: string)
    requires t == MultiLineMessage
    ensures |t| >= 11 && RetryKey <= t
    ensures '_' !in t[11..]
  {
    assert t[..11] == RetryKey;
    assert t[11..] == " {\n  seconds: 38\n}";
  }
}
