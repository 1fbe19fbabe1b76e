/** `BaseSpecializedAgent.get_confidence_score`: the share of a specialty's
    keywords that occur in the text, doubled and capped at 1. */
module Scoring {
  import opened Text

  /** A keyword counts when its lower-cased form occurs anywhere in the
      lower-cased text, inside other words included. */
  predicate KeywordOccurs(keyword: string, text: string) {
    Contains(Lower(text), Lower(keyword))
  }

  /** The number of keywords that occur in the text. */
  function Matches(keywords: seq<string>, text: string): (m: nat)
    ensures m <= |keywords|
  {
    if |keywords| == 0 then 0
    else
      var last := keywords[|keywords| - 1];
      Matches(keywords[..|keywords| - 1], text) + (if KeywordOccurs(last, text) then 1 else 0)
  }

  /** The positions of the keywords that occur in the text. */
  function Hits(keywords: seq<string>, text: string): set<nat> {
    set i: nat | i < |keywords| && KeywordOccurs(keywords[i], text)
  }

  /** The hits of a list are the hits of all but its last keyword, plus the
      last position when that keyword occurs. */
  lemma HitsStep(keywords: seq<string>, text: string)
    requires |keywords| > 0
    ensures var n := |keywords| - 1;
            Hits(keywords, text) == Hits(keywords[..n], text) + (if KeywordOccurs(keywords[n], text) then {n} else {})
  {
    var n := |keywords| - 1;
    var front := keywords[..n];
    forall i: nat | i < n
      ensures keywords[i] == front[i]
    {
    }
  }

  /** `Matches` counts exactly the keywords that occur. */
  lemma {:induction false} MatchesCountsHits(keywords: seq<string>, text: string)
    ensures Matches(keywords, text) == |Hits(keywords, text)|
  {
    if |keywords| > 0 {
      var n := |keywords| - 1;
      var front := keywords[..n];
      MatchesCountsHits(front, text);
      HitsStep(keywords, text);
      var extra: set<nat> := if KeywordOccurs(keywords[n], text) then {n} else {};
      assert forall i :: i in Hits(front, text) ==> i < n;
      assert Hits(front, text) !! extra;
    }
  }

  /** `min(m / k * 2, 1.0)` for a count m out of k keywords. */
  function Ratio(m: nat, k: nat): (r: real)
    requires k > 0
    ensures 0.0 <= r <= 1.0
  {
    var ratio := (m as real) / (k as real) * 2.0;
    RatioFacts(m, k);
    if ratio < 1.0 then ratio else 1.0
  }

  /** The ratio is 1 exactly when at least half the count is reached, 0
      exactly for a zero count, and below 1 it is exactly twice m / k. */
  lemma RatioMeaning(m: nat, k: nat)
    requires k > 0
    ensures var r := Ratio(m, k);
            && (r == 1.0 <==> 2 * m >= k)
            && (r == 0.0 <==> m == 0)
            && (r < 1.0 ==> r * (k as real) == 2.0 * (m as real))
  {
    RatioFacts(m, k);
  }

  /** The ratio grows with the count. */
  lemma RatioMonotone(m1: nat, m2: nat, k: nat)
    requires k > 0 && m1 <= m2
    ensures Ratio(m1, k) <= Ratio(m2, k)
  {
    var a := Ratio(m1, k);
    var b := Ratio(m2, k);
    RatioMeaning(m1, k);
    RatioMeaning(m2, k);
    if b < 1.0 {
      var kr := k as real;
      assert a < 1.0;
      var x := a * kr;
      var y := b * kr;
      assert x == 2.0 * (m1 as real);
      assert y == 2.0 * (m2 as real);
      assert x <= y;
      ScaleCancel(a, b, kr, x, y);
    }
  }

  /** The confidence of a keyword list for a text, `min(matches / K * 2, 1.0)`. */
  function Confidence(keywords: seq<string>, text: string): (r: real)
    requires |keywords| > 0
    ensures 0.0 <= r <= 1.0
  {
    Ratio(Matches(keywords, text), |keywords|)
  }

  /** The confidence saturates exactly when at least half the keywords hit,
      is zero exactly when none does, and below saturation is exactly twice
      the share of keywords hit. */
  lemma ConfidenceMeaning(keywords: seq<string>, text: string)
    requires |keywords| > 0
    ensures var r := Confidence(keywords, text);
            && (r == 1.0 <==> 2 * Matches(keywords, text) >= |keywords|)
            && (r == 0.0 <==> Matches(keywords, text) == 0)
            && (r < 1.0 ==> r * (|keywords| as real) == 2.0 * (Matches(keywords, text) as real))
  {
    RatioMeaning(Matches(keywords, text), |keywords|);
  }

  /** The arithmetic behind `Confidence`, kept apart so it is proved once. */
  lemma RatioFacts(m: nat, k: nat)
    requires k > 0
    ensures var ratio := (m as real) / (k as real) * 2.0;
            && ratio * (k as real) == 2.0 * (m as real)
            && (ratio == 0.0 <==> m == 0)
            && (ratio < 1.0 <==> 2 * m < k)
            && ratio >= 0.0
  {
    var kr := k as real;
    var mr := m as real;
    var ratio := mr / kr * 2.0;
    DivTimes(mr, kr);
    assert ratio * kr == 2.0 * mr;
    if ratio < 1.0 {
      ScaleStrict(ratio, 1.0, kr);
    } else {
      ScaleWeak(1.0, ratio, kr);
    }
    if ratio < 0.0 {
      ScaleStrict(ratio, 0.0, kr);
    }
  }

  lemma DivTimes(x: real, y: real)
    requires y > 0.0
    ensures x / y * y == x
  {
  }

  lemma ScaleCancel(a: real, b: real, c: real, x: real, y: real)
    requires c > 0.0 && x == a * c && y == b * c && x <= y
    ensures a <= b
  {
    if a > b {
      ScaleStrict(b, a, c);
    }
  }

  lemma ScaleStrict(a: real, b: real, c: real)
    requires c > 0.0 && a < b
    ensures a * c < b * c
  {
    assert (b - a) * c > 0.0;
  }

  lemma ScaleWeak(a: real, b: real, c: real)
    requires c > 0.0 && a <= b
    ensures a * c <= b * c
  {
    assert (b - a) * c >= 0.0;
  }

  /** Lower-casing the text does not change the count. */
  lemma {:induction false} MatchesCaseInsensitive(keywords: seq<string>, text: string)
    ensures Matches(keywords, Lower(text)) == Matches(keywords, text)
  {
    LowerIdempotent(text);
    if |keywords| > 0 {
      MatchesCaseInsensitive(keywords[..|keywords| - 1], text);
    }
  }

  lemma ConfidenceCaseInsensitive(keywords: seq<string>, text: string)
    requires |keywords| > 0
    ensures Confidence(keywords, Lower(text)) == Confidence(keywords, text)
  {
    MatchesCaseInsensitive(keywords, text);
  }

  /** Upper-casing an ASCII text does not change the count either. Python's
      `upper()` also maps some non-ASCII letters onto ASCII ones ('ı' to 'I',
      'ß' to "SS"), which can create a hit, so the text is required to be
      ASCII. */
  lemma {:induction false} MatchesUpperCase(keywords: seq<string>, text: string)
    requires Ascii(text)
    ensures Matches(keywords, Upper(text)) == Matches(keywords, text)
  {
    LowerOfUpper(text);
    if |keywords| > 0 {
      MatchesUpperCase(keywords[..|keywords| - 1], text);
    }
  }

  lemma ConfidenceUpperCase(keywords: seq<string>, text: string)
    requires |keywords| > 0 && Ascii(text)
    ensures Confidence(keywords, Upper(text)) == Confidence(keywords, text)
  {
    MatchesUpperCase(keywords, text);
  }

  /** Appending text keeps every occurrence, so the count never drops. */
  lemma {:induction false} MatchesMonotone(keywords: seq<string>, text: string, more: string)
    ensures Matches(keywords, text) <= Matches(keywords, text + more)
  {
    if |keywords| > 0 {
      var last := keywords[|keywords| - 1];
      MatchesMonotone(keywords[..|keywords| - 1], text, more);
      if KeywordOccurs(last, text) {
        LowerAppend(text, more);
        ContainsAppend(Lower(text), Lower(more), Lower(last));
        assert KeywordOccurs(last, text + more);
      }
    }
  }

  lemma ConfidenceMonotone(keywords: seq<string>, text: string, more: string)
    requires |keywords| > 0
    ensures Confidence(keywords, text) <= Confidence(keywords, text + more)
  {
    MatchesMonotone(keywords, text, more);
    RatioMonotone(Matches(keywords, text), Matches(keywords, text + more), |keywords|);
  }

  /** Unanchored matching lets one word hit two keywords: "arrhythmia"
      contains both "rhythm" and "arrhythmia". */
  lemma OverlappingKeywords()
    ensures KeywordOccurs("rhythm", "Arrhythmia")
    ensures KeywordOccurs("arrhythmia", "Arrhythmia")
  {
    ContainsAt(Lower("Arrhythmia"), Lower("rhythm"), 2);
    ContainsAt(Lower("Arrhythmia"), Lower("arrhythmia"), 0);
  }

  /** Any keyword that occurs is counted: the count is at least one. */
  lemma OccurringKeywordMatches(keywords: seq<string>, text: string, i: int)
    requires 0 <= i < |keywords| && KeywordOccurs(keywords[i], text)
    ensures Matches(keywords, text) >= 1
  {
    MatchesCountsHits(keywords, text);
    var hits := Hits(keywords, text);
    assert i in hits;
    assert {i} <= hits;
  }

  const ExampleText: string := "mild chest pain"

  lemma ExampleLayout(text: string)
    requires text == ExampleText
    ensures |text| == 15 && text[5..15] == "chest pain"
  {
    assert text == "mild " + "chest pain";
  }

  /** A keyword written out at position i of the text, in any letter case,
      occurs in it. */
  lemma KeywordAt(keyword: string, text: string, i: int)
    requires 0 <= i <= |text| - |keyword| && Lower(text[i..i + |keyword|]) == Lower(keyword)
    ensures KeywordOccurs(keyword, text)
  {
    LowerSlice(text, i, i + |keyword|);
    ContainsAt(Lower(text), Lower(keyword), i);
  }

  /** One hit out of two keywords already saturates the confidence. */
  lemma HalfTheKeywordsSaturate()
    ensures Confidence(["heart", "chest pain"], ExampleText) == 1.0
  {
    var keywords := ["heart", "chest pain"];
    ExampleLayout(ExampleText);
    KeywordAt("chest pain", ExampleText, 5);
    assert keywords[1] == "chest pain";
    OccurringKeywordMatches(keywords, ExampleText, 1);
    ConfidenceMeaning(keywords, ExampleText);
  }
}
