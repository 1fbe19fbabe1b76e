/** String primitives the application relies on, with Python's meaning:
    `str.lower`/`str.upper` (restricted to ASCII letters), the `in` substring
    test, `split('\n')` / `'\n'.join`, `strip()` and the slice `s[:stop]`. */
module Text {

  /** Lower-cases one ASCII letter; every other character is left alone. */
  function LowerChar(c: char): (r: char)
    ensures 'A' <= c <= 'Z' ==> 'a' <= r <= 'z'
    ensures !('A' <= c <= 'Z') ==> r == c
  {
    if 'A' <= c <= 'Z' then (c as int + 32) as char else c
  }

  /** Upper-cases one ASCII letter; every other character is left alone. */
  function UpperChar(c: char): (r: char)
    ensures 'a' <= c <= 'z' ==> 'A' <= r <= 'Z'
    ensures !('a' <= c <= 'z') ==> r == c
  {
    if 'a' <= c <= 'z' then (c as int - 32) as char else c
  }

  /** `s.lower()` on ASCII letters. */
  function Lower(s: string): (r: string)
    ensures |r| == |s|
    ensures forall i :: 0 <= i < |s| ==> r[i] == LowerChar(s[i])
  {
    seq(|s|, i requires 0 <= i < |s| => LowerChar(s[i]))
  }

  /** `s.upper()` on ASCII letters. */
  function Upper(s: string): (r: string)
    ensures |r| == |s|
    ensures forall i :: 0 <= i < |s| ==> r[i] == UpperChar(s[i])
  {
    seq(|s|, i requires 0 <= i < |s| => UpperChar(s[i]))
  }

  lemma LowerIdempotent(s: string)
    ensures Lower(Lower(s)) == Lower(s)
  {
  }

  lemma LowerOfUpper(s: string)
    ensures Lower(Upper(s)) == Lower(s)
  {
  }

  lemma LowerSlice(s: string, i: int, j: int)
    requires 0 <= i <= j <= |s|
    ensures Lower(s)[i..j] == Lower(s[i..j])
  {
  }

  lemma LowerAppend(s: string, t: string)
    ensures Lower(s + t) == Lower(s) + Lower(t)
  {
  }

  /** Every character is a 7-bit ASCII character. */
  predicate Ascii(s: string) {
    forall i :: 0 <= i < |s| ==> s[i] <= '\U{7F}'
  }

  /** p occurs in t starting at position i. */
  predicate OccursAt(t: string, p: string, i: int) {
    0 <= i <= |t| - |p| && t[i..i + |p|] == p
  }

  /** One mismatching character rules out an occurrence at i. */
  lemma NotOccursAt(t: string, p: string, i: int, k: int)
    requires 0 <= i && 0 <= k < |p| && i + k < |t| && t[i + k] != p[k]
    ensures !OccursAt(t, p, i)
  {
  }

  /** Python's `p in t` for strings: p occurs somewhere in t (the empty
      string occurs everywhere). */
  predicate Contains(t: string, p: string) {
    exists i | 0 <= i <= |t| - |p| :: OccursAt(t, p, i)
  }

  /** Appending text never removes an occurrence. */
  lemma ContainsAppend(t: string, u: string, p: string)
    requires Contains(t, p)
    ensures Contains(t + u, p)
  {
    var i :| 0 <= i <= |t| - |p| && OccursAt(t, p, i);
    assert (t + u)[i..i + |p|] == t[i..i + |p|];
    assert OccursAt(t + u, p, i);
  }

  /** An occurrence of p is an occurrence of every prefix of p. */
  lemma ContainsShorter(t: string, p: string, q: string)
    requires Contains(t, p) && q <= p
    ensures Contains(t, q)
  {
    var i :| 0 <= i <= |t| - |p| && OccursAt(t, p, i);
    assert t[i..i + |q|] == p[..|q|] == q;
    assert OccursAt(t, q, i);
  }

  /** A witness position is enough to establish an occurrence. */
  lemma ContainsAt(t: string, p: string, i: int)
    requires 0 <= i <= |t| - |p|
    requires t[i..i + |p|] == p
    ensures Contains(t, p)
  {
    assert OccursAt(t, p, i);
  }

  /** An occurrence inside a slice is an occurrence in the whole text. */
  lemma ContainsSlice(t: string, a: int, b: int, p: string)
    requires 0 <= a <= b <= |t|
    requires Contains(t[a..b], p)
    ensures Contains(t, p)
  {
    var i :| 0 <= i <= (b - a) - |p| && OccursAt(t[a..b], p, i);
    forall j | 0 <= j < |p|
      ensures t[a + i + j] == p[j]
    {
      assert t[a..b][i..i + |p|][j] == p[j];
    }
    assert t[a + i..a + i + |p|] == p;
    assert OccursAt(t, p, a + i);
  }

  /** s holds no newline. */
  predicate OneLine(s: string) {
    '\n' !in s
  }

  /** Python's `s.split('\n')`: the pieces between newlines, always at least one. */
  function Split(s: string): (r: seq<string>)
    ensures |r| >= 1
    ensures forall k :: 0 <= k < |r| ==> OneLine(r[k])
    decreases |s|
  {
    if '\n' !in s then [s]
    else
      var i := IndexOf(s, '\n');
      [s[..i]] + Split(s[i + 1..])
  }

  /** Position of the first occurrence of c in s. */
  function IndexOf(s: string, c: char): (i: nat)
    requires c in s
    ensures i < |s| && s[i] == c && c !in s[..i]
  {
    if s[0] == c then 0 else 1 + IndexOf(s[1..], c)
  }

  /** Each piece of a split is the slice of the text starting at `start`. */
  lemma {:induction false} SplitPieceIsSlice(s: string, k: nat) returns (start: nat)
    requires k < |Split(s)|
    ensures start + |Split(s)[k]| <= |s|
    ensures Split(s)[k] == s[start..start + |Split(s)[k]|]
    decreases |s|
  {
    if '\n' in s {
      var i := IndexOf(s, '\n');
      var tail := s[i + 1..];
      assert Split(s) == [s[..i]] + Split(tail);
      if k == 0 {
        start := 0;
        assert Split(s)[0] == s[..i] == s[0..i];
      } else {
        var b := SplitPieceIsSlice(tail, k - 1);
        start := i + 1 + b;
        var piece := Split(tail)[k - 1];
        assert Split(s)[k] == piece;
        forall j | 0 <= j < |piece|
          ensures s[start + j] == piece[j]
        {
          assert piece[j] == tail[b + j];
        }
        assert s[start..start + |piece|] == piece;
      }
    } else {
      start := 0;
    }
  }

  /** Every line of a split occurs in the text split. */
  lemma SplitPieceInText(s: string, k: nat, p: string)
    requires k < |Split(s)|
    requires Contains(Split(s)[k], p)
    ensures Contains(s, p)
  {
    var start := SplitPieceIsSlice(s, k);
    ContainsSlice(s, start, start + |Split(s)[k]|, p);
  }

  /** Python's `'\n'.join(lines)`. */
  function Join(lines: seq<string>): (r: string)
    ensures |lines| == 1 ==> r == lines[0]
  {
    if |lines| == 0 then ""
    else if |lines| == 1 then lines[0]
    else lines[0] + "\n" + Join(lines[1..])
  }

  /** Joining the pieces of a split gives the text back. */
  lemma {:induction false} JoinSplit(s: string)
    ensures Join(Split(s)) == s
    decreases |s|
  {
    if '\n' in s {
      var i := IndexOf(s, '\n');
      var rest := Split(s[i + 1..]);
      var lines := [s[..i]] + rest;
      assert Split(s) == lines;
      assert |lines| >= 2 && lines[0] == s[..i] && lines[1..] == rest;
      assert Join(lines) == s[..i] + "\n" + Join(rest);
      JoinSplit(s[i + 1..]);
      assert s == s[..i] + "\n" + s[i + 1..];
    }
  }

  /** Joining a concatenation of two non-empty line lists puts one newline
      between the two joined halves. */
  lemma {:induction false} JoinAppend(a: seq<string>, b: seq<string>)
    requires |a| > 0 && |b| > 0
    ensures Join(a + b) == Join(a) + "\n" + Join(b)
    decreases |a|
  {
    if |a| == 1 {
      assert (a + b)[1..] == b;
    } else {
      assert (a + b)[1..] == a[1..] + b;
      JoinAppend(a[1..], b);
    }
  }

  /** Python's `str.isspace()` for one character. */
  predicate IsSpace(c: char) {
    || '\t' <= c <= '\r'
    || '\U{1c}' <= c <= ' '
    || c == '\U{85}' || c == '\U{a0}' || c == '\U{1680}'
    || '\U{2000}' <= c <= '\U{200a}'
    || c == '\U{2028}' || c == '\U{2029}' || c == '\U{202f}' || c == '\U{205f}' || c == '\U{3000}'
  }

  predicate AllSpace(s: string) {
    forall i :: 0 <= i < |s| ==> IsSpace(s[i])
  }

  /** Number of whitespace characters at the start of s. */
  function LeadingSpaces(s: string): (n: nat)
    ensures n <= |s| && AllSpace(s[..n])
    ensures n < |s| ==> !IsSpace(s[n])
  {
    if |s| > 0 && IsSpace(s[0]) then
      var n := 1 + LeadingSpaces(s[1..]);
      assert s[..n] == [s[0]] + s[1..][..n - 1];
      n
    else 0
  }

  /** Length of s once its trailing whitespace is dropped. */
  function TrailingStart(s: string): (m: nat)
    ensures m <= |s| && AllSpace(s[m..])
    ensures m > 0 ==> !IsSpace(s[m - 1])
  {
    if |s| > 0 && IsSpace(s[|s| - 1]) then
      var m := TrailingStart(s[..|s| - 1]);
      assert s[m..] == s[..|s| - 1][m..] + [s[|s| - 1]];
      m
    else |s|
  }

  /** Python's `s.strip()`: the text with surrounding whitespace removed. */
  function Strip(s: string): (r: string)
    ensures LeadingSpaces(s) + |r| <= |s|
    ensures r == s[LeadingSpaces(s)..LeadingSpaces(s) + |r|]
    ensures AllSpace(s[LeadingSpaces(s) + |r|..])
    ensures |r| == 0 <==> AllSpace(s)
    ensures |r| > 0 ==> !IsSpace(r[0]) && !IsSpace(r[|r| - 1])
  {
    var i := LeadingSpaces(s);
    var t := s[i..];
    var m := TrailingStart(t);
    assert t[m..] == s[i + m..];
    if m == 0 then
      assert s == s[..i] + t;
      ""
    else
      assert !IsSpace(s[i]);
      t[..m]
  }

  /** Python's slice `s[:stop]` on a string: a non-negative stop keeps at most
      that many characters, a negative stop cuts that many from the end. */
  function SliceTo(s: string, stop: int): (r: string)
    ensures r <= s
    ensures stop >= 0 ==> |r| == if stop < |s| then stop else |s|
    ensures stop < 0 ==> |s| - |r| == if -stop < |s| then -stop else |s|
  {
    if stop >= 0 then (if stop < |s| then s[..stop] else s)
    else if |s| + stop > 0 then s[..|s| + stop] else ""
  }

  /** Value of a run of ASCII decimal digits, as Python's `int` reads it. */
  function DigitsValue(d: string): nat
    requires forall i :: 0 <= i < |d| ==> '0' <= d[i] <= '9'
  {
    if |d| == 0 then 0
    else 10 * DigitsValue(d[..|d| - 1]) + (d[|d| - 1] as int - '0' as int)
  }
}
