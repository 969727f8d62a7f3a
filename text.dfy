/** The optional value the parser's records use for absent fields (`Optional[...]`, `None`). */
module Wrappers {

  datatype Option<+T> = None | Some(value: T)
}

/**
  The Python `str` built-ins the script parser relies on, over Dafny strings:
  `strip()`, `split()`, `split("\n")`, `isupper()`, `upper()`, `lower()` and
  the substring test `sub in s`.
*/
module Text {

  /** `str.isspace` for one character: the characters `strip()`, `split()` and
      the regular-expression class `\s` treat as whitespace. */
  predicate IsSpace(c: char) {
    || ('\t' <= c <= '\r')
    || ('\U{1C}' <= c <= '\U{1F}')
    || c == ' ' || c == '\U{85}' || c == '\U{A0}' || c == '\U{1680}'
    || ('\U{2000}' <= c <= '\U{200A}')
    || c == '\U{2028}' || c == '\U{2029}' || c == '\U{202F}' || c == '\U{205F}' || c == '\U{3000}'
  }

  /** `s[i]` exists and is whitespace. */
  predicate SpaceAt(s: string, i: nat) {
    i < |s| && IsSpace(s[i])
  }

  predicate AllSpace(s: string) {
    forall i | 0 <= i < |s| :: SpaceAt(s, i)
  }

  /** Length of the whitespace run that starts at `i`. */
  function SpaceRun(s: string, i: nat): (n: nat)
    requires i <= |s|
    ensures i + n <= |s|
    ensures forall j | i <= j < i + n :: SpaceAt(s, j)
    ensures !SpaceAt(s, i + n)
    decreases |s| - i
  {
    if SpaceAt(s, i) then 1 + SpaceRun(s, i + 1) else 0
  }

  /** The end of `s[lo..hi]` once its trailing whitespace is dropped. */
  function TrimmedEnd(s: string, lo: nat, hi: nat): (j: nat)
    requires lo <= hi <= |s|
    ensures lo <= j <= hi
    ensures forall i | j <= i < hi :: SpaceAt(s, i)
    ensures j == lo || !SpaceAt(s, j - 1)
    decreases hi
  {
    if lo < hi && SpaceAt(s, hi - 1) then TrimmedEnd(s, lo, hi - 1) else hi
  }

  /** Where `s.strip()` starts and ends in `s`. */
  function StripStart(s: string): nat {
    SpaceRun(s, 0)
  }

  function StripEnd(s: string): (j: nat)
    ensures StripStart(s) <= j <= |s|
  {
    TrimmedEnd(s, StripStart(s), |s|)
  }

  /** `str.strip()`: `s` without its leading and trailing whitespace. */
  function Strip(s: string): (r: string)
    ensures r == [] || (!IsSpace(r[0]) && !IsSpace(r[|r| - 1]))
    ensures r == [] <==> AllSpace(s)
  {
    var r := s[StripStart(s)..StripEnd(s)];
    assert r != [] ==> r[0] == s[StripStart(s)];
    r
  }

  lemma StripKeepsOut(s: string, c: char)
    requires c !in s
    ensures c !in Strip(s)
  {
  }

  /** Stripping a string that is already stripped changes nothing. */
  lemma StripIdempotent(s: string)
    ensures Strip(Strip(s)) == Strip(s)
  {
    var r := Strip(s);
    assert StripStart(r) == 0;
    assert StripEnd(r) == |r|;
  }

  /** Whether a word of `s` (a maximal run of non-whitespace) starts at `i`. */
  predicate StartsWordAt(s: string, i: nat)
    requires i < |s|
  {
    !SpaceAt(s, i) && (i == 0 || SpaceAt(s, i - 1))
  }

  /** The number of words of `s` that start before position `n`. */
  function WordStarts(s: string, n: nat): (k: nat)
    requires n <= |s|
    ensures k <= n
  {
    if n == 0 then 0 else WordStarts(s, n - 1) + (if StartsWordAt(s, n - 1) then 1 else 0)
  }

  /** `len(s.split())`: the number of maximal runs of non-whitespace characters. */
  function WordCount(s: string): nat {
    WordStarts(s, |s|)
  }

  lemma {:induction false} NoWordStartsInSpace(s: string, n: nat)
    requires n <= |s|
    requires forall i | 0 <= i < n :: SpaceAt(s, i)
    ensures WordStarts(s, n) == 0
  {
    if n > 0 {
      NoWordStartsInSpace(s, n - 1);
    }
  }

  lemma {:induction false} NoWordStartsInTrailingSpace(s: string, m: nat, n: nat)
    requires m <= n <= |s|
    requires forall i | m <= i < n :: SpaceAt(s, i)
    ensures WordStarts(s, n) == WordStarts(s, m)
    decreases n
  {
    if m < n {
      NoWordStartsInTrailingSpace(s, m, n - 1);
    }
  }

  /** Words of a slice bounded by whitespace are the words of the whole. */
  lemma {:induction false} WordStartsOfSlice(s: string, a: nat, b: nat, k: nat)
    requires a <= b <= |s| && k <= b - a
    requires a == 0 || SpaceAt(s, a - 1)
    ensures WordStarts(s[a..b], k) == WordStarts(s, a + k) - WordStarts(s, a)
  {
    if k > 0 {
      WordStartsOfSlice(s, a, b, k - 1);
      assert s[a..b][k - 1] == s[a + k - 1];
      if k > 1 {
        assert s[a..b][k - 2] == s[a + k - 2];
      }
    }
  }

  /** `len(s.split()) == len(s.strip().split())`. */
  lemma WordCountStrip(s: string)
    ensures WordCount(Strip(s)) == WordCount(s)
  {
    var a, b := StripStart(s), StripEnd(s);
    NoWordStartsInSpace(s, a);
    WordStartsOfSlice(s, a, b, b - a);
    NoWordStartsInTrailingSpace(s, b, |s|);
  }

  /** Appending `" " + b` to `a` adds the words of `b` to those of `a`. */
  lemma WordCountSpaced(a: string, b: string)
    ensures WordCount(a + " " + b) == WordCount(a) + WordCount(b)
  {
    var s := a + " " + b;
    assert s[0..|a|] == a;
    WordStartsOfSlice(s, 0, |a|, |a|);
    assert SpaceAt(s, |a|);
    assert s[|a| + 1..|s|] == b;
    WordStartsOfSlice(s, |a| + 1, |s|, |b|);
  }

  /** `s.split("\n")`: the pieces of `s` between newline characters; always at least one. */
  function SplitLines(s: string): (lines: seq<string>)
    ensures |lines| >= 1
    ensures forall i | 0 <= i < |lines| :: '\n' !in lines[i]
  {
    if s == [] then [[]]
    else
      var rest := SplitLines(s[1..]);
      if s[0] == '\n' then [[]] + rest else [[s[0]] + rest[0]] + rest[1..]
  }

  /** `"\n".join(lines)`. */
  function JoinLines(lines: seq<string>): string
  {
    if |lines| == 0 then []
    else if |lines| == 1 then lines[0]
    else lines[0] + "\n" + JoinLines(lines[1..])
  }

  /** Splitting at newlines and joining again gives back the text. */
  lemma {:induction false} JoinSplitLines(s: string)
    ensures JoinLines(SplitLines(s)) == s
  {
    if s != [] {
      var rest := SplitLines(s[1..]);
      JoinSplitLines(s[1..]);
      if s[0] == '\n' {
        assert SplitLines(s)[1..] == rest;
      } else {
        var lines := SplitLines(s);
        assert lines[1..] == rest[1..];
        if |rest| > 1 {
          assert rest[0] + "\n" + JoinLines(rest[1..]) == s[1..];
        }
      }
    }
  }

  /** Joining newline-free lines and splitting again gives back the lines. */
  lemma {:induction false} SplitJoinLines(lines: seq<string>)
    requires |lines| >= 1
    requires forall i | 0 <= i < |lines| :: '\n' !in lines[i]
    ensures SplitLines(JoinLines(lines)) == lines
    decreases |lines|, |lines[0]|
  {
    var head := lines[0];
    if head == [] {
      if |lines| > 1 {
        assert JoinLines(lines) == "\n" + JoinLines(lines[1..]);
        SplitJoinLines(lines[1..]);
        assert JoinLines(lines)[1..] == JoinLines(lines[1..]);
      }
    } else {
      var shorter := [head[1..]] + lines[1..];
      assert '\n' !in head[1..];
      SplitJoinLines(shorter);
      assert shorter[1..] == lines[1..];
      if |lines| == 1 {
        assert JoinLines(lines)[1..] == JoinLines(shorter);
      } else {
        assert JoinLines(lines)[1..] == JoinLines(shorter);
      }
      assert JoinLines(lines)[0] == head[0];
      assert [head[0]] + head[1..] == head;
      assert [[head[0]] + head[1..]] + lines[1..] == lines;
    }
  }

  /** `str.isupper` over ASCII case: at least one cased character and no lower-case one. */
  predicate IsUpper(s: string) {
    (exists i | 0 <= i < |s| :: 'A' <= s[i] <= 'Z') && (forall i | 0 <= i < |s| :: !('a' <= s[i] <= 'z'))
  }

  /** `upper()` of one character: ASCII letters, and the two non-ASCII letters
      (dotless i, long s) whose upper case is an ASCII letter. */
  function UpperChar(c: char): char {
    if 'a' <= c <= 'z' then (c as int - 32) as char
    else if c == '\U{131}' then 'I'
    else if c == '\U{17F}' then 'S'
    else c
  }

  /** `lower()` of one character, ASCII letters only. */
  function LowerChar(c: char): char {
    if 'A' <= c <= 'Z' then (c as int + 32) as char else c
  }

  function Upper(s: string): (r: string)
    ensures |r| == |s| && forall i | 0 <= i < |s| :: r[i] == UpperChar(s[i])
  {
    seq(|s|, i requires 0 <= i < |s| => UpperChar(s[i]))
  }

  function Lower(s: string): (r: string)
    ensures |r| == |s| && forall i | 0 <= i < |s| :: r[i] == LowerChar(s[i])
  {
    seq(|s|, i requires 0 <= i < |s| => LowerChar(s[i]))
  }

  /** Upper-casing ignores the case the text had. */
  lemma UpperIgnoresCase(s: string)
    ensures Upper(Lower(s)) == Upper(s) && Upper(Upper(s)) == Upper(s)
  {
    assert forall i | 0 <= i < |s| :: UpperChar(LowerChar(s[i])) == UpperChar(s[i]);
  }

  predicate OccursAt(s: string, sub: string, i: int) {
    0 <= i && i + |sub| <= |s| && s[i..i + |sub|] == sub
  }

  /** `sub in s`. */
  predicate Contains(s: string, sub: string) {
    exists i | 0 <= i <= |s| - |sub| :: OccursAt(s, sub, i)
  }

  predicate EndsWith(s: string, suffix: string) {
    |suffix| <= |s| && s[|s| - |suffix|..] == suffix
  }
}
