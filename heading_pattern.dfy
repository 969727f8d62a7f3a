/**
  The scene-heading pattern that `ScriptParser.__init__` compiles,
  `\*{0,2}(?:INT\.|EXT\.)\s+(.+)\s+-\s+([A-Z]+)\*{0,2}` with `re.IGNORECASE`,
  applied with `re.match` (anchored at the start of the line only).

  `Decomposes` states the pattern's language directly: which ways of cutting a
  line into the pattern's pieces exist. `FindSplit` is the matcher, written as
  explicit scans; the lemmas show that it finds a match exactly when one exists
  and that the one it finds is the one Python's backtracking engine reports
  (greedy first whitespace run, greedy location, greedy time token).
  `Decomposes` lets the location contain a newline, which the pattern's `.`
  does not match, so it is Python's match only on lines without a newline;
  the parser applies the pattern only to such lines, and
  `MatchHeadingIsRegexMatch` requires it.
*/
module HeadingPattern {
  import opened Wrappers
  import opened Text

  /** The pattern's `[A-Z]` under `re.IGNORECASE`: the 52 ASCII letters and the
      four letters whose case folding relates them to one (U+0130, U+0131,
      U+017F, U+212A). */
  predicate IsTimeLetter(c: char) {
    || ('A' <= c <= 'Z') || ('a' <= c <= 'z')
    || c == '\U{130}' || c == '\U{131}' || c == '\U{17F}' || c == '\U{212A}'
  }

  /** The letter `I` of the pattern under `re.IGNORECASE`. */
  predicate IsLetterI(c: char) {
    c == 'I' || c == 'i' || c == '\U{130}' || c == '\U{131}'
  }

  /** `(?:INT\.|EXT\.)` at position `k`, case-insensitively. */
  predicate IsMarkerAt(s: string, k: nat) {
    && k + 4 <= |s|
    && ((IsLetterI(s[k]) && (s[k + 1] == 'N' || s[k + 1] == 'n'))
        || ((s[k] == 'E' || s[k] == 'e') && (s[k + 1] == 'X' || s[k + 1] == 'x')))
    && (s[k + 2] == 'T' || s[k + 2] == 't')
    && s[k + 3] == '.'
  }

  /**
    Positions of one way to match the pattern against `s`: `stars` leading
    asterisks, the marker, whitespace up to `groupStart`, the location group
    `s[groupStart..groupEnd]`, whitespace, the hyphen at `dash`, whitespace,
    and the time group `s[timeStart..timeEnd]`. The closing `\*{0,2}` can
    always match nothing, so it constrains nothing.
  */
  datatype Split = Split(stars: nat, groupStart: nat, groupEnd: nat, dash: nat, timeStart: nat, timeEnd: nat)

  predicate StarAt(s: string, i: nat) {
    i < |s| && s[i] == '*'
  }

  predicate LetterAt(s: string, i: nat) {
    i < |s| && IsTimeLetter(s[i])
  }

  predicate SpacesIn(s: string, lo: nat, hi: nat) {
    forall i | lo <= i < hi :: SpaceAt(s, i)
  }

  /** The pieces of `sp` lie in order inside `s`. */
  predicate Ordered(s: string, sp: Split) {
    && sp.stars <= 2
    && sp.stars + 4 < sp.groupStart < sp.groupEnd < sp.dash
    && sp.dash + 1 < sp.timeStart < sp.timeEnd <= |s|
  }

  /** `sp` is a way to match the pattern against `s`, for a line `s` without
      a newline (the location group here may hold one; the pattern's `.`
      may not). */
  ghost predicate Decomposes(s: string, sp: Split) {
    && Ordered(s, sp)
    && (forall i | 0 <= i < sp.stars :: StarAt(s, i))
    && IsMarkerAt(s, sp.stars)
    && SpacesIn(s, sp.stars + 4, sp.groupStart)
    && SpacesIn(s, sp.groupEnd, sp.dash)
    && s[sp.dash] == '-'
    && SpacesIn(s, sp.dash + 1, sp.timeStart)
    && (forall i | sp.timeStart <= i < sp.timeEnd :: LetterAt(s, i))
  }

  /**
    The match Python reports is the first one its backtracking reaches, the
    greatest in the order (groupStart, groupEnd, timeEnd); `sp` dominates every
    other decomposition in each of these, which makes it that one.
  */
  ghost predicate Preferred(s: string, sp: Split) {
    forall other | Decomposes(s, other) ::
      && other.groupStart <= sp.groupStart
      && other.groupEnd <= sp.groupEnd
      && (other.groupEnd == sp.groupEnd ==> other.timeEnd <= sp.timeEnd)
  }

  /** Length of the run of asterisks that starts at `i`. */
  function StarRun(s: string, i: nat): (n: nat)
    requires i <= |s|
    ensures i + n <= |s|
    ensures forall j | i <= j < i + n :: StarAt(s, j)
    ensures !StarAt(s, i + n)
    decreases |s| - i
  {
    if StarAt(s, i) then 1 + StarRun(s, i + 1) else 0
  }

  /** Length of the run of time letters that starts at `i`. */
  function LetterRun(s: string, i: nat): (n: nat)
    requires i <= |s|
    ensures i + n <= |s|
    ensures forall j | i <= j < i + n :: LetterAt(s, j)
    ensures !LetterAt(s, i + n)
    decreases |s| - i
  {
    if LetterAt(s, i) then 1 + LetterRun(s, i + 1) else 0
  }

  /** Where the hyphen must be for a separator whose whitespace starts at `e`. */
  function DashPos(s: string, e: nat): (d: nat)
    requires e <= |s|
    ensures e <= d <= |s|
  {
    e + SpaceRun(s, e)
  }

  /** Where the time group starts after the hyphen at `dash`. */
  function TimePos(s: string, dash: nat): (t: nat)
    requires dash < |s|
    ensures dash < t <= |s|
  {
    dash + 1 + SpaceRun(s, dash + 1)
  }

  /** `\s+-\s+[A-Z]` matches at `e`. */
  predicate SeparatorAt(s: string, e: nat) {
    && SpaceAt(s, e)
    && DashPos(s, e) < |s| && s[DashPos(s, e)] == '-'
    && TimePos(s, DashPos(s, e)) > DashPos(s, e) + 1
    && LetterAt(s, TimePos(s, DashPos(s, e)))
  }

  /** The greatest `e` in `[lo, hi)` where a separator matches: the greedy
      `(.+)` backs off from the end of the line one character at a time. */
  function LastSeparator(s: string, lo: nat, hi: nat): (e: Option<nat>)
    requires hi <= |s|
    ensures e.Some? ==> lo <= e.value < hi && SeparatorAt(s, e.value)
    ensures forall j | lo <= j < hi && SeparatorAt(s, j) :: e.Some? && j <= e.value
    decreases hi
  {
    if hi <= lo then None
    else if SeparatorAt(s, hi - 1) then Some(hi - 1)
    else LastSeparator(s, lo, hi - 1)
  }

  /** The scan finds `e` when a separator matches there and at no later
      position before `hi`. */
  lemma {:induction false} LastSeparatorAt(s: string, lo: nat, hi: nat, e: nat)
    requires lo <= e < hi <= |s| && SeparatorAt(s, e)
    requires forall j | e < j < hi :: !SeparatorAt(s, j)
    ensures LastSeparator(s, lo, hi) == Some(e)
    decreases hi
  {
    if hi - 1 != e {
      LastSeparatorAt(s, lo, hi - 1, e);
    }
  }

  function Min(a: int, b: int): int {
    if a <= b then a else b
  }

  /** Where the marker ends, when the line starts with at most two asterisks
      and `INT.` or `EXT.`. */
  function MarkerEnd(s: string): (p: Option<nat>)
    ensures p.Some? ==> p.value == StarRun(s, 0) + 4 <= |s| && StarRun(s, 0) <= 2
  {
    var k := StarRun(s, 0);
    if k <= 2 && IsMarkerAt(s, k) then Some(k + 4) else None
  }

  /** The match that uses the separator at `e`, with the location group
      starting as late as the whitespace after the marker allows. */
  function SplitAt(s: string, p: nat, e: nat): (sp: Split)
    requires p + 2 <= e && SeparatorAt(s, e) && 0 < SpaceRun(s, p) && 4 <= p
    ensures sp.groupEnd == e && sp.groupStart < e
  {
    var dash := DashPos(s, e);
    var t := TimePos(s, dash);
    Split(p - 4, Min(p + SpaceRun(s, p), e - 1), e, dash, t, t + LetterRun(s, t))
  }

  /** The matcher: the positions of the match Python reports, if any. */
  function FindSplit(s: string): (r: Option<Split>)
    ensures r.Some? ==> Ordered(s, r.value)
  {
    match MarkerEnd(s)
    case None => None
    case Some(p) =>
      if SpaceRun(s, p) == 0 then None
      else
        match LastSeparator(s, p + 2, |s|)
        case None => None
        case Some(e) => Some(SplitAt(s, p, e))
  }

  /** What `scene_match.group(1)` and `scene_match.group(2)` capture. */
  datatype Heading = Heading(place: string, time: string)

  /** `self.scene_pattern.match(line)`, for one line of the script. */
  function MatchHeading(line: string): (h: Option<Heading>)
    requires '\n' !in line
    ensures h.Some? ==> h.value.time != []
  {
    match FindSplit(line)
    case None => None
    case Some(sp) => Some(Heading(line[sp.groupStart..sp.groupEnd], line[sp.timeStart..sp.timeEnd]))
  }

  /** What the matcher returns is a match of the pattern. */
  lemma FindSplitSound(s: string)
    requires FindSplit(s).Some?
    ensures Decomposes(s, FindSplit(s).value)
  {
    var sp := FindSplit(s).value;
    var p := MarkerEnd(s).value;
    assert SpacesIn(s, p, sp.groupStart);
  }

  /** Every decomposition has a separator where its location group ends, and
      the positions of its other pieces are fixed by where that group ends. */
  lemma DecompositionSeparator(s: string, sp: Split)
    requires Decomposes(s, sp)
    ensures SeparatorAt(s, sp.groupEnd)
    ensures DashPos(s, sp.groupEnd) == sp.dash
    ensures TimePos(s, sp.dash) == sp.timeStart
  {
    assert SpaceAt(s, sp.groupEnd);
    assert !SpaceAt(s, sp.dash);
    assert LetterAt(s, sp.timeStart) && !SpaceAt(s, sp.timeStart);
  }

  /** The marker of every decomposition is where the matcher looks for it. */
  lemma DecompositionMarker(s: string, sp: Split)
    requires Decomposes(s, sp)
    ensures MarkerEnd(s) == Some(sp.stars + 4)
    ensures sp.groupStart <= sp.stars + 4 + SpaceRun(s, sp.stars + 4)
    ensures 0 < SpaceRun(s, sp.stars + 4)
  {
    assert !StarAt(s, sp.stars);
    assert SpaceAt(s, sp.stars + 4);
  }

  /** The matcher finds a match whenever the pattern can match, and the match
      it finds dominates every other. */
  lemma FindSplitDominates(s: string, other: Split)
    requires Decomposes(s, other)
    ensures FindSplit(s).Some?
    ensures var sp := FindSplit(s).value;
      && other.groupStart <= sp.groupStart && other.groupEnd <= sp.groupEnd
      && (other.groupEnd == sp.groupEnd ==> other.timeEnd <= sp.timeEnd)
  {
    DecompositionMarker(s, other);
    DecompositionSeparator(s, other);
    var p := other.stars + 4;
    var found := LastSeparator(s, p + 2, |s|);
    assert found.Some? && other.groupEnd <= found.value;
  }

  /** The matcher finds a decomposition exactly when one exists, and the one
      it finds is the first in the backtracking order; on a line without a
      newline that is the match Python reports. */
  lemma FindSplitIsFirstMatch(s: string)
    ensures FindSplit(s).None? <==> forall sp :: !Decomposes(s, sp)
    ensures FindSplit(s).Some? ==> Decomposes(s, FindSplit(s).value) && Preferred(s, FindSplit(s).value)
  {
    if FindSplit(s).Some? {
      FindSplitSound(s);
    }
    forall other | Decomposes(s, other)
      ensures FindSplit(s).Some?
      ensures var sp := FindSplit(s).value;
        && other.groupStart <= sp.groupStart && other.groupEnd <= sp.groupEnd
        && (other.groupEnd == sp.groupEnd ==> other.timeEnd <= sp.timeEnd)
    {
      FindSplitDominates(s, other);
    }
  }

  /** `re.match` succeeds on a line exactly when the pattern can match it; the
      groups are those of Python's match: the location runs up to the last
      separator, the time token is the whole letter run after it. */
  lemma MatchHeadingIsRegexMatch(line: string)
    requires '\n' !in line
    ensures MatchHeading(line).None? <==> forall sp :: !Decomposes(line, sp)
    ensures MatchHeading(line).Some? ==>
      var sp := FindSplit(line).value;
      && Decomposes(line, sp) && Preferred(line, sp)
      && MatchHeading(line).value == Heading(line[sp.groupStart..sp.groupEnd], line[sp.timeStart..sp.timeEnd])
  {
    FindSplitIsFirstMatch(line);
  }
}
