/**
  What `ScriptParser._extract_scenes` computes, as functions on values.

  `Classify` is what the loop's body decides about one line; `Step` is one
  iteration of the loop and `RunFrom` the loop itself, and `DraftsOf` closes
  the scene still open at the end. Independently of that state machine,
  `Segments` cuts the classified lines into a heading and the body that
  follows it, up to the next heading. `ScenesFollowSegments` shows that the
  loop saves one scene per segment, in order, each built from its own heading
  and body alone; the properties of the parser's output are stated on that.
*/
module Segmenter {
  import opened Wrappers
  import opened Text
  import opened HeadingPattern
  import opened ScriptModel
  import opened SceneFactory

  predicate NoNewlines(lines: seq<string>) {
    forall i | 0 <= i < |lines| :: '\n' !in lines[i]
  }

  /** A character cue: `line.isupper() and len(line.split()) <= 3`. */
  predicate IsCue(line: string) {
    IsUpper(line) && WordCount(line) <= 3
  }

  /** The heading a line of the script announces, if any: the pattern
      matched against the stripped line. */
  function HeadingOfLine(raw: string): Option<Heading>
    requires '\n' !in raw
  {
    StripKeepsOut(raw, '\n');
    MatchHeading(Strip(raw))
  }

  /** What the loop makes of one line: nothing, a scene heading, or content
      for the open scene. */
  datatype Line = Blank | HeadingLine(heading: Heading) | Content(text: string)

  /** The loop's tests on one line: the stripped line is blank, or it
      matches the heading pattern, or it is content. */
  function Classify(raw: string): (l: Line)
    requires '\n' !in raw
    ensures l.Blank? <==> Strip(raw) == []
    ensures l.HeadingLine? <==> Strip(raw) != [] && HeadingOfLine(raw).Some?
    ensures l.HeadingLine? ==> HeadingOfLine(raw) == Some(l.heading)
    ensures l.Content? ==> l.text == Strip(raw) && Strip(l.text) == l.text
  {
    var line := Strip(raw);
    if line == [] then Blank
    else
      match HeadingOfLine(raw)
      case Some(h) => HeadingLine(h)
      case None =>
        StripIdempotent(raw);
        Content(line)
  }

  /** `Classify` in the terms of the loop's own tests. */
  lemma ClassifyCases(raw: string)
    requires '\n' !in raw
    ensures '\n' !in Strip(raw)
    ensures Strip(raw) == [] ==> Classify(raw) == Blank
    ensures Strip(raw) != [] && MatchHeading(Strip(raw)).Some? ==>
      Classify(raw) == HeadingLine(MatchHeading(Strip(raw)).value)
    ensures Strip(raw) != [] && MatchHeading(Strip(raw)).None? ==> Classify(raw) == Content(Strip(raw))
  {
    StripKeepsOut(raw, '\n');
  }

  /** Every line of `lines`, classified. */
  function ClassifyAll(lines: seq<string>): (r: seq<Line>)
    requires NoNewlines(lines)
    ensures |r| == |lines| && forall i | 0 <= i < |lines| :: r[i] == Classify(lines[i])
  {
    seq(|lines|, i requires 0 <= i < |lines| => Classify(lines[i]))
  }

  /** The dictionary a heading opens: its groups stripped, no description,
      no dialogue, no pending speaker. */
  function OpenDraft(h: Heading): Draft {
    Draft(Strip(h.place), Strip(h.time), "", [], None)
  }

  /**
    A stripped, non-blank line that is not a heading, added to the open
    scene: a cue makes its speaker pending; otherwise a pending speaker's
    line becomes dialogue and clears the speaker; otherwise the line is
    appended to the description after a space.
  */
  function Absorb(d: Draft, line: string): (r: Draft)
    ensures r.location == d.location && r.timeOfDay == d.timeOfDay
    ensures r.speaker.Some? <==> IsCue(line)
    ensures IsCue(line) ==> r.speaker == Some(line)
    ensures r.description
      == if IsCue(line) || d.speaker.Some? then d.description else d.description + " " + line
    ensures d.dialogue <= r.dialogue && |r.dialogue| <= |d.dialogue| + 1
    ensures |r.dialogue| == |d.dialogue| + 1 <==> !IsCue(line) && d.speaker.Some?
    ensures |r.dialogue| == |d.dialogue| + 1 ==> r.dialogue[|d.dialogue|] == DialogueLine(d.speaker.value, line)
    ensures WordCount(r.description)
      == WordCount(d.description) + (if IsCue(line) || d.speaker.Some? then 0 else WordCount(line))
  {
    if IsCue(line) then d.(speaker := Some(line))
    else if d.speaker.Some? then
      d.(dialogue := d.dialogue + [DialogueLine(d.speaker.value, line)], speaker := None)
    else
      WordCountSpaced(d.description, line);
      d.(description := d.description + " " + line)
  }

  /** The loop's variables: the data of the scenes saved so far, in order
      (their number is `scene_number`), and `current_scene`. */
  datatype State = State(saved: seq<Draft>, current: Option<Draft>)

  const Start := State([], None)

  /** The saved scenes once the open one, if any, is saved too. */
  function Close(st: State): (r: seq<Draft>)
    ensures st.saved <= r
    ensures |r| == |st.saved| + (if st.current.Some? then 1 else 0)
  {
    match st.current
    case None => st.saved
    case Some(d) => st.saved + [d]
  }

  /** One iteration of the loop: a blank line changes nothing, a heading
      saves the open scene and opens a new one, a line of text goes into the
      open scene, if there is one. */
  function Step(st: State, l: Line): (r: State)
    ensures st.saved <= r.saved && |r.saved| <= |st.saved| + 1
    ensures l.HeadingLine? ==> r.saved == Close(st)
    ensures !l.HeadingLine? ==> r.saved == st.saved && (r.current.Some? <==> st.current.Some?)
  {
    match l
    case Blank => st
    case HeadingLine(h) => State(Close(st), Some(OpenDraft(h)))
    case Content(line) =>
      if st.current.Some? then State(st.saved, Some(Absorb(st.current.value, line))) else st
  }

  /** The loop over `ls`, from the state `st`. */
  function RunFrom(st: State, ls: seq<Line>): State
    decreases |ls|
  {
    if ls == [] then st else Step(RunFrom(st, ls[..|ls| - 1]), ls[|ls| - 1])
  }

  /** The data of every scene the loop saves, in order. */
  function DraftsOf(ls: seq<Line>): seq<Draft> {
    Close(RunFrom(Start, ls))
  }

  /** `_create_scene` applied to each saved scene, numbered from zero. */
  function Number(ds: seq<Draft>): (r: seq<Scene>)
    ensures |r| == |ds|
    ensures forall i | 0 <= i < |ds| :: r[i] == CreateScene(i, ds[i])
  {
    MapIndexed(CreateScene, ds)
  }

  /** `f` applied to each element and its index. */
  function MapIndexed<A, B>(f: (nat, A) -> B, xs: seq<A>): (r: seq<B>)
    ensures |r| == |xs|
    ensures forall i | 0 <= i < |xs| :: r[i] == f(i, xs[i])
  {
    seq(|xs|, i requires 0 <= i < |xs| => f(i, xs[i]))
  }

  lemma MapIndexedSnoc<A, B>(f: (nat, A) -> B, xs: seq<A>, x: A)
    ensures MapIndexed(f, xs + [x]) == MapIndexed(f, xs) + [f(|xs|, x)]
  {
    var l, r := MapIndexed(f, xs + [x]), MapIndexed(f, xs) + [f(|xs|, x)];
    assert forall i | 0 <= i < |l| :: l[i] == r[i];
  }

  /** Numbering one more saved scene appends its `_create_scene`. */
  lemma NumberSnoc(ds: seq<Draft>, d: Draft)
    ensures Number(ds + [d]) == Number(ds) + [CreateScene(|ds|, d)]
  {
    MapIndexedSnoc(CreateScene, ds, d);
  }

  /** `_extract_scenes` on the lines of a script. */
  function ScenesOfLines(lines: seq<string>): seq<Scene>
    requires NoNewlines(lines)
  {
    Number(DraftsOf(ClassifyAll(lines)))
  }

  /** `_extract_scenes(content)`. */
  function Scenes(content: string): seq<Scene> {
    ScenesOfLines(SplitLines(content))
  }

  lemma {:induction false} RunConcat(st: State, a: seq<Line>, b: seq<Line>)
    ensures RunFrom(st, a + b) == RunFrom(RunFrom(st, a), b)
    decreases |b|
  {
    if b == [] {
      assert a + b == a;
    } else {
      assert (a + b)[..|a + b| - 1] == a + b[..|b| - 1];
      RunConcat(st, a, b[..|b| - 1]);
    }
  }

  // ---------------------------------------------------------------------
  // The reference: segments of the script
  // ---------------------------------------------------------------------

  /** A heading together with the lines up to the next heading. */
  datatype Segment = Segment(heading: Heading, body: seq<Line>)

  /** Line `j` of `ls` is a heading. */
  predicate HeadingAt(ls: seq<Line>, j: int) {
    0 <= j < |ls| && ls[j].HeadingLine?
  }

  /** The number of lines from `i` on that come before the next heading. */
  function BodyLength(ls: seq<Line>, i: nat): (k: nat)
    requires i <= |ls|
    ensures i + k <= |ls|
    ensures forall j | i <= j < i + k :: !HeadingAt(ls, j)
    ensures i + k == |ls| || ls[i + k].HeadingLine?
    decreases |ls| - i
  {
    if i == |ls| || ls[i].HeadingLine? then 0 else 1 + BodyLength(ls, i + 1)
  }

  /** The lines after a heading hold no heading before the body ends. */
  lemma NoHeadingInBody(ls: seq<Line>)
    requires ls != []
    ensures forall j | 0 <= j < BodyLength(ls, 1) :: !HeadingAt(ls[1..], j)
  {
    forall j | 0 <= j < BodyLength(ls, 1)
      ensures !HeadingAt(ls[1..], j)
    {
      assert !HeadingAt(ls, j + 1);
      assert ls[1..][j] == ls[j + 1];
    }
  }

  /** The body after a heading holds no heading. */
  lemma BodyHasNoHeading(ls: seq<Line>, body: seq<Line>)
    requires ls != [] && body == ls[1..1 + BodyLength(ls, 1)]
    ensures forall j | 0 <= j < |body| :: !HeadingAt(body, j)
  {
    forall j | 0 <= j < |body|
      ensures !HeadingAt(body, j)
    {
      assert !HeadingAt(ls, j + 1);
      assert body[j] == ls[j + 1];
    }
  }

  /** The script cut at its headings; lines before the first heading belong
      to no segment. */
  function Segments(ls: seq<Line>): seq<Segment>
    decreases |ls|
  {
    if ls == [] then []
    else if !ls[0].HeadingLine? then Segments(ls[1..])
    else
      var k := BodyLength(ls, 1);
      [Segment(ls[0].heading, ls[1..1 + k])] + Segments(ls[1 + k..])
  }

  /** The headings of the script, in order. */
  function Headings(ls: seq<Line>): seq<Heading>
    decreases |ls|
  {
    if ls == [] then []
    else (if ls[0].HeadingLine? then [ls[0].heading] else []) + Headings(ls[1..])
  }

  /** The open scene after the lines of text of `body` have been added to
      `d` in order. */
  function FillBody(d: Draft, body: seq<Line>): (r: Draft)
    ensures r.location == d.location && r.timeOfDay == d.timeOfDay
    decreases |body|
  {
    if body == [] then d
    else
      var before := FillBody(d, body[..|body| - 1]);
      match body[|body| - 1]
      case Content(line) => Absorb(before, line)
      case _ => before
  }

  /** The data of the scene a segment gives. */
  function SegmentDraft(seg: Segment): Draft {
    FillBody(OpenDraft(seg.heading), seg.body)
  }

  /** The data of the scene each segment gives, in order. */
  function SegmentDrafts(segs: seq<Segment>): (r: seq<Draft>)
    ensures |r| == |segs|
  {
    if segs == [] then [] else [SegmentDraft(segs[0])] + SegmentDrafts(segs[1..])
  }

  lemma {:induction false} SegmentDraftsAt(segs: seq<Segment>)
    ensures forall i | 0 <= i < |segs| :: SegmentDrafts(segs)[i] == SegmentDraft(segs[i])
  {
    if segs != [] {
      SegmentDraftsAt(segs[1..]);
    }
  }

  // ---------------------------------------------------------------------
  // The loop follows the segments
  // ---------------------------------------------------------------------

  /** Lines before any heading leave a state with no open scene as it is. */
  lemma {:induction false} RunPreamble(saved: seq<Draft>, pre: seq<Line>)
    requires forall j | 0 <= j < |pre| :: !HeadingAt(pre, j)
    ensures RunFrom(State(saved, None), pre) == State(saved, None)
    decreases |pre|
  {
    if pre != [] {
      var init := pre[..|pre| - 1];
      forall j | 0 <= j < |init|
        ensures !HeadingAt(init, j)
      {
        assert !HeadingAt(pre, j);
      }
      RunPreamble(saved, init);
      assert !HeadingAt(pre, |pre| - 1);
    }
  }

  /** The lines of a body go into the open scene, and nothing is saved. */
  lemma {:induction false} RunBody(saved: seq<Draft>, d: Draft, body: seq<Line>)
    requires forall j | 0 <= j < |body| :: !HeadingAt(body, j)
    ensures RunFrom(State(saved, Some(d)), body) == State(saved, Some(FillBody(d, body)))
    decreases |body|
  {
    if body != [] {
      var init := body[..|body| - 1];
      forall j | 0 <= j < |init|
        ensures !HeadingAt(init, j)
      {
        assert !HeadingAt(body, j);
      }
      RunBody(saved, d, init);
      assert !HeadingAt(body, |body| - 1);
    }
  }

  lemma SegmentDraftsCons(seg: Segment, segs: seq<Segment>)
    ensures SegmentDrafts([seg] + segs) == [SegmentDraft(seg)] + SegmentDrafts(segs)
  {
    assert ([seg] + segs)[1..] == segs;
  }

  /** A heading and its body save the open scene and leave the heading's
      scene open, filled with the body. */
  lemma RunSegment(st: State, ls: seq<Line>)
    requires ls != [] && ls[0].HeadingLine?
    ensures var k := BodyLength(ls, 1);
      RunFrom(st, ls[..1 + k]) == State(Close(st), Some(SegmentDraft(Segment(ls[0].heading, ls[1..1 + k]))))
  {
    var k := BodyLength(ls, 1);
    var head, body := ls[0], ls[1..1 + k];
    var started := State(Close(st), Some(OpenDraft(head.heading)));
    assert RunFrom(st, ls[..1 + k]) == RunFrom(RunFrom(st, [head]), body) by {
      assert ls[..1 + k] == [head] + body;
      RunConcat(st, [head], body);
    }
    assert RunFrom(st, [head]) == started by {
      assert [head][..0] == [];
    }
    assert RunFrom(started, body) == State(Close(st), Some(FillBody(OpenDraft(head.heading), body))) by {
      BodyHasNoHeading(ls, body);
      RunBody(Close(st), OpenDraft(head.heading), body);
    }
  }

  lemma AppendAssoc(r: seq<Draft>, a: seq<Draft>, c: seq<Draft>, d: Draft, later: seq<Draft>, whole: seq<Draft>)
    requires r == a + later && a == c + [d] && whole == [d] + later
    ensures r == c + whole
  {
  }

  lemma TakeDrop(ls: seq<Line>, n: nat)
    requires n <= |ls|
    ensures ls == ls[..n] + ls[n..]
  {
  }

  /** The state after a heading and its body. */
  function AfterSegment(st: State, ls: seq<Line>): State
    requires ls != [] && ls[0].HeadingLine?
  {
    var k := BodyLength(ls, 1);
    State(Close(st), Some(SegmentDraft(Segment(ls[0].heading, ls[1..1 + k]))))
  }

  /** The loop runs through the first segment into `AfterSegment`. */
  lemma RunThroughSegment(st: State, ls: seq<Line>)
    requires ls != [] && ls[0].HeadingLine?
    ensures RunFrom(st, ls) == RunFrom(AfterSegment(st, ls), ls[1 + BodyLength(ls, 1)..])
  {
    var k := BodyLength(ls, 1);
    TakeDrop(ls, 1 + k);
    RunConcat(st, ls[..1 + k], ls[1 + k..]);
    RunSegment(st, ls);
  }

  /** The first segment's scene comes first among the segments' scenes. */
  lemma SegmentDraftsFirst(ls: seq<Line>)
    requires ls != [] && ls[0].HeadingLine?
    ensures var k := BodyLength(ls, 1);
      SegmentDrafts(Segments(ls))
        == [SegmentDraft(Segment(ls[0].heading, ls[1..1 + k]))] + SegmentDrafts(Segments(ls[1 + k..]))
  {
    var k := BodyLength(ls, 1);
    var seg := Segment(ls[0].heading, ls[1..1 + k]);
    assert Segments(ls) == [seg] + Segments(ls[1 + k..]);
    SegmentDraftsCons(seg, Segments(ls[1 + k..]));
  }

  /** One segment of the induction in `RunFollowsSegments`: if the lines
      after the first segment follow their segments, so do all the lines. */
  lemma SegmentStep(st: State, ls: seq<Line>)
    requires ls != [] && ls[0].HeadingLine?
    requires var rest := ls[1 + BodyLength(ls, 1)..];
      Close(RunFrom(AfterSegment(st, ls), rest))
        == Close(AfterSegment(st, ls)) + SegmentDrafts(Segments(rest))
    ensures Close(RunFrom(st, ls)) == Close(st) + SegmentDrafts(Segments(ls))
  {
    var k := BodyLength(ls, 1);
    var rest := ls[1 + k..];
    var after := AfterSegment(st, ls);
    var d := SegmentDraft(Segment(ls[0].heading, ls[1..1 + k]));
    var later := SegmentDrafts(Segments(rest));
    assert Close(RunFrom(st, ls)) == Close(after) + later by {
      RunThroughSegment(st, ls);
    }
    assert Close(after) == Close(st) + [d];
    assert SegmentDrafts(Segments(ls)) == [d] + later by {
      SegmentDraftsFirst(ls);
    }
    AppendAssoc(Close(RunFrom(st, ls)), Close(after), Close(st), d, later, SegmentDrafts(Segments(ls)));
  }

  /** From a state with no open scene, or at a heading, the loop saves one
      scene per segment of the remaining lines. */
  lemma {:induction false} RunFollowsSegments(st: State, ls: seq<Line>)
    requires st.current.None? || ls == [] || ls[0].HeadingLine?
    ensures Close(RunFrom(st, ls)) == Close(st) + SegmentDrafts(Segments(ls))
    decreases |ls|
  {
    if ls == [] {
      assert Close(st) + SegmentDrafts([]) == Close(st);
    } else if !ls[0].HeadingLine? {
      RunConcat(st, [ls[0]], ls[1..]);
      assert [ls[0]] + ls[1..] == ls;
      assert RunFrom(st, [ls[0]]) == Step(st, ls[0]);
      RunFollowsSegments(st, ls[1..]);
    } else {
      RunFollowsSegments(AfterSegment(st, ls), ls[1 + BodyLength(ls, 1)..]);
      SegmentStep(st, ls);
    }
  }

  /** `_extract_scenes` saves one scene per segment, in order, each built
      from its own heading and body alone. */
  lemma ScenesFollowSegments(ls: seq<Line>)
    ensures DraftsOf(ls) == SegmentDrafts(Segments(ls))
  {
    RunFollowsSegments(Start, ls);
  }

  /** Dropping lines that hold no heading skips no heading. */
  lemma {:induction false} HeadingsSkip(ls: seq<Line>, k: nat)
    requires k <= |ls|
    requires forall j | 0 <= j < k :: !HeadingAt(ls, j)
    ensures Headings(ls) == Headings(ls[k..])
  {
    if k > 0 {
      forall j | 0 <= j < k - 1
        ensures !HeadingAt(ls[1..], j)
      {
        assert !HeadingAt(ls, j + 1);
      }
      assert !HeadingAt(ls, 0);
      HeadingsSkip(ls[1..], k - 1);
      assert ls[1..][k - 1..] == ls[k..];
    }
  }

  /** The segments start at the headings, one each, in order. */
  lemma {:induction false} SegmentsFollowHeadings(ls: seq<Line>)
    ensures |Segments(ls)| == |Headings(ls)|
    ensures forall i | 0 <= i < |Segments(ls)| :: Segments(ls)[i].heading == Headings(ls)[i]
    decreases |ls|
  {
    if ls == [] {
    } else if !ls[0].HeadingLine? {
      SegmentsFollowHeadings(ls[1..]);
    } else {
      var k := BodyLength(ls, 1);
      var rest := ls[1 + k..];
      SegmentsFollowHeadings(rest);
      NoHeadingInBody(ls);
      HeadingsSkip(ls[1..], k);
      assert ls[1..][k..] == rest;
    }
  }

  // ---------------------------------------------------------------------
  // Properties of the parser's scenes
  // ---------------------------------------------------------------------

  /** Numbering the saved scenes keeps each one's heading data and gives it
      a duration of at least five seconds. */
  lemma NumberKeepsDrafts(ds: seq<Draft>)
    ensures forall i | 0 <= i < |ds| ::
      && Number(ds)[i].sceneNumber == i
      && Number(ds)[i].location == ds[i].location
      && Number(ds)[i].timeOfDay == ds[i].timeOfDay
      && Number(ds)[i].dialogue == ds[i].dialogue
      && Number(ds)[i].durationTenths >= MinDurationTenths
  {
  }

  lemma ClassifyAllAppend(a: seq<string>, b: seq<string>)
    requires NoNewlines(a) && NoNewlines(b)
    ensures NoNewlines(a + b)
    ensures ClassifyAll(a + b) == ClassifyAll(a) + ClassifyAll(b)
  {
    assert forall i | 0 <= i < |a + b| :: (a + b)[i] == if i < |a| then a[i] else b[i - |a|];
  }

  /** There is one scene per heading line, numbered from zero in order; each
      takes its location and time of day from its own heading, stripped, and
      lasts at least five seconds. */
  lemma ScenesMatchHeadings(lines: seq<string>)
    requires NoNewlines(lines)
    ensures var scenes, hs := ScenesOfLines(lines), Headings(ClassifyAll(lines));
      && |scenes| == |hs|
      && forall i | 0 <= i < |scenes| ::
        && scenes[i].sceneNumber == i
        && scenes[i].location == Strip(hs[i].place)
        && scenes[i].timeOfDay == Strip(hs[i].time)
        && scenes[i].durationTenths >= MinDurationTenths
  {
    var ls := ClassifyAll(lines);
    var segs := Segments(ls);
    ScenesFollowSegments(ls);
    SegmentsFollowHeadings(ls);
    NumberKeepsDrafts(DraftsOf(ls));
    SegmentDraftsAt(segs);
    forall i | 0 <= i < |segs|
      ensures DraftsOf(ls)[i].location == Strip(Headings(ls)[i].place)
      ensures DraftsOf(ls)[i].timeOfDay == Strip(Headings(ls)[i].time)
    {
      assert DraftsOf(ls)[i] == SegmentDraft(segs[i]);
    }
  }

  /** A script without a heading line has no scenes, and a script with one
      has at least one. */
  lemma NoHeadingNoScenes(lines: seq<string>)
    requires NoNewlines(lines)
    ensures ScenesOfLines(lines) == [] <==> Headings(ClassifyAll(lines)) == []
  {
    ScenesMatchHeadings(lines);
  }

  /** The empty script has no scenes. */
  lemma EmptyScriptHasNoScenes()
    ensures Scenes("") == []
  {
    assert SplitLines("") == [""];
    assert ClassifyAll([""]) == [Blank];
    assert RunFrom(Start, [Blank]) == Step(RunFrom(Start, []), Blank);
  }

  /** A blank line, wherever it stands, changes nothing. */
  lemma BlankLineIgnored(a: seq<string>, b: string, c: seq<string>)
    requires NoNewlines(a) && NoNewlines(c) && '\n' !in b && Strip(b) == []
    ensures NoNewlines(a + [b] + c) && NoNewlines(a + c)
    ensures ScenesOfLines(a + [b] + c) == ScenesOfLines(a + c)
  {
    ClassifyAllAppend(a, [b]);
    ClassifyAllAppend(a + [b], c);
    ClassifyAllAppend(a, c);
    var ca, cc := ClassifyAll(a), ClassifyAll(c);
    assert ClassifyAll([b]) == [Blank];
    RunConcat(Start, ca + [Blank], cc);
    RunConcat(Start, ca, [Blank]);
    RunConcat(Start, ca, cc);
    assert RunFrom(RunFrom(Start, ca), [Blank]) == Step(RunFrom(RunFrom(Start, ca), []), Blank);
  }

  /** Lines before the first heading contribute nothing. */
  lemma LeadingLinesIgnored(pre: seq<string>, rest: seq<string>)
    requires NoNewlines(pre) && NoNewlines(rest)
    requires forall j | 0 <= j < |pre| :: !Classify(pre[j]).HeadingLine?
    ensures NoNewlines(pre + rest)
    ensures ScenesOfLines(pre + rest) == ScenesOfLines(rest)
  {
    ClassifyAllAppend(pre, rest);
    var cp, cr := ClassifyAll(pre), ClassifyAll(rest);
    RunConcat(Start, cp, cr);
    RunPreamble([], cp);
  }

  // ---------------------------------------------------------------------
  // What a body gives its scene, read from the top
  // ---------------------------------------------------------------------

  /** What the content lines of a body give their scene: the text added to
      the description, the dialogue entries in order, and the cue still
      waiting for its line at the end. */
  datatype Reading = Reading(narration: string, speeches: seq<DialogueLine>, pending: Option<string>)

  /**
    A body read line by line from its first line, `pending` being the cue
    that waits for its line. A cue becomes the one that waits, replacing any
    earlier one; the next content line that is not a cue is that cue's
    dialogue, and the cue then waits no more; any other content line goes
    into the description, after a space. Blank lines change nothing.
  */
  function Read(pending: Option<string>, body: seq<Line>): Reading
    decreases |body|
  {
    if body == [] then Reading("", [], pending)
    else
      var rest := body[1..];
      match body[0]
      case Content(line) =>
        if IsCue(line) then Read(Some(line), rest)
        else if pending.Some? then
          var r := Read(None, rest);
          r.(speeches := [DialogueLine(pending.value, line)] + r.speeches)
        else
          var r := Read(None, rest);
          r.(narration := " " + line + r.narration)
      case _ => Read(pending, rest)
  }

  /** Filling a body is filling its first line, then the rest. */
  lemma {:induction false} FillBodyCons(d: Draft, x: Line, rest: seq<Line>)
    ensures FillBody(d, [x] + rest) == FillBody(FillBody(d, [x]), rest)
    decreases |rest|
  {
    if rest == [] {
      assert [x] + rest == [x];
    } else {
      var init := rest[..|rest| - 1];
      assert ([x] + rest)[..|rest|] == [x] + init;
      FillBodyCons(d, x, init);
    }
  }

  /** Filling the open scene line by line, as the loop does, gives what
      reading the body from the top gives: the description grows by the
      narration, the dialogue by the entries, and the waiting cue is the
      reading's. */
  lemma {:induction false} FillBodyReads(d: Draft, body: seq<Line>)
    ensures var r := Read(d.speaker, body);
      FillBody(d, body)
        == d.(description := d.description + r.narration,
              dialogue := d.dialogue + r.speeches,
              speaker := r.pending)
    decreases |body|
  {
    if body == [] {
      assert d.description + "" == d.description;
      assert d.dialogue + [] == d.dialogue;
    } else {
      var x, rest := body[0], body[1..];
      assert body == [x] + rest;
      FillBodyCons(d, x, rest);
      FillBodyReads(FillBody(d, [x]), rest);
      ReadFirst(d, x, rest);
    }
  }

  /** The first line of a body adds to the open scene what reading it from
      the top adds before the rest. */
  lemma ReadFirst(d: Draft, x: Line, rest: seq<Line>)
    ensures var d1 := FillBody(d, [x]);
      var r1 := Read(d1.speaker, rest);
      var r := Read(d.speaker, [x] + rest);
      && d1.location == d.location && d1.timeOfDay == d.timeOfDay
      && d1.description + r1.narration == d.description + r.narration
      && d1.dialogue + r1.speeches == d.dialogue + r.speeches
      && r1.pending == r.pending
  {
    assert [x][..0] == [];
    assert ([x] + rest)[1..] == rest;
    var d1 := FillBody(d, [x]);
    var r1 := Read(d1.speaker, rest);
    match x
    case Content(line) =>
      if IsCue(line) {
      } else if d.speaker.Some? {
        var e := DialogueLine(d.speaker.value, line);
        assert d1.dialogue + r1.speeches == d.dialogue + ([e] + r1.speeches);
      } else {
        assert d1.description + r1.narration == d.description + (" " + line + r1.narration);
      }
    case _ =>
  }

  // ---------------------------------------------------------------------
  // Dialogue
  // ---------------------------------------------------------------------

  /** A line of text as the loop hands it on: stripped and not blank. */
  predicate Normal(l: Line) {
    l.Content? ==> l.text != [] && Strip(l.text) == l.text
  }

  /** A dialogue entry as the parser builds it: the speaker is a stripped
      character cue, the line is stripped, not blank, and not a cue. */
  predicate DialogueOk(e: DialogueLine) {
    && IsCue(e.character) && Strip(e.character) == e.character
    && e.line != [] && Strip(e.line) == e.line && !IsCue(e.line)
  }

  predicate DraftOk(d: Draft) {
    && (forall j | 0 <= j < |d.dialogue| :: DialogueOk(d.dialogue[j]))
    && (d.speaker.Some? ==> IsCue(d.speaker.value) && Strip(d.speaker.value) == d.speaker.value)
  }

  lemma {:induction false} FillBodyOk(d: Draft, body: seq<Line>)
    requires DraftOk(d)
    requires forall j | 0 <= j < |body| :: Normal(body[j])
    ensures DraftOk(FillBody(d, body))
    decreases |body|
  {
    if body != [] {
      var init := body[..|body| - 1];
      FillBodyOk(d, init);
      var before := FillBody(d, init);
      assert Normal(body[|body| - 1]);
      if body[|body| - 1].Content? {
        var r := Absorb(before, body[|body| - 1].text);
        assert forall j | 0 <= j < |before.dialogue| :: r.dialogue[j] == before.dialogue[j];
      }
    }
  }

  lemma {:induction false} SegmentBodiesNormal(ls: seq<Line>)
    requires forall j | 0 <= j < |ls| :: Normal(ls[j])
    ensures forall i, j | 0 <= i < |Segments(ls)| && 0 <= j < |Segments(ls)[i].body| ::
      Normal(Segments(ls)[i].body[j])
    decreases |ls|
  {
    if ls == [] {
    } else if !ls[0].HeadingLine? {
      SegmentBodiesNormal(ls[1..]);
    } else {
      var k := BodyLength(ls, 1);
      SegmentBodiesNormal(ls[1 + k..]);
      assert Segments(ls) == [Segment(ls[0].heading, ls[1..1 + k])] + Segments(ls[1 + k..]);
    }
  }

  /** Every dialogue entry of every scene pairs a character cue with a line
      that is not a cue. (`ScenesReadBodies` says which cue and which line.) */
  lemma DialogueWellFormed(lines: seq<string>)
    requires NoNewlines(lines)
    ensures forall i, j | 0 <= i < |ScenesOfLines(lines)| && 0 <= j < |ScenesOfLines(lines)[i].dialogue| ::
      DialogueOk(ScenesOfLines(lines)[i].dialogue[j])
  {
    var ls := ClassifyAll(lines);
    var segs := Segments(ls);
    ScenesFollowSegments(ls);
    NumberKeepsDrafts(DraftsOf(ls));
    SegmentBodiesNormal(ls);
    SegmentDraftsAt(segs);
    forall i | 0 <= i < |segs|
      ensures DraftOk(DraftsOf(ls)[i])
    {
      assert DraftsOf(ls)[i] == SegmentDraft(segs[i]);
      FillBodyOk(OpenDraft(segs[i].heading), segs[i].body);
    }
  }

  /** Each scene's description is the narration of its own body, stripped,
      and its dialogue is the entries of its own body, as reading the body
      from the top gives them, starting with no cue waiting. */
  lemma ScenesReadBodies(lines: seq<string>)
    requires NoNewlines(lines)
    ensures var segs := Segments(ClassifyAll(lines));
      && |ScenesOfLines(lines)| == |segs|
      && forall i | 0 <= i < |segs| ::
        && ScenesOfLines(lines)[i].description == Strip(Read(None, segs[i].body).narration)
        && ScenesOfLines(lines)[i].dialogue == Read(None, segs[i].body).speeches
  {
    var ls := ClassifyAll(lines);
    var segs := Segments(ls);
    ScenesFollowSegments(ls);
    SegmentDraftsAt(segs);
    forall i | 0 <= i < |segs|
      ensures ScenesOfLines(lines)[i].description == Strip(Read(None, segs[i].body).narration)
      ensures ScenesOfLines(lines)[i].dialogue == Read(None, segs[i].body).speeches
    {
      var d := OpenDraft(segs[i].heading);
      assert DraftsOf(ls)[i] == FillBody(d, segs[i].body);
      FillBodyReads(d, segs[i].body);
      var r := Read(None, segs[i].body);
      assert d.description + r.narration == r.narration;
      assert d.dialogue + r.speeches == r.speeches;
    }
  }
}
