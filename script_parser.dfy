/**
  `ScriptParser`: `_extract_scenes` as the loop it is, with the open scene
  (`current_scene`) an object whose fields the loop updates, and `parse`,
  which totals the durations.
*/
module ScriptParser {
  import opened Wrappers
  import opened Text
  import opened HeadingPattern
  import opened ScriptModel
  import opened SceneFactory
  import opened Segmenter

  /** The `current_scene` dictionary, updated in place as lines arrive. */
  class OpenScene {
    var location: string
    var timeOfDay: string
    var description: string
    var dialogue: seq<DialogueLine>
    var speaker: Option<string>

    /** The dictionary's contents as a value. */
    function Value(): Draft
      reads this
    {
      Draft(location, timeOfDay, description, dialogue, speaker)
    }

    /** The dictionary a heading match opens, with both groups stripped. */
    constructor (h: Heading)
      ensures Value() == OpenDraft(h)
    {
      location := Strip(h.place);
      timeOfDay := Strip(h.time);
      description := "";
      dialogue := [];
      speaker := None;
    }

    /** A stripped, non-blank line that is not a heading: a cue, a line of
        dialogue, or a line of description. */
    method Add(line: string)
      modifies this
      ensures Value() == Absorb(old(Value()), line)
    {
      if IsUpper(line) && WordCount(line) <= 3 {
        speaker := Some(line);
      } else if speaker.Some? {
        dialogue := dialogue + [DialogueLine(speaker.value, line)];
        speaker := None;
      } else {
        description := description + " " + line;
      }
    }
  }

  /** The loop's variables, as the state of `RunFrom`. */
  function StateOf(saved: seq<Draft>, current: OpenScene?): State
    reads current
  {
    State(saved, if current == null then None else Some(current.Value()))
  }

  /** Line `i` as the loop's tests see it, and one more turn of the loop. */
  lemma LineCases(lines: seq<string>, i: nat)
    requires NoNewlines(lines) && i < |lines|
    ensures var ls := ClassifyAll(lines);
      var line := Strip(lines[i]);
      && RunFrom(Start, ls[..i + 1]) == Step(RunFrom(Start, ls[..i]), ls[i])
      && (line == [] ==> ls[i] == Blank)
      && (line != [] ==> '\n' !in line)
      && (line != [] && MatchHeading(line).Some? ==> ls[i] == HeadingLine(MatchHeading(line).value))
      && (line != [] && MatchHeading(line).None? ==> ls[i] == Content(line))
  {
    var ls := ClassifyAll(lines);
    assert ls[..i + 1][..i] == ls[..i];
    ClassifyCases(lines[i]);
  }

  /** `ScriptParser._extract_scenes(content)`. */
  method ExtractScenes(content: string) returns (scenes: seq<Scene>)
    ensures scenes == Scenes(content)
    ensures forall i | 0 <= i < |scenes| :: scenes[i].sceneNumber == i
  {
    var lines := SplitLines(content);
    ghost var ls := ClassifyAll(lines);
    ghost var saved: seq<Draft> := [];
    scenes := [];
    var current: OpenScene? := null;
    var sceneNumber := 0;
    for i := 0 to |lines|
      invariant sceneNumber == |scenes| == |saved|
      invariant scenes == Number(saved)
      invariant current != null ==> fresh(current)
      invariant StateOf(saved, current) == RunFrom(Start, ls[..i])
    {
      ghost var before := StateOf(saved, current);
      LineCases(lines, i);
      var line := Strip(lines[i]);
      if line != [] {
        var sceneMatch := MatchHeading(line);
        if sceneMatch.Some? {
          if current != null {
            NumberSnoc(saved, current.Value());
            scenes := scenes + [CreateScene(sceneNumber, current.Value())];
            saved := saved + [current.Value()];
            sceneNumber := sceneNumber + 1;
          }
          assert saved == Close(before);
          current := new OpenScene(sceneMatch.value);
        } else {
          if current != null {
            current.Add(line);
          }
        }
      }
    }
    assert ls[..|lines|] == ls;
    if current != null {
      NumberSnoc(saved, current.Value());
      scenes := scenes + [CreateScene(sceneNumber, current.Value())];
    }
    NumberKeepsDrafts(DraftsOf(ls));
  }

  /** `sum(scene.duration_seconds or 0 for scene in scenes)`, in tenths. */
  function TotalDurationTenths(scenes: seq<Scene>): nat {
    if scenes == [] then 0 else TotalDurationTenths(scenes[..|scenes| - 1]) + scenes[|scenes| - 1].durationTenths
  }

  /** Every scene lasts at least five seconds, so the total is at least five
      seconds per scene. */
  lemma {:induction false} TotalAtLeastFloor(scenes: seq<Scene>)
    requires forall i | 0 <= i < |scenes| :: scenes[i].durationTenths >= MinDurationTenths
    ensures TotalDurationTenths(scenes) >= MinDurationTenths * |scenes|
  {
    if scenes != [] {
      TotalAtLeastFloor(scenes[..|scenes| - 1]);
    }
  }

  /** `ScriptParser.parse(script_content, title, author)`. */
  method Parse(content: string, title: string, author: Option<string>) returns (script: Script)
    ensures script.title == title && script.author == author && script.content == content
    ensures script.scenes == Scenes(content)
    ensures script.totalDurationTenths.None? <==> script.scenes == []
    ensures script.totalDurationTenths.Some? ==>
      script.totalDurationTenths.value == TotalDurationTenths(script.scenes)
        >= MinDurationTenths * |script.scenes|
  {
    var scenes := ExtractScenes(content);
    var total := TotalDurationTenths(scenes);
    ScenesMatchHeadings(SplitLines(content));
    TotalAtLeastFloor(scenes);
    script := Script(title, author, content, scenes, if total > 0 then Some(total) else None);
  }
}
