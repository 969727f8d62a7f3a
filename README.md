# Script parser of the script-to-film platform, in Dafny

The platform turns a screenplay into a list of scenes, each with a text-to-video
prompt. This project models its parser, `ScriptParser` in
`src/script_to_film/services/script_parser.py`, and proves what it promises.

- **Heading pattern.** `ScriptParser.__init__` compiles
  `\*{0,2}(?:INT\.|EXT\.)\s+(.+)\s+-\s+([A-Z]+)\*{0,2}` (case-insensitive).
  `parse` applies it with `re.match`.
  - `HeadingPattern.Decomposes` states which ways of cutting a line into the
    pattern's pieces exist.
  - `HeadingPattern.FindSplit` is an explicit matcher.
  - The lemmas show that the matcher finds a match exactly when one exists.
    The match it finds is the one the backtracking engine reports: the
    location runs up to the last ` - ` separator, and the time token is the
    whole run of letters after it.
- **Scene extraction.** `_extract_scenes` is a loop over the lines of the
  script.
  - `ScriptParser.ExtractScenes` is that loop. `ScriptParser.OpenScene` is the
    `current_scene` dictionary it updates in place.
  - The loop is proved equal to `Segmenter.Scenes`, a fold of one step per
    line (`Segmenter.Step`).
  - That fold is in turn proved equal to a reference, `Segmenter.Segments`,
    which cuts the script into headings and their bodies without running the
    loop. Each segment's scene is still filled by the same per-line update
    (`Segmenter.FillBody`, over `Segmenter.Absorb`).
  - Numbering, count, locations and dialogue structure are proved on the
    segments. What a body puts into the description and the dialogue is also
    proved against `Segmenter.Read`, which reads the body from its first line.
  - That blank lines and lines before the first heading change nothing is
    proved on the fold itself.
- **Building a scene.** `_create_scene` is `SceneFactory.CreateScene`.
  - It estimates the scene's duration.
  - It fills the prompt template: a camera angle chosen by scene number modulo
    eight, an interior/exterior label, the location and time of day in lower
    case, the description, a lighting phrase chosen by the time of day, and a
    fixed closing sentence.
- **Totals.** `parse` is `ScriptParser.Parse`. It sums the durations and reports
  no total for a script without scenes.

Durations are kept as natural numbers of tenths of a second (3 s per dialogue
line is 30, 0.3 s per word is 3, and the 5 s floor is 50). Every duration the
model computes is a whole number of tenths; the program computes binary
floating-point numbers instead (see "Left out").

The interior/exterior label follows the code as written: a scene is "Interior"
exactly when the text `INT` occurs in its location. The location group begins
after the `INT.` or `EXT.` marker, so an ordinary interior heading is labelled
"Exterior". `SampleHeadings.InteriorHeadingReadsExterior` works this through
for `INT. ROOM - NIGHT`, the heading used in the unit tests. The model keeps
this behaviour because it is what the code does.

## Model

| member | source | states |
|---|---|---|
| Text.Strip | src/script_to_film/services/script_parser.py:64 | `str.strip()`: the result starts and ends with non-whitespace, and it is empty exactly when the line is all whitespace |
| Text.StripIdempotent | src/script_to_film/services/script_parser.py:78-79 | stripping a stripped string changes nothing, so the stored lines, location and time are already stripped |
| Text.SplitLines | src/script_to_film/services/script_parser.py:59 | `content.split("\n")` gives at least one piece, and no piece contains a newline |
| Text.JoinSplitLines | src/script_to_film/services/script_parser.py:59 | joining the pieces with newlines gives back the content, so the split loses nothing |
| Text.SplitJoinLines | src/script_to_film/services/script_parser.py:59 | splitting newline-free lines joined with newlines gives back the same lines |
| Text.WordCountStrip | src/script_to_film/services/script_parser.py:108 | `len(s.split())` is the same before and after `strip()`, so counting words on the unstripped description agrees with the stored one |
| Text.WordCountSpaced | src/script_to_film/services/script_parser.py:96 | appending `f" {line}"` to the description adds exactly the line's words |
| Text.UpperIgnoresCase | src/script_to_film/services/script_parser.py:131-137 | upper-casing the time of day gives the same text whether it was lower-cased or upper-cased first |
| HeadingPattern.StarRun | src/script_to_film/services/script_parser.py:18 | the run of asterisks at a position is maximal: all asterisks, followed by something else |
| HeadingPattern.LetterRun | src/script_to_film/services/script_parser.py:18 | the run of `[A-Z]` letters (under IGNORECASE) at a position is maximal |
| HeadingPattern.LastSeparator | src/script_to_film/services/script_parser.py:16-18 | returns the greatest position in range where `\s+-\s+[A-Z]` matches, and none exactly when none matches |
| HeadingPattern.LastSeparatorAt | src/script_to_film/services/script_parser.py:18 | the scan returns a position where a separator matches when no later separator matches before the end |
| HeadingPattern.MarkerEnd | src/script_to_film/services/script_parser.py:18 | a marker is found only after at most two leading asterisks, and it ends four characters later |
| HeadingPattern.FindSplitSound | src/script_to_film/services/script_parser.py:17-19 | every split the matcher returns is a way of matching the pattern |
| HeadingPattern.DecompositionSeparator | src/script_to_film/services/script_parser.py:18 | in every match, a separator starts where the location group ends, and the hyphen and time token sit where the scan looks for them |
| HeadingPattern.DecompositionMarker | src/script_to_film/services/script_parser.py:18 | in every match, the marker is where the matcher finds it, and the location starts no later than the end of the whitespace after the marker |
| HeadingPattern.FindSplitDominates | src/script_to_film/services/script_parser.py:17-19 | whenever the pattern can match, the matcher finds a match, and that match's groups start and end no earlier than any other match's |
| HeadingPattern.FindSplitIsFirstMatch | src/script_to_film/services/script_parser.py:17-19 | the matcher fails exactly when no match exists; otherwise it returns a match preferred over all others in the engine's backtracking order |
| HeadingPattern.MatchHeading | src/script_to_film/services/script_parser.py:69 | a matched heading always has a non-empty time token |
| HeadingPattern.MatchHeadingIsRegexMatch | src/script_to_film/services/script_parser.py:69 | `scene_pattern.match(line)` succeeds exactly when the pattern can match the line; its groups are the location up to the last separator and the whole time token |
| SceneFactory.DurationTenths | src/script_to_film/services/script_parser.py:107-109 | the duration is at least the estimate (3 s per dialogue line, 0.3 s per word) and at least 5 s, and equals one of the two: it is their maximum |
| SceneFactory.Lighting | src/script_to_film/services/script_parser.py:130-140 | the lighting phrase is one of the five phrases in the code |
| SceneFactory.LightingPrecedence | src/script_to_film/services/script_parser.py:130-140 | each phrase is chosen exactly when its keyword occurs in the upper-cased time and no earlier keyword does (DAY, then NIGHT, then MORNING, then EVENING or DUSK) |
| SceneFactory.LightingIgnoresCase | src/script_to_film/services/script_parser.py:131-137 | the lighting does not depend on the case of the time of day |
| SceneFactory.Environment | src/script_to_film/services/script_parser.py:143-148 | the label is "Interior" exactly when `INT` occurs in the location (case-sensitive), and "Exterior" otherwise |
| SceneFactory.CreateScene | src/script_to_film/services/script_parser.py:104-168 | the scene keeps the number, location, time and dialogue; the description is stripped; the duration is the estimate for its dialogue and words, floored at 5 s; the prompt is the scene's video prompt |
| SceneFactory.PromptTextShape | src/script_to_film/services/script_parser.py:152-158 | the filled template starts with the angle and `: `, ends with the fixed sentence, and contains the label, the lower-cased location and time, the description and the lighting |
| SceneFactory.VideoPromptShape | src/script_to_film/services/script_parser.py:152-158 | every prompt starts with `camera_angles[n % 8] + ": "`, ends with the fixed closing sentence, and contains the label, the lower-cased location and time, the description and the lighting phrase |
| SceneFactory.AngleInitialsDistinct | src/script_to_film/services/script_parser.py:117-126 | no two of the eight camera angles share a first letter |
| SceneFactory.PromptInitial | src/script_to_film/services/script_parser.py:153 | the prompt is never empty, and its first character is the camera angle's |
| SceneFactory.VideoPromptInitial | src/script_to_film/services/script_parser.py:127 | a scene's prompt is never empty, and it begins with the first letter of `camera_angles[n % 8]` |
| SceneFactory.VideoPromptCycles | src/script_to_film/services/script_parser.py:117-127 | for the same scene data, two prompts are equal exactly when the scene numbers agree modulo eight |
| Segmenter.Classify | src/script_to_film/services/script_parser.py:64-70 | a line is blank exactly when it strips to nothing, a heading exactly when it is not blank and its stripped form matches the pattern, and otherwise text holding the stripped line |
| Segmenter.ClassifyCases | src/script_to_film/services/script_parser.py:64-70 | the classification as the loop's own tests decide it: blank, then `scene_pattern.match`, then content |
| Segmenter.ClassifyAll | src/script_to_film/services/script_parser.py:63 | every line is classified, in order |
| Segmenter.Absorb | src/script_to_film/services/script_parser.py:83-96 | a cue (upper case, at most three words) becomes the pending speaker itself, and the description is unchanged. Otherwise, with a speaker pending, dialogue grows by exactly the entry (speaker, line), the speaker is cleared and the description is unchanged. Otherwise the description becomes the old one, a space and the line, gaining exactly the line's words. Location and time never change |
| Segmenter.Close | src/script_to_film/services/script_parser.py:98-100 | the open scene, if any, is saved after the scenes saved so far |
| Segmenter.Step | src/script_to_film/services/script_parser.py:63-96 | a heading saves the open scene; a blank or text line saves nothing and leaves a scene open exactly when one was open |
| Segmenter.Number | src/script_to_film/services/script_parser.py:72-74 | the i-th saved scene is built by `_create_scene` with the number i |
| Segmenter.NumberSnoc | src/script_to_film/services/script_parser.py:73-74 | saving one more scene appends the scene built with the next number |
| Segmenter.RunPreamble | src/script_to_film/services/script_parser.py:83 | lines before the first heading change nothing |
| Segmenter.RunBody | src/script_to_film/services/script_parser.py:83-96 | the lines after a heading go into its open scene and save nothing |
| Segmenter.RunSegment | src/script_to_film/services/script_parser.py:69-82 | a heading and its body save the open scene and leave the heading's scene open, filled with that body |
| Segmenter.RunFollowsSegments | src/script_to_film/services/script_parser.py:63-100 | from any state without an open scene, or at a heading, the loop saves one scene per segment, in order |
| Segmenter.ScenesFollowSegments | src/script_to_film/services/script_parser.py:56-102 | the scenes `_extract_scenes` saves are exactly the scenes of the segments, each built from its own heading and body alone |
| Segmenter.SegmentsFollowHeadings | src/script_to_film/services/script_parser.py:69-82 | there is one segment per heading line, in order, each starting with its heading |
| Segmenter.NumberKeepsDrafts | src/script_to_film/services/script_parser.py:160-166 | each numbered scene keeps the heading data and dialogue gathered for it, and lasts at least 5 s |
| Segmenter.ScenesMatchHeadings | src/script_to_film/services/script_parser.py:61-82 | the number of scenes equals the number of heading lines; the i-th scene has `scene_number == i`, takes its location and time from the i-th heading (stripped), and lasts at least 5 s |
| Segmenter.NoHeadingNoScenes | src/script_to_film/services/script_parser.py:56-102 | a script has no scenes exactly when it has no heading line |
| Segmenter.EmptyScriptHasNoScenes | src/script_to_film/services/script_parser.py:59-66 | the empty script has no scenes |
| Segmenter.BlankLineIgnored | src/script_to_film/services/script_parser.py:64-66 | inserting a blank line anywhere leaves the scenes unchanged |
| Segmenter.LeadingLinesIgnored | src/script_to_film/services/script_parser.py:83 | lines before the first heading do not affect the scenes |
| Segmenter.FillBodyOk | src/script_to_film/services/script_parser.py:85-93 | filling a scene keeps every dialogue entry well formed, and a pending speaker is always a stripped cue |
| Segmenter.FillBodyReads | src/script_to_film/services/script_parser.py:83-96 | filling the open scene line by line gives what reading its body from the top gives: the description grows by `" " + line` for each line that is neither a cue nor the line of a waiting cue; the dialogue grows by (cue, line) for each line that answers the cue waiting before it, once; the pending speaker is the cue still waiting |
| Segmenter.ScenesReadBodies | src/script_to_film/services/script_parser.py:83-114 | each scene's description is the stripped narration of its own body, and its dialogue is exactly the entries of its own body, read with no cue waiting at the heading |
| Segmenter.DialogueWellFormed | src/script_to_film/services/script_parser.py:85-93 | every dialogue entry of every scene pairs a stripped cue with a stripped, non-blank line that is not itself a cue |
| ScriptParser.OpenScene.constructor | src/script_to_film/services/script_parser.py:77-82 | a new scene holds the stripped location and time, with no description, no dialogue and no pending speaker |
| ScriptParser.OpenScene.Add | src/script_to_film/services/script_parser.py:84-96 | updating the dictionary in place leaves exactly the state `Absorb` describes |
| ScriptParser.ExtractScenes | src/script_to_film/services/script_parser.py:56-102 | the loop returns exactly `Segmenter.Scenes(content)`, and numbers the scenes 0, 1, 2, … |
| ScriptParser.TotalAtLeastFloor | src/script_to_film/services/script_parser.py:34 | when every scene lasts at least 5 s, the total is at least 5 s per scene |
| ScriptParser.Parse | src/script_to_film/services/script_parser.py:21-54 | keeps title, author and content; the scenes are those of `_extract_scenes`; there is no total exactly when there are no scenes; otherwise the total is the sum of the durations, at least 5 s per scene |
| SampleHeadings.RoomAtNightHeading | tests/unit/test_script_parser.py:87 | `INT. ROOM - NIGHT` matches with location `ROOM` and time `NIGHT` |
| SampleHeadings.InteriorHeadingReadsExterior | src/script_to_film/services/script_parser.py:143-148 | the interior heading `INT. ROOM - NIGHT` gives a scene labelled "Exterior" and lit for the night |

## Left out

- The debug output of `parse` (`src/script_to_film/services/script_parser.py:36-46`) is left out because it is output only.
- Durations are exact tenths of a second. The code computes them with binary floating point (`0.3 * words`), whose rounding is not modelled (for example, `0.3 * 3` gives `0.8999999999999999`).
- Text.IsUpper: `str.isupper` looks at every Unicode cased character, but the model looks at ASCII letters only.
- Text.Lower: `str.lower` maps every Unicode upper-case letter, but the model maps ASCII letters only. This affects the prompt only for non-ASCII locations and times.
- Text.Upper: maps ASCII letters, dotless i and long s, and leaves every other character as it is. This is exact for the time tokens the pattern accepts, which are the only text the parser upper-cases.
- `Script.id`, `status`, `created_at` and `updated_at` (`src/script_to_film/models/script.py:26-34`) are defaults of the record, not set by the parser. The timestamps are clock reads. `ScriptScene.duration_seconds` and `video_prompt` are optional in the record, but the parser always fills them, so they are not optional here.
- The dialogue list is shared between the `current_scene` dictionary and the returned scene. The model uses values, so that aliasing is not captured.
- The AI service, video generator, HTTP routes, settings, logger, application entry point and frontend are left out: they are foreign calls, I/O or user interface.
- The video-generation orchestrator that the routes call is not part of this model, because its source is not available.
