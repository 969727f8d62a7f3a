/**
  The records the parser produces (`ScriptScene` and `Script` in
  `models/script.py`). Durations are kept in tenths of a second, which holds
  every duration the parser can compute exactly.
*/
module ScriptModel {
  import opened Wrappers

  /** One entry of `ScriptScene.dialogue`: `{"character": ..., "line": ...}`. */
  datatype DialogueLine = DialogueLine(character: string, line: string)

  /** `ScriptScene`. The parser always fills `duration_seconds` and
      `video_prompt`, so neither is optional here. */
  datatype Scene = Scene(
    sceneNumber: nat,
    location: string,
    timeOfDay: string,
    description: string,
    dialogue: seq<DialogueLine>,
    durationTenths: nat,
    videoPrompt: string)

  /** `Script`, with the fields `ScriptParser.parse` sets. */
  datatype Script = Script(
    title: string,
    author: Option<string>,
    content: string,
    scenes: seq<Scene>,
    totalDurationTenths: Option<nat>)
}
