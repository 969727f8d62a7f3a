/**
  `ScriptParser._create_scene`: turning the data gathered for one scene into a
  `ScriptScene`, with its estimated duration and its text-to-video prompt.
*/
module SceneFactory {
  import opened Wrappers
  import opened Text
  import opened ScriptModel

  /**
    The `current_scene` dictionary of `_extract_scenes` as a value: the
    location and time from the heading, the description gathered so far (each
    action line appended after a space), the dialogue, and the speaker whose
    cue has been seen but whose line has not (`current_character`).
  */
  datatype Draft = Draft(
    location: string,
    timeOfDay: string,
    description: string,
    dialogue: seq<DialogueLine>,
    speaker: Option<string>)

  /** The five-second floor of `duration_seconds`, in tenths. */
  const MinDurationTenths: nat := 50

  /** Three seconds per dialogue line and 0.3 seconds per description word,
      but never less than five seconds; all in tenths of a second. */
  function DurationTenths(dialogueLines: nat, words: nat): (t: nat)
    ensures t >= MinDurationTenths && t >= 30 * dialogueLines + 3 * words
    ensures t == MinDurationTenths || t == 30 * dialogueLines + 3 * words
  {
    var estimate := 30 * dialogueLines + 3 * words;
    if estimate > MinDurationTenths then estimate else MinDurationTenths
  }

  /** `camera_angles`, one per scene number modulo eight. */
  const CameraAngles: seq<string> := [
    "Medium shot",
    "Wide angle establishing shot",
    "Close-up shot",
    "Low angle shot",
    "Over-the-shoulder shot",
    "Dutch angle shot",
    "High angle shot",
    "Tracking shot"
  ]

  const Daylight := "natural daylight, bright and clear, high contrast"
  const NightLighting := "low-key lighting, atmospheric shadows, deep blacks, cinematic night"
  const MorningLight := "soft morning light, golden hour glow, warm tones"
  const SunsetLight := "warm golden hour lighting, orange and pink sunset glow, rim lighting"
  const DefaultLighting := "cinematic lighting, dramatic contrast"

  /** The lighting phrase for a time of day: the first of DAY, NIGHT,
      MORNING, EVENING or DUSK that occurs in the upper-cased time. */
  function Lighting(timeOfDay: string): (l: string)
    ensures l in {Daylight, NightLighting, MorningLight, SunsetLight, DefaultLighting}
  {
    var t := Upper(timeOfDay);
    if Contains(t, "DAY") then Daylight
    else if Contains(t, "NIGHT") then NightLighting
    else if Contains(t, "MORNING") then MorningLight
    else if Contains(t, "EVENING") || Contains(t, "DUSK") then SunsetLight
    else DefaultLighting
  }

  /** The setting named in the prompt and the details that go with it. */
  datatype Setting = Setting(kind: string, details: string)

  /** `env_type` and `env_details`: interior exactly when the text `INT`
      occurs in the location, compared case-sensitively. */
  function Environment(location: string): (e: Setting)
    ensures e.kind == "Interior" <==> Contains(location, "INT")
    ensures e.kind == "Interior" || e.kind == "Exterior"
  {
    if Contains(location, "INT") then
      Setting("Interior", "realistic indoor environment, detailed set design, depth of field")
    else
      Setting("Exterior", "outdoor setting, natural environment, atmospheric depth")
  }

  /** The fixed closing sentence of every prompt. */
  const PromptSuffix :=
    "Cinematic composition, professional film quality, 4K resolution, realistic textures and materials, "
    + "subtle camera movement, film grain, shallow depth of field."

  /** The pieces of the prompt's template, in order. */
  function PromptParts(angle: string, setting: Setting, location: string, timeOfDay: string,
                       description: string, lighting: string): seq<string>
  {
    [angle, ": ", setting.kind, " of ", Lower(location), " during ", Lower(timeOfDay), ". ",
     description, " ", lighting, ". ", setting.details, ". ", PromptSuffix]
  }

  /** The concatenation of `parts`. */
  function Concat(parts: seq<string>): string {
    if parts == [] then [] else Concat(parts[..|parts| - 1]) + parts[|parts| - 1]
  }

  /** The prompt's template, filled with its parts. */
  function PromptText(angle: string, setting: Setting, location: string, timeOfDay: string,
                      description: string, lighting: string): string
  {
    Concat(PromptParts(angle, setting, location, timeOfDay, description, lighting))
  }

  /** `video_prompt`, for the scene numbered `n` with the given location, time
      and (stripped) description. */
  function VideoPrompt(n: nat, location: string, timeOfDay: string, description: string): string {
    PromptText(CameraAngles[n % |CameraAngles|], Environment(location), location, timeOfDay,
               description, Lighting(timeOfDay))
  }

  /** `_create_scene(scene_number, scene_data)`. */
  function CreateScene(n: nat, d: Draft): (s: Scene)
    ensures s.sceneNumber == n && s.location == d.location && s.timeOfDay == d.timeOfDay
    ensures s.description == Strip(d.description) && s.dialogue == d.dialogue
    ensures s.durationTenths == DurationTenths(|d.dialogue|, WordCount(s.description))
    ensures s.durationTenths >= MinDurationTenths
    ensures s.videoPrompt == VideoPrompt(n, d.location, d.timeOfDay, s.description)
  {
    WordCountStrip(d.description);
    var description := Strip(d.description);
    Scene(n, d.location, d.timeOfDay, description, d.dialogue,
          DurationTenths(|d.dialogue|, WordCount(d.description)),
          VideoPrompt(n, d.location, d.timeOfDay, description))
  }

  /** `s` begins with `prefix`. */
  predicate StartsWith(s: string, prefix: string) {
    |prefix| <= |s| && s[..|prefix|] == prefix
  }

  lemma ContainsMiddle(a: string, sub: string, b: string)
    ensures Contains(a + sub + b, sub)
  {
    assert OccursAt(a + sub + b, sub, |a|) by {
      assert (a + sub + b)[|a|..|a| + |sub|] == sub;
    }
  }

  lemma {:induction false} ConcatAppend(a: seq<string>, b: seq<string>)
    ensures Concat(a + b) == Concat(a) + Concat(b)
    decreases |b|
  {
    if b == [] {
      assert a + b == a;
    } else {
      var init := b[..|b| - 1];
      assert (a + b)[..|a + b| - 1] == a + init;
      ConcatAppend(a, init);
      assert Concat(a + b) == Concat(a) + Concat(init) + b[|b| - 1];
    }
  }

  /** The concatenation around one of its pieces. */
  lemma ConcatAround(parts: seq<string>, i: nat)
    requires i < |parts|
    ensures Concat(parts) == Concat(parts[..i]) + parts[i] + Concat(parts[i + 1..])
  {
    var pre, post := parts[..i], parts[i + 1..];
    assert Concat(pre + [parts[i]]) == Concat(pre) + parts[i] by {
      ConcatAppend(pre, [parts[i]]);
      assert [parts[i]][..0] == [];
    }
    SplitAround(parts, i);
    ConcatAppend(pre + [parts[i]], post);
  }

  lemma SplitAround<T>(s: seq<T>, i: nat)
    requires i < |s|
    ensures s == s[..i] + [s[i]] + s[i + 1..]
  {
  }

  /** Each piece occurs in the concatenation. */
  lemma ConcatContainsPart(parts: seq<string>, i: nat)
    requires i < |parts|
    ensures Contains(Concat(parts), parts[i])
  {
    ConcatAround(parts, i);
    ContainsMiddle(Concat(parts[..i]), parts[i], Concat(parts[i + 1..]));
  }

  /** The concatenation starts with its first two pieces and ends with its last. */
  lemma ConcatEnds(parts: seq<string>)
    requires |parts| >= 2
    ensures StartsWith(Concat(parts), parts[0] + parts[1])
    ensures EndsWith(Concat(parts), parts[|parts| - 1])
  {
    ConcatAppend(parts[..2], parts[2..]);
    assert parts[..2] + parts[2..] == parts;
    assert parts[..2][..1] == [parts[0]];
    assert [parts[0]][..0] == [];
  }

  /** The template keeps each of its parts, in order. */
  lemma PromptTextShape(angle: string, setting: Setting, location: string, timeOfDay: string,
                        description: string, lighting: string)
    ensures var p := PromptText(angle, setting, location, timeOfDay, description, lighting);
      && StartsWith(p, angle + ": ")
      && EndsWith(p, PromptSuffix)
      && Contains(p, Lower(location))
      && Contains(p, Lower(timeOfDay))
      && Contains(p, description)
      && Contains(p, lighting)
      && Contains(p, setting.kind)
  {
    var parts := PromptParts(angle, setting, location, timeOfDay, description, lighting);
    ConcatEnds(parts);
    ConcatContainsPart(parts, 2);
    ConcatContainsPart(parts, 4);
    ConcatContainsPart(parts, 6);
    ConcatContainsPart(parts, 8);
    ConcatContainsPart(parts, 10);
  }

  /** Every prompt opens with the scene's camera angle and a colon, names
      the setting, the location and time in lower case, the description and
      the lighting, and closes with the fixed suffix. */
  lemma VideoPromptShape(n: nat, location: string, timeOfDay: string, description: string)
    ensures var p := VideoPrompt(n, location, timeOfDay, description);
      && StartsWith(p, CameraAngles[n % 8] + ": ")
      && EndsWith(p, PromptSuffix)
      && Contains(p, Lower(location))
      && Contains(p, Lower(timeOfDay))
      && Contains(p, description)
      && Contains(p, Lighting(timeOfDay))
      && Contains(p, Environment(location).kind)
  {
    PromptTextShape(CameraAngles[n % 8], Environment(location), location, timeOfDay,
                    description, Lighting(timeOfDay));
  }

  /** No two camera angles start with the same letter. */
  lemma AngleInitialsDistinct(i: nat, j: nat)
    requires i < 8 && j < 8 && i != j
    ensures CameraAngles[i][0] != CameraAngles[j][0]
  {
  }

  /** A prompt's first character is its camera angle's. */
  lemma PromptInitial(angle: string, setting: Setting, location: string, timeOfDay: string,
                      description: string, lighting: string)
    requires angle != []
    ensures var p := PromptText(angle, setting, location, timeOfDay, description, lighting);
      p != [] && p[0] == angle[0]
  {
    PromptTextShape(angle, setting, location, timeOfDay, description, lighting);
    var p := PromptText(angle, setting, location, timeOfDay, description, lighting);
    assert p[..|angle + ": "|][0] == (angle + ": ")[0];
  }

  /** The first character of a scene's prompt is its camera angle's. */
  lemma VideoPromptInitial(n: nat, location: string, timeOfDay: string, description: string)
    ensures |VideoPrompt(n, location, timeOfDay, description)| > 0
    ensures VideoPrompt(n, location, timeOfDay, description)[0] == CameraAngles[n % 8][0]
  {
    PromptInitial(CameraAngles[n % 8], Environment(location), location, timeOfDay,
                  description, Lighting(timeOfDay));
  }

  /** The camera angle cycles with period eight: two prompts for the same
      scene data are equal exactly when the scene numbers agree modulo eight. */
  lemma VideoPromptCycles(n: nat, m: nat, location: string, timeOfDay: string, description: string)
    ensures VideoPrompt(n, location, timeOfDay, description) == VideoPrompt(m, location, timeOfDay, description)
      <==> n % 8 == m % 8
  {
    if n % 8 != m % 8 {
      AngleInitialsDistinct(n % 8, m % 8);
      VideoPromptInitial(n, location, timeOfDay, description);
      VideoPromptInitial(m, location, timeOfDay, description);
    }
  }

  /** The lighting depends on the time of day only up to case. */
  lemma LightingIgnoresCase(timeOfDay: string)
    ensures Lighting(Lower(timeOfDay)) == Lighting(timeOfDay)
    ensures Lighting(Upper(timeOfDay)) == Lighting(timeOfDay)
  {
    UpperIgnoresCase(timeOfDay);
  }

  /** The first keyword that occurs decides the lighting. */
  lemma LightingPrecedence(timeOfDay: string)
    ensures var t := Upper(timeOfDay);
      && (Lighting(timeOfDay) == Daylight <==> Contains(t, "DAY"))
      && (Lighting(timeOfDay) == NightLighting <==> !Contains(t, "DAY") && Contains(t, "NIGHT"))
      && (Lighting(timeOfDay) == MorningLight
          <==> !Contains(t, "DAY") && !Contains(t, "NIGHT") && Contains(t, "MORNING"))
      && (Lighting(timeOfDay) == SunsetLight
          <==> !Contains(t, "DAY") && !Contains(t, "NIGHT") && !Contains(t, "MORNING")
               && (Contains(t, "EVENING") || Contains(t, "DUSK")))
  {
  }
}
