/** The request schema of the enhance route: accepted domains, defaults and
    the preset prompt table (backend/src/schemas/enhance.ts). */
module EnhanceSchema {
  import opened Results

  datatype Preset = NeutralOvercast | GoldenHour | Dramatic
  datatype Upscale = UpscaleNone | Upscale2x | Upscale4x
  datatype Mode = Sync | Async

  /** `lightingPresets`. */
  const LightingPresets: seq<string> := ["neutral_overcast", "golden_hour", "dramatic"]

  function PresetName(p: Preset): string
  {
    match p
    case NeutralOvercast => "neutral_overcast"
    case GoldenHour => "golden_hour"
    case Dramatic => "dramatic"
  }

  function UpscaleName(u: Upscale): string
  {
    match u
    case UpscaleNone => "none"
    case Upscale2x => "2x"
    case Upscale4x => "4x"
  }

  function ModeName(m: Mode): string
  {
    match m
    case Sync => "sync"
    case Async => "async"
  }

  /** `z.enum(lightingPresets)`. */
  function PresetFromName(s: string): (r: Option<Preset>)
    ensures r.Some? <==> s in LightingPresets
    ensures r.Some? ==> PresetName(r.value) == s
  {
    if s == "neutral_overcast" then Some(NeutralOvercast)
    else if s == "golden_hour" then Some(GoldenHour)
    else if s == "dramatic" then Some(Dramatic)
    else None
  }

  /** `z.enum(["none", "2x", "4x"])`. */
  function UpscaleFromName(s: string): (r: Option<Upscale>)
    ensures r.Some? <==> s in {"none", "2x", "4x"}
    ensures r.Some? ==> UpscaleName(r.value) == s
  {
    if s == "none" then Some(UpscaleNone)
    else if s == "2x" then Some(Upscale2x)
    else if s == "4x" then Some(Upscale4x)
    else None
  }

  /** `z.enum(["sync", "async"])`. */
  function ModeFromName(s: string): (r: Option<Mode>)
    ensures r.Some? <==> s in {"sync", "async"}
    ensures r.Some? ==> ModeName(r.value) == s
  {
    if s == "sync" then Some(Sync)
    else if s == "async" then Some(Async)
    else None
  }

  /** Every enum value is accepted under its own name; the single-call
      pipeline's "dramatic_contrast" is not a preset here. */
  lemma {:induction false} NamesRoundTrip(p: Preset, u: Upscale, m: Mode)
    ensures PresetFromName(PresetName(p)) == Some(p)
    ensures UpscaleFromName(UpscaleName(u)) == Some(u)
    ensures ModeFromName(ModeName(m)) == Some(m)
    ensures PresetFromName("dramatic_contrast") == None
  {
    assert "dramatic_contrast" !in LightingPresets by {
      assert "dramatic_contrast" != "dramatic";
    }
  }

  /** A JavaScript number as `Number(text)` produces it: finite, or NaN or
      an infinity (which the schema rejects alike). */
  datatype JsNumber = NotFinite | Finite(value: real)

  /** The object handed to the schema; `None` is `undefined`. */
  datatype RawBody = RawBody(
    preset: Option<string>,
    strength: Option<JsNumber>,
    preserveComposition: Option<bool>,
    upscale: Option<string>,
    mode: Option<string>)

  /** The validated body. */
  datatype EnhanceBody = EnhanceBody(
    preset: Preset,
    strength: real,
    preserveComposition: bool,
    upscale: Upscale,
    mode: Mode)

  const MinStrength: real := 0.1
  const MaxStrength: real := 1.0
  const DefaultStrength: real := 0.55

  /** The mode default is fixed when the module loads. */
  function AllowAsync(env: map<string, string>): (b: bool)
    ensures b <==> "ENHANCE_ALLOW_ASYNC" in env && env["ENHANCE_ALLOW_ASYNC"] == "true"
  {
    "ENHANCE_ALLOW_ASYNC" in env && env["ENHANCE_ALLOW_ASYNC"] == "true"
  }

  function DefaultMode(allowAsync: bool): Mode
  {
    if allowAsync then Async else Sync
  }

  /** `z.number().min(0.1).max(1).default(0.55)`. */
  function ParseStrength(raw: Option<JsNumber>): (r: Option<real>)
    ensures raw.None? ==> r == Some(DefaultStrength)
    ensures raw == Some(NotFinite) ==> r.None?
    ensures raw.Some? && raw.value.Finite?
            ==> (r.Some? <==> MinStrength <= raw.value.value <= MaxStrength)
    ensures r.Some? ==> MinStrength <= r.value <= MaxStrength
    ensures r.Some? && raw.Some? ==> raw.value == Finite(r.value)
  {
    match raw
    case None => Some(DefaultStrength)
    case Some(NotFinite) => None
    case Some(Finite(v)) => if MinStrength <= v <= MaxStrength then Some(v) else None
  }

  /** `enhanceBodySchema.safeParse`: every field falls back to its default
      when absent; a present field outside its domain fails the whole
      parse. */
  function ParseBody(raw: RawBody, allowAsync: bool): (r: Option<EnhanceBody>)
    ensures r.Some? <==>
              && (raw.preset.None? || raw.preset.value in LightingPresets)
              && ParseStrength(raw.strength).Some?
              && (raw.upscale.None? || raw.upscale.value in {"none", "2x", "4x"})
              && (raw.mode.None? || raw.mode.value in {"sync", "async"})
    ensures r.Some? ==> MinStrength <= r.value.strength <= MaxStrength
    ensures r.Some? && raw.preset.None? ==> r.value.preset == NeutralOvercast
    ensures r.Some? && raw.preset.Some? ==> PresetName(r.value.preset) == raw.preset.value
    ensures r.Some? && raw.strength.None? ==> r.value.strength == DefaultStrength
    ensures r.Some? && raw.strength.Some? ==> raw.strength.value == Finite(r.value.strength)
    ensures r.Some? ==> r.value.preserveComposition == (raw.preserveComposition.None? || raw.preserveComposition.value)
    ensures r.Some? && raw.upscale.None? ==> r.value.upscale == UpscaleNone
    ensures r.Some? && raw.upscale.Some? ==> UpscaleName(r.value.upscale) == raw.upscale.value
    ensures r.Some? && raw.mode.None? ==> (r.value.mode == Async <==> allowAsync)
    ensures r.Some? && raw.mode.Some? ==> ModeName(r.value.mode) == raw.mode.value
  {
    var preset := if raw.preset.None? then Some(NeutralOvercast) else PresetFromName(raw.preset.value);
    var strength := ParseStrength(raw.strength);
    var preserve := if raw.preserveComposition.None? then true else raw.preserveComposition.value;
    var upscale := if raw.upscale.None? then Some(UpscaleNone) else UpscaleFromName(raw.upscale.value);
    var mode := if raw.mode.None? then Some(DefaultMode(allowAsync)) else ModeFromName(raw.mode.value);
    if preset.Some? && strength.Some? && upscale.Some? && mode.Some? then
      Some(EnhanceBody(preset.value, strength.value, preserve, upscale.value, mode.value))
    else None
  }

  predicate InfixAt(s: string, t: string, i: nat)
  {
    i + |t| <= |s| && s[i..i + |t|] == t
  }

  predicate Contains(s: string, t: string)
  {
    exists i: nat | i <= |s| :: InfixAt(s, t, i)
  }

  predicate EndsWith(s: string, t: string)
  {
    |t| <= |s| && s[|s| - |t|..] == t
  }

  const PhotorealTag: string := "photoreal architecture"
  const DetailTag: string := "high detail"

  /** The text of a prompt around the two tags every prompt carries. */
  function Lead(p: Preset): string
  {
    match p
    case NeutralOvercast => "neutral overcast lighting, "
    case GoldenHour => "warm golden hour lighting, "
    case Dramatic => "dramatic directional lighting, strong contrast, "
  }

  function Middle(p: Preset): string
  {
    match p
    case NeutralOvercast => ", "
    case GoldenHour => ", long shadows, "
    case Dramatic => ", "
  }

  /** `presetPrompt`: one fixed description per preset, e.g.
      "neutral overcast lighting, photoreal architecture, high detail". */
  function PresetPrompt(p: Preset): (r: string)
    ensures Contains(r, PhotorealTag)
    ensures EndsWith(r, DetailTag)
    ensures |r| == |Lead(p)| + |PhotorealTag| + |Middle(p)| + |DetailTag|
  {
    Framed(Lead(p), PhotorealTag, Middle(p), DetailTag);
    Lead(p) + PhotorealTag + Middle(p) + DetailTag
  }

  /** In `a + t + b + d`, `t` occurs right after `a` and the text ends with `d`. */
  lemma Framed(a: string, t: string, b: string, d: string)
    ensures InfixAt(a + t + b + d, t, |a|)
    ensures Contains(a + t + b + d, t)
    ensures EndsWith(a + t + b + d, d)
  {
    var r := a + t + b + d;
    assert r == a + t + (b + d);
    assert r[|a|..|a| + |t|] == t;
    assert InfixAt(r, t, |a|);
  }

  /** The three presets give three different prompts. */
  lemma PresetPromptInjective(p: Preset, q: Preset)
    ensures PresetPrompt(p) == PresetPrompt(q) <==> p == q
  {
    assert |PresetPrompt(NeutralOvercast)| == 62;
    assert |PresetPrompt(GoldenHour)| == 76;
    assert |PresetPrompt(Dramatic)| == 83;
  }
}
