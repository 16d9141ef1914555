/** The lighting-preset prompt table and the fixed control weights used by
    the single-call pipeline (backend/src/presets.ts). */
module Presets {

  datatype LightingPreset = NeutralOvercast | GoldenHour | DramaticContrast

  /** The seven fixed phrases every prompt starts with. */
  const BasePhrases: seq<string> := [
    "architectural photograph",
    "realistic PBR materials",
    "physically plausible lighting",
    "clean glass reflections",
    "accurate soft shadows",
    "global illumination look",
    "no fantasy, no surreal distortion"
  ]

  /** `parts.join(sep)`. */
  function JoinWith(parts: seq<string>, sep: string): string
  {
    if |parts| == 0 then ""
    else if |parts| == 1 then parts[0]
    else JoinWith(parts[..|parts| - 1], sep) + sep + parts[|parts| - 1]
  }

  /** The base phrases joined by ", ". */
  function Base(): string
  {
    JoinWith(BasePhrases, ", ")
  }

  function Suffix(p: LightingPreset): string
  {
    match p
    case NeutralOvercast => "neutral overcast sky, diffuse ambient light, desaturated shadows"
    case GoldenHour => "warm golden hour key light, long soft shadows, gentle sky bounce"
    case DramaticContrast => "strong directional key light, higher microcontrast, crisp reflections"
  }

  /** `buildPrompt`: the base, then ", ", then the preset's suffix. */
  function BuildPrompt(p: LightingPreset): (r: string)
    ensures |r| == |Base()| + 2 + |Suffix(p)|
    ensures r[..|Base()|] == Base()
    ensures r[|Base()|..|Base()| + 2] == ", "
    ensures r[|Base()| + 2..] == Suffix(p)
  {
    ConcatParts(Base(), ", ", Suffix(p));
    Base() + ", " + Suffix(p)
  }

  /** The three parts of a concatenation are recovered by slicing. */
  lemma ConcatParts(a: string, b: string, c: string)
    ensures |a + b + c| == |a| + |b| + |c|
    ensures (a + b + c)[..|a|] == a
    ensures (a + b + c)[|a|..|a| + |b|] == b
    ensures (a + b + c)[|a| + |b|..] == c
  {
  }

  /** One step of `join`: a prefix of at least two parts joins as the
      shorter prefix, the separator, then its last part. */
  lemma JoinStep(parts: seq<string>, sep: string, k: nat)
    requires 1 <= k < |parts|
    ensures JoinWith(parts[..k + 1], sep) == JoinWith(parts[..k], sep) + sep + parts[k]
  {
    assert parts[..k + 1][..k] == parts[..k];
  }

  /** Seven parts join as the parts with the separator between them. */
  lemma {:induction false} JoinSeven(ps: seq<string>, sep: string)
    requires |ps| == 7
    ensures JoinWith(ps, sep) == ps[0] + sep + ps[1] + sep + ps[2] + sep + ps[3] + sep + ps[4] + sep + ps[5] + sep + ps[6]
  {
    assert JoinWith(ps[..1], sep) == ps[0];
    JoinStep(ps, sep, 1);
    JoinStep(ps, sep, 2);
    JoinStep(ps, sep, 3);
    JoinStep(ps, sep, 4);
    JoinStep(ps, sep, 5);
    JoinStep(ps, sep, 6);
    assert ps[..7] == ps;
  }

  /** The base written out: the seven phrases separated by ", ". */
  lemma BaseText()
    ensures Base() == "architectural photograph" + ", " + "realistic PBR materials" + ", "
                      + "physically plausible lighting" + ", " + "clean glass reflections" + ", "
                      + "accurate soft shadows" + ", " + "global illumination look" + ", "
                      + "no fantasy, no surreal distortion"
  {
    JoinSeven(BasePhrases, ", ");
  }

  /** Every prompt starts with the same base, and the three presets give
      three different prompts. */
  lemma BuildPromptInjective(p: LightingPreset, q: LightingPreset)
    ensures BuildPrompt(p)[..|Base()|] == BuildPrompt(q)[..|Base()|]
    ensures BuildPrompt(p) == BuildPrompt(q) <==> p == q
  {
    var n := |Base()| + 2;
    if BuildPrompt(p) == BuildPrompt(q) {
      assert Suffix(p) == BuildPrompt(p)[n..] == BuildPrompt(q)[n..] == Suffix(q);
      SuffixInjective(p, q);
    }
  }

  /** The three suffixes differ: the contrast one is longer, and the
      other two end in different letters. */
  lemma SuffixInjective(p: LightingPreset, q: LightingPreset)
    ensures Suffix(p) == Suffix(q) <==> p == q
  {
    NeutralSuffixShape();
    GoldenSuffixShape();
    ContrastSuffixShape();
  }

  lemma NeutralSuffixShape()
    ensures |Suffix(NeutralOvercast)| == 64 && Suffix(NeutralOvercast)[63] == 's'
  {
  }

  lemma GoldenSuffixShape()
    ensures |Suffix(GoldenHour)| == 64 && Suffix(GoldenHour)[63] == 'e'
  {
  }

  lemma ContrastSuffixShape()
    ensures |Suffix(DramaticContrast)| == 69
  {
  }

  datatype Weights = Weights(strength: real, controlWeight: real)

  /** `controlWeights`: fixed denoising strength and ControlNet weight. */
  function ControlWeights(preserveComposition: bool): (w: Weights)
    ensures preserveComposition ==> w == Weights(0.3, 1.2)
    ensures !preserveComposition ==> w == Weights(0.45, 0.8)
  {
    if preserveComposition then Weights(0.3, 1.2) else Weights(0.45, 0.8)
  }

  /** Preserving the composition lowers the strength and raises the
      control weight. */
  lemma PreservingTightensControl()
    ensures ControlWeights(true).strength < ControlWeights(false).strength
    ensures ControlWeights(true).controlWeight > ControlWeights(false).controlWeight
  {
  }
}
