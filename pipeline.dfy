/** The single-call enhancement pipeline: depth map, then depth-conditioned
    synthesis, assembled into one result (backend/src/pipeline.ts). */
module Pipeline {
  import opened Results
  import opened JsValues
  import opened ReplicateProvider
  import opened Presets

  /** `PipelineOptions`; `strength: None` is a null or undefined strength.
      `upscale` is carried but, as in the source, never read. */
  datatype PipelineOptions = PipelineOptions(
    image: JsValue,
    preset: LightingPreset,
    strength: Option<real>,
    preserveComposition: bool,
    upscale: Option<string>)

  datatype Meta = Meta(prompt: string, strength: Option<real>, preserveComposition: bool)

  datatype PipelineResult = PipelineResult(images: seq<string>, depthUrl: string, meta: Meta)

  /** The pipeline's result and the client calls it made, in order. */
  datatype Outcome = Outcome(result: Result<PipelineResult>, calls: seq<RunCall>)

  /** `options.strength ?? weights.strength`. */
  function EffectiveStrength(options: PipelineOptions): (s: real)
    ensures options.strength.Some? ==> s == options.strength.value
    ensures options.strength.None? ==> s == ControlWeights(options.preserveComposition).strength
  {
    if options.strength.Some? then options.strength.value
    else ControlWeights(options.preserveComposition).strength
  }

  /** The synthesis stage's input for a depth map URL. */
  function SynthesisInput(options: PipelineOptions, prompt: string, depthUrl: string): (input: map<string, JsValue>)
    ensures Maps(input, "image", options.image)
    ensures Maps(input, "control_image", Str(depthUrl)) && Maps(input, "prompt", Str(prompt))
    ensures Maps(input, "strength", Num(EffectiveStrength(options)))
    ensures Maps(input, "controlnet_conditioning_scale", Num(ControlWeights(options.preserveComposition).controlWeight))
  {
    map["image" := options.image,
        "control_image" := Str(depthUrl),
        "prompt" := Str(prompt),
        "strength" := Num(EffectiveStrength(options)),
        "controlnet_conditioning_scale" := Num(ControlWeights(options.preserveComposition).controlWeight)]
  }

  /** Everything after the depth stage, given what the depth stage
      answered: its failure aborts the run, otherwise the synthesis stage
      is wired to the depth URL. */
  function AfterDepth(run: Runner, cfg: ProviderConfig, options: PipelineOptions, numText: NumberFormat,
                      depth: Result<string>): (o: Outcome)
    ensures 1 <= |o.calls| <= 2
    ensures o.calls[0] == DepthCall(cfg, options.image, Large)
    ensures |o.calls| == 2 <==> depth.Ok?
    ensures depth.Err? ==> o.result == Err(depth.message)
    ensures depth.Ok? ==> o.calls[1] == ControlNetCall(cfg, SynthesisInput(options, BuildPrompt(options.preset), depth.value))
  {
    var depthCall := DepthCall(cfg, options.image, Large);
    match depth
    case Err(m) => Outcome(Err(m), [depthCall])
    case Ok(depthUrl) =>
      var prompt := BuildPrompt(options.preset);
      var input := SynthesisInput(options, prompt, depthUrl);
      var calls := [depthCall, ControlNetCall(cfg, input)];
      match RunSDXLControlNetDepth(run, cfg, input, numText)
      case Err(m) => Outcome(Err(m), calls)
      case Ok(images) =>
        Outcome(Ok(PipelineResult(images, depthUrl,
                                  Meta(prompt, options.strength, options.preserveComposition))),
                calls)
  }

  /** `enhance`: the depth stage on the original image with the "Large"
      model, then the synthesis stage wired to the depth URL; either
      failure aborts the whole run. */
  function Enhance(run: Runner, cfg: ProviderConfig, options: PipelineOptions, numText: NumberFormat)
    : (o: Outcome)
    ensures 1 <= |o.calls| <= 2
    ensures o.calls[0] == DepthCall(cfg, options.image, Large)
    ensures |o.calls| == 2 <==> RunDepthAnythingV2(run, cfg, options.image, Large, numText).Ok?
    ensures |o.calls| == 2 ==> o.calls[1] == ControlNetCall(cfg,
              SynthesisInput(options, BuildPrompt(options.preset), RunDepthAnythingV2(run, cfg, options.image, Large, numText).value))
  {
    AfterDepth(run, cfg, options, numText, RunDepthAnythingV2(run, cfg, options.image, Large, numText))
  }

  /** The pipeline with the corrected depth normaliser (see
      ReplicateProvider.NormalizeDepthCorrected). */
  function EnhanceCorrected(run: Runner, cfg: ProviderConfig, options: PipelineOptions, numText: NumberFormat)
    : (o: Outcome)
    ensures 1 <= |o.calls| <= 2
    ensures o.calls[0] == DepthCall(cfg, options.image, Large)
    ensures |o.calls| == 2 <==> RunDepthAnythingV2Corrected(run, cfg, options.image, Large, numText).Ok?
    ensures |o.calls| == 2 ==> o.calls[1] == ControlNetCall(cfg,
              SynthesisInput(options, BuildPrompt(options.preset), RunDepthAnythingV2Corrected(run, cfg, options.image, Large, numText).value))
    ensures var out := run(DepthCall(cfg, options.image, Large).model, DepthCall(cfg, options.image, Large).input);
            !(out.Ok? && out.value.Obj? && out.value.toStr.Inherited?) ==> o == Enhance(run, cfg, options, numText)
  {
    AfterDepth(run, cfg, options, numText, RunDepthAnythingV2Corrected(run, cfg, options.image, Large, numText))
  }

  /** When the depth model answers the plain object `{ image: u }`, the
      pipeline sends "[object Object]" to the synthesis stage as its
      control image; with the corrected depth normaliser it sends `u`. */
  lemma PlainDepthPayloadWiring(run: Runner, cfg: ProviderConfig, options: PipelineOptions, numText: NumberFormat,
                                u: string)
    requires u != ""
    requires run(DepthCall(cfg, options.image, Large).model, DepthCall(cfg, options.image, Large).input)
             == Ok(PlainObject(map["image" := Str(u)]))
    ensures Enhance(run, cfg, options, numText).calls[1]
            == ControlNetCall(cfg, SynthesisInput(options, BuildPrompt(options.preset), ObjectTag))
    ensures EnhanceCorrected(run, cfg, options, numText).calls[1]
            == ControlNetCall(cfg, SynthesisInput(options, BuildPrompt(options.preset), u))
  {
    var fields := map["image" := Str(u)];
    DepthPlainObjectYieldsObjectTag(fields, numText);
    DepthCorrectedReadsPlainObjectFields(fields, numText);
  }

  /** The synthesis call receives the original image, the depth URL as its
      control image, the preset's prompt, the effective strength and the
      preset control weight. */
  lemma SynthesisWiring(cfg: ProviderConfig, options: PipelineOptions, prompt: string, depthUrl: string)
    ensures var call := ControlNetCall(cfg, SynthesisInput(options, prompt, depthUrl));
            && call.model == cfg.controlNetModel
            && Maps(call.input, "control_image", Str(depthUrl))
            && Maps(call.input, "prompt", Str(prompt))
            && Maps(call.input, "controlnet_conditioning_scale", Num(ControlWeights(options.preserveComposition).controlWeight))
            && Maps(call.input, "strength", Num(EffectiveStrength(options)))
            && (options.image != Undef ==> Maps(call.input, "image", options.image))
  {
    var input := SynthesisInput(options, prompt, depthUrl);
  }

  /** The remaining synthesis parameters keep the ControlNet defaults. */
  lemma SynthesisDefaults(cfg: ProviderConfig, options: PipelineOptions, prompt: string, depthUrl: string)
    ensures var call := ControlNetCall(cfg, SynthesisInput(options, prompt, depthUrl));
            && Maps(call.input, "num_inference_steps", Num(30.0))
            && Maps(call.input, "guidance_scale", Num(7.0))
  {
    var input := SynthesisInput(options, prompt, depthUrl);
    assert "num_inference_steps" !in input && "guidance_scale" !in input;
  }

  /** A successful run reports exactly the synthesis output and the depth
      URL, and its meta records the prompt, the caller's raw strength (not
      the effective one) and the preservation flag. */
  lemma ResultAssembly(run: Runner, cfg: ProviderConfig, options: PipelineOptions, numText: NumberFormat)
    requires Enhance(run, cfg, options, numText).result.Ok?
    ensures var r := Enhance(run, cfg, options, numText).result.value;
            var depth := RunDepthAnythingV2(run, cfg, options.image, Large, numText);
            && depth.Ok? && r.depthUrl == depth.value
            && RunSDXLControlNetDepth(run, cfg, SynthesisInput(options, BuildPrompt(options.preset), depth.value), numText) == Ok(r.images)
            && r.meta == Meta(BuildPrompt(options.preset), options.strength, options.preserveComposition)
  {
  }

  /** A failing stage fails the whole run with its message and nothing
      after it runs. */
  lemma FailureAborts(run: Runner, cfg: ProviderConfig, options: PipelineOptions, numText: NumberFormat)
    ensures RunDepthAnythingV2(run, cfg, options.image, Large, numText).Err?
            ==> Enhance(run, cfg, options, numText)
                == Outcome(Err(RunDepthAnythingV2(run, cfg, options.image, Large, numText).message),
                           [DepthCall(cfg, options.image, Large)])
    ensures Enhance(run, cfg, options, numText).result.Err? && |Enhance(run, cfg, options, numText).calls| == 2
            ==> RunSDXLControlNetDepth(run, cfg,
                  SynthesisInput(options, BuildPrompt(options.preset), RunDepthAnythingV2(run, cfg, options.image, Large, numText).value), numText)
                == Err(Enhance(run, cfg, options, numText).result.message)
  {
  }

  /** The upscale option is never read: no upscale call is made and the
      outcome does not depend on it. */
  lemma UpscaleIgnored(run: Runner, cfg: ProviderConfig, options: PipelineOptions, other: Option<string>,
                       numText: NumberFormat)
    ensures Enhance(run, cfg, options, numText)
            == Enhance(run, cfg, options.(upscale := other), numText)
    ensures forall i :: 0 <= i < |Enhance(run, cfg, options, numText).calls|
              ==> Enhance(run, cfg, options, numText).calls[i].model in {cfg.depthModel, cfg.controlNetModel}
  {
  }
}
