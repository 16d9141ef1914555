/** The stage services of the enhance route: strength tuning, the three
    prediction stages with their polling loops, and the hosted-URL check
    (backend/src/services/enhance.ts). */
module EnhanceService {
  import opened Results
  import opened JsValues
  import opened ReplicateApi
  import EnhanceSchema

  /** The model versions read from the environment when the module loads;
      an empty `upscaleVersion` means no upscaler is configured. */
  datatype ServiceConfig = ServiceConfig(depthVersion: string, sdxlVersion: string, upscaleVersion: string)

  /** `process.env.REPLICATE_MODEL_UPSCALE || ""`. */
  function UpscaleVersion(env: map<string, string>): (v: string)
    ensures "REPLICATE_MODEL_UPSCALE" in env ==> v == env["REPLICATE_MODEL_UPSCALE"]
    ensures "REPLICATE_MODEL_UPSCALE" !in env ==> v == ""
  {
    if "REPLICATE_MODEL_UPSCALE" in env then env["REPLICATE_MODEL_UPSCALE"] else ""
  }

  // ---------------------------------------------------------------------
  // Strength tuning

  datatype Tune = Tune(strength: real, conditioningScale: real)

  function Max(a: real, b: real): real
  {
    if a >= b then a else b
  }

  /** `adjustStrength`: preserving the composition halves the strength with
      a floor of 0.25 and holds the depth map tightly (1.0); otherwise the
      strength is kept and the conditioning loosened to 0.7. */
  function AdjustStrength(strength: real, preserve: bool): (t: Tune)
    ensures preserve ==> t.conditioningScale == 1.0
    ensures preserve ==> t.strength >= 0.25 && t.strength >= strength * 0.5
    ensures preserve ==> t.strength == 0.25 || t.strength == strength * 0.5
    ensures !preserve ==> t.strength == strength && t.conditioningScale == 0.7
  {
    if preserve then Tune(Max(0.25, strength * 0.5), 1.0) else Tune(strength, 0.7)
  }

  /** Over the schema's strength domain, preserving yields a strength in
      [0.25, 0.5] and a tighter conditioning than not preserving; the
      worked scenario strength 0.6 gives 0.3/1.0 and 0.6/0.7. */
  lemma TuningOverSchemaDomain(strength: real)
    requires EnhanceSchema.MinStrength <= strength <= EnhanceSchema.MaxStrength
    ensures 0.25 <= AdjustStrength(strength, true).strength <= 0.5
    ensures AdjustStrength(strength, true).strength <= AdjustStrength(strength, false).strength
            || strength < 0.25
    ensures AdjustStrength(strength, true).conditioningScale > AdjustStrength(strength, false).conditioningScale
    ensures AdjustStrength(0.6, true) == Tune(0.3, 1.0)
    ensures AdjustStrength(0.6, false) == Tune(0.6, 0.7)
  {
  }

  // ---------------------------------------------------------------------
  // Polling

  /** How a stage's polling ends.  The source loops for ever on
      non-terminal statuses; here it stops when the supplied replies run
      out (`TraceExhausted`). */
  datatype PollResult = Done(output: JsValue) | Threw(message: string) | TraceExhausted

  /** `cur.error || fallback`. */
  function FailureMessage(error: Option<string>, fallback: string): (m: string)
    ensures error.Some? && error.value != "" ==> m == error.value
    ensures error.None? || error.value == "" ==> m == fallback
  {
    if error.Some? && error.value != "" then error.value else fallback
  }

  /** A reply to a status fetch after which the loop leaves: a transport
      error or a terminal status. */
  predicate Stops(reply: Result<Prediction>)
  {
    reply.Err? || Terminal(reply.value.status)
  }

  /** What a stopping reply makes of the loop. */
  function Verdict(reply: Result<Prediction>, fallback: string): (r: PollResult)
    requires Stops(reply)
    ensures r != TraceExhausted
    ensures reply.Ok? && reply.value.status == Succeeded ==> r == Done(reply.value.output)
    ensures reply.Ok? && reply.value.status in {Failed, Canceled}
            ==> r == Threw(FailureMessage(reply.value.error, fallback))
    ensures reply.Err? ==> r == Threw(reply.message)
  {
    match reply
    case Err(m) => Threw(m)
    case Ok(p) => if p.status == Succeeded then Done(p.output) else Threw(FailureMessage(p.error, fallback))
  }

  /** The loop's outcome on a sequence of replies to successive fetches:
      the verdict of some stopping reply, or exhaustion. */
  function PollSpec(trace: seq<Result<Prediction>>, fallback: string): (r: PollResult)
    ensures r != TraceExhausted ==> exists k :: 0 <= k < |trace| && Stops(trace[k]) && r == Verdict(trace[k], fallback)
  {
    if |trace| == 0 then TraceExhausted
    else if Stops(trace[0]) then Verdict(trace[0], fallback)
    else
      var r := PollSpec(trace[1..], fallback);
      assert r != TraceExhausted ==> exists k :: 1 <= k < |trace| && Stops(trace[k]) && r == Verdict(trace[k], fallback) by {
        if r != TraceExhausted {
          var k :| 0 <= k < |trace[1..]| && Stops(trace[1..][k]) && r == Verdict(trace[1..][k], fallback);
          assert trace[1..][k] == trace[k + 1];
        }
      }
      r
  }

  /** How many fetches the loop makes on those replies. */
  function PollCount(trace: seq<Result<Prediction>>): (n: nat)
    ensures n <= |trace|
  {
    if |trace| == 0 then 0
    else if Stops(trace[0]) then 1
    else 1 + PollCount(trace[1..])
  }

  function Fetches(id: string, n: nat): (calls: seq<Call>)
    ensures |calls| == n && forall i :: 0 <= i < n ==> calls[i] == GetPrediction(id)
  {
    seq(n, _ => GetPrediction(id))
  }

  /** The polling loop shared by the three stages: fetch the prediction,
      return its output on success, throw on failure or cancellation,
      otherwise fetch again.  `fetched` is the list of fetches made. */
  method Poll(id: string, trace: seq<Result<Prediction>>, fallback: string)
    returns (r: PollResult, fetched: seq<Call>)
    ensures r == PollSpec(trace, fallback)
    ensures fetched == Fetches(id, PollCount(trace))
  {
    var i := 0;
    fetched := [];
    while i < |trace|
      invariant 0 <= i <= |trace|
      invariant fetched == Fetches(id, i)
      invariant PollSpec(trace[i..], fallback) == PollSpec(trace, fallback)
      invariant PollCount(trace) == i + PollCount(trace[i..])
    {
      assert trace[i..][1..] == trace[i + 1..];
      var cur := trace[i];
      fetched := fetched + [GetPrediction(id)];
      match cur
      case Err(m) =>
        r := Threw(m);
        return;
      case Ok(p) =>
        if p.status == Succeeded {
          r := Done(p.output);
          return;
        }
        if p.status == Failed || p.status == Canceled {
          r := Threw(FailureMessage(p.error, fallback));
          return;
        }
      i := i + 1;
    }
    r := TraceExhausted;
  }

  /** Polling ends at the first stopping reply, with that reply's verdict,
      after exactly that many fetches. */
  lemma {:induction false} PollStopsAtFirstStop(trace: seq<Result<Prediction>>, fallback: string, k: nat)
    requires k < |trace| && Stops(trace[k])
    requires forall j :: 0 <= j < k ==> !Stops(trace[j])
    ensures PollSpec(trace, fallback) == Verdict(trace[k], fallback)
    ensures PollCount(trace) == k + 1
  {
    if k > 0 {
      assert !Stops(trace[0]);
      PollStopsAtFirstStop(trace[1..], fallback, k - 1);
    }
  }

  /** The loop only runs out of replies when none of them stops it, and
      then it has fetched once per reply. */
  lemma {:induction false} PollExhaustedIff(trace: seq<Result<Prediction>>, fallback: string)
    ensures PollSpec(trace, fallback) == TraceExhausted <==> forall j :: 0 <= j < |trace| ==> !Stops(trace[j])
    ensures PollSpec(trace, fallback) == TraceExhausted ==> PollCount(trace) == |trace|
  {
    if |trace| > 0 && !Stops(trace[0]) {
      PollExhaustedIff(trace[1..], fallback);
      assert forall j :: 1 <= j < |trace| ==> trace[j] == trace[1..][j - 1];
    }
  }

  /** Replies with a non-terminal status change nothing but the number of
      fetches: they only lead to another fetch. */
  lemma {:induction false} PollSkipsNonTerminal(prefix: seq<Result<Prediction>>, rest: seq<Result<Prediction>>,
                                                fallback: string)
    requires forall j :: 0 <= j < |prefix| ==> !Stops(prefix[j])
    ensures PollSpec(prefix + rest, fallback) == PollSpec(rest, fallback)
    ensures PollCount(prefix + rest) == |prefix| + PollCount(rest)
  {
    if |prefix| > 0 {
      assert (prefix + rest)[1..] == prefix[1..] + rest;
      PollSkipsNonTerminal(prefix[1..], rest, fallback);
    } else {
      assert prefix + rest == rest;
    }
  }

  // ---------------------------------------------------------------------
  // Stages

  /** The provider's replies for one stage: the reply to the creation
      request, then the replies to the successive status fetches. */
  datatype StageScript = StageScript(created: Result<Prediction>, polls: seq<Result<Prediction>>)

  /** A stage's outcome and the client calls it made, in order. */
  datatype StageRun = StageRun(result: PollResult, calls: seq<Call>)

  const DepthFailed: string := "Depth prediction failed"
  const SdxlFailed: string := "SDXL ControlNet-depth failed"
  const UpscaleFailed: string := "Upscale failed"

  /** Create a prediction, then poll it under the id the provider gave. */
  function SubmitSpec(version: string, input: map<string, JsValue>, script: StageScript, fallback: string)
    : (run: StageRun)
    ensures |run.calls| >= 1 && run.calls[0] == CreatePrediction(version, input)
    ensures script.created.Err? ==> run == StageRun(Threw(script.created.message), [CreatePrediction(version, input)])
    ensures script.created.Ok? ==> run.result == PollSpec(script.polls, fallback)
    ensures script.created.Ok? ==> run.calls[1..] == Fetches(script.created.value.id, PollCount(script.polls))
  {
    match script.created
    case Err(m) => StageRun(Threw(m), [CreatePrediction(version, input)])
    case Ok(pred) =>
      StageRun(PollSpec(script.polls, fallback),
               [CreatePrediction(version, input)] + Fetches(pred.id, PollCount(script.polls)))
  }

  method Submit(version: string, input: map<string, JsValue>, script: StageScript, fallback: string)
    returns (r: PollResult, calls: seq<Call>)
    ensures StageRun(r, calls) == SubmitSpec(version, input, script, fallback)
  {
    calls := [CreatePrediction(version, input)];
    match script.created
    case Err(m) =>
      r := Threw(m);
    case Ok(pred) =>
      var fetched;
      r, fetched := Poll(pred.id, script.polls, fallback);
      calls := calls + fetched;
  }

  /** `Array.isArray(out) ? out[0] : out`. */
  function FirstIfArray(v: JsValue): (r: JsValue)
    ensures !v.Arr? ==> r == v
    ensures v.Arr? && |v.items| > 0 ==> r == v.items[0]
    ensures v.Arr? && |v.items| == 0 ==> r == Undef
  {
    if v.Arr? then First(v.items) else v
  }

  /** A successful stage's output passed through `FirstIfArray`. */
  function FirstOfDone(r: PollResult): PollResult
  {
    if r.Done? then Done(FirstIfArray(r.output)) else r
  }

  function DepthInput(imageUrl: string): map<string, JsValue>
  {
    map["image" := Str(imageUrl)]
  }

  /** `runDepthMap`: the raw output of the depth prediction. */
  function DepthMapSpec(cfg: ServiceConfig, imageUrl: string, script: StageScript): (run: StageRun)
    ensures |run.calls| >= 1 && run.calls[0] == CreatePrediction(cfg.depthVersion, map["image" := Str(imageUrl)])
    ensures script.created.Ok? ==> run.result == PollSpec(script.polls, DepthFailed)
    ensures script.created.Err? ==> run.result == Threw(script.created.message)
  {
    SubmitSpec(cfg.depthVersion, DepthInput(imageUrl), script, DepthFailed)
  }

  method RunDepthMap(cfg: ServiceConfig, imageUrl: string, script: StageScript)
    returns (r: PollResult, calls: seq<Call>)
    ensures StageRun(r, calls) == DepthMapSpec(cfg, imageUrl, script)
  {
    var input := map["image" := Str(imageUrl)];
    r, calls := Submit(cfg.depthVersion, input, script, DepthFailed);
  }

  /** The arguments of `runSDXLDepth`; `None` is an omitted dimension. */
  datatype SdxlArgs = SdxlArgs(
    imageUrl: string,
    depthUrl: JsValue,
    prompt: string,
    strength: real,
    conditioningScale: real,
    width: Option<real>,
    height: Option<real>)

  /** A dimension is sent only when truthy: present and non-zero. */
  predicate Given(d: Option<real>)
  {
    d.Some? && d.value != 0.0
  }

  /** The SDXL input: image, control image, prompt, strength and
      conditioning always; width and height only when truthy. */
  function SdxlInput(args: SdxlArgs): (input: map<string, JsValue>)
    ensures input.Keys == {"image", "control_image", "prompt", "strength", "controlnet_conditioning_scale"}
                          + (if Given(args.width) then {"width"} else {})
                          + (if Given(args.height) then {"height"} else {})
    ensures input["image"] == Str(args.imageUrl) && input["control_image"] == args.depthUrl
    ensures input["prompt"] == Str(args.prompt) && input["strength"] == Num(args.strength)
    ensures input["controlnet_conditioning_scale"] == Num(args.conditioningScale)
    ensures Given(args.width) ==> input["width"] == Num(args.width.value)
    ensures Given(args.height) ==> input["height"] == Num(args.height.value)
  {
    var base := map["image" := Str(args.imageUrl), "control_image" := args.depthUrl,
                    "prompt" := Str(args.prompt), "strength" := Num(args.strength),
                    "controlnet_conditioning_scale" := Num(args.conditioningScale)];
    var withWidth := if Given(args.width) then base["width" := Num(args.width.value)] else base;
    if Given(args.height) then withWidth["height" := Num(args.height.value)] else withWidth
  }

  /** The input as `runSDXLDepth` builds it: a literal, then the
      dimensions added in place. */
  method BuildSdxlInput(args: SdxlArgs) returns (input: map<string, JsValue>)
    ensures input == SdxlInput(args)
  {
    input := map["image" := Str(args.imageUrl), "control_image" := args.depthUrl,
                 "prompt" := Str(args.prompt), "strength" := Num(args.strength),
                 "controlnet_conditioning_scale" := Num(args.conditioningScale)];
    if args.width.Some? && args.width.value != 0.0 {
      input := input["width" := Num(args.width.value)];
    }
    if args.height.Some? && args.height.value != 0.0 {
      input := input["height" := Num(args.height.value)];
    }
  }

  /** `runSDXLDepth`: element 0 of an array output, else the output. */
  function SdxlSpec(cfg: ServiceConfig, args: SdxlArgs, script: StageScript): (run: StageRun)
    ensures |run.calls| >= 1 && run.calls[0] == CreatePrediction(cfg.sdxlVersion, SdxlInput(args))
    ensures run.calls == SubmitSpec(cfg.sdxlVersion, SdxlInput(args), script, SdxlFailed).calls
    ensures script.created.Err? ==> run.result == Threw(script.created.message)
    ensures script.created.Ok? && PollSpec(script.polls, SdxlFailed).Done?
            ==> run.result == Done(FirstIfArray(PollSpec(script.polls, SdxlFailed).output))
    ensures script.created.Ok? && !PollSpec(script.polls, SdxlFailed).Done?
            ==> run.result == PollSpec(script.polls, SdxlFailed)
  {
    var s := SubmitSpec(cfg.sdxlVersion, SdxlInput(args), script, SdxlFailed);
    StageRun(FirstOfDone(s.result), s.calls)
  }

  method RunSdxlDepth(cfg: ServiceConfig, args: SdxlArgs, script: StageScript)
    returns (r: PollResult, calls: seq<Call>)
    ensures StageRun(r, calls) == SdxlSpec(cfg, args, script)
  {
    var input := BuildSdxlInput(args);
    r, calls := Submit(cfg.sdxlVersion, input, script, SdxlFailed);
    if r.Done? {
      r := Done(FirstIfArray(r.output));
    }
  }

  /** `factor === "4x" ? 4 : 2`. */
  function Scale(factor: EnhanceSchema.Upscale): (n: int)
    ensures n == 4 <==> factor == EnhanceSchema.Upscale4x
    ensures n == 2 <==> factor != EnhanceSchema.Upscale4x
  {
    if factor == EnhanceSchema.Upscale4x then 4 else 2
  }

  function UpscaleInput(imageUrl: JsValue, factor: EnhanceSchema.Upscale): map<string, JsValue>
  {
    map["image" := imageUrl, "scale" := Num(Scale(factor) as real)]
  }

  /** `runUpscale`: the input URL unchanged, with no prediction, when no
      upscaler is configured; otherwise an upscale prediction. */
  function UpscaleSpec(cfg: ServiceConfig, imageUrl: JsValue, factor: EnhanceSchema.Upscale, script: StageScript)
    : (run: StageRun)
    ensures cfg.upscaleVersion == "" ==> run == StageRun(Done(imageUrl), [])
    ensures cfg.upscaleVersion != "" ==>
              run.calls == SubmitSpec(cfg.upscaleVersion, UpscaleInput(imageUrl, factor), script, UpscaleFailed).calls
    ensures cfg.upscaleVersion != "" && script.created.Err? ==> run.result == Threw(script.created.message)
    ensures cfg.upscaleVersion != "" && script.created.Ok? && PollSpec(script.polls, UpscaleFailed).Done?
            ==> run.result == Done(FirstIfArray(PollSpec(script.polls, UpscaleFailed).output))
    ensures cfg.upscaleVersion != "" && script.created.Ok? && !PollSpec(script.polls, UpscaleFailed).Done?
            ==> run.result == PollSpec(script.polls, UpscaleFailed)
  {
    if cfg.upscaleVersion == "" then StageRun(Done(imageUrl), [])
    else
      var s := SubmitSpec(cfg.upscaleVersion, UpscaleInput(imageUrl, factor), script, UpscaleFailed);
      StageRun(FirstOfDone(s.result), s.calls)
  }

  method RunUpscale(cfg: ServiceConfig, imageUrl: JsValue, factor: EnhanceSchema.Upscale, script: StageScript)
    returns (r: PollResult, calls: seq<Call>)
    ensures StageRun(r, calls) == UpscaleSpec(cfg, imageUrl, factor, script)
  {
    if cfg.upscaleVersion == "" {
      return Done(imageUrl), [];
    }
    var input := map["image" := imageUrl, "scale" := Num(if factor == EnhanceSchema.Upscale4x then 4.0 else 2.0)];
    r, calls := Submit(cfg.upscaleVersion, input, script, UpscaleFailed);
    if r.Done? {
      r := Done(FirstIfArray(r.output));
    }
  }

  /** A stage that succeeds on its first fetch returns what the stage
      promises, here the raw output for depth; a canceled first fetch
      throws the provider's error or the stage's own message. */
  lemma StageOutputs(cfg: ServiceConfig, url: string, id: string, out: JsValue,
                     error: Option<string>, more: seq<Result<Prediction>>)
    ensures var ok := StageScript(Ok(Prediction(id, Starting, Undef, None)),
                                  [Ok(Prediction(id, Succeeded, out, None))] + more);
            && DepthMapSpec(cfg, url, ok).result == Done(out)
            && DepthMapSpec(cfg, url, ok).calls == [CreatePrediction(cfg.depthVersion, DepthInput(url)), GetPrediction(id)]
    ensures var bad := StageScript(Ok(Prediction(id, Starting, Undef, None)),
                                   [Ok(Prediction(id, Canceled, out, error))] + more);
            DepthMapSpec(cfg, url, bad).result == Threw(FailureMessage(error, DepthFailed))
  {
    PollStopsAtFirstStop([Ok(Prediction(id, Succeeded, out, None))] + more, DepthFailed, 0);
    PollStopsAtFirstStop([Ok(Prediction(id, Canceled, out, error))] + more, DepthFailed, 0);
  }

  /** The same for SDXL: element 0 of an array output on a first-fetch
      success, the provider's error or the stage's message on a canceled
      first fetch. */
  lemma SdxlOutputs(cfg: ServiceConfig, args: SdxlArgs, id: string, out: JsValue,
                    error: Option<string>, more: seq<Result<Prediction>>)
    ensures var ok := StageScript(Ok(Prediction(id, Starting, Undef, None)),
                                  [Ok(Prediction(id, Succeeded, out, None))] + more);
            SdxlSpec(cfg, args, ok).result == Done(FirstIfArray(out))
    ensures var bad := StageScript(Ok(Prediction(id, Starting, Undef, None)),
                                   [Ok(Prediction(id, Canceled, out, error))] + more);
            SdxlSpec(cfg, args, bad).result == Threw(FailureMessage(error, SdxlFailed))
  {
    PollStopsAtFirstStop([Ok(Prediction(id, Succeeded, out, None))] + more, SdxlFailed, 0);
    PollStopsAtFirstStop([Ok(Prediction(id, Canceled, out, error))] + more, SdxlFailed, 0);
  }

  /** With an upscaler configured, the same holds for the upscale stage:
      element 0 of an array output on a first-fetch success, the
      provider's error or "Upscale failed" on a canceled first fetch. */
  lemma UpscaleOutputs(cfg: ServiceConfig, image: JsValue, factor: EnhanceSchema.Upscale, id: string, out: JsValue,
                       error: Option<string>, more: seq<Result<Prediction>>)
    requires cfg.upscaleVersion != ""
    ensures var ok := StageScript(Ok(Prediction(id, Starting, Undef, None)),
                                  [Ok(Prediction(id, Succeeded, out, None))] + more);
            UpscaleSpec(cfg, image, factor, ok).result == Done(FirstIfArray(out))
    ensures var bad := StageScript(Ok(Prediction(id, Starting, Undef, None)),
                                   [Ok(Prediction(id, Canceled, out, error))] + more);
            UpscaleSpec(cfg, image, factor, bad).result == Threw(FailureMessage(error, UpscaleFailed))
  {
    PollStopsAtFirstStop([Ok(Prediction(id, Succeeded, out, None))] + more, UpscaleFailed, 0);
    PollStopsAtFirstStop([Ok(Prediction(id, Canceled, out, error))] + more, UpscaleFailed, 0);
  }

  // ---------------------------------------------------------------------
  // Hosting

  const NoImageUrl: string := "No image URL provided. Configure upload hosting or pass a URL."

  /** `ensureHostedUrl`: the fallback URL when it is non-empty, whatever the
      buffer; an error otherwise. */
  function EnsureHostedUrl(buffer: seq<bv8>, fallbackUrl: Option<string>): (r: Result<string>)
    ensures r.Ok? <==> fallbackUrl.Some? && fallbackUrl.value != ""
    ensures r.Ok? ==> r.value == fallbackUrl.value
    ensures r.Err? ==> r.message == NoImageUrl
  {
    if fallbackUrl.Some? && fallbackUrl.value != "" then Ok(fallbackUrl.value) else Err(NoImageUrl)
  }
}
