/** `POST /api/enhance`: form coercion, schema validation, image hosting,
    then the depth, SDXL and optional upscale stages, answered as JSON
    (backend/src/routes/enhance.ts). */
module EnhanceRoute {
  import opened Results
  import opened JsValues
  import opened ReplicateApi
  import opened EnhanceSchema
  import opened EnhanceService

  /** The multipart text fields of the request. */
  type Form = map<string, string>

  /** `req.body?.name`: `None` is `undefined`. */
  function Field(form: Form, name: string): (f: Option<string>)
    ensures f.Some? <==> name in form
    ensures f.Some? ==> f.value == form[name]
  {
    if name in form then Some(form[name]) else None
  }

  /** The object the handler gives the schema: the strength converted with
      `Number` only when the field is a non-empty string, the preservation
      flag only when it reads exactly "true" or "false".  `toNumber` is
      JavaScript's `Number` on a string. */
  function CoerceForm(form: Form, toNumber: string -> JsNumber): (raw: RawBody)
    ensures raw.preset == Field(form, "preset")
    ensures raw.upscale == Field(form, "upscale") && raw.mode == Field(form, "mode")
    ensures raw.strength.None? <==> "strength" !in form || form["strength"] == ""
    ensures raw.strength.Some? ==> raw.strength.value == toNumber(form["strength"])
    ensures raw.preserveComposition == Some(false) <==> Field(form, "preserve_composition") == Some("false")
    ensures raw.preserveComposition == Some(true) <==> Field(form, "preserve_composition") == Some("true")
  {
    var strength := if "strength" in form && form["strength"] != "" then Some(toNumber(form["strength"])) else None;
    var preserve := if Field(form, "preserve_composition") == Some("false") then Some(false)
                    else if Field(form, "preserve_composition") == Some("true") then Some(true)
                    else None;
    RawBody(Field(form, "preset"), strength, preserve, Field(form, "upscale"), Field(form, "mode"))
  }

  /** An uploaded file: its bytes, and what the resizer makes of them (a
      resized image, or the error it throws). */
  datatype Upload = Upload(bytes: seq<bv8>, normalized: Result<seq<bv8>>)

  datatype RouteConfig = RouteConfig(allowAsync: bool, service: ServiceConfig)

  /** The provider's replies to the three stages. */
  datatype Scripts = Scripts(depth: StageScript, sdxl: StageScript, upscale: StageScript)

  /** The JSON bodies the route sends. */
  datatype ReplyBody =
    | InvalidBody
    | ErrorMessage(message: string)
    | Enhanced(preset: Preset, preserveComposition: bool, upscale: Upscale, image: JsValue)

  /** A JSON reply, or none at all while a stage is still polling. */
  datatype Response = Reply(status: int, body: ReplyBody) | NoReply

  /** The handler's response and the client calls it made, in order. */
  datatype Handled = Handled(response: Response, calls: seq<Call>)

  const MissingInput: string := "Provide a file or imageUrl"
  const InternalError: string := "Internal error"

  /** `err?.message || "Internal error"`. */
  function ServerError(message: string): (m: string)
    ensures message != "" ==> m == message
    ensures message == "" ==> m == InternalError
  {
    if message != "" then message else InternalError
  }

  function Failure(message: string): Response
  {
    Reply(500, ErrorMessage(ServerError(message)))
  }

  /** The URL the stages receive: the form's `imageUrl`, passed through
      `ensureHostedUrl` when a file was uploaded; an error is thrown by
      the resizer or by `ensureHostedUrl`. */
  function Hosting(form: Form, file: Option<Upload>): (r: Result<Option<string>>)
    ensures file.None? ==> r == Ok(Field(form, "imageUrl"))
    ensures file.Some? && file.value.normalized.Err? ==> r == Err(file.value.normalized.message)
    ensures file.Some? && file.value.normalized.Ok? ==>
              (r.Ok? <==> "imageUrl" in form && form["imageUrl"] != "")
    ensures file.Some? && file.value.normalized.Ok? && r.Err? ==> r.message == NoImageUrl
    ensures r.Ok? && r.value.Some? ==> r.value == Field(form, "imageUrl")
  {
    match file
    case None => Ok(Field(form, "imageUrl"))
    case Some(upload) =>
      match upload.normalized
      case Err(m) => Err(m)
      case Ok(buffer) =>
        match EnsureHostedUrl(buffer, Field(form, "imageUrl"))
        case Err(m) => Err(m)
        case Ok(url) => Ok(Some(url))
  }

  /** The SDXL arguments: the hosted image, the depth URL, the preset's
      prompt and the tuned strength and conditioning, no dimensions. */
  function RouteSdxlArgs(body: EnhanceBody, url: string, depthUrl: JsValue): (args: SdxlArgs)
    ensures args.imageUrl == url && args.depthUrl == depthUrl && args.prompt == PresetPrompt(body.preset)
    ensures Tune(args.strength, args.conditioningScale) == AdjustStrength(body.strength, body.preserveComposition)
    ensures !Given(args.width) && !Given(args.height)
  {
    var tune := AdjustStrength(body.strength, body.preserveComposition);
    SdxlArgs(url, depthUrl, PresetPrompt(body.preset), tune.strength, tune.conditioningScale, None, None)
  }

  /** The upscale step: skipped for "none", otherwise `runUpscale`. */
  function UpscaleStep(cfg: ServiceConfig, body: EnhanceBody, image: JsValue, script: StageScript): (run: StageRun)
    ensures body.upscale == UpscaleNone || cfg.upscaleVersion == "" <==> run == StageRun(Done(image), [])
    ensures body.upscale != UpscaleNone ==> run == UpscaleSpec(cfg, image, body.upscale, script)
  {
    if body.upscale == UpscaleNone then StageRun(Done(image), [])
    else
      var run := UpscaleSpec(cfg, image, body.upscale, script);
      assert cfg.upscaleVersion != "" ==> |run.calls| >= 1;
      run
  }

  /** The SDXL stage on the first depth output, then the upscale step, and
      the reply they lead to; `calls` are the calls of these two stages. */
  function SynthesisSpec(cfg: ServiceConfig, body: EnhanceBody, url: string, depthOut: JsValue, scripts: Scripts)
    : (h: Handled)
    ensures |h.calls| >= 1
    ensures h.calls[0] == CreatePrediction(cfg.sdxlVersion, SdxlInput(RouteSdxlArgs(body, url, FirstIfArray(depthOut))))
    ensures h.response.Reply? ==> (h.response.status == 200 && h.response.body.Enhanced?)
                                  || (h.response.status == 500 && h.response.body.ErrorMessage?)
  {
    var sdxl := SdxlSpec(cfg, RouteSdxlArgs(body, url, FirstIfArray(depthOut)), scripts.sdxl);
    match sdxl.result
    case TraceExhausted => Handled(NoReply, sdxl.calls)
    case Threw(m) => Handled(Failure(m), sdxl.calls)
    case Done(image) =>
      var up := UpscaleStep(cfg, body, image, scripts.upscale);
      match up.result
      case TraceExhausted => Handled(NoReply, sdxl.calls + up.calls)
      case Threw(m) => Handled(Failure(m), sdxl.calls + up.calls)
      case Done(final) =>
        Handled(Reply(200, Enhanced(body.preset, body.preserveComposition, body.upscale, final)),
                sdxl.calls + up.calls)
  }

  /** The three stages on a hosted URL and the reply they lead to. */
  function StagesSpec(cfg: ServiceConfig, body: EnhanceBody, url: string, scripts: Scripts): (h: Handled)
    ensures |h.calls| >= 1 && h.calls[0] == CreatePrediction(cfg.depthVersion, DepthInput(url))
  {
    var depth := DepthMapSpec(cfg, url, scripts.depth);
    match depth.result
    case TraceExhausted => Handled(NoReply, depth.calls)
    case Threw(m) => Handled(Failure(m), depth.calls)
    case Done(depthOut) =>
      var rest := SynthesisSpec(cfg, body, url, depthOut, scripts);
      Handled(rest.response, depth.calls + rest.calls)
  }

  /** The whole handler as a function of the request and the replies. */
  function HandleSpec(cfg: RouteConfig, form: Form, file: Option<Upload>, toNumber: string -> JsNumber,
                      scripts: Scripts): (h: Handled)
    ensures |h.calls| > 0 ==> ParseBody(CoerceForm(form, toNumber), cfg.allowAsync).Some?
                              && "imageUrl" in form && form["imageUrl"] != ""
    ensures h.response == Reply(400, InvalidBody) <==> ParseBody(CoerceForm(form, toNumber), cfg.allowAsync).None?
  {
    match ParseBody(CoerceForm(form, toNumber), cfg.allowAsync)
    case None => Handled(Reply(400, InvalidBody), [])
    case Some(body) =>
      match Hosting(form, file)
      case Err(m) => Handled(Failure(m), [])
      case Ok(hosted) =>
        if hosted.None? || hosted.value == "" then Handled(Reply(400, ErrorMessage(MissingInput)), [])
        else StagesSpec(cfg.service, body, hosted.value, scripts)
  }

  /** The handler: each step either answers and returns, or hands its
      result to the next. */
  method Handle(cfg: RouteConfig, form: Form, file: Option<Upload>, toNumber: string -> JsNumber,
                scripts: Scripts) returns (response: Response, calls: seq<Call>)
    ensures Handled(response, calls) == HandleSpec(cfg, form, file, toNumber, scripts)
  {
    calls := [];
    var parsed := ParseBody(CoerceForm(form, toNumber), cfg.allowAsync);
    if parsed.None? {
      return Reply(400, InvalidBody), calls;
    }
    var body := parsed.value;

    var hostedUrl := Field(form, "imageUrl");
    if file.Some? {
      match file.value.normalized
      case Err(m) =>
        return Failure(m), calls;
      case Ok(buffer) =>
        var ensured := EnsureHostedUrl(buffer, hostedUrl);
        if ensured.Err? {
          return Failure(ensured.message), calls;
        }
        hostedUrl := Some(ensured.value);
    }
    if hostedUrl.None? || hostedUrl.value == "" {
      return Reply(400, ErrorMessage(MissingInput)), calls;
    }
    var url := hostedUrl.value;

    response, calls := RunStages(cfg.service, body, url, scripts);
  }

  method RunUpscaleStep(cfg: ServiceConfig, body: EnhanceBody, image: JsValue, script: StageScript)
    returns (r: PollResult, calls: seq<Call>)
    ensures StageRun(r, calls) == UpscaleStep(cfg, body, image, script)
  {
    if body.upscale == UpscaleNone {
      return Done(image), [];
    }
    r, calls := RunUpscale(cfg, image, body.upscale, script);
  }

  /** The stages in sequence: a stage that throws answers 500 at once, a
      stage still polling leaves the request unanswered. */
  method RunStages(cfg: ServiceConfig, body: EnhanceBody, url: string, scripts: Scripts)
    returns (response: Response, calls: seq<Call>)
    ensures Handled(response, calls) == StagesSpec(cfg, body, url, scripts)
  {
    var depthResult, depthCalls := RunDepthMap(cfg, url, scripts.depth);
    calls := depthCalls;
    if depthResult.TraceExhausted? {
      return NoReply, calls;
    } else if depthResult.Threw? {
      return Failure(depthResult.message), calls;
    }
    var restCalls;
    response, restCalls := RunSynthesis(cfg, body, url, depthResult.output, scripts);
    calls := calls + restCalls;
  }

  /** The SDXL stage, then the upscale step. */
  method RunSynthesis(cfg: ServiceConfig, body: EnhanceBody, url: string, depthOut: JsValue, scripts: Scripts)
    returns (response: Response, calls: seq<Call>)
    ensures Handled(response, calls) == SynthesisSpec(cfg, body, url, depthOut, scripts)
  {
    var depthUrl := FirstIfArray(depthOut);
    var sdxlResult, sdxlCalls := RunSdxlDepth(cfg, RouteSdxlArgs(body, url, depthUrl), scripts.sdxl);
    calls := sdxlCalls;
    if sdxlResult.TraceExhausted? {
      return NoReply, calls;
    } else if sdxlResult.Threw? {
      return Failure(sdxlResult.message), calls;
    }

    var upResult, upCalls := RunUpscaleStep(cfg, body, sdxlResult.output, scripts.upscale);
    calls := calls + upCalls;
    if upResult.TraceExhausted? {
      return NoReply, calls;
    } else if upResult.Threw? {
      return Failure(upResult.message), calls;
    }
    var finalUrl := upResult.output;
    response := Reply(200, Enhanced(body.preset, body.preserveComposition, body.upscale, finalUrl));
  }

  // ---------------------------------------------------------------------
  // Properties of the handler

  /** A body the schema rejects is answered 400 before anything else. */
  lemma InvalidBodyRunsNoStage(cfg: RouteConfig, form: Form, file: Option<Upload>, toNumber: string -> JsNumber,
                               scripts: Scripts)
    requires ParseBody(CoerceForm(form, toNumber), cfg.allowAsync).None?
    ensures HandleSpec(cfg, form, file, toNumber, scripts) == Handled(Reply(400, InvalidBody), [])
  {
  }

  /** Without a file, a missing or empty `imageUrl` is answered 400. */
  lemma MissingInputIs400(cfg: RouteConfig, form: Form, toNumber: string -> JsNumber, scripts: Scripts)
    requires ParseBody(CoerceForm(form, toNumber), cfg.allowAsync).Some?
    requires "imageUrl" !in form || form["imageUrl"] == ""
    ensures HandleSpec(cfg, form, None, toNumber, scripts) == Handled(Reply(400, ErrorMessage(MissingInput)), [])
  {
  }

  /** With a file but no `imageUrl`, `ensureHostedUrl` throws: the answer is
      500 with its message, never the 400 a missing input gets. */
  lemma FileWithoutUrlIs500(cfg: RouteConfig, form: Form, upload: Upload, toNumber: string -> JsNumber,
                            scripts: Scripts)
    requires ParseBody(CoerceForm(form, toNumber), cfg.allowAsync).Some?
    requires upload.normalized.Ok?
    requires "imageUrl" !in form || form["imageUrl"] == ""
    ensures HandleSpec(cfg, form, Some(upload), toNumber, scripts)
            == Handled(Reply(500, ErrorMessage(NoImageUrl)), [])
  {
  }

  /** The uploaded bytes never reach the provider: whenever a stage runs,
      the body was valid, `imageUrl` was given and non-empty, and the first
      call creates the depth prediction on that URL. */
  lemma FirstCallIsDepth(cfg: RouteConfig, form: Form, file: Option<Upload>, toNumber: string -> JsNumber,
                         scripts: Scripts)
    requires |HandleSpec(cfg, form, file, toNumber, scripts).calls| > 0
    ensures ParseBody(CoerceForm(form, toNumber), cfg.allowAsync).Some?
    ensures "imageUrl" in form && form["imageUrl"] != ""
    ensures file.Some? ==> file.value.normalized.Ok?
    ensures HandleSpec(cfg, form, file, toNumber, scripts).calls[0]
            == CreatePrediction(cfg.service.depthVersion, DepthInput(form["imageUrl"]))
  {
    var parsed := ParseBody(CoerceForm(form, toNumber), cfg.allowAsync);
    assert parsed.Some?;
    var hosting := Hosting(form, file);
    assert hosting.Ok? && hosting.value.Some? && hosting.value.value != "";
    var url := hosting.value.value;
    assert url == form["imageUrl"];
    assert HandleSpec(cfg, form, file, toNumber, scripts) == StagesSpec(cfg.service, parsed.value, url, scripts);
  }

  /** Every answer is 200, 400 or 500, and 200 exactly when the body is the
      enhanced result. */
  lemma StatusCodes(cfg: RouteConfig, form: Form, file: Option<Upload>, toNumber: string -> JsNumber,
                    scripts: Scripts)
    ensures var r := HandleSpec(cfg, form, file, toNumber, scripts).response;
            r.Reply? ==> r.status in {200, 400, 500} && (r.status == 200 <==> r.body.Enhanced?)
  {
    var parsed := ParseBody(CoerceForm(form, toNumber), cfg.allowAsync);
    if parsed.Some? {
      var hosting := Hosting(form, file);
      if hosting.Ok? && hosting.value.Some? && hosting.value.value != "" {
        StagesStatusCodes(cfg.service, parsed.value, hosting.value.value, scripts);
      }
    }
  }

  /** Once the stages start, the only answers are 200 with the enhanced
      result and 500 with an error message. */
  lemma StagesStatusCodes(cfg: ServiceConfig, body: EnhanceBody, url: string, scripts: Scripts)
    ensures var r := StagesSpec(cfg, body, url, scripts).response;
            r.Reply? ==> (r.status == 200 && r.body.Enhanced?) || (r.status == 500 && r.body.ErrorMessage?)
  {
    var depth := DepthMapSpec(cfg, url, scripts.depth);
    if depth.result.Done? {
      var sdxl := SdxlSpec(cfg, RouteSdxlArgs(body, url, FirstIfArray(depth.result.output)), scripts.sdxl);
      if sdxl.result.Done? {
        var up := UpscaleStep(cfg, body, sdxl.result.output, scripts.upscale);
        assert up.result.Done? ==> SynthesisSpec(cfg, body, url, depth.result.output, scripts).response.body.Enhanced?;
      }
    }
  }

  /** A stage that throws (depth, SDXL or upscale) answers 500 with its
      message, or "Internal error" when the message is empty; no later
      stage runs. */
  lemma StageFailureIs500(cfg: ServiceConfig, body: EnhanceBody, url: string, scripts: Scripts)
    ensures var depth := DepthMapSpec(cfg, url, scripts.depth);
            depth.result.Threw?
            ==> StagesSpec(cfg, body, url, scripts) == Handled(Failure(depth.result.message), depth.calls)
    ensures var depth := DepthMapSpec(cfg, url, scripts.depth);
            depth.result.Done? ==>
            var sdxl := SdxlSpec(cfg, RouteSdxlArgs(body, url, FirstIfArray(depth.result.output)), scripts.sdxl);
            sdxl.result.Threw?
            ==> StagesSpec(cfg, body, url, scripts)
                == Handled(Reply(500, ErrorMessage(ServerError(sdxl.result.message))), depth.calls + sdxl.calls)
    ensures var depth := DepthMapSpec(cfg, url, scripts.depth);
            depth.result.Done? ==>
            var sdxl := SdxlSpec(cfg, RouteSdxlArgs(body, url, FirstIfArray(depth.result.output)), scripts.sdxl);
            sdxl.result.Done? ==>
            var up := UpscaleStep(cfg, body, sdxl.result.output, scripts.upscale);
            up.result.Threw?
            ==> StagesSpec(cfg, body, url, scripts)
                == Handled(Failure(up.result.message), depth.calls + (sdxl.calls + up.calls))
  {
  }

  /** A successful answer echoes the validated preset, preservation flag
      and upscale factor; the SDXL stage ran on the hosted image, the first
      depth output, the preset's prompt and the tuned strength and
      conditioning; the reply's image is the upscale step's result; and an
      upscale prediction was made exactly when a factor was asked for and
      an upscaler is configured, the SDXL image being passed through
      otherwise. */
  lemma SuccessWiring(cfg: ServiceConfig, body: EnhanceBody, url: string, scripts: Scripts)
    requires StagesSpec(cfg, body, url, scripts).response.Reply?
    requires StagesSpec(cfg, body, url, scripts).response.status == 200
    ensures var h := StagesSpec(cfg, body, url, scripts);
            var depth := DepthMapSpec(cfg, url, scripts.depth);
            && depth.result.Done?
            && var args := RouteSdxlArgs(body, url, FirstIfArray(depth.result.output));
               var sdxl := SdxlSpec(cfg, args, scripts.sdxl);
               && args.imageUrl == url
               && args.prompt == PresetPrompt(body.preset)
               && args.strength == AdjustStrength(body.strength, body.preserveComposition).strength
               && args.conditioningScale == AdjustStrength(body.strength, body.preserveComposition).conditioningScale
               && sdxl.result.Done?
               && h.response.body.preset == body.preset
               && h.response.body.preserveComposition == body.preserveComposition
               && h.response.body.upscale == body.upscale
               && ((body.upscale == UpscaleNone || cfg.upscaleVersion == "")
                   <==> h.calls == depth.calls + sdxl.calls)
               && ((body.upscale == UpscaleNone || cfg.upscaleVersion == "")
                   ==> h.response.body.image == sdxl.result.output)
               && var up := UpscaleStep(cfg, body, sdxl.result.output, scripts.upscale);
                  && up.result.Done?
                  && h.response.body.image == up.result.output
                  && h.calls == depth.calls + (sdxl.calls + up.calls)
  {
    var h := StagesSpec(cfg, body, url, scripts);
    var depth := DepthMapSpec(cfg, url, scripts.depth);
    assert depth.result.Done?;
    var sdxl := SdxlSpec(cfg, RouteSdxlArgs(body, url, FirstIfArray(depth.result.output)), scripts.sdxl);
    assert sdxl.result.Done?;
    var up := UpscaleStep(cfg, body, sdxl.result.output, scripts.upscale);
    assert up.result.Done?;
    var rest := SynthesisSpec(cfg, body, url, depth.result.output, scripts);
    assert rest == Handled(Reply(200, Enhanced(body.preset, body.preserveComposition, body.upscale, up.result.output)),
                           sdxl.calls + up.calls);
    assert h.calls == depth.calls + (sdxl.calls + up.calls);
    if !(body.upscale == UpscaleNone || cfg.upscaleVersion == "") {
      assert |up.calls| >= 1;
    }
  }
}
