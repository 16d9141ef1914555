/** The provider wrapper around the hosted-model client: environment
    lookup, model identifiers, and the two stage calls whose duck-typed
    payloads are normalised into URLs (backend/src/providers/replicate.ts). */
module ReplicateProvider {
  import opened Results
  import opened JsValues

  /** The process environment. */
  type Env = map<string, string>

  /** The client call `replicate.run(model, { input })`, a foreign call:
      it returns the model's payload or throws. */
  type Runner = (string, map<string, JsValue>) -> Result<JsValue>

  /** One invocation of the client, recorded for ordering and wiring. */
  datatype RunCall = RunCall(model: string, input: map<string, JsValue>)

  const MissingEnvPrefix: string := "Missing required environment variable "
  const DepthShapeError: string := "Unexpected depth model output shape"
  const ControlNetShapeError: string := "Unexpected ControlNet output shape"

  const DefaultDepthModel: string :=
    "chenxwh/depth-anything-v2:b239ea33cff32bb7abb5db39ffe9a09c14cbc2894331d1ef66fe096eed88ebd4"
  const DefaultControlNetModel: string := "stability-ai/sdxl-controlnet-depth"

  // ---------------------------------------------------------------------
  // Environment

  /** An environment variable, or the fallback when it is unset or empty;
      with no fallback that is an error naming the variable. */
  function GetEnv(env: Env, name: string, fallback: Option<string>): (r: Result<string>)
    ensures r.Ok? <==> (name in env && env[name] != "") || fallback.Some?
    ensures name in env && env[name] != "" ==> r == Ok(env[name])
    ensures (name !in env || env[name] == "") && fallback.Some? ==> r == Ok(fallback.value)
    ensures r.Err? ==> r.message == MissingEnvPrefix + name
    ensures r.Ok? && fallback.None? ==> r.value != ""
  {
    if name in env && env[name] != "" then Ok(env[name])
    else if fallback.Some? then Ok(fallback.value)
    else Err(MissingEnvPrefix + name)
  }

  function LowerChar(c: char): char
  {
    if 'A' <= c <= 'Z' then (c as int + 32) as char else c
  }

  /** `s.toLowerCase()` on ASCII letters. */
  function ToLower(s: string): (r: string)
    ensures |r| == |s|
    ensures forall i :: 0 <= i < |s| ==> r[i] == LowerChar(s[i])
    ensures forall i :: 0 <= i < |r| ==> !('A' <= r[i] <= 'Z')
  {
    seq(|s|, i requires 0 <= i < |s| => LowerChar(s[i]))
  }

  /** The module constants fixed when the provider module loads. */
  datatype ProviderConfig = ProviderConfig(auth: string, depthModel: string, controlNetModel: string)

  /** Loading never fails: every lookup has a fallback.  The token defaults
      to "" and the model references are lower-cased. */
  function LoadProviderConfig(env: Env): (c: ProviderConfig)
    ensures c.auth == (if "REPLICATE_API_TOKEN" in env then env["REPLICATE_API_TOKEN"] else "")
    ensures ("REPLICATE_DEPTH_MODEL" !in env || env["REPLICATE_DEPTH_MODEL"] == "")
            ==> c.depthModel == ToLower(DefaultDepthModel)
    ensures "REPLICATE_DEPTH_MODEL" in env && env["REPLICATE_DEPTH_MODEL"] != ""
            ==> c.depthModel == ToLower(env["REPLICATE_DEPTH_MODEL"])
    ensures ("REPLICATE_CONTROLNET_DEPTH_MODEL" !in env || env["REPLICATE_CONTROLNET_DEPTH_MODEL"] == "")
            ==> c.controlNetModel == ToLower(DefaultControlNetModel)
    ensures "REPLICATE_CONTROLNET_DEPTH_MODEL" in env && env["REPLICATE_CONTROLNET_DEPTH_MODEL"] != ""
            ==> c.controlNetModel == ToLower(env["REPLICATE_CONTROLNET_DEPTH_MODEL"])
  {
    ProviderConfig(
      GetEnv(env, "REPLICATE_API_TOKEN", Some("")).value,
      ToLower(GetEnv(env, "REPLICATE_DEPTH_MODEL", Some(DefaultDepthModel)).value),
      ToLower(GetEnv(env, "REPLICATE_CONTROLNET_DEPTH_MODEL", Some(DefaultControlNetModel)).value))
  }

  // ---------------------------------------------------------------------
  // URL extraction.  JavaScript `undefined` from `toUrl` is written "":
  // every caller only tests the result for truthiness, where the two agree.

  /** `toUrl(value)`: a string as it is, any other truthy value through
      `String`, and nothing for a falsy value. */
  function ToUrl(v: JsValue, numText: NumberFormat): (r: Result<string>)
    ensures v.Str? ==> r == Ok(v.s)
    ensures !Truthy(v) ==> r == Ok("")
    ensures r.Ok? && r.value != "" ==> Truthy(v)
    ensures r.Err? ==> r == ToString(v, numText)
  {
    if v.Str? then Ok(v.s)
    else if Truthy(v) then ToString(v, numText)
    else Ok("")
  }

  /** `a || b` over `toUrl` results: the first truthy one.  A conversion
      error in `a` is thrown before `b` is evaluated. */
  function Or(a: Result<string>, b: Result<string>): (r: Result<string>)
    ensures a.Err? ==> r == a
    ensures a.Ok? && a.value != "" ==> r == a
    ensures a == Ok("") ==> r == b
  {
    if a.Err? || a.value != "" then a else b
  }

  /** `Array.isArray(v) && toUrl(v[0])`. */
  function HeadUrl(v: JsValue, numText: NumberFormat): (r: Result<string>)
    ensures !v.Arr? ==> r == Ok("")
    ensures v.Arr? ==> r == ToUrl(First(v.items), numText)
  {
    if v.Arr? then ToUrl(First(v.items), numText) else Ok("")
  }

  /** The first element of a non-empty array (lines 70-73). */
  function ArrayDepthUrl(out: JsValue, numText: NumberFormat): (r: Result<string>)
    ensures !out.Arr? ==> r == Ok("")
    ensures r.Ok? && r.value != "" ==> out.Arr? && |out.items| > 0 && Truthy(out.items[0])
  {
    if out.Arr? && |out.items| > 0 then ToUrl(out.items[0], numText) else Ok("")
  }

  /** The branch for objects with a `toString` (lines 75-86):
      `url`, then `data`, then the object's own string form.  With
      `inheritedCounts` false the rendering inherited from
      `Object.prototype` is skipped (the corrected reading, see
      NormalizeDepthCorrected). */
  function StringFormDepthUrl(out: JsValue, numText: NumberFormat, inheritedCounts: bool): (r: Result<string>)
    ensures !out.Obj? || out.toStr.Missing? ==> r == Ok("")
    ensures inheritedCounts && out.Obj? && out.toStr.Inherited? ==> r != Ok("")
    ensures out.Obj? && r.Ok? && r.value != ""
            ==> (Truthy(Get(out.fields, "url")) || Truthy(Get(out.fields, "data")) || inheritedCounts || out.toStr.Custom?)
  {
    if out.Obj? && !out.toStr.Missing? then
      Or(ToUrl(Get(out.fields, "url"), numText),
         Or(ToUrl(Get(out.fields, "data"), numText),
            if inheritedCounts || out.toStr.Custom? then ToUrl(out, numText) else Ok("")))
    else Ok("")
  }

  /** The keyed-field branch (lines 88-96): `image`, `images[0]`,
      `depth_map`, `output`, `output[0]`. */
  function KeyedDepthUrl(out: JsValue, numText: NumberFormat): (r: Result<string>)
    ensures !out.Obj? ==> r == Ok("")
    ensures out.Obj? && r.Ok? && r.value != ""
            ==> (Truthy(Get(out.fields, "image")) || Get(out.fields, "images").Arr?
                 || Truthy(Get(out.fields, "depth_map")) || Truthy(Get(out.fields, "output")))
  {
    if out.Obj? then
      Or(ToUrl(Get(out.fields, "image"), numText),
         Or(HeadUrl(Get(out.fields, "images"), numText),
            Or(ToUrl(Get(out.fields, "depth_map"), numText),
               Or(ToUrl(Get(out.fields, "output"), numText),
                  HeadUrl(Get(out.fields, "output"), numText)))))
    else Ok("")
  }

  /** A truthy URL, or the shape error when every branch came up empty. */
  function Found(r: Result<string>, error: string): Result<string>
  {
    if r == Ok("") then Err(error) else r
  }

  /** The depth stage's normaliser as written (lines 69-98). */
  function NormalizeDepth(out: JsValue, numText: NumberFormat): (r: Result<string>)
    ensures out.Str? ==> r == Ok(out.s)
    ensures r.Ok? && !out.Str? ==> r.value != ""
    ensures out.Undef? || out.Null? || out.Bool? || out.Num? ==> r == Err(DepthShapeError)
    ensures out.Arr? && |out.items| == 0 ==> r == Err(DepthShapeError)
    ensures out.Arr? && |out.items| > 0 ==> r == Found(ToUrl(out.items[0], numText), DepthShapeError)
  {
    if out.Str? then Ok(out.s)
    else
      Found(Or(ArrayDepthUrl(out, numText),
               Or(StringFormDepthUrl(out, numText, true), KeyedDepthUrl(out, numText))),
            DepthShapeError)
  }

  /** The depth normaliser with the inherited `[object Object]` rendering
      no longer taken for a URL, so that plain payload objects reach the
      keyed-field lookup.  Everything else is as in NormalizeDepth. */
  function NormalizeDepthCorrected(out: JsValue, numText: NumberFormat): (r: Result<string>)
    ensures out.Str? ==> r == Ok(out.s)
    ensures r.Ok? && !out.Str? ==> r.value != ""
    ensures out.Undef? || out.Null? || out.Bool? || out.Num? ==> r == Err(DepthShapeError)
    ensures !(out.Obj? && out.toStr.Inherited?) ==> r == NormalizeDepth(out, numText)
  {
    if out.Str? then Ok(out.s)
    else
      Found(Or(ArrayDepthUrl(out, numText),
               Or(StringFormDepthUrl(out, numText, false), KeyedDepthUrl(out, numText))),
            DepthShapeError)
  }

  // ---------------------------------------------------------------------
  // ControlNet stage

  const ControlNetDefaults: map<string, JsValue> :=
    map["num_inference_steps" := Num(30.0),
        "guidance_scale" := Num(7.0),
        "controlnet_conditioning_scale" := Num(1.0)]

  /** `Object.fromEntries(Object.entries(input).filter(([, v]) => v !== undefined))`. */
  function DefinedEntries(input: map<string, JsValue>): (d: map<string, JsValue>)
    ensures forall k :: k in d <==> k in input && input[k] != Undef
    ensures forall k :: k in d ==> d[k] == input[k]
  {
    map k | k in input && input[k] != Undef :: input[k]
  }

  /** `{ ...defaults, ...filtered }`: the caller's defined fields override
      the defaults; an `undefined` field leaves the default in place. */
  function WithDefaults(input: map<string, JsValue>): (merged: map<string, JsValue>)
    ensures forall k :: k in merged <==> k in ControlNetDefaults || (k in input && input[k] != Undef)
    ensures forall k :: k in input && input[k] != Undef ==> merged[k] == input[k]
    ensures forall k :: k in ControlNetDefaults && !(k in input && input[k] != Undef)
                        ==> merged[k] == ControlNetDefaults[k]
    ensures forall k :: k in merged ==> merged[k] != Undef
  {
    ControlNetDefaults + DefinedEntries(input)
  }

  /** `items.map(String)`: every element converted, in order; the first
      element that cannot be converted throws. */
  function MapToString(items: seq<JsValue>, numText: NumberFormat): (r: Result<seq<string>>)
    ensures r.Ok? <==> forall i :: 0 <= i < |items| ==> ToString(items[i], numText).Ok?
    ensures r.Ok? ==> |r.value| == |items|
    ensures r.Ok? ==> forall i :: 0 <= i < |items| ==> r.value[i] == ToString(items[i], numText).value
    ensures r.Err? ==> exists i :: 0 <= i < |items| && ToString(items[i], numText) == Err(r.message)
  {
    if |items| == 0 then Ok([])
    else
      match ToString(items[0], numText)
      case Err(m) => Err(m)
      case Ok(head) =>
        match MapToString(items[1..], numText)
        case Err(m) => Err(m)
        case Ok(tail) => Ok([head] + tail)
  }

  /** The ControlNet stage's normaliser (lines 133-143). */
  function NormalizeControlNet(out: JsValue, numText: NumberFormat): (r: Result<seq<string>>)
    ensures out.Arr? ==> r == MapToString(out.items, numText)
    ensures out.Str? ==> r == Ok([out.s])
    ensures out.Undef? || out.Null? || out.Bool? || out.Num? ==> r == Err(ControlNetShapeError)
  {
    if out.Arr? then MapToString(out.items, numText)
    else if out.Str? then Ok([out.s])
    else if out.Obj? then
      var images := Get(out.fields, "images");
      var image := Get(out.fields, "image");
      var output := Get(out.fields, "output");
      if images.Arr? then MapToString(images.items, numText)
      else if image != Undef then
        (match ToString(image, numText)
         case Err(m) => Err(m)
         case Ok(s) => Ok([s]))
      else if output.Arr? then MapToString(output.items, numText)
      else if output.Str? then Ok([output.s])
      else Err(ControlNetShapeError)
    else Err(ControlNetShapeError)
  }

  // ---------------------------------------------------------------------
  // The two stage calls

  datatype ModelSize = Large | Base

  function ModelSizeName(m: ModelSize): string
  {
    match m
    case Large => "Large"
    case Base => "Base"
  }

  /** The client call made by `runDepthAnythingV2`. */
  function DepthCall(cfg: ProviderConfig, image: JsValue, size: ModelSize): (c: RunCall)
    ensures c.model == cfg.depthModel
    ensures c.input.Keys == {"image", "model"}
    ensures c.input["image"] == image && c.input["model"] == Str(ModelSizeName(size))
  {
    RunCall(cfg.depthModel, map["image" := image, "model" := Str(ModelSizeName(size))])
  }

  /** `runDepthAnythingV2`: one client call, then the depth normaliser. */
  function RunDepthAnythingV2(run: Runner, cfg: ProviderConfig, image: JsValue, size: ModelSize,
                              numText: NumberFormat): (r: Result<string>)
    ensures run(DepthCall(cfg, image, size).model, DepthCall(cfg, image, size).input).Err?
            ==> r == Err(run(DepthCall(cfg, image, size).model, DepthCall(cfg, image, size).input).message)
    ensures run(DepthCall(cfg, image, size).model, DepthCall(cfg, image, size).input).Ok?
            ==> r == NormalizeDepth(run(DepthCall(cfg, image, size).model, DepthCall(cfg, image, size).input).value, numText)
  {
    var call := DepthCall(cfg, image, size);
    match run(call.model, call.input)
    case Err(m) => Err(m)
    case Ok(out) => NormalizeDepth(out, numText)
  }

  /** The depth stage with the corrected normaliser: it differs from
      RunDepthAnythingV2 only on a payload object with an inherited
      `toString`. */
  function RunDepthAnythingV2Corrected(run: Runner, cfg: ProviderConfig, image: JsValue, size: ModelSize,
                                       numText: NumberFormat): (r: Result<string>)
    ensures run(DepthCall(cfg, image, size).model, DepthCall(cfg, image, size).input).Err?
            ==> r == Err(run(DepthCall(cfg, image, size).model, DepthCall(cfg, image, size).input).message)
    ensures run(DepthCall(cfg, image, size).model, DepthCall(cfg, image, size).input).Ok?
            ==> r == NormalizeDepthCorrected(run(DepthCall(cfg, image, size).model, DepthCall(cfg, image, size).input).value, numText)
    ensures var out := run(DepthCall(cfg, image, size).model, DepthCall(cfg, image, size).input);
            !(out.Ok? && out.value.Obj? && out.value.toStr.Inherited?) ==> r == RunDepthAnythingV2(run, cfg, image, size, numText)
  {
    var call := DepthCall(cfg, image, size);
    match run(call.model, call.input)
    case Err(m) => Err(m)
    case Ok(out) => NormalizeDepthCorrected(out, numText)
  }

  /** The client call made by `runSDXLControlNetDepth`. */
  function ControlNetCall(cfg: ProviderConfig, input: map<string, JsValue>): (c: RunCall)
    ensures c.model == cfg.controlNetModel && c.input == WithDefaults(input)
  {
    RunCall(cfg.controlNetModel, WithDefaults(input))
  }

  /** `runSDXLControlNetDepth`: one client call on the input merged with
      the defaults, then the ControlNet normaliser. */
  function RunSDXLControlNetDepth(run: Runner, cfg: ProviderConfig, input: map<string, JsValue>,
                                  numText: NumberFormat): (r: Result<seq<string>>)
    ensures run(cfg.controlNetModel, WithDefaults(input)).Err?
            ==> r == Err(run(cfg.controlNetModel, WithDefaults(input)).message)
    ensures run(cfg.controlNetModel, WithDefaults(input)).Ok?
            ==> r == NormalizeControlNet(run(cfg.controlNetModel, WithDefaults(input)).value, numText)
  {
    var call := ControlNetCall(cfg, input);
    match run(call.model, call.input)
    case Err(m) => Err(m)
    case Ok(out) => NormalizeControlNet(out, numText)
  }

  // ---------------------------------------------------------------------
  // Properties of the normalisers

  /** Objects with a `toString` answer with `toUrl(url)`, then
      `toUrl(data)`, then their own string form; an own `toString` that
      renders empty lets the keyed-field lookup decide.  A conversion
      error in an earlier alternative is thrown before a later one is
      tried. */
  lemma DepthStringFormOrder(out: JsValue, numText: NumberFormat)
    requires out.Obj? && !out.toStr.Missing?
    ensures var url := ToUrl(Get(out.fields, "url"), numText);
            url != Ok("") ==> NormalizeDepth(out, numText) == url
    ensures var url, data := ToUrl(Get(out.fields, "url"), numText), ToUrl(Get(out.fields, "data"), numText);
            url == Ok("") && data != Ok("") ==> NormalizeDepth(out, numText) == data
    ensures var url, data := ToUrl(Get(out.fields, "url"), numText), ToUrl(Get(out.fields, "data"), numText);
            url == Ok("") && data == Ok("") && out.toStr.Inherited?
            ==> NormalizeDepth(out, numText) == Ok(ObjectTag)
    ensures var url, data := ToUrl(Get(out.fields, "url"), numText), ToUrl(Get(out.fields, "data"), numText);
            url == Ok("") && data == Ok("") && out.toStr.Custom? && out.toStr.text != ""
            ==> NormalizeDepth(out, numText) == Ok(out.toStr.text)
    ensures var url, data := ToUrl(Get(out.fields, "url"), numText), ToUrl(Get(out.fields, "data"), numText);
            url == Ok("") && data == Ok("") && out.toStr == Custom("")
            ==> NormalizeDepth(out, numText) == Found(KeyedDepthUrl(out, numText), DepthShapeError)
  {
  }

  /** A plain object always has a non-empty string form, so the keyed-field
      lookup is never consulted for it. */
  lemma DepthInheritedSkipsKeyedLookup(out: JsValue, numText: NumberFormat)
    requires out.Obj? && out.toStr.Inherited?
    ensures StringFormDepthUrl(out, numText, true) != Ok("")
    ensures NormalizeDepth(out, numText) == StringFormDepthUrl(out, numText, true)
  {
  }

  /** As written, a plain payload object with no `url` or `data` field
      yields the inherited rendering "[object Object]", whatever its
      `image`, `images`, `depth_map` or `output` fields hold. */
  lemma DepthPlainObjectYieldsObjectTag(fields: map<string, JsValue>, numText: NumberFormat)
    requires !Truthy(Get(fields, "url")) && !Truthy(Get(fields, "data"))
    ensures NormalizeDepth(PlainObject(fields), numText) == Ok(ObjectTag)
  {
  }

  /** As written, the plain-object depth payload `{ image: u }` is
      rendered as "[object Object]" rather than read as `u`. */
  lemma DepthImageObjectAsWritten(u: string, numText: NumberFormat)
    requires u != "" && u != ObjectTag
    ensures NormalizeDepth(PlainObject(map["image" := Str(u)]), numText) == Ok(ObjectTag)
    ensures NormalizeDepth(PlainObject(map["image" := Str(u)]), numText) != Ok(u)
  {
    DepthPlainObjectYieldsObjectTag(map["image" := Str(u)], numText);
  }

  /** With the correction, a plain payload object without `url` or `data`
      is read through the keyed-field lookup, and `{ image: u }` gives `u`. */
  lemma DepthCorrectedReadsPlainObjectFields(fields: map<string, JsValue>, numText: NumberFormat)
    requires !Truthy(Get(fields, "url")) && !Truthy(Get(fields, "data"))
    ensures NormalizeDepthCorrected(PlainObject(fields), numText)
            == Found(KeyedDepthUrl(PlainObject(fields), numText), DepthShapeError)
    ensures Get(fields, "image").Str? && Get(fields, "image").s != ""
            ==> NormalizeDepthCorrected(PlainObject(fields), numText) == Ok(Get(fields, "image").s)
    ensures NormalizeDepthCorrected(PlainObject(fields), numText) != Ok(ObjectTag)
            || KeyedDepthUrl(PlainObject(fields), numText) == Ok(ObjectTag)
  {
  }

  /** Objects without `toString` are read through `toUrl(image)`, then
      `images[0]` when `images` is an array, then `toUrl(depth_map)`, then
      `toUrl(output)`; the first non-empty answer (or the first conversion
      error) wins, and when all four come up empty the shape error is
      thrown.  The final `output[0]` alternative never decides
      (OutputHeadFallbackUnreachable). */
  lemma DepthKeyedOrder(out: JsValue, numText: NumberFormat)
    requires out.Obj? && out.toStr.Missing?
    ensures var image := ToUrl(Get(out.fields, "image"), numText);
            image != Ok("") ==> NormalizeDepth(out, numText) == image
    ensures var image, images := ToUrl(Get(out.fields, "image"), numText), HeadUrl(Get(out.fields, "images"), numText);
            image == Ok("") && images != Ok("") ==> NormalizeDepth(out, numText) == images
    ensures var image, images, depthMap :=
              ToUrl(Get(out.fields, "image"), numText), HeadUrl(Get(out.fields, "images"), numText),
              ToUrl(Get(out.fields, "depth_map"), numText);
            image == Ok("") && images == Ok("") && depthMap != Ok("")
            ==> NormalizeDepth(out, numText) == depthMap
    ensures var image, images, depthMap, output :=
              ToUrl(Get(out.fields, "image"), numText), HeadUrl(Get(out.fields, "images"), numText),
              ToUrl(Get(out.fields, "depth_map"), numText), ToUrl(Get(out.fields, "output"), numText);
            image == Ok("") && images == Ok("") && depthMap == Ok("") && output != Ok("")
            ==> NormalizeDepth(out, numText) == output
    ensures var image, images, depthMap, output :=
              ToUrl(Get(out.fields, "image"), numText), HeadUrl(Get(out.fields, "images"), numText),
              ToUrl(Get(out.fields, "depth_map"), numText), ToUrl(Get(out.fields, "output"), numText);
            image == Ok("") && images == Ok("") && depthMap == Ok("") && output == Ok("")
            ==> NormalizeDepth(out, numText) == Err(DepthShapeError)
  {
    if ToUrl(Get(out.fields, "output"), numText) == Ok("") {
      OutputHeadFallbackUnreachable(Get(out.fields, "output"), numText);
    }
  }

  /** Scenarios of the keyed lookup: an empty `images` array falls through
      to `depth_map`, an object with none of the keys throws, a numeric
      `image` is rendered by `String`, and an own `toString` rendering ""
      falls through to the keyed lookup. */
  lemma DepthKeyedScenarios(numText: NumberFormat)
    ensures NormalizeDepth(Obj(map["images" := Arr([]), "depth_map" := Str("d")], Missing), numText) == Ok("d")
    ensures NormalizeDepth(Obj(map["foo" := Str("bar")], Missing), numText) == Err(DepthShapeError)
    ensures numText(7.0) != "" ==> NormalizeDepth(Obj(map["image" := Num(7.0)], Missing), numText) == Ok(numText(7.0))
    ensures NormalizeDepth(Obj(map["image" := Str("u")], Custom("")), numText) == Ok("u")
  {
    DepthKeyedOrder(Obj(map["images" := Arr([]), "depth_map" := Str("d")], Missing), numText);
    DepthKeyedOrder(Obj(map["foo" := Str("bar")], Missing), numText);
    DepthKeyedOrder(Obj(map["image" := Num(7.0)], Missing), numText);
    DepthStringFormOrder(Obj(map["image" := Str("u")], Custom("")), numText);
    DepthKeyedOrder(Obj(map["image" := Str("u")], Missing), numText);
  }

  /** An `output` array is read through its comma-joined string form, not
      its first element: `{ output: [a, b] }` without `toString` gives
      "a,b". */
  lemma DepthOutputArrayIsJoined(a: string, b: string, numText: NumberFormat)
    requires a != ""
    ensures NormalizeDepth(Obj(map["output" := Arr([Str(a), Str(b)])], Missing), numText) == Ok(a + "," + b)
  {
    var items := [Str(a), Str(b)];
    assert items[1..] == [Str(b)];
    assert JoinElement(Str(a), numText) == Ok(a) && JoinElement(Str(b), numText) == Ok(b);
    assert JoinItems([Str(b)], numText) == Ok(b);
    assert JoinItems(items, numText) == Ok(a + "," + b);
  }

  /** The last alternative of the keyed lookup, `output[0]`, can never
      supply a URL: when `toUrl(output)` is falsy for an array, so is
      `toUrl(output[0])`, because an array's string form starts with its
      first element's. */
  lemma {:induction false} OutputHeadFallbackUnreachable(v: JsValue, numText: NumberFormat)
    requires ToUrl(v, numText) == Ok("")
    ensures HeadUrl(v, numText) == Ok("")
  {
    if v.Arr? && |v.items| > 0 {
      var e := v.items[0];
      assert JoinItems(v.items, numText) == Ok("");
      match JoinElement(e, numText)
      case Err(m) =>
        assert false;
      case Ok(head) =>
        if |v.items| > 1 {
          match JoinItems(v.items[1..], numText)
          case Err(m) =>
            assert false;
          case Ok(tail) =>
            assert false;
        }
        assert head == "";
        if !(e.Undef? || e.Null?) {
          assert ToString(e, numText) == Ok("");
        }
    }
  }

  /** An array of strings comes back as the same strings, in order; the
      empty array gives the empty list, not an error. */
  lemma ControlNetStringArray(items: seq<JsValue>, numText: NumberFormat)
    requires forall i :: 0 <= i < |items| ==> items[i].Str?
    ensures NormalizeControlNet(Arr(items), numText) == Ok(seq(|items|, i requires 0 <= i < |items| => items[i].s))
  {
    var r := MapToString(items, numText);
    assert forall i :: 0 <= i < |items| ==> ToString(items[i], numText) == Ok(items[i].s);
    assert r.Ok?;
    assert r.value == seq(|items|, i requires 0 <= i < |items| => items[i].s);
  }

  /** For objects: an `images` array first, then any defined `image`
      through `String` (so null becomes "null", and an image without
      `toString` throws), then an `output` array, then an `output` string;
      anything else throws. */
  lemma ControlNetObjectOrder(out: JsValue, numText: NumberFormat)
    requires out.Obj?
    ensures Get(out.fields, "images").Arr?
            ==> NormalizeControlNet(out, numText) == MapToString(Get(out.fields, "images").items, numText)
    ensures !Get(out.fields, "images").Arr? && Get(out.fields, "image").Str?
            ==> NormalizeControlNet(out, numText) == Ok([Get(out.fields, "image").s])
    ensures !Get(out.fields, "images").Arr? && Get(out.fields, "image").Null?
            ==> NormalizeControlNet(out, numText) == Ok(["null"])
    ensures !Get(out.fields, "images").Arr? && Get(out.fields, "image") != Undef
            && ToString(Get(out.fields, "image"), numText).Ok?
            ==> NormalizeControlNet(out, numText) == Ok([ToString(Get(out.fields, "image"), numText).value])
    ensures !Get(out.fields, "images").Arr? && Get(out.fields, "image") != Undef
            && ToString(Get(out.fields, "image"), numText).Err?
            ==> NormalizeControlNet(out, numText) == Err(ToString(Get(out.fields, "image"), numText).message)
    ensures !Get(out.fields, "images").Arr? && Get(out.fields, "image") == Undef && Get(out.fields, "output").Arr?
            ==> NormalizeControlNet(out, numText) == MapToString(Get(out.fields, "output").items, numText)
    ensures !Get(out.fields, "images").Arr? && Get(out.fields, "image") == Undef && Get(out.fields, "output").Str?
            ==> NormalizeControlNet(out, numText) == Ok([Get(out.fields, "output").s])
    ensures !Get(out.fields, "images").Arr? && Get(out.fields, "image") == Undef
            && !Get(out.fields, "output").Arr? && !Get(out.fields, "output").Str?
            ==> NormalizeControlNet(out, numText) == Err(ControlNetShapeError)
  {
  }

  /** The recorded test: a caller's `guidance_scale: undefined` keeps the
      default 7, and steps and conditioning keep 30 and 1.0. */
  lemma ControlNetDefaultsTest()
    ensures var merged := WithDefaults(map["image" := Str("img"), "control_image" := Str("ctrl"),
                                           "prompt" := Str("prompt"), "guidance_scale" := Undef]);
            && Maps(merged, "guidance_scale", Num(7.0))
            && Maps(merged, "num_inference_steps", Num(30.0))
            && Maps(merged, "controlnet_conditioning_scale", Num(1.0))
            && Maps(merged, "image", Str("img")) && Maps(merged, "prompt", Str("prompt"))
  {
    var input := map["image" := Str("img"), "control_image" := Str("ctrl"),
                     "prompt" := Str("prompt"), "guidance_scale" := Undef];
    assert input["guidance_scale"] == Undef;
    assert "num_inference_steps" !in input && "controlnet_conditioning_scale" !in input;
    assert input["image"] == Str("img") && input["prompt"] == Str("prompt");
  }
}
