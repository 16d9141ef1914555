# Render Up backend core, modelled in Dafny

Render Up turns a photograph or render of a building into a photoreal
"enhanced" image. Its backend runs hosted models on Replicate in stages:
a depth-estimation model, then an SDXL ControlNet-depth model conditioned on
that depth map, then an optional upscaler. This project models the part of
the backend that turns user intent and raw provider payloads into stage
inputs and result URLs:

- **Output-shape normalisers** (`ReplicateProvider`). The depth stage's
  duck-typed output (a string, an array or an object) becomes one URL. The
  ControlNet stage's output becomes an ordered list of URLs. The module also
  covers environment lookup with fallback and the ControlNet defaults merge.
- **Prediction API** (`ReplicateApi`). This covers the five prediction
  statuses, the request body with its optional webhook fields, the two
  request shapes and their `Authorization` header.
- **Stage services** (`EnhanceService`). This covers strength tuning, the
  polling loop shared by the three stages, SDXL input construction, the
  upscale pass-through and the hosted-URL check.
- **Parameter tables**. `Presets` holds the single-call pipeline's prompt and
  weights. `EnhanceSchema` holds the route's request schema and its prompt
  table. `ImageUtil` holds `toMultipleOf8`.
- **Stage sequencing**. `Pipeline` is the single-call pipeline. `EnhanceRoute`
  is the `POST /api/enhance` handler.

Dynamic JavaScript values are the datatype `JsValues.JsValue`. An object
records how `String(obj)` behaves: it has no `toString`, it inherits
`Object.prototype.toString` (every plain or JSON object does, giving
"[object Object]"), or it has its own `toString`. A thrown `Error(msg)` is
`Err(msg)`.

Calls the model cannot see are parameters:
- `replicate.run` is a function from model name and input to a result.
- The replies to the axios requests are an input script. Each stage gets the
  creation reply, then the replies to its successive status fetches.
- JavaScript's rendering of numbers (`numText`) and `Number(text)`
  (`toNumber`) are functions.

Every operation that makes client calls also returns the calls it made, in
order. The lemmas use that list to state ordering, argument wiring and which
stages run.

Polling loops, the in-place building of the request body and SDXL input, and
the route handler's `hostedUrl` and `finalUrl` updates are imperative
methods. Each one is proved equal to a specification function, and the
properties are proved about those functions.

## Model

| member | source | states |
|---|---|---|
| JsValues.Truthy | backend/src/providers/replicate.ts:43-47 | The falsy values are exactly `undefined`, `null`, `false`, `0` and the empty string. Every array and object is truthy. |
| JsValues.ToString | backend/src/providers/replicate.ts:43-47 | `String(v)`: a string is unchanged and primitives always convert. An object fails iff it has no `toString`. The only error is the TypeError "Cannot convert object to primitive value". |
| JsValues.JoinElement | backend/src/providers/replicate.ts:43-47 | `Array.prototype.join` renders `null` and `undefined` elements as "", and fails only with `String`'s TypeError. |
| JsValues.JoinItems | backend/src/providers/replicate.ts:43-47 | `items.join(",")`, the string form of an array: "" for no elements, the lone element's rendering for one, and success iff every element converts. |
| ReplicateProvider.GetEnv | backend/src/providers/replicate.ts:13-20 | A set, non-empty variable is returned. An unset or empty one gives the fallback when one is supplied. Otherwise it throws "Missing required environment variable NAME" (an iff on success). |
| ReplicateProvider.ToLower | backend/src/providers/replicate.ts:35-40 | Same length, character-wise lower-casing, no upper-case ASCII letter left. |
| ReplicateProvider.LoadProviderConfig | backend/src/providers/replicate.ts:23-40 | The token defaults to "". Each model ID is the lower-cased variable when it is set and non-empty, and the published default otherwise. |
| ReplicateProvider.ToUrl | backend/src/providers/replicate.ts:43-47 | Strings come back unchanged. A falsy value gives no URL. A non-empty result implies a truthy value. A failure is exactly `String`'s failure. |
| ReplicateProvider.Or | backend/src/providers/replicate.ts:81-84 | The `\|\|` chain: a thrown error propagates, a truthy URL wins, and an empty one defers to the next. |
| ReplicateProvider.HeadUrl | backend/src/providers/replicate.ts:91-94 | `Array.isArray(x) && toUrl(x[0])`: no URL unless x is an array, otherwise `toUrl` of its first element. |
| ReplicateProvider.ArrayDepthUrl | backend/src/providers/replicate.ts:70-73 | Non-arrays give nothing. A URL from this branch means a non-empty array whose element 0 is truthy. |
| ReplicateProvider.StringFormDepthUrl | backend/src/providers/replicate.ts:75-86 | Values other than objects with a `toString` give nothing. With the inherited rendering counted, a plain object never gives the empty result. A URL from this branch comes from a truthy `url` or `data` or from the object's own string form. |
| ReplicateProvider.KeyedDepthUrl | backend/src/providers/replicate.ts:88-96 | Non-objects give nothing. A URL from this branch means a truthy `image`, an `images` array, a truthy `depth_map` or a truthy `output`. |
| ReplicateProvider.NormalizeDepth | backend/src/providers/replicate.ts:69-98 | A bare string (even "") is returned unchanged. Any other success is non-empty. Primitives and an empty array throw the shape error. A non-empty array yields the URL of element 0 or throws. |
| ReplicateProvider.NormalizeDepthCorrected | backend/src/providers/replicate.ts:75-96 | On every value other than an object with an inherited `toString`, it agrees with the as-written normaliser (see Findings). A bare string is returned unchanged, any other success is non-empty, and primitives throw. |
| ReplicateProvider.DefinedEntries | backend/src/providers/replicate.ts:126-128 | It keeps exactly the entries whose value is not `undefined`, unchanged. |
| ReplicateProvider.WithDefaults | backend/src/providers/replicate.ts:125-130 | Keys are the defaults' keys plus the caller's defined keys. Defined caller fields override the defaults. An `undefined` field leaves its default in place. No merged value is `undefined`. |
| ReplicateProvider.MapToString | backend/src/providers/replicate.ts:133-139 | `items.map(String)`: it succeeds iff every element converts, preserves length and order, and otherwise fails with an element's error. |
| ReplicateProvider.NormalizeControlNet | backend/src/providers/replicate.ts:133-143 | Arrays are mapped element-wise through `String` (an empty array gives []). A string becomes a one-element list. Primitives throw "Unexpected ControlNet output shape". |
| ReplicateProvider.DepthCall | backend/src/providers/replicate.ts:65-67 | The depth call goes to the depth model with exactly `image` and `model` (the size name). |
| ReplicateProvider.RunDepthAnythingV2 | backend/src/providers/replicate.ts:61-99 | A client failure propagates unchanged. A client success is passed through the as-written depth normaliser. |
| ReplicateProvider.RunDepthAnythingV2Corrected | backend/src/providers/replicate.ts:61-99 | The same stage with the corrected normaliser (see Findings). It agrees with RunDepthAnythingV2 unless the client returns an object with an inherited `toString`. |
| ReplicateProvider.ControlNetCall | backend/src/providers/replicate.ts:129-131 | The ControlNet call goes to the ControlNet model with the input merged over the defaults. |
| ReplicateProvider.RunSDXLControlNetDepth | backend/src/providers/replicate.ts:124-144 | A client failure propagates. Otherwise the result is the ControlNet normaliser applied to the client's output. |
| ReplicateProvider.DepthStringFormOrder | backend/src/providers/replicate.ts:75-98 | For any object with a `toString`, a non-empty `toUrl(url)` or a conversion error there decides; otherwise `toUrl(data)` does. When both are empty, a plain object gives "[object Object]" and an own non-empty string form gives itself. An own `toString` that renders "" falls through to the keyed lookup, and then to the shape error. |
| ReplicateProvider.DepthInheritedSkipsKeyedLookup | backend/src/providers/replicate.ts:75-96 | For an object with an inherited `toString` the string-form branch always answers, so the keyed lookup is never reached. |
| ReplicateProvider.DepthPlainObjectYieldsObjectTag | backend/src/providers/replicate.ts:75-86 | A plain object without a truthy `url` or `data` normalises to "[object Object]". |
| ReplicateProvider.DepthImageObjectAsWritten | backend/src/providers/replicate.ts:75-96 | The plain JSON object `{image: u}` yields "[object Object]", not u. |
| ReplicateProvider.DepthCorrectedReadsPlainObjectFields | backend/src/providers/replicate.ts:88-96 | With the correction, a plain object without a truthy `url` or `data` is read through the keyed lookup, so `{image: u}` yields u. "[object Object]" comes back only when a keyed field holds that text. |
| ReplicateProvider.DepthKeyedOrder | backend/src/providers/replicate.ts:88-98 | For any object without `toString`, the first of `toUrl(image)`, `images[0]` (only when `images` is an array), `toUrl(depth_map)` and `toUrl(output)` that is non-empty, or that fails to convert, is the result. When all four are empty, the shape error is thrown; the `output[0]` alternative never changes that. |
| ReplicateProvider.DepthKeyedScenarios | backend/src/providers/replicate.ts:75-98 | `{images: [], depth_map: "d"}` gives "d". `{foo: "bar"}` throws the shape error. A numeric `image` gives its `String` rendering. An own `toString` rendering "" falls through to `image`. |
| ReplicateProvider.DepthOutputArrayIsJoined | backend/src/providers/replicate.ts:93-94 | `{ output: [a, b] }` without `toString` gives "a,b". |
| ReplicateProvider.OutputHeadFallbackUnreachable | backend/src/providers/replicate.ts:93-94 | Whenever `toUrl(output)` is empty, so is `toUrl(output[0])`, so the final `output[0]` alternative never contributes. |
| ReplicateProvider.ControlNetStringArray | backend/src/providers/replicate.ts:133 | An array of strings is returned element for element. |
| ReplicateProvider.ControlNetObjectOrder | backend/src/providers/replicate.ts:136-143 | For objects the order is: `images` array mapped through `String`; any defined `image` through `String` (null gives "null", an image without `toString` throws); an `output` array mapped through `String`; an `output` string. Otherwise it throws. |
| ReplicateProvider.ControlNetDefaultsTest | backend/src/providers/replicate.test.ts:18-30 | The test's scenario: an `undefined` guidance scale keeps the default 7, and steps 30 and conditioning 1.0 are added. |
| ReplicateApi.StatusFromName | backend/src/lib/replicate.ts:8 | Exactly the five status names are statuses. |
| ReplicateApi.StatusNamesRoundTrip | backend/src/lib/replicate.ts:8 | Every status is recognised under its own name. |
| ReplicateApi.LoadToken | backend/src/lib/replicate.ts:3-4 | A missing or empty token fails with "Missing REPLICATE_API_TOKEN". Otherwise the token is returned. |
| ReplicateApi.PredictionBody | backend/src/lib/replicate.ts:18-22 | `version` and `input` are carried unchanged. `webhook` and `webhook_events_filter = ["completed"]` are present iff a non-empty webhook URL is given. There are no other keys. |
| ReplicateApi.BuildPredictionBody | backend/src/lib/replicate.ts:18-22 | The in-place construction builds exactly the specified body. |
| ReplicateApi.SecretNeverSent | backend/src/lib/replicate.ts:16-22 | The body does not depend on the webhook secret. An empty webhook URL is the same as no webhook. |
| ReplicateApi.CreateRequest | backend/src/lib/replicate.ts:23-28 | POST to the predictions URL with `Authorization: Token <token>` and a JSON content type. |
| ReplicateApi.PredictionUrl | backend/src/lib/replicate.ts:33 | The predictions URL, "/", then the id. |
| ReplicateApi.GetRequest | backend/src/lib/replicate.ts:32-37 | A GET with no body to the prediction URL, carrying only the token header. |
| ReplicateApi.AddressingInjective | backend/src/lib/replicate.ts:25-34 | Different ids address different URLs. Different tokens give different headers. |
| ReplicateApi.ToRequest | backend/src/lib/replicate.ts:23-37 | Every call carries the token. Creations and fetches map to their request shapes. |
| EnhanceService.UpscaleVersion | backend/src/services/enhance.ts:7 | The configured upscaler, or "" when unset. |
| EnhanceService.AdjustStrength | backend/src/services/enhance.ts:9-20 | Preserving gives strength max(0.25, s/2) with conditioning 1.0. Otherwise the strength is unchanged with conditioning 0.7. |
| EnhanceService.TuningOverSchemaDomain | backend/src/services/enhance.ts:13-19 | Over [0.1, 1], preserving gives a strength in [0.25, 0.5] and a tighter conditioning. Strength 0.6 gives 0.3/1.0 and 0.6/0.7. |
| EnhanceService.FailureMessage | backend/src/services/enhance.ts:29-31 | `cur.error`, or the fallback: a non-empty provider error, else the stage message. |
| EnhanceService.Verdict | backend/src/services/enhance.ts:28-31 | A stopping reply: succeeded returns the output, failed/canceled throws the failure message, and a transport error throws. |
| EnhanceService.PollSpec | backend/src/services/enhance.ts:26-33 | Any outcome other than running out of replies is the verdict of one of the replies that stops the loop. |
| EnhanceService.PollCount | backend/src/services/enhance.ts:26-33 | The loop never fetches more often than there are replies. |
| EnhanceService.Fetches | backend/src/services/enhance.ts:27 | Every fetch addresses the same prediction id. |
| EnhanceService.Poll | backend/src/services/enhance.ts:26-33 | The loop's outcome and fetches equal the polling specification on the replies. |
| EnhanceService.PollStopsAtFirstStop | backend/src/services/enhance.ts:26-33 | Polling ends at the first terminal reply with that reply's verdict, after exactly that many fetches. |
| EnhanceService.PollExhaustedIff | backend/src/services/enhance.ts:26-33 | Polling runs out of replies iff no reply is terminal, and then it has fetched once per reply. |
| EnhanceService.PollSkipsNonTerminal | backend/src/services/enhance.ts:26-33 | Non-terminal replies only lead to another fetch: they add fetches and change nothing else. |
| EnhanceService.SubmitSpec | backend/src/services/enhance.ts:25-27 | The first call creates the prediction. A failed creation throws. Otherwise the stage polls under the returned id. |
| EnhanceService.Submit | backend/src/services/enhance.ts:25-33 | The creation and polling sequence equals its specification. |
| EnhanceService.FirstIfArray | backend/src/services/enhance.ts:66-68 | Element 0 of an array (undefined if empty), anything else unchanged. |
| EnhanceService.DepthMapSpec | backend/src/services/enhance.ts:22-34 | The depth stage creates a prediction on `{image: url}` with the depth version, and its result is the raw polled output. |
| EnhanceService.RunDepthMap | backend/src/services/enhance.ts:22-34 | The method equals the depth-stage specification. |
| EnhanceService.SdxlInput | backend/src/services/enhance.ts:53-61 | Always image, control_image, prompt, strength and conditioning scale. Width and height are present only when truthy (0 is omitted). |
| EnhanceService.BuildSdxlInput | backend/src/services/enhance.ts:53-61 | The in-place construction builds exactly that input. |
| EnhanceService.SdxlSpec | backend/src/services/enhance.ts:63-74 | One creation with the SDXL version on the built input, then polling. A creation error throws. A successful poll gives element 0 of an array output, or the output itself. A failed poll throws the polling verdict. |
| EnhanceService.RunSdxlDepth | backend/src/services/enhance.ts:36-75 | The method equals the SDXL-stage specification, including element 0 of an array output. |
| EnhanceService.Scale | backend/src/services/enhance.ts:79 | 4 iff the factor is "4x", 2 otherwise. |
| EnhanceService.UpscaleSpec | backend/src/services/enhance.ts:77-92 | With no upscaler configured, the input URL is returned with no call. Otherwise one upscale creation, then polling. A creation error throws. A successful poll gives element 0 of an array output, or the output itself. A failed poll throws the polling verdict. |
| EnhanceService.RunUpscale | backend/src/services/enhance.ts:77-92 | The method equals the upscale specification. |
| EnhanceService.StageOutputs | backend/src/services/enhance.ts:26-33 | On a first succeeded fetch, depth returns the raw output after one creation and one fetch. A canceled first fetch throws the provider error or "Depth prediction failed". |
| EnhanceService.SdxlOutputs | backend/src/services/enhance.ts:64-72 | On a first succeeded fetch, SDXL returns element 0 of an array output. A canceled first fetch throws the provider error or "SDXL ControlNet-depth failed". |
| EnhanceService.UpscaleOutputs | backend/src/services/enhance.ts:81-89 | With an upscaler configured, a first succeeded fetch returns element 0 of an array output. A canceled first fetch throws the provider error or "Upscale failed". |
| EnhanceService.EnsureHostedUrl | backend/src/services/enhance.ts:94-97 | The fallback URL iff it is non-empty, whatever the buffer. Otherwise it throws the fixed message. |
| ImageUtil.Trunc | backend/src/utils/image.ts:22 | Truncation toward zero, bounded on both sides. |
| ImageUtil.ToMultipleOf8 | backend/src/utils/image.ts:21-23 | `n - n % 8`, with `%` as JavaScript's truncating remainder (`ImageUtil.JsRemainder`, whose result takes the sign of `n`). The result is a multiple of 8, within 8 of n on the side of zero. Multiples of 8 are fixed points. |
| ImageUtil.RoundedIsScaledTrunc | backend/src/utils/image.ts:22 | Subtracting the truncated remainder by 8 gives 8 times the truncated quotient. That value is a multiple of 8, lies between 0 and n, and is n itself when n is already a multiple of 8. |
| ImageUtil.Idempotent | backend/src/utils/image.ts:22 | Applying it twice equals applying it once. |
| ImageUtil.NonNegativeIntegers | backend/src/utils/image.ts:22 | For integers n ≥ 0 it is n - n mod 8, and 1024 and 768 are unchanged. |
| ImageUtil.NegativeRoundsTowardZero | backend/src/utils/image.ts:22 | JavaScript's truncating `%` sends -10 to -8. |
| Presets.BuildPrompt | backend/src/presets.ts:3-19 | The base string, then ", ", then the preset's suffix. |
| Presets.BaseText | backend/src/presets.ts:4-12 | The base string is the seven fixed phrases joined by ", ". |
| Presets.JoinSeven | backend/src/presets.ts:4-12 | Joining seven phrases with a separator gives the phrases in order with the separator between each adjacent pair. |
| Presets.BuildPromptInjective | backend/src/presets.ts:13-18 | Every prompt starts with the same base, and the three presets give pairwise-distinct prompts. |
| Presets.SuffixInjective | backend/src/presets.ts:13-17 | Two presets have the same suffix exactly when they are the same preset. |
| Presets.ControlWeights | backend/src/presets.ts:21-23 | Preserving gives 0.3/1.2, not preserving gives 0.45/0.8. |
| Presets.PreservingTightensControl | backend/src/presets.ts:22 | Preserving gives a lower strength and a higher control weight. |
| EnhanceSchema.PresetFromName | backend/src/schemas/enhance.ts:3-10 | Accepted iff the name is one of the three lighting presets. |
| EnhanceSchema.UpscaleFromName | backend/src/schemas/enhance.ts:13 | Accepted iff "none", "2x" or "4x". |
| EnhanceSchema.ModeFromName | backend/src/schemas/enhance.ts:14 | Accepted iff "sync" or "async". |
| EnhanceSchema.NamesRoundTrip | backend/src/schemas/enhance.ts:3-16 | Each enum value is accepted under its name, and "dramatic_contrast" is rejected. |
| EnhanceSchema.AllowAsync | backend/src/schemas/enhance.ts:15 | True iff ENHANCE_ALLOW_ASYNC is exactly "true". |
| EnhanceSchema.ParseStrength | backend/src/schemas/enhance.ts:11 | A missing strength gives 0.55. A non-finite one is rejected. A finite one is accepted iff it lies in [0.1, 1]. |
| EnhanceSchema.ParseBody | backend/src/schemas/enhance.ts:9-17 | It succeeds iff every present field is in its domain. Defaults are neutral_overcast, 0.55, preserve true and upscale none, and the mode is async iff async is allowed. Present values are kept, the strength included. |
| EnhanceSchema.PresetPrompt | backend/src/schemas/enhance.ts:21-30 | Every prompt contains "photoreal architecture" and ends with "high detail". |
| EnhanceSchema.PresetPromptInjective | backend/src/schemas/enhance.ts:21-30 | The three presets give three distinct prompts. |
| Pipeline.EffectiveStrength | backend/src/pipeline.ts:28 | `options.strength ?? weights.strength`. |
| Pipeline.SynthesisInput | backend/src/pipeline.ts:24-30 | The synthesis input holds the original image, the depth URL as `control_image`, the prompt, the effective strength and the preset control weight. |
| Pipeline.AfterDepth | backend/src/pipeline.ts:19-41 | Given the depth stage's answer: the depth call is first, a depth failure ends the run with its message after one call, and a depth URL leads to exactly one synthesis call wired to it. |
| Pipeline.Enhance | backend/src/pipeline.ts:18-41 | The depth call runs first, on the original image with size "Large". The synthesis call is made iff the as-written depth stage succeeds, and it is wired to that stage's URL. There are at most two calls. |
| Pipeline.EnhanceCorrected | backend/src/pipeline.ts:18-41 | The same pipeline over the corrected depth stage. It equals Enhance unless the depth model returns an object with an inherited `toString`. |
| Pipeline.PlainDepthPayloadWiring | backend/src/pipeline.ts:19-26 | When the depth model returns `{ image: u }`, the pipeline sends "[object Object]" as the control image. The corrected pipeline sends `u`. |
| Pipeline.SynthesisWiring | backend/src/pipeline.ts:24-30 | Synthesis gets the original image, the depth URL as control image, the prompt it is given (the pipeline passes the preset's prompt), the effective strength and the preset control weight. |
| Pipeline.SynthesisDefaults | backend/src/providers/replicate.ts:125-130 | The pipeline's synthesis call keeps steps 30 and guidance 7. |
| Pipeline.ResultAssembly | backend/src/pipeline.ts:32-40 | `images` is the synthesis output and `depthUrl` the depth URL. `meta` holds the prompt, the raw strength and the flag. |
| Pipeline.FailureAborts | backend/src/pipeline.ts:19-24 | A failing stage fails the run with its message, and nothing after it runs. |
| Pipeline.UpscaleIgnored | backend/src/pipeline.ts:9-41 | The upscale option changes nothing, and only the depth and ControlNet models are called. |
| EnhanceRoute.Field | backend/src/routes/enhance.ts:22-26 | `req.body?.name` is undefined iff the field is absent. |
| EnhanceRoute.CoerceForm | backend/src/routes/enhance.ts:21-27 | A missing or empty strength becomes undefined, otherwise `Number(field)`. preserve_composition "true"/"false" becomes the boolean, and anything else undefined. Other fields pass through. |
| EnhanceRoute.ServerError | backend/src/routes/enhance.ts:72 | The error message, or "Internal error" when it is empty. |
| EnhanceRoute.Hosting | backend/src/routes/enhance.ts:33-39 | Without a file, the form's imageUrl. With a file, the resizer's error or `ensureHostedUrl`'s, which fails iff imageUrl is missing or empty. A URL is always the form's imageUrl. |
| EnhanceRoute.RouteSdxlArgs | backend/src/routes/enhance.ts:45-57 | The SDXL stage gets the hosted URL, the depth URL and the preset's prompt. Strength and conditioning are `adjustStrength` of the body's strength and flag. No width or height is sent. |
| EnhanceRoute.UpscaleStep | backend/src/routes/enhance.ts:59-62 | The image passes through untouched with no call iff the factor is "none" or no upscaler is configured. Any other factor runs the upscale stage on the SDXL image with that factor. |
| EnhanceRoute.SynthesisSpec | backend/src/routes/enhance.ts:49-72 | After the depth stage, the first call creates the SDXL prediction on the route's arguments. A reply is either 200 with the enhanced body or 500 with an error message. |
| EnhanceRoute.StagesSpec | backend/src/routes/enhance.ts:48-72 | The stages always begin by creating the depth prediction on the hosted URL. |
| EnhanceRoute.HandleSpec | backend/src/routes/enhance.ts:19-74 | No client call is made unless the body is valid and the form has a non-empty imageUrl. The answer is 400 `InvalidBody` iff the schema rejects the body. |
| EnhanceRoute.Handle | backend/src/routes/enhance.ts:19-74 | The handler's response and calls equal the handler specification. |
| EnhanceRoute.RunUpscaleStep | backend/src/routes/enhance.ts:59-62 | The method equals the upscale step. |
| EnhanceRoute.RunStages | backend/src/routes/enhance.ts:48-68 | The stage sequence equals its specification. |
| EnhanceRoute.RunSynthesis | backend/src/routes/enhance.ts:49-72 | After the depth stage, the synthesis-and-upscale sequence (the first depth element as control image, the upscale step, then the reply or the 500 error) equals its specification. |
| EnhanceRoute.InvalidBodyRunsNoStage | backend/src/routes/enhance.ts:28-30 | A schema failure answers 400 with no call. |
| EnhanceRoute.MissingInputIs400 | backend/src/routes/enhance.ts:41-43 | No file and no imageUrl answers 400 "Provide a file or imageUrl" with no call. |
| EnhanceRoute.FileWithoutUrlIs500 | backend/src/routes/enhance.ts:36-72 | A file without an imageUrl answers 500 with `ensureHostedUrl`'s message. |
| EnhanceRoute.FirstCallIsDepth | backend/src/routes/enhance.ts:34-48 | Any call implies a valid body and a non-empty imageUrl, and the first call creates the depth prediction on that URL. |
| EnhanceRoute.StatusCodes | backend/src/routes/enhance.ts:28-72 | Every reply is 200, 400 or 500, and 200 iff it carries the enhanced result. |
| EnhanceRoute.StagesStatusCodes | backend/src/routes/enhance.ts:48-72 | Once the stages run, a reply is either 200 with the enhanced result or 500 with an error message. |
| EnhanceRoute.StageFailureIs500 | backend/src/routes/enhance.ts:48-72 | A throwing depth, SDXL or upscale stage answers 500 with its message, and no later stage runs. |
| EnhanceRoute.SuccessWiring | backend/src/routes/enhance.ts:45-68 | A 200 answer echoes preset, flag and upscale. SDXL ran on the hosted URL, the first depth output, the preset prompt and the tuned strength and conditioning scale. The reply's image is the upscale step's result. An upscale call happened iff a factor was asked for and an upscaler is configured, and otherwise the image is the SDXL output. |

The depth normaliser's keyed lookup (`image`, `images[0]`, `depth_map`,
`output`) is reached by objects with no `toString`. It is also reached by
objects whose own `toString` returns an empty string
(`DepthStringFormOrder`, `DepthKeyedScenarios`). Plain JSON objects never
reach it (see Findings).

## Left out

- The frontend, `backend/src/index.ts` (Express, multer and CORS wiring, request ids, timing) and all logging are not part of this model.
- `normalizeImageToMaxSize` and `sharp` are not modelled. The resizer's outcome (resized bytes or a thrown error) is an input of the route handler.
- The `ENHANCE_DEFAULT_MAX_SIZE` lookup only feeds the resizer, so it is not modelled.
- `replicate.run` and the axios requests are not executed. They are a function parameter and a script of replies.
- The `setTimeout` sleeps between polls are not modelled, and neither is wall-clock time.
- EnhanceService.Poll: the source loop polls for ever on non-terminal statuses. The model stops when the supplied replies run out (`TraceExhausted`), and the route then sends no reply.
- Numbers are exact reals, so NaN, the infinities and -0 are not represented. `Number(text)` is a parameter whose only non-finite result is `NotFinite`, which the schema rejects.
- JavaScript's rendering of numbers as text is a parameter and is not computed.
- ReplicateProvider.ToLower: only ASCII letters are lower-cased. Non-ASCII case mapping is not modelled.
- Objects without `toString` are modelled as objects with a null prototype. `valueOf`, `Symbol.toPrimitive` and function-valued fields (such as a file object's `url()` method) are not modelled.
- `REPLICATE_MODEL_DEPTH` and `REPLICATE_MODEL_SDXL_CONTROLNET_DEPTH` are read with a non-null assertion. The model takes them as given strings, and an unset variable is not modelled.
- A zod validation failure is flattened to `InvalidBody`; the error details are not modelled.
- The parsed `mode` is validated but never read by the handler, as in the source.
- EnhanceRoute.Handle: only the JSON body's meaningful fields are modelled. The literal `status: "succeeded"` key is implied by the 200 `Enhanced` body.

## Findings

| source | as written | input that shows it | evidently intended | confidence | as-written member | corrected member |
|---|---|---|---|---|---|---|
| backend/src/providers/replicate.ts:75-96 | The string-form branch is taken for every object whose `toString` is a function. That includes every plain JSON object, which inherits `Object.prototype.toString`, so `toUrl(out)` returns "[object Object]" and the keyed lookup of `image`, `images[0]`, `depth_map` and `output` is never reached for them. | The depth model returns `{ "image": "https://x/depth.png" }` | Return "https://x/depth.png", as the declared `DepthAnythingV2ResponseObject` shape intends | not executed; high | ReplicateProvider.DepthImageObjectAsWritten | ReplicateProvider.DepthCorrectedReadsPlainObjectFields |

`ReplicateProvider.NormalizeDepthCorrected` does not let an inherited
`toString` answer the string-form branch. Such an object still tries `url`
and `data`, then falls through to the keyed lookup.
`ReplicateProvider.RunDepthAnythingV2` and `Pipeline.Enhance` keep the
as-written normaliser. `ReplicateProvider.RunDepthAnythingV2Corrected` and
`Pipeline.EnhanceCorrected` are the corrected stage and pipeline, and
`Pipeline.PlainDepthPayloadWiring` shows the two apart on `{ image: u }`.
