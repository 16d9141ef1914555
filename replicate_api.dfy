/** The thin HTTP client for predictions: the status vocabulary, the
    request body and the two requests (backend/src/lib/replicate.ts). */
module ReplicateApi {
  import opened Results
  import opened JsValues

  /** `ReplicatePrediction.status`. */
  datatype Status = Starting | Processing | Succeeded | Failed | Canceled

  const StatusNames: seq<string> := ["starting", "processing", "succeeded", "failed", "canceled"]

  function StatusName(s: Status): string
  {
    match s
    case Starting => "starting"
    case Processing => "processing"
    case Succeeded => "succeeded"
    case Failed => "failed"
    case Canceled => "canceled"
  }

  /** Reading a status off the wire: exactly the five names are statuses. */
  function StatusFromName(name: string): (r: Option<Status>)
    ensures r.Some? <==> name in StatusNames
    ensures r.Some? ==> StatusName(r.value) == name
  {
    if name == "starting" then Some(Starting)
    else if name == "processing" then Some(Processing)
    else if name == "succeeded" then Some(Succeeded)
    else if name == "failed" then Some(Failed)
    else if name == "canceled" then Some(Canceled)
    else None
  }

  lemma {:induction false} StatusNamesRoundTrip(s: Status)
    ensures StatusFromName(StatusName(s)) == Some(s)
  {
  }

  /** A status after which polling stops. */
  predicate Terminal(s: Status)
  {
    s == Succeeded || s == Failed || s == Canceled
  }

  /** `ReplicatePrediction`; `error: None` stands for null or absent. */
  datatype Prediction = Prediction(id: string, status: Status, output: JsValue, error: Option<string>)

  // ---------------------------------------------------------------------
  // Authentication

  const TokenVariable: string := "REPLICATE_API_TOKEN"
  const MissingToken: string := "Missing REPLICATE_API_TOKEN"

  /** The token read when the module loads; an unset or empty token makes
      loading fail, before any request is built. */
  function LoadToken(env: map<string, string>): (r: Result<string>)
    ensures r.Ok? <==> TokenVariable in env && env[TokenVariable] != ""
    ensures r.Ok? ==> r.value == env[TokenVariable] && r.value != ""
    ensures r.Err? ==> r.message == MissingToken
  {
    if TokenVariable in env && env[TokenVariable] != "" then Ok(env[TokenVariable]) else Err(MissingToken)
  }

  // ---------------------------------------------------------------------
  // Request body

  datatype Webhook = Webhook(url: string, secret: string)

  predicate HasWebhook(webhook: Option<Webhook>)
  {
    webhook.Some? && webhook.value.url != ""
  }

  /** The body of `createPrediction`: version and input as given, and the
      webhook fields only for a non-empty webhook URL. */
  function PredictionBody(version: string, input: map<string, JsValue>, webhook: Option<Webhook>)
    : (body: map<string, JsValue>)
    ensures "version" in body && body["version"] == Str(version)
    ensures "input" in body && body["input"] == PlainObject(input)
    ensures "webhook" in body <==> HasWebhook(webhook)
    ensures "webhook_events_filter" in body <==> HasWebhook(webhook)
    ensures body.Keys == {"version", "input"} + (if HasWebhook(webhook) then {"webhook", "webhook_events_filter"} else {})
    ensures HasWebhook(webhook) ==>
              body["webhook"] == Str(webhook.value.url) && body["webhook_events_filter"] == Arr([Str("completed")])
  {
    var body := map["version" := Str(version), "input" := PlainObject(input)];
    if HasWebhook(webhook) then
      body["webhook" := Str(webhook.value.url)]["webhook_events_filter" := Arr([Str("completed")])]
    else body
  }

  /** The body as `createPrediction` builds it: a literal, then the webhook
      fields added to it in place. */
  method BuildPredictionBody(version: string, input: map<string, JsValue>, webhook: Option<Webhook>)
    returns (body: map<string, JsValue>)
    ensures body == PredictionBody(version, input, webhook)
  {
    body := map["version" := Str(version), "input" := PlainObject(input)];
    if webhook.Some? && webhook.value.url != "" {
      body := body["webhook" := Str(webhook.value.url)];
      body := body["webhook_events_filter" := Arr([Str("completed")])];
    }
  }

  /** The webhook secret never reaches the body: two secrets give the same
      body. */
  lemma SecretNeverSent(version: string, input: map<string, JsValue>, url: string, s1: string, s2: string)
    ensures PredictionBody(version, input, Some(Webhook(url, s1)))
            == PredictionBody(version, input, Some(Webhook(url, s2)))
    ensures PredictionBody(version, input, Some(Webhook("", s1))) == PredictionBody(version, input, None)
  {
  }

  // ---------------------------------------------------------------------
  // Requests

  datatype HttpMethod = Post | Get

  datatype HttpRequest = HttpRequest(
    verb: HttpMethod,
    url: string,
    headers: map<string, string>,
    body: Option<map<string, JsValue>>)

  const PredictionsUrl: string := "https://api.replicate.com/v1/predictions"

  function Authorization(token: string): string
  {
    "Token " + token
  }

  /** `createPrediction`'s request. */
  function CreateRequest(token: string, version: string, input: map<string, JsValue>, webhook: Option<Webhook>)
    : (req: HttpRequest)
    requires token != ""
    ensures req.verb == Post && req.url == PredictionsUrl
    ensures req.headers == map["Authorization" := Authorization(token), "Content-Type" := "application/json"]
    ensures req.body == Some(PredictionBody(version, input, webhook))
  {
    HttpRequest(Post, PredictionsUrl,
                map["Authorization" := Authorization(token), "Content-Type" := "application/json"],
                Some(PredictionBody(version, input, webhook)))
  }

  /** The address of one prediction. */
  function PredictionUrl(id: string): (u: string)
    ensures |u| == |PredictionsUrl| + 1 + |id|
    ensures u[..|PredictionsUrl| + 1] == PredictionsUrl + "/"
    ensures u[|PredictionsUrl| + 1..] == id
  {
    PredictionsUrl + "/" + id
  }

  /** `getPrediction`'s request. */
  function GetRequest(token: string, id: string): (req: HttpRequest)
    requires token != ""
    ensures req.verb == Get && req.url == PredictionUrl(id) && req.body.None?
    ensures req.headers == map["Authorization" := Authorization(token)]
  {
    HttpRequest(Get, PredictionUrl(id), map["Authorization" := Authorization(token)], None)
  }

  /** Distinct predictions are fetched from distinct addresses, and the
      token is recoverable from the header. */
  lemma {:induction false} AddressingInjective(token1: string, token2: string, id1: string, id2: string)
    ensures PredictionUrl(id1) == PredictionUrl(id2) <==> id1 == id2
    ensures Authorization(token1) == Authorization(token2) <==> token1 == token2
  {
    if PredictionUrl(id1) == PredictionUrl(id2) {
      assert id1 == PredictionUrl(id1)[|PredictionsUrl| + 1..];
    }
    if Authorization(token1) == Authorization(token2) {
      assert token1 == Authorization(token1)[6..];
      assert token2 == Authorization(token2)[6..];
    }
  }

  /** A call the enhance service makes through this client (it never
      passes a webhook). */
  datatype Call = CreatePrediction(version: string, input: map<string, JsValue>) | GetPrediction(id: string)

  /** The request sent for a call: every call carries the token. */
  function ToRequest(token: string, call: Call): (req: HttpRequest)
    requires token != ""
    ensures "Authorization" in req.headers && req.headers["Authorization"] == Authorization(token)
    ensures call.CreatePrediction? ==> req == CreateRequest(token, call.version, call.input, None)
    ensures call.GetPrediction? ==> req == GetRequest(token, call.id)
  {
    match call
    case CreatePrediction(version, input) => CreateRequest(token, version, input, None)
    case GetPrediction(id) => GetRequest(token, id)
  }
}
