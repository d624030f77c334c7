/**
  The service layer: the two-tier webhook transport, the reading of the
  plan-status answer, the checkout-URL extraction and the request parts
  sent to the inference service. The network is an input: each request's
  outcome is given as a value, so every operation is a total function.
 */
module GeminiService {
  import opened Js
  import opened Types

  const DATA_WEBHOOK_URL := "https://zainwater99.app.n8n.cloud/webhook-test/analyse/data"
  const STRIPE_WEBHOOK_URL := "https://zainwater99.app.n8n.cloud/webhook/pay/stipe"
  const STATUS_WEBHOOK_URL := "https://zainwater99.app.n8n.cloud/webhook/user/status"

  const SYNC_SOURCE := "CaloriesAI_Web_Client"
  const STATUS_ACTION := "get_user_status"

  const SUCCESS_MESSAGE := "Success"
  const FAILED_PREFIX := "Request failed: "
  const OPAQUE_MESSAGE := "Request sent (Opaque response)"
  const NETWORK_ERROR := "Network error"
  const NO_URL_MESSAGE := "No URL returned from webhook"

  /** The data reported for a fallback delivery: `{info: "no-cors mode"}`. */
  const OPAQUE_DATA := JObj(map["info" := JStr("no-cors mode")])

  // ---------------------------------------------------------------------
  // Requests and their outcomes
  // ---------------------------------------------------------------------

  /** The JSON bodies the client posts. */
  datatype Payload =
    | SyncPayload(userId: string, userEmail: string, userPlan: UserPlan, timestamp: string,
                  entryData: NutritionalData, source: string)
    | StatusQuery(userId: string, email: string, action: string)
    | CheckoutQuery(userId: string, email: string, callbackUrl: string)

  /** A readable request, or one sent with `mode: 'no-cors'`. */
  datatype Mode = Cors | NoCors

  datatype Request = Request(url: string, mode: Mode, contentType: string, payload: Payload)

  /** What reading a body (response.json() or response.text()) gives. */
  datatype Read<T> = Got(value: T) | ReadThrows(error: Raised)

  /** Outcome of the standard request: it throws, or a response arrives with
      its status, content-type header and what each way of reading its body
      would give. */
  datatype PrimaryOutcome =
    | PrimaryThrows(error: Raised)
    | Responds(ok: bool, statusText: string, contentType: Option<string>,
               json: Read<JsValue>, text: Read<string>)

  /** Outcome of the opaque fallback request. */
  datatype FallbackOutcome = Sent | FallbackThrows(error: Raised)

  /** `{success, data?, message?}`; an absent field is None. */
  datatype WebhookResponse = WebhookResponse(success: bool, data: Option<JsValue>, message: Option<string>)

  /** The answer together with the requests that were made to get it. */
  datatype Attempt = Attempt(response: WebhookResponse, requests: seq<Request>)

  // ---------------------------------------------------------------------
  // attemptFetch
  // ---------------------------------------------------------------------

  /** The body is parsed as JSON exactly when a content-type header is
      present and mentions application/json. */
  predicate DeclaresJson(contentType: Option<string>) {
    contentType.Some? && Includes(contentType.value, "application/json")
  }

  /** The body as attemptFetch reads it: parsed JSON, or the raw text. */
  function ReadBody(json: Read<JsValue>, text: Read<string>, contentType: Option<string>): (r: Read<JsValue>)
    ensures DeclaresJson(contentType) ==> r == json
    ensures !DeclaresJson(contentType) && text.Got? ==> r == Got(JStr(text.value))
    ensures !DeclaresJson(contentType) && text.ReadThrows? ==> r == ReadThrows(text.error)
  {
    if DeclaresJson(contentType) then json
    else match text
      case Got(t) => Got(JStr(t))
      case ReadThrows(e) => ReadThrows(e)
  }

  /** The message kept when both requests throw. */
  function PrimaryErrorMessage(e: Raised): (m: string)
    ensures e.ErrorObject? ==> m == e.message
    ensures e.NotAnError? ==> m == NETWORK_ERROR
  {
    if e.ErrorObject? then e.message else NETWORK_ERROR
  }

  function PrimaryRequest(url: string, payload: Payload): Request {
    Request(url, Cors, "application/json", payload)
  }

  function FallbackRequest(url: string, payload: Payload): Request {
    Request(url, NoCors, "text/plain", payload)
  }

  /** attemptFetch: a readable POST; only when it throws (including while
      its body is read) one opaque POST of the same payload follows. The
      contract states the shape of every run: the standard request always
      comes first, at most one fallback follows, both go to the same URL
      with the same payload, and a failed run with a fallback carries no data. */
  function AttemptFetch(url: string, payload: Payload, primary: PrimaryOutcome, fallback: FallbackOutcome): (a: Attempt)
    ensures 1 <= |a.requests| <= 2
    ensures a.requests[0] == PrimaryRequest(url, payload)
    ensures |a.requests| == 2 ==> a.requests[1] == FallbackRequest(url, payload)
    ensures a.response.success ==> a.response.data.Some?
    ensures |a.requests| == 2 ==> (a.response.success <==> fallback.Sent?)
    ensures a.response.message.Some?
  {
    var first := PrimaryRequest(url, payload);
    var second := FallbackRequest(url, payload);
    var outcome :=
      match primary
      case PrimaryThrows(e) => ReadThrows(e)
      case Responds(_, _, ct, json, text) => ReadBody(json, text, ct);
    match outcome
    case Got(body) =>
      if primary.ok then
        Attempt(WebhookResponse(true, Some(body), Some(SUCCESS_MESSAGE)), [first])
      else
        Attempt(WebhookResponse(false, Some(body), Some(FAILED_PREFIX + primary.statusText)), [first])
    case ReadThrows(e) =>
      match fallback
      case Sent =>
        Attempt(WebhookResponse(true, Some(OPAQUE_DATA), Some(OPAQUE_MESSAGE)), [first, second])
      case FallbackThrows(_) =>
        Attempt(WebhookResponse(false, None, Some(PrimaryErrorMessage(e))), [first, second])
  }

  /** The primary request answered and its body could be read. */
  predicate Answered(primary: PrimaryOutcome) {
    primary.Responds? && ReadBody(primary.json, primary.text, primary.contentType).Got?
  }

  /** When the standard request answers, its status decides the result, the
      body is the data, and no fallback is sent. */
  lemma AnsweredIsReported(url: string, payload: Payload, primary: PrimaryOutcome, fallback: FallbackOutcome)
    requires Answered(primary)
    ensures var a := AttemptFetch(url, payload, primary, fallback);
      a.requests == [PrimaryRequest(url, payload)] &&
      a.response.success == primary.ok &&
      a.response.data == Some(ReadBody(primary.json, primary.text, primary.contentType).value) &&
      a.response.message == Some(if primary.ok then SUCCESS_MESSAGE else FAILED_PREFIX + primary.statusText)
  {
  }

  /** The reported data of an answered request is its parsed JSON when the
      content type declares JSON and its text otherwise. */
  lemma BodyFollowsContentType(url: string, payload: Payload, ok: bool, statusText: string,
                               contentType: Option<string>, body: JsValue, text: string)
    ensures AttemptFetch(url, payload, Responds(ok, statusText, contentType, Got(body), Got(text)), Sent).response.data ==
      if contentType.Some? && Includes(contentType.value, "application/json") then Some(body) else Some(JStr(text))
  {
  }

  /** The fallback is sent exactly when the standard request does not
      answer, and then exactly once. */
  lemma FallbackOnlyWhenPrimaryThrows(url: string, payload: Payload, primary: PrimaryOutcome, fallback: FallbackOutcome)
    ensures var a := AttemptFetch(url, payload, primary, fallback);
      (|a.requests| == 2 <==> !Answered(primary)) &&
      |set k | 0 <= k < |a.requests| && a.requests[k].mode == NoCors| == (if Answered(primary) then 0 else 1)
  {
    var a := AttemptFetch(url, payload, primary, fallback);
    var fallbacks := set k | 0 <= k < |a.requests| && a.requests[k].mode == NoCors;
    if Answered(primary) {
      assert fallbacks == {};
    } else {
      assert fallbacks == {1};
    }
  }

  /** A fallback that goes through is reported as a success with the opaque
      marker as data. */
  lemma OpaqueFallbackSucceeds(url: string, payload: Payload, primary: PrimaryOutcome)
    requires !Answered(primary)
    ensures AttemptFetch(url, payload, primary, Sent).response ==
      WebhookResponse(true, Some(OPAQUE_DATA), Some(OPAQUE_MESSAGE))
  {
  }

  /** When both requests throw, the result is a failure whose message comes
      from the standard request's error; the fallback's error never shows. */
  lemma BothThrowReportsPrimaryError(url: string, payload: Payload, e: Raised, f1: Raised, f2: Raised)
    ensures AttemptFetch(url, payload, PrimaryThrows(e), FallbackThrows(f1)).response ==
      WebhookResponse(false, None, Some(if e.ErrorObject? then e.message else "Network error"))
    ensures AttemptFetch(url, payload, PrimaryThrows(e), FallbackThrows(f1)) ==
      AttemptFetch(url, payload, PrimaryThrows(e), FallbackThrows(f2))
  {
  }

  // ---------------------------------------------------------------------
  // fetchUserPlanStatus
  // ---------------------------------------------------------------------

  /** `data.plan || data.userPlan || (typeof data === 'string' ? data : null)` */
  function ExtractPlan(data: JsValue): (p: JsValue)
    ensures Truthy(p) <==> Truthy(Field(data, "plan")) || Truthy(Field(data, "userPlan")) || (data.JStr? && data.s != "")
    ensures p == Field(data, "plan") || p == Field(data, "userPlan") || p == data || p == JNull
  {
    Or(Or(Field(data, "plan"), Field(data, "userPlan")), if data.JStr? then data else JNull)
  }

  /** `typeof plan === 'string' ? plan.trim().toUpperCase() : ''` */
  function NormalisedPlanText(plan: JsValue): (t: string)
    ensures !plan.JStr? ==> t == ""
    ensures plan.JStr? ==> |t| <= |plan.s|
    ensures plan.JStr? && AllWhitespace(plan.s) ==> t == ""
  {
    if plan.JStr? then ToUpper(Trim(plan.s)) else ""
  }

  /** The plan a truthy data value names. */
  function PlanFromData(data: JsValue): (p: UserPlan)
    ensures p == PRO <==> ExtractPlan(data).JStr? && exists i :: ProAt(ExtractPlan(data).s, i)
  {
    var plan := ExtractPlan(data);
    assert plan.JStr? ==> (NormalisedPlanText(plan) == "PRO" <==> exists i :: ProAt(plan.s, i)) by {
      if plan.JStr? {
        NormalisesToProIff(plan.s);
      }
    }
    if NormalisedPlanText(plan) == "PRO" then PRO else FREE
  }

  /** The plan read from a status response: PRO only from a successful
      response with truthy data naming PRO. */
  function PlanStatus(resp: WebhookResponse): (p: UserPlan)
    ensures p == PRO ==> resp.success && resp.data.Some? && Truthy(resp.data.value)
    ensures !resp.success ==> p == FREE
  {
    if resp.success && resp.data.Some? && Truthy(resp.data.value) then PlanFromData(resp.data.value) else FREE
  }

  /** fetchUserPlanStatus as written: every run yields a plan, FREE when the
      status could not be read. */
  function FetchUserPlanStatus(userId: string, email: string, primary: PrimaryOutcome, fallback: FallbackOutcome): (p: UserPlan)
    ensures p == PRO ==> Answered(primary) && primary.ok
  {
    var a := AttemptFetch(STATUS_WEBHOOK_URL, StatusQuery(userId, email, STATUS_ACTION), primary, fallback);
    assert Field(OPAQUE_DATA, "plan") == JUndefined && Field(OPAQUE_DATA, "userPlan") == JUndefined;
    PlanStatus(a.response)
  }

  /** The three letters of "pro" in any mix of cases. */
  predicate IsProWord(w: string) {
    |w| == 3 && (w[0] == 'p' || w[0] == 'P') && (w[1] == 'r' || w[1] == 'R') && (w[2] == 'o' || w[2] == 'O')
  }

  /** `s` is "pro" in any case at position `i`, with only whitespace around. */
  predicate ProAt(s: string, i: int) {
    0 <= i && i + 3 <= |s| && AllWhitespace(s[..i]) && IsProWord(s[i..i + 3]) && AllWhitespace(s[i + 3..])
  }

  lemma UpperIsPro(w: string)
    requires |w| == 3
    ensures ToUpper(w) == "PRO" <==> IsProWord(w)
  {
    if IsProWord(w) {
      assert ToUpper(w) == [UpperChar(w[0]), UpperChar(w[1]), UpperChar(w[2])];
    }
  }

  /** A string plan normalises to "PRO" exactly when it is "pro" in any
      mix of cases surrounded by whitespace only. */
  lemma NormalisesToProIff(s: string)
    ensures NormalisedPlanText(JStr(s)) == "PRO" <==> exists i :: ProAt(s, i)
  {
    if ToUpper(Trim(s)) == "PRO" {
      NormalisedIsPadded(s);
    }
    if exists i :: ProAt(s, i) {
      var i :| ProAt(s, i);
      PaddedNormalises(s, i);
    }
  }

  lemma NormalisedIsPadded(s: string)
    requires ToUpper(Trim(s)) == "PRO"
    ensures exists i :: ProAt(s, i)
  {
    var t := Trim(s);
    var (i, j) := TrimBounds(s);
    UpperIsPro(t);
    WhitespaceSlice(s, 0, i);
    WhitespaceSlice(s, j, |s|);
    assert s[..i] == s[0..i] && s[i + 3..] == s[j..|s|];
    assert ProAt(s, i);
  }

  lemma PaddedNormalises(s: string, i: int)
    requires ProAt(s, i)
    ensures ToUpper(Trim(s)) == "PRO"
  {
    var core := s[i..i + 3];
    assert s == s[..i] + core + s[i + 3..];
    TrimPadded(s[..i], core, s[i + 3..]);
    UpperIsPro(core);
  }

  /** A string that reads as PRO does so in each of the three places the
      plan is looked for. */
  lemma ProInEveryPlace(s: string, i: int)
    requires ProAt(s, i)
    ensures PlanFromData(JObj(map["plan" := JStr(s)])) == PRO
    ensures PlanFromData(JObj(map["userPlan" := JStr(s)])) == PRO
    ensures PlanFromData(JStr(s)) == PRO
  {
    PaddedNormalises(s, i);
    assert NormalisedPlanText(JStr(s)) == "PRO";
    assert Truthy(JStr(s));
    assert ExtractPlan(JObj(map["plan" := JStr(s)])) == JStr(s) by {
      assert Field(JObj(map["plan" := JStr(s)]), "plan") == JStr(s);
    }
    assert ExtractPlan(JObj(map["userPlan" := JStr(s)])) == JStr(s) by {
      assert Field(JObj(map["userPlan" := JStr(s)]), "plan") == JUndefined;
      assert Field(JObj(map["userPlan" := JStr(s)]), "userPlan") == JStr(s);
    }
    assert ExtractPlan(JStr(s)) == JStr(s);
  }

  /** "pro" in any case, with no padding, reads as PRO everywhere. */
  lemma ProWordAlone(w: string)
    requires IsProWord(w)
    ensures PlanFromData(JObj(map["plan" := JStr(w)])) == PRO
    ensures PlanFromData(JObj(map["userPlan" := JStr(w)])) == PRO
    ensures PlanFromData(JStr(w)) == PRO
  {
    assert w[..0] == [] && w[0..3] == w && w[3..] == [];
    ProInEveryPlace(w, 0);
  }

  /** " Pro ", "pro" and "PRO" read as PRO. */
  lemma ProExamples()
    ensures PlanFromData(JObj(map["plan" := JStr(" Pro ")])) == PRO
    ensures PlanFromData(JStr("pro")) == PRO
    ensures PlanFromData(JObj(map["userPlan" := JStr("PRO")])) == PRO
  {
    PaddedProExample();
    ProWordAlone("pro");
    ProWordAlone("PRO");
  }

  lemma PaddedProExample()
    ensures PlanFromData(JObj(map["plan" := JStr(" Pro ")])) == PRO
  {
    var s := " Pro ";
    assert s[..1] == " " && s[1..4] == "Pro" && s[4..] == " ";
    assert ProAt(s, 1);
    ProInEveryPlace(s, 1);
  }

  /** "premium", "" and a plan that is not a string read as FREE. */
  lemma FreeExamples(other: JsValue)
    requires !other.JStr?
    ensures PlanFromData(JObj(map["plan" := JStr("premium")])) == FREE
    ensures PlanFromData(JObj(map["plan" := JStr("")])) == FREE
    ensures PlanFromData(JObj(map["plan" := other])) == FREE
  {
    PremiumIsFree();
    EmptyPlanIsFree();
    NonStringPlanIsFree(other);
  }

  lemma PremiumIsFree()
    ensures PlanFromData(JObj(map["plan" := JStr("premium")])) == FREE
  {
    assert ExtractPlan(JObj(map["plan" := JStr("premium")])) == JStr("premium");
    TrimPadded("", "premium", "");
    assert "" + "premium" + "" == "premium";
  }

  lemma EmptyPlanIsFree()
    ensures PlanFromData(JObj(map["plan" := JStr("")])) == FREE
  {
    assert ExtractPlan(JObj(map["plan" := JStr("")])) == JNull;
  }

  lemma NonStringPlanIsFree(other: JsValue)
    requires !other.JStr?
    ensures PlanFromData(JObj(map["plan" := other])) == FREE
  {
    assert !ExtractPlan(JObj(map["plan" := other])).JStr?;
  }

  /** Extraction order: `plan` first, then `userPlan`, then the data itself
      when it is a string; a falsy candidate passes to the next. */
  lemma ExtractionOrder(data: JsValue)
    ensures Truthy(Field(data, "plan")) ==> ExtractPlan(data) == Field(data, "plan")
    ensures !Truthy(Field(data, "plan")) && Truthy(Field(data, "userPlan")) ==> ExtractPlan(data) == Field(data, "userPlan")
    ensures !Truthy(Field(data, "plan")) && !Truthy(Field(data, "userPlan")) ==>
      ExtractPlan(data) == if data.JStr? then data else JNull
  {
  }

  /** A truthy `plan` that is not a string hides a valid `userPlan`: the
      result is FREE. */
  lemma NonStringPlanShadows(fields: map<string, JsValue>)
    requires "plan" in fields && Truthy(fields["plan"]) && !fields["plan"].JStr?
    ensures PlanFromData(JObj(fields)) == FREE
  {
  }

  /** fetchUserPlanStatus yields PRO exactly for a successful response with
      truthy data whose extracted plan is a string that reads "pro" in any
      case with only whitespace around it. */
  lemma PlanStatusProIff(resp: WebhookResponse)
    ensures PlanStatus(resp) == PRO <==>
      resp.success && resp.data.Some? && Truthy(resp.data.value) &&
      ExtractPlan(resp.data.value).JStr? && exists i :: ProAt(ExtractPlan(resp.data.value).s, i)
  {
    if resp.success && resp.data.Some? && Truthy(resp.data.value) && ExtractPlan(resp.data.value).JStr? {
      NormalisesToProIff(ExtractPlan(resp.data.value).s);
    }
  }

  /** The plan status as the reconciler should read it: a plan only when
      the standard request answered with a 2xx status, none when the answer
      could not be read (both requests threw, only the opaque fallback went
      through, or the status was not 2xx). */
  function ReconciledPlan(userId: string, email: string, primary: PrimaryOutcome, fallback: FallbackOutcome): (p: Option<UserPlan>)
    ensures p.Some? <==> Answered(primary) && primary.ok
    ensures p.Some? ==> p.value == FetchUserPlanStatus(userId, email, primary, fallback)
  {
    var a := AttemptFetch(STATUS_WEBHOOK_URL, StatusQuery(userId, email, STATUS_ACTION), primary, fallback);
    if |a.requests| == 1 && a.response.success then Some(PlanStatus(a.response)) else None
  }

  /** As written, an unreachable status endpoint reads as FREE whatever the
      fallback does. */
  lemma OutageReadsAsFree(userId: string, email: string, e: Raised, fallback: FallbackOutcome)
    ensures FetchUserPlanStatus(userId, email, PrimaryThrows(e), fallback) == FREE
    ensures ReconciledPlan(userId, email, PrimaryThrows(e), fallback) == None
  {
    var a := AttemptFetch(STATUS_WEBHOOK_URL, StatusQuery(userId, email, STATUS_ACTION), PrimaryThrows(e), fallback);
    if fallback.Sent? {
      assert Field(OPAQUE_DATA, "plan") == JUndefined;
      assert Field(OPAQUE_DATA, "userPlan") == JUndefined;
    }
  }

  // ---------------------------------------------------------------------
  // syncToN8nWebhook and createStripeCheckout
  // ---------------------------------------------------------------------

  /** The record posted to the data webhook after an analysis. */
  function SyncPayloadFor(data: NutritionalData, userEmail: string, userId: string, userPlan: UserPlan, timestamp: string): (p: Payload)
    ensures p.SyncPayload? && p.entryData == data && p.userId == userId && p.userEmail == userEmail
    ensures p.userPlan == userPlan && p.timestamp == timestamp && p.source == SYNC_SOURCE
  {
    SyncPayload(userId, userEmail, userPlan, timestamp, data, SYNC_SOURCE)
  }

  /** syncToN8nWebhook: the payload delivered through attemptFetch. */
  function SyncToWebhook(data: NutritionalData, userEmail: string, userId: string, userPlan: UserPlan, timestamp: string,
                         primary: PrimaryOutcome, fallback: FallbackOutcome): (a: Attempt)
    ensures forall k | 0 <= k < |a.requests| ::
      a.requests[k].url == DATA_WEBHOOK_URL && a.requests[k].payload == SyncPayloadFor(data, userEmail, userId, userPlan, timestamp)
  {
    AttemptFetch(DATA_WEBHOOK_URL, SyncPayloadFor(data, userEmail, userId, userPlan, timestamp), primary, fallback)
  }

  /** What the checkout endpoint does: the request throws, or a response
      arrives and response.json() gives a value or throws. The status is not
      consulted. */
  datatype CheckoutFetch = CheckoutThrows(error: Raised) | CheckoutResponds(json: Read<JsValue>)

  /** The checkout request the client posts. */
  function CheckoutRequest(userId: string, userEmail: string, callbackUrl: string): Request {
    Request(STRIPE_WEBHOOK_URL, Cors, "application/json", CheckoutQuery(userId, userEmail, callbackUrl))
  }

  /** createStripeCheckout: `data.url || data.data?.url`, an error when that
      is falsy, and the fetch or parse error when there is no data. */
  function CheckoutUrl(outcome: CheckoutFetch): (r: Result<JsValue>)
    ensures r.Ok? ==> Truthy(r.value)
    ensures r.Ok? ==> outcome.CheckoutResponds? && outcome.json.Got?
    ensures r.Ok? ==>
      r.value == Field(outcome.json.value, "url") || r.value == Field(Field(outcome.json.value, "data"), "url")
  {
    match outcome
    case CheckoutThrows(e) => Err(e)
    case CheckoutResponds(ReadThrows(e)) => Err(e)
    case CheckoutResponds(Got(data)) =>
      if data.JNull? || data.JUndefined? then
        Err(EngineTypeError("read of property 'url' on " + (if data.JNull? then "null" else "undefined")))
      else
        var url := Or(Field(data, "url"), Field(Field(data, "data"), "url"));
        if Truthy(url) then Ok(url) else Err(ErrorObject(NO_URL_MESSAGE))
  }

  /** The URL selection: the top-level `url` wins when truthy; otherwise the
      nested `data.url`; with neither, the call fails with "No URL returned
      from webhook". */
  lemma CheckoutUrlSelection(data: JsValue)
    requires !data.JNull? && !data.JUndefined?
    ensures Truthy(Field(data, "url")) ==> CheckoutUrl(CheckoutResponds(Got(data))) == Ok(Field(data, "url"))
    ensures !Truthy(Field(data, "url")) && Truthy(Field(Field(data, "data"), "url")) ==>
      CheckoutUrl(CheckoutResponds(Got(data))) == Ok(Field(Field(data, "data"), "url"))
    ensures !Truthy(Field(data, "url")) && !Truthy(Field(Field(data, "data"), "url")) ==>
      CheckoutUrl(CheckoutResponds(Got(data))) == Err(ErrorObject("No URL returned from webhook"))
  {
  }

  // ---------------------------------------------------------------------
  // analyzeMealWithGemini: the request parts
  // ---------------------------------------------------------------------

  /** One part of the inference request. */
  datatype Part = InlineData(mimeType: string, data: string) | TextPart(text: string)

  const IMAGE_PROMPT := "Analyze the food in this image. Provide nutritional estimates."

  /** `imageBase64.split(',')[1] || imageBase64`: the text between the first
      comma and the next one, unless that is missing or empty. */
  function StripDataUrlPrefix(image: string): (r: string)
    ensures r == image || (r != "" && ',' !in r && exists i :: OccursAt(image, [','] + r, i))
    ensures ',' !in image ==> r == image
  {
    var parts := Split(image, ',');
    if |parts| > 1 && parts[1] != "" then
      JoinHead(parts, ',');
      parts[1]
    else image
  }

  /** A data URL "header,payload" loses its header; a string without a comma,
      or whose text after the comma is empty, is kept whole. */
  lemma StripDataUrlPrefixSpec(header: string, payload: string, plain: string)
    requires ',' !in header && ',' !in payload && payload != ""
    requires ',' !in plain
    ensures StripDataUrlPrefix(header + "," + payload) == payload
    ensures StripDataUrlPrefix(header + ",") == header + ","
    ensures StripDataUrlPrefix(plain) == plain
  {
    SplitAfterHead(header, ',', payload);
    SplitAfterHead(header, ',', "");
    assert header + "," + "" == header + ",";
  }

  /** The prompt: the description when there is one, else the image prompt. */
  function PromptText(textInput: string): (p: string)
    ensures textInput != "" ==> p == "Analyze this meal described as: \"" + textInput + "\". Provide nutritional estimates."
    ensures textInput == "" ==> p == IMAGE_PROMPT
  {
    if textInput != "" then "Analyze this meal described as: \"" + textInput + "\". Provide nutritional estimates."
    else IMAGE_PROMPT
  }

  /** A description reaches the service verbatim, between double quotes,
      and its prompt is never the image prompt. */
  lemma PromptQuotesText(textInput: string)
    requires textInput != ""
    ensures Includes(PromptText(textInput), "\"" + textInput + "\"")
    ensures PromptText(textInput) != IMAGE_PROMPT
  {
    var p := PromptText(textInput);
    var q := "\"" + textInput + "\"";
    var pre, post := "Analyze this meal described as: ", ". Provide nutritional estimates.";
    assert p == pre + q + post;
    assert forall j | 0 <= j < |q| :: p[|pre| + j] == q[j];
    assert p[|pre|..|pre| + |q|] == q;
    assert OccursAt(p, q, |pre|);
    assert |p| > |IMAGE_PROMPT|;
  }

  /** The parts sent to the inference service: the image (when a non-empty
      one is given, with its data-URL header removed, labelled JPEG) and then
      the prompt, which is always last. */
  function RequestParts(textInput: string, image: Option<string>): (parts: seq<Part>)
    ensures |parts| == (if image.Some? && image.value != "" then 2 else 1)
    ensures parts[|parts| - 1] == TextPart(PromptText(textInput))
    ensures |parts| == 2 ==> parts[0] == InlineData("image/jpeg", StripDataUrlPrefix(image.value))
  {
    var imagePart := if image.Some? && image.value != "" then [InlineData("image/jpeg", StripDataUrlPrefix(image.value))] else [];
    imagePart + [TextPart(PromptText(textInput))]
  }
}
