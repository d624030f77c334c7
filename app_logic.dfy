/**
  The state updaters of the application screen, each a pure map from the
  previous snapshot to the next: the free-tier quota gate and its daily
  rollover, the repair of a restored record, the merge of a reconciled
  plan, quota consumption, the stable login id, the free-uses badge, and
  the toasts for the webhook result and the checkout redirect.
 */
module AppLogic {
  import opened Js
  import opened Types
  import opened GeminiService

  /** Free analyses per calendar day. */
  const MAX_FREE_USES := 3

  const MOCK_NAME := "Alex Doe"
  const MOCK_EMAIL := "alex.doe@example.com"
  const MOCK_AVATAR := "https://picsum.photos/100/100"
  const RESTORED_PREFIX := "usr_restored_"
  const LOGIN_PREFIX := "google_uid_"

  /** `s.slice(0, 8)`. */
  function Take8(s: string): (r: string)
    ensures |r| == if |s| < 8 then |s| else 8
    ensures r == s[..|r|]
  {
    if |s| <= 8 then s else s[..8]
  }

  /** INITIAL_USER with the given id; its date is the one computed when the
      module was loaded, not the day of the login. */
  function InitialUser(id: string, loadDate: string): (u: UserProfile)
    ensures u.id == id && u.plan == FREE && u.dailyUsageCount == 0 && u.lastUsageDate == loadDate
  {
    UserProfile(id, MOCK_NAME, MOCK_EMAIL, FREE, MOCK_AVATAR, 0, loadDate)
  }

  // ---------------------------------------------------------------------
  // checkLimit
  // ---------------------------------------------------------------------

  /** The gate's verdict, the user record it leaves, and whether it opens
      the upgrade modal. */
  datatype LimitDecision = LimitDecision(allowed: bool, user: Option<UserProfile>, openUpgrade: bool)

  /** Room for one more free analysis today. */
  predicate HasFreeRoom(u: UserProfile, today: string) {
    u.lastUsageDate == today && u.dailyUsageCount < MAX_FREE_USES
  }

  /** checkLimit. A user record goes in and a user record comes out, with
      at most the counter and its date changed; the modal opens exactly when
      a signed-in user is refused; a FREE user is let through only with room
      for one more use today; a refusal means a FREE user at the limit today. */
  function CheckLimit(user: Option<UserProfile>, today: string): (d: LimitDecision)
    ensures d.allowed ==> user.Some?
    ensures d.openUpgrade <==> user.Some? && !d.allowed
    ensures d.user.Some? <==> user.Some?
    ensures d.user.Some? ==> d.user.value == user.value.(dailyUsageCount := d.user.value.dailyUsageCount,
                                                         lastUsageDate := d.user.value.lastUsageDate)
    ensures d.allowed && user.value.plan == FREE ==> HasFreeRoom(d.user.value, today)
    ensures user.Some? && !d.allowed ==>
      user.value.plan == FREE && user.value.lastUsageDate == today && user.value.dailyUsageCount >= MAX_FREE_USES
  {
    match user
    case None => LimitDecision(false, None, false)
    case Some(u) =>
      if u.plan == PRO then LimitDecision(true, user, false)
      else if u.lastUsageDate != today then
        LimitDecision(true, Some(u.(dailyUsageCount := 0, lastUsageDate := today)), false)
      else if u.dailyUsageCount >= MAX_FREE_USES then
        assert u.plan == FREE;
        LimitDecision(false, user, true)
      else LimitDecision(true, user, false)
  }

  /** No user: refused. PRO: allowed, record untouched. */
  lemma CheckLimitNoUserOrPro(u: UserProfile, today: string)
    requires u.plan == PRO
    ensures CheckLimit(None, today) == LimitDecision(false, None, false)
    ensures CheckLimit(Some(u), today) == LimitDecision(true, Some(u), false)
  {
  }

  /** A FREE user whose date is not today is let through and the counter
      restarts at 0 for today, whatever it held. */
  lemma CheckLimitRollsOver(u: UserProfile, today: string)
    requires u.plan == FREE && u.lastUsageDate != today
    ensures CheckLimit(Some(u), today) ==
      LimitDecision(true, Some(u.(dailyUsageCount := 0, lastUsageDate := today)), false)
  {
  }

  /** On today's date a FREE user is refused with the modal at 3 or more
      uses and let through, record untouched, below 3. */
  lemma CheckLimitSameDay(u: UserProfile, today: string)
    requires u.plan == FREE && u.lastUsageDate == today
    ensures u.dailyUsageCount >= 3 ==> CheckLimit(Some(u), today) == LimitDecision(false, Some(u), true)
    ensures u.dailyUsageCount < 3 ==> CheckLimit(Some(u), today) == LimitDecision(true, Some(u), false)
  {
  }

  // ---------------------------------------------------------------------
  // Quota consumption and history
  // ---------------------------------------------------------------------

  /** The updater after a successful analysis: one more use, nothing else. */
  function ConsumeQuota(user: Option<UserProfile>): (r: Option<UserProfile>)
    ensures r.Some? <==> user.Some?
    ensures r.Some? ==> r.value == user.value.(dailyUsageCount := r.value.dailyUsageCount)
    ensures r.Some? ==> r.value.dailyUsageCount == user.value.dailyUsageCount + 1
  {
    match user
    case None => None
    case Some(u) => Some(u.(dailyUsageCount := u.dailyUsageCount + 1))
  }

  /** The history updater: the new entry first, the old entries behind it
      in their order. */
  function PrependEntry(history: seq<MealEntry>, entry: MealEntry): (r: seq<MealEntry>)
    ensures |r| == |history| + 1 && r[0] == entry && r[1..] == history
  {
    [entry] + history
  }

  /** A FREE user let through by the gate stays within the daily quota
      after the use is recorded. */
  lemma GateThenConsumeStaysWithinQuota(user: Option<UserProfile>, today: string)
    requires CheckLimit(user, today).allowed && user.value.plan == FREE
    ensures var r := ConsumeQuota(CheckLimit(user, today).user).value;
      r.lastUsageDate == today && r.dailyUsageCount <= MAX_FREE_USES
  {
  }

  /** The number of `true`s in a sequence. */
  function Successes(outcomes: seq<bool>): nat {
    if outcomes == [] then 0 else (if outcomes[0] then 1 else 0) + Successes(outcomes[1..])
  }

  /** One day of analysis requests by the same user: each goes through the
      gate, and only a request that is let through and whose analysis
      succeeds records a use. `outcomes[k]` is whether the k-th analysis
      would succeed. */
  function RunDay(user: Option<UserProfile>, today: string, outcomes: seq<bool>): Option<UserProfile>
    decreases |outcomes|
  {
    if outcomes == [] then user
    else
      var d := CheckLimit(user, today);
      RunDay(if d.allowed && outcomes[0] then ConsumeQuota(d.user) else d.user, today, outcomes[1..])
  }

  function Min(a: int, b: int): int { if a <= b then a else b }

  /** Over a day that a FREE user starts on today's date with c uses (0 <= c
      <= 3), the counter ends at min(3, c + number of successful analyses):
      failures never consume, and no success is counted past the limit. */
  lemma {:induction false} RunDayCountsSuccesses(u: UserProfile, today: string, outcomes: seq<bool>)
    requires u.plan == FREE && u.lastUsageDate == today && 0 <= u.dailyUsageCount <= MAX_FREE_USES
    ensures RunDay(Some(u), today, outcomes) ==
      Some(u.(dailyUsageCount := Min(MAX_FREE_USES, u.dailyUsageCount + Successes(outcomes))))
    decreases |outcomes|
  {
    if outcomes != [] {
      var d := CheckLimit(Some(u), today);
      var next := if d.allowed && outcomes[0] then ConsumeQuota(d.user) else d.user;
      RunDayCountsSuccesses(next.value, today, outcomes[1..]);
    }
  }

  /** A fresh day (stored date not today) starts from 0 whatever the stored
      counter: the counter ends at min(3, number of successes). */
  lemma RunFreshDay(u: UserProfile, today: string, outcomes: seq<bool>)
    requires u.plan == FREE && u.lastUsageDate != today && outcomes != []
    ensures RunDay(Some(u), today, outcomes) ==
      Some(u.(dailyUsageCount := Min(MAX_FREE_USES, Successes(outcomes)), lastUsageDate := today))
  {
    var reset := u.(dailyUsageCount := 0, lastUsageDate := today);
    var next := if outcomes[0] then ConsumeQuota(Some(reset)) else Some(reset);
    RunDayCountsSuccesses(next.value, today, outcomes[1..]);
  }

  // ---------------------------------------------------------------------
  // Free-uses badge
  // ---------------------------------------------------------------------

  /** `user ? Math.max(0, MAX_FREE_USES - user.dailyUsageCount) : 0` */
  function RemainingFreeUses(user: Option<UserProfile>): (r: int)
    ensures r >= 0
    ensures user.Some? && user.value.dailyUsageCount >= 0 ==> r <= MAX_FREE_USES
    ensures user.Some? ==> (r > 0 <==> user.value.dailyUsageCount < MAX_FREE_USES)
    ensures user.None? ==> r == 0
  {
    match user
    case None => 0
    case Some(u) => if MAX_FREE_USES - u.dailyUsageCount > 0 then MAX_FREE_USES - u.dailyUsageCount else 0
  }

  /** For a FREE user dated today the badge and the gate agree: the gate
      lets the user through exactly when the badge shows a use left, and a
      recorded use takes exactly one off the badge. */
  lemma BadgeAgreesWithGate(u: UserProfile, today: string)
    requires u.plan == FREE && u.lastUsageDate == today
    ensures CheckLimit(Some(u), today).allowed <==> RemainingFreeUses(Some(u)) > 0
    ensures 0 <= u.dailyUsageCount < MAX_FREE_USES ==>
      RemainingFreeUses(ConsumeQuota(Some(u))) == RemainingFreeUses(Some(u)) - 1
  {
  }

  /** A freshly signed-in user has the whole quota: the badge shows 3 and
      the gate lets the first analysis through, re-dating the record to
      today when the module was loaded on another day. */
  lemma FreshUserHasFullQuota(id: string, loadDate: string, today: string)
    ensures RemainingFreeUses(Some(InitialUser(id, loadDate))) == MAX_FREE_USES
    ensures var d := CheckLimit(Some(InitialUser(id, loadDate)), today);
      d.allowed && d.user == Some(InitialUser(id, today))
  {
  }

  // ---------------------------------------------------------------------
  // Bootstrap
  // ---------------------------------------------------------------------

  /** The restored record: a missing id is replaced by "usr_restored_" and
      the first 8 characters of a fresh uuid, and a record dated another day
      gets its counter reset for today. The record always ends dated today,
      never with an empty id, and keeps everything else. */
  function RestoreUser(saved: UserProfile, today: string, uuid: string): (r: UserProfile)
    ensures r.lastUsageDate == today
    ensures r.id != ""
    ensures saved.id != "" ==> r.id == saved.id
    ensures saved.id == "" ==> r.id == RESTORED_PREFIX + Take8(uuid)
    ensures r.dailyUsageCount == if saved.lastUsageDate == today then saved.dailyUsageCount else 0
    ensures r == saved.(id := r.id, dailyUsageCount := r.dailyUsageCount, lastUsageDate := r.lastUsageDate)
  {
    var withId := if saved.id == "" then saved.(id := RESTORED_PREFIX + Take8(uuid)) else saved;
    if withId.lastUsageDate != today then withId.(dailyUsageCount := 0, lastUsageDate := today) else withId
  }

  /** Restoring a record that was already restored today changes nothing,
      whatever uuid the second restore draws. */
  lemma RestoreIsIdempotent(saved: UserProfile, today: string, uuid1: string, uuid2: string)
    ensures RestoreUser(RestoreUser(saved, today, uuid1), today, uuid2) == RestoreUser(saved, today, uuid1)
  {
  }

  /** A restored FREE record passes the gate exactly when the badge shows a
      use left, and the gate then leaves it as it is. */
  lemma RestoredGate(saved: UserProfile, today: string, uuid: string)
    requires saved.plan == FREE
    ensures var r := RestoreUser(saved, today, uuid);
      CheckLimit(Some(r), today).allowed <==> RemainingFreeUses(Some(r)) > 0
    ensures CheckLimit(Some(RestoreUser(saved, today, uuid)), today).user == Some(RestoreUser(saved, today, uuid))
  {
    BadgeAgreesWithGate(RestoreUser(saved, today, uuid), today);
  }

  // ---------------------------------------------------------------------
  // Reconciliation
  // ---------------------------------------------------------------------

  const PRO_ACTIVE := Notification(Success, "Your PRO plan is active!", None)

  /** The record after a merge and the toast the merge raises, if any. */
  datatype Merge = Merge(user: Option<UserProfile>, notification: Option<Notification>)

  /** The setUser updater of syncAccountStatus: no record stays no record;
      otherwise only the plan takes the fetched value, and the "PRO active"
      toast is raised exactly when the plan changes to PRO. */
  function MergePlan(prev: Option<UserProfile>, actual: UserPlan): (m: Merge)
    ensures prev.None? ==> m == Merge(None, None)
    ensures prev.Some? ==> m.user == Some(prev.value.(plan := actual))
    ensures m.notification.Some? <==> prev.Some? && prev.value.plan != actual && actual == PRO
    ensures m.notification.Some? ==> m.notification.value == PRO_ACTIVE
  {
    match prev
    case None => Merge(None, None)
    case Some(u) =>
      if u.plan != actual then
        Merge(Some(u.(plan := actual)), if actual == PRO then Some(PRO_ACTIVE) else None)
      else Merge(prev, None)
  }

  /** Merging the same plan twice: the second merge changes nothing and
      raises nothing; a plan equal to the cached one is a no-op. */
  lemma MergeIsIdempotent(prev: Option<UserProfile>, actual: UserPlan)
    ensures MergePlan(MergePlan(prev, actual).user, actual) == Merge(MergePlan(prev, actual).user, None)
    ensures prev.Some? && prev.value.plan == actual ==> MergePlan(prev, actual) == Merge(prev, None)
  {
  }

  /** A downgrade to FREE is silent. */
  lemma DowngradeIsSilent(u: UserProfile)
    requires u.plan == PRO
    ensures MergePlan(Some(u), FREE) == Merge(Some(u.(plan := FREE)), None)
  {
  }

  /** Scenario: the status answers {plan: "PRO"} while FREE is cached; the
      cache becomes PRO and one success toast is raised. */
  lemma ProAnswerUpgradesCache(u: UserProfile, statusText: string, text: Read<string>)
    requires u.plan == FREE
    ensures var plan := FetchUserPlanStatus(u.id, u.email,
      Responds(true, statusText, Some("application/json"), Got(JObj(map["plan" := JStr("PRO")])), text), Sent);
      MergePlan(Some(u), plan) == Merge(Some(u.(plan := PRO)), Some(PRO_ACTIVE))
  {
    var data := JObj(map["plan" := JStr("PRO")]);
    var primary := Responds(true, statusText, Some("application/json"), Got(data), text);
    assert DeclaresJson(Some("application/json")) by {
      assert OccursAt("application/json", "application/json", 0);
    }
    AnsweredIsReported(STATUS_WEBHOOK_URL, StatusQuery(u.id, u.email, STATUS_ACTION), primary, Sent);
    assert PlanFromData(data) == PRO by {
      ProWordAlone("PRO");
    }
  }

  /** The sync updater as the reconciler should apply it: a status that could
      not be read leaves the record and the toast as they are. */
  function ApplyReconciled(prev: Option<UserProfile>, fetched: Option<UserPlan>): (m: Merge)
    ensures fetched.None? ==> m == Merge(prev, None)
    ensures fetched.Some? ==> m == MergePlan(prev, fetched.value)
  {
    match fetched
    case None => Merge(prev, None)
    case Some(p) => MergePlan(prev, p)
  }

  /** As written, a status endpoint that cannot be reached turns a cached
      PRO record into FREE, silently; read as the reconciler should, the
      same run leaves the record untouched. */
  lemma OutageDowngradesPro(u: UserProfile, e: Raised, fallback: FallbackOutcome)
    requires u.plan == PRO
    ensures MergePlan(Some(u), FetchUserPlanStatus(u.id, u.email, PrimaryThrows(e), fallback)) ==
      Merge(Some(u.(plan := FREE)), None)
    ensures ApplyReconciled(Some(u), ReconciledPlan(u.id, u.email, PrimaryThrows(e), fallback)) ==
      Merge(Some(u), None)
  {
    OutageReadsAsFree(u.id, u.email, e, fallback);
  }

  // ---------------------------------------------------------------------
  // Login
  // ---------------------------------------------------------------------

  /** The id a login uses and the stable id left in storage. */
  datatype LoginIds = LoginIds(id: string, stored: Option<string>)

  /** handleLogin's id: the stored stable id when there is a non-empty one,
      otherwise "google_uid_" and 8 characters of a fresh uuid, which is
      then stored. Afterwards the store holds exactly the id in use. */
  function LoginId(stored: Option<string>, uuid: string): (r: LoginIds)
    ensures r.id != "" && r.stored == Some(r.id)
    ensures stored.Some? && stored.value != "" ==> r.id == stored.value
    ensures !(stored.Some? && stored.value != "") ==> r.id == LOGIN_PREFIX + Take8(uuid)
  {
    if stored.Some? && stored.value != "" then LoginIds(stored.value, stored)
    else
      var id := LOGIN_PREFIX + Take8(uuid);
      LoginIds(id, Some(id))
  }

  /** The second login on a device reuses the first login's id, whatever
      uuid it draws. */
  lemma LoginIdIsStable(stored: Option<string>, uuid1: string, uuid2: string)
    ensures LoginId(LoginId(stored, uuid1).stored, uuid2) == LoginId(stored, uuid1)
  {
  }

  // ---------------------------------------------------------------------
  // handleAnalyze: input gate and the new entry
  // ---------------------------------------------------------------------

  datatype InputMethod = TextInput | ImageInput

  /** The input gate of handleAnalyze: a text request needs text that is not
      all whitespace, an image request needs a non-empty image. */
  function InputReady(inputMethod: InputMethod, text: string, image: Option<string>): (ok: bool)
    ensures inputMethod == TextInput ==> (ok <==> exists k :: 0 <= k < |text| && !IsWhitespace(text[k]))
    ensures inputMethod == ImageInput ==> (ok <==> image.Some? && image.value != "")
  {
    match inputMethod
    case TextInput =>
      var t := Trim(text);
      if t != [] then
        assert !IsWhitespace(t[0]);
        true
      else
        false
    case ImageInput => image.Some? && image.value != ""
  }

  /** `selectedImage || undefined`. */
  function ImageOrAbsent(image: Option<string>): (r: Option<string>)
    ensures r.Some? <==> image.Some? && image.value != ""
    ensures r.Some? ==> r == image
  {
    if image.Some? && image.value != "" then image else None
  }

  /** The entry recorded for a successful analysis: it carries the inputs
      and the result as given, the image only when there is one. */
  function NewEntry(id: string, timestamp: int, text: string, image: Option<string>, data: NutritionalData): (e: MealEntry)
    ensures e.id == id && e.timestamp == timestamp && e.data == data
    ensures e.textInput == Some(text) && e.imageUrl == ImageOrAbsent(image)
  {
    MealEntry(id, timestamp, ImageOrAbsent(image), Some(text), data)
  }

  // ---------------------------------------------------------------------
  // Webhook result toast
  // ---------------------------------------------------------------------

  const SAVED_TO_CLOUD := "Analysis saved to cloud."
  const SYNC_PENDING := "Analysis complete (Cloud sync pending)"

  /** `response.message || 'Analysis saved to cloud.'` */
  function SuccessMessage(resp: WebhookResponse): (m: string)
    ensures m != ""
    ensures resp.message.Some? && resp.message.value != "" ==> m == resp.message.value
    ensures !(resp.message.Some? && resp.message.value != "") ==> m == SAVED_TO_CLOUD
  {
    if resp.message.Some? && resp.message.value != "" then resp.message.value else SAVED_TO_CLOUD
  }

  /** The toast details for a data value that is neither null nor absent:
      the JSON dump of an object or array without a truthy `message`. */
  function DataDetails(v: JsValue): (d: Option<Detail>)
    ensures d.Some? <==> (v.JObj? || v.JArr?) && !Truthy(Field(v, "message"))
    ensures d.Some? ==> d.value == PrettyJson(v)
  {
    if (v.JObj? || v.JArr?) && !Truthy(Field(v, "message")) then Some(PrettyJson(v)) else None
  }

  /** The `.then` handler as written. `typeof null === 'object'` lets a null
      data value reach `response.data.message`, which throws; the `.catch`
      only logs, so no toast is raised (None). */
  function WebhookToastAsWritten(resp: WebhookResponse): (t: Option<Notification>)
    ensures t.None? <==> resp.success && resp.data == Some(JNull)
  {
    if resp.success then
      if resp.data == Some(JNull) then None
      else
        var details := if resp.data.Some? then DataDetails(resp.data.value) else None;
        Some(Notification(Success, SuccessMessage(resp), details))
    else Some(Notification(Info, SYNC_PENDING, None))
  }

  /** The handler as intended: a success always raises the success toast
      (with no details for null data) and a failure the "sync pending" info
      toast; it agrees with the written handler wherever that one raises a
      toast. */
  function WebhookToast(resp: WebhookResponse): (t: Notification)
    ensures t.kind == Success <==> resp.success
    ensures t.kind == Info <==> !resp.success
    ensures resp.success ==> t.message == SuccessMessage(resp) && t.message != ""
    ensures !resp.success ==> t == Notification(Info, SYNC_PENDING, None)
    ensures t.details.Some? ==> resp.success && resp.data.Some? && t.details.value == PrettyJson(resp.data.value)
    ensures WebhookToastAsWritten(resp).Some? ==> WebhookToastAsWritten(resp).value == t
  {
    if resp.success then
      var details := if resp.data.Some? && resp.data.value != JNull then DataDetails(resp.data.value) else None;
      Notification(Success, SuccessMessage(resp), details)
    else Notification(Info, SYNC_PENDING, None)
  }

  /** The input that shows the difference: the webhook answers 2xx with a
      JSON body `null`. The written handler raises no toast; the intended one
      raises the success toast. */
  lemma NullBodyLosesToast(payload: Payload, statusText: string, text: Read<string>, fallback: FallbackOutcome)
    ensures var resp := AttemptFetch(DATA_WEBHOOK_URL, payload,
      Responds(true, statusText, Some("application/json"), Got(JNull), text), fallback).response;
      WebhookToastAsWritten(resp) == None && WebhookToast(resp) == Notification(Success, "Success", None)
  {
    assert Includes("application/json", "application/json") by {
      assert OccursAt("application/json", "application/json", 0);
    }
  }

  // ---------------------------------------------------------------------
  // handleUpgrade
  // ---------------------------------------------------------------------

  const CHECKOUT_FAILED := "Could not start checkout. Check console."

  /** Where an upgrade request ends: a redirect, or an error toast. */
  datatype UpgradeOutcome = Redirect(url: string) | UpgradeFailed(toast: Notification)

  /** handleUpgrade after createStripeCheckout: redirect only to a string
      URL starting with "http"; every other result, and every error on the
      way, becomes the checkout error toast carrying the error's message. */
  function UpgradeResult(fetch: CheckoutFetch): (r: UpgradeOutcome)
    ensures r.Redirect? ==> StartsWith(r.url, "http")
    ensures r.Redirect? ==> CheckoutUrl(fetch) == Ok(JStr(r.url))
    ensures r.UpgradeFailed? ==> r.toast.kind == Error && r.toast.message == CHECKOUT_FAILED && r.toast.details.Some?
    ensures CheckoutUrl(fetch).Ok? && CheckoutUrl(fetch).value.JStr? && StartsWith(CheckoutUrl(fetch).value.s, "http") ==> r.Redirect?
  {
    var failed := (e: Thrown) => UpgradeFailed(Notification(Error, CHECKOUT_FAILED, Some(DetailOf(e, "Unknown error"))));
    match CheckoutUrl(fetch)
    case Err(e) => failed(e)
    case Ok(url) =>
      if url.JStr? then
        if StartsWith(url.s, "http") then Redirect(url.s)
        else failed(ErrorObject("Invalid checkout URL: " + url.s))
      else failed(EngineTypeError("checkoutUrl.startsWith is not a function"))
  }

  /** A URL without the "http" scheme prefix is refused with its text in the
      toast; a missing URL reports the endpoint's error. */
  lemma UpgradeRefusals(data: JsValue, url: string)
    requires !data.JNull? && !data.JUndefined?
    requires !StartsWith(url, "http") && url != ""
    ensures UpgradeResult(CheckoutResponds(Got(JObj(map["url" := JStr(url)])))) ==
      UpgradeFailed(Notification(Error, CHECKOUT_FAILED, Some(Plain("Invalid checkout URL: " + url))))
    ensures !Truthy(Field(data, "url")) && !Truthy(Field(Field(data, "data"), "url")) ==>
      UpgradeResult(CheckoutResponds(Got(data))) ==
        UpgradeFailed(Notification(Error, CHECKOUT_FAILED, Some(Plain("No URL returned from webhook"))))
  {
    CheckoutUrlSelection(data);
  }
}
