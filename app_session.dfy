/**
  The application screen as a stateful session. Its React state (the cached
  user record, the newest-first history, the one toast, the modal, progress
  and view flags, the shown result and the input form) is one `Screen`
  record: React batches the state updates a handler makes and commits them
  together, so each handler step replaces that record. Beside it live the
  two pieces of browser state the screen writes: the storage keys and the
  address bar. A remote call's outcome is a parameter of the step that
  consumes it. The status sync and the webhook answer are steps of their
  own; handleAnalyze and handleUpgrade each run as one step, so their
  in-flight screens are not states of the model.
 */
module AppSession {
  import opened Js
  import opened Types
  import opened GeminiService
  import opened AppLogic

  const PAYMENT_NOTICE := Notification(Success, "Payment successful! Verifying plan...", None)
  const ANALYSIS_FAILED := Notification(Error, "Failed to analyze meal. Please try again.", None)

  /** The three browser-storage keys the client uses: the user record, the
      history list and the device's stable login id. */
  datatype Store = Store(savedUser: Option<UserProfile>, savedHistory: Option<seq<MealEntry>>, stableId: Option<string>)

  /** One value per state hook of the screen. */
  datatype Screen = Screen(
    user: Option<UserProfile>,
    history: seq<MealEntry>,
    notification: Option<Notification>,
    showUpgradeModal: bool,
    isAnalyzing: bool,
    isLoginView: bool,
    isUpgrading: bool,
    isSyncingStatus: bool,
    currentResult: Option<MealEntry>,
    inputMethod: InputMethod,
    inputText: string,
    selectedImage: Option<string>)

  /** The address bar: the `payment` query parameter, and the address the
      page was sent to by a checkout redirect. */
  datatype Location = Location(payment: Option<string>, redirectedTo: Option<string>)

  /** The invariant every handler keeps: the login view shows exactly when
      no one is signed in, and storage mirrors the signed-in record and the
      history. */
  predicate Consistent(s: Screen, store: Store) {
    s.isLoginView == s.user.None? &&
    (s.user.Some? ==> store.savedUser == s.user) &&
    store.savedHistory == Some(s.history)
  }

  /** The persistence effects after a commit: a signed-in record is written
      (a null one is not), the history always is, the stable id is not
      touched. They restore the mirror half of the invariant. */
  function Persisted(store: Store, s: Screen): (r: Store)
    ensures r.stableId == store.stableId
    ensures s.user.None? ==> r.savedUser == store.savedUser
    ensures s.isLoginView == s.user.None? ==> Consistent(s, r)
  {
    store.(savedUser := if s.user.Some? then s.user else store.savedUser, savedHistory := Some(s.history))
  }

  /** The screen after checkLimit: the record the gate leaves, and the
      upgrade modal opened by a refusal. */
  function Gated(s: Screen, today: string): Screen {
    var d := AppLogic.CheckLimit(s.user, today);
    s.(user := d.user, showUpgradeModal := s.showUpgradeModal || d.openUpgrade)
  }

  /** handleAnalyze goes past its guards: the gate lets the user through and
      the chosen input is present. */
  predicate AnalyzeStarts(s: Screen, today: string) {
    AppLogic.CheckLimit(s.user, today).allowed && InputReady(s.inputMethod, s.inputText, s.selectedImage)
  }

  /** The screen handleAnalyze leaves once the inference outcome is in: a
      refusal or a missing input leaves the gated screen; a failure raises
      the error toast; a success prepends the new entry, records one use,
      shows the entry and clears the inputs. */
  function AnalyzeNext(s: Screen, today: string, outcome: Result<NutritionalData>, entryId: string, timestamp: int): (n: Screen)
    ensures n.history == s.history || (|n.history| == |s.history| + 1 && n.history[1..] == s.history)
    ensures n.user.Some? <==> s.user.Some?
    ensures n.isLoginView == s.isLoginView && n.inputMethod == s.inputMethod && n.isUpgrading == s.isUpgrading
    ensures n.history != s.history <==> AnalyzeStarts(s, today) && outcome.Ok?
  {
    var g := Gated(s, today);
    if !AnalyzeStarts(s, today) then g
    else match outcome
      case Err(_) => g.(notification := Some(ANALYSIS_FAILED), currentResult := None, isAnalyzing := false)
      case Ok(data) =>
        var entry := NewEntry(entryId, timestamp, s.inputText, s.selectedImage, data);
        g.(history := PrependEntry(s.history, entry), user := ConsumeQuota(g.user), currentResult := Some(entry),
           inputText := "", selectedImage := None, isAnalyzing := false)
  }

  /** A successful analysis prepends exactly one entry, carrying the inputs
      and the result, ahead of the old entries in their order; it records
      exactly one use on the gated record and changes no other field of it;
      it shows the entry and clears the inputs. */
  lemma AnalyzeSuccess(s: Screen, today: string, data: NutritionalData, entryId: string, timestamp: int)
    requires AnalyzeStarts(s, today)
    ensures var n := AnalyzeNext(s, today, Ok(data), entryId, timestamp);
      var entry := NewEntry(entryId, timestamp, s.inputText, s.selectedImage, data);
      |n.history| == |s.history| + 1 && n.history[0] == entry && n.history[1..] == s.history &&
      n.user.Some? && s.user.Some? &&
      n.user.value == Gated(s, today).user.value.(dailyUsageCount := n.user.value.dailyUsageCount) &&
      n.user.value.dailyUsageCount == Gated(s, today).user.value.dailyUsageCount + 1 &&
      n.currentResult == Some(entry) && n.inputText == "" && n.selectedImage.None? && !n.isAnalyzing &&
      n.notification == s.notification
  {
  }

  /** Whatever stops handleAnalyze short of a result (the gate, a blank text,
      a missing image, a failed inference) leaves the history as it was and
      records no use: the record is the one the gate left, which is the old
      one for a PRO user or a record already dated today. A failed inference
      raises the error toast; a refusal of a signed-in user opens the upgrade
      modal. */
  lemma AnalyzeWithoutResult(s: Screen, today: string, outcome: Result<NutritionalData>, entryId: string, timestamp: int)
    requires !AnalyzeStarts(s, today) || outcome.Err?
    ensures var n := AnalyzeNext(s, today, outcome, entryId, timestamp);
      n.history == s.history && n.user == Gated(s, today).user &&
      (s.user.Some? && (s.user.value.plan == PRO || s.user.value.lastUsageDate == today) ==> n.user == s.user) &&
      (AnalyzeStarts(s, today) ==> n.notification == Some(ANALYSIS_FAILED) && n.currentResult.None?) &&
      (s.user.Some? && !AppLogic.CheckLimit(s.user, today).allowed ==> n.showUpgradeModal && n.notification == s.notification)
  {
  }

  /** Starting from a FREE record within the quota (or dated another day),
      one handleAnalyze keeps the record within the quota for today. */
  lemma AnalyzeStaysWithinQuota(s: Screen, today: string, outcome: Result<NutritionalData>, entryId: string, timestamp: int)
    requires s.user.Some? && s.user.value.plan == FREE
    requires s.user.value.lastUsageDate == today ==> s.user.value.dailyUsageCount <= MAX_FREE_USES
    ensures var n := AnalyzeNext(s, today, outcome, entryId, timestamp);
      n.user.Some? && n.user.value.plan == FREE &&
      (n.user.value.lastUsageDate == today ==> n.user.value.dailyUsageCount <= MAX_FREE_USES)
  {
    if AnalyzeStarts(s, today) && outcome.Ok? {
      GateThenConsumeStaysWithinQuota(s.user, today);
    }
  }

  class Session {
    /** The date INITIAL_USER was built with, fixed when the module loaded. */
    const loadDate: string

    var screen: Screen
    var store: Store
    var location: Location

    predicate Valid()
      reads this
    {
      Consistent(screen, store)
    }

    /** Mounting the screen: restore the stored record (repairing its id and
        rolling its counter over to today), leave the login view, raise the
        payment notice and clear the address's query when the address says
        `payment=success`, start a status sync, load the stored history, and
        run the persistence effects. */
    constructor Mount(stored: Store, today: string, uuid: string, payment: Option<string>, moduleLoadDate: string)
      ensures Valid()
      ensures loadDate == moduleLoadDate
      ensures screen.user == (if stored.savedUser.Some? then Some(RestoreUser(stored.savedUser.value, today, uuid)) else None)
      ensures screen.history == (if stored.savedHistory.Some? then stored.savedHistory.value else [])
      ensures var paid := stored.savedUser.Some? && payment == Some("success");
        screen.notification == (if paid then Some(PAYMENT_NOTICE) else None) &&
        location == Location(if paid then None else payment, None)
      ensures screen.isSyncingStatus == stored.savedUser.Some?
      ensures !screen.showUpgradeModal && !screen.isAnalyzing && !screen.isUpgrading && screen.currentResult.None?
      ensures screen.inputMethod == ImageInput && screen.inputText == "" && screen.selectedImage.None?
      ensures store == Store(screen.user, Some(screen.history), stored.stableId)
    {
      loadDate := moduleLoadDate;
      var s := Screen(None, [], None, false, false, true, false, false, None, ImageInput, "", None);
      var loc := Location(payment, None);
      if stored.savedUser.Some? {
        var u := RestoreUser(stored.savedUser.value, today, uuid);
        s := s.(user := Some(u), isLoginView := false);
        if payment == Some("success") {
          s := s.(notification := Some(PAYMENT_NOTICE));
          loc := loc.(payment := None);
        }
        s := s.(isSyncingStatus := true);
      }
      if stored.savedHistory.Some? {
        s := s.(history := stored.savedHistory.value);
      }
      screen := s;
      location := loc;
      store := Persisted(stored, s);
    }

    /** checkLimit: the gate's verdict; the record it leaves is stored, and
        a refusal opens the upgrade modal. */
    method CheckLimit(today: string) returns (allowed: bool)
      requires Valid()
      modifies this`screen, this`store
      ensures Valid()
      ensures allowed == AppLogic.CheckLimit(old(screen).user, today).allowed
      ensures screen == Gated(old(screen), today)
      ensures store == Persisted(old(store), screen)
    {
      var d := AppLogic.CheckLimit(screen.user, today);
      screen := screen.(user := d.user);
      if d.openUpgrade {
        screen := screen.(showUpgradeModal := true);
      }
      store := Persisted(store, screen);
      allowed := d.allowed;
    }

    /** The input controls: the method toggle, the text box and the image
        picker's data URL. */
    method EditInput(m: InputMethod, text: string, image: Option<string>)
      requires Valid()
      modifies this`screen
      ensures Valid()
      ensures screen == old(screen).(inputMethod := m, inputText := text, selectedImage := image)
    {
      screen := screen.(inputMethod := m, inputText := text, selectedImage := image);
    }

    /** The upgrade modal's open button and its close button. */
    method ShowUpgradeModal(open: bool)
      requires Valid()
      modifies this`screen
      ensures Valid()
      ensures screen == old(screen).(showUpgradeModal := open)
    {
      screen := screen.(showUpgradeModal := open);
    }

    /** The toast's close button (and its timer). */
    method DismissNotification()
      requires Valid()
      modifies this`screen
      ensures Valid()
      ensures screen == old(screen).(notification := None)
    {
      screen := screen.(notification := None);
    }

    /** handleAnalyze with the inference outcome for the request it sends.
        Returns the request parts when the inference call is made and the
        payload handed to the data webhook when the analysis succeeded; the
        payload carries the record as it was before the gate ran. */
    method Analyze(today: string, outcome: Result<NutritionalData>, entryId: string, timestamp: int, syncTime: string)
      returns (request: Option<seq<Part>>, sync: Option<Payload>)
      requires Valid()
      modifies this`screen, this`store
      ensures Valid()
      ensures screen == AnalyzeNext(old(screen), today, outcome, entryId, timestamp)
      ensures store == Persisted(old(store), screen)
      ensures request.Some? <==> AnalyzeStarts(old(screen), today)
      ensures request.Some? ==>
        request.value == RequestParts(old(screen).inputText, ImageOrAbsent(old(screen).selectedImage))
      ensures sync.Some? <==> AnalyzeStarts(old(screen), today) && outcome.Ok?
      ensures sync.Some? ==> var u := old(screen).user.value;
        sync.value == SyncPayloadFor(outcome.value, u.email, u.id, u.plan, syncTime)
    {
      request, sync := None, None;
      var before := screen.user;
      var allowed := CheckLimit(today);
      if !allowed || before.None? {
        return;
      }
      if !InputReady(screen.inputMethod, screen.inputText, screen.selectedImage) {
        return;
      }
      screen := screen.(isAnalyzing := true, currentResult := None);
      request := Some(RequestParts(screen.inputText, ImageOrAbsent(screen.selectedImage)));
      match outcome {
        case Ok(data) =>
          var entry := NewEntry(entryId, timestamp, screen.inputText, screen.selectedImage, data);
          screen := screen.(currentResult := Some(entry), history := PrependEntry(screen.history, entry),
                            user := ConsumeQuota(screen.user), inputText := "", selectedImage := None);
          sync := Some(SyncPayloadFor(data, before.value.email, before.value.id, before.value.plan, syncTime));
        case Err(_) =>
          screen := screen.(notification := Some(ANALYSIS_FAILED));
      }
      screen := screen.(isAnalyzing := false);
      store := Persisted(store, screen);
    }

    /** The data webhook's answer to a sync payload arrives (the response
        that attemptFetch builds): the toast follows it and nothing else
        changes. */
    method SyncDelivered(resp: WebhookResponse)
      requires Valid()
      modifies this`screen
      ensures Valid()
      ensures screen == old(screen).(notification := Some(WebhookToast(resp)))
    {
      screen := screen.(notification := Some(WebhookToast(resp)));
    }

    /** syncAccountStatus up to its await, as the manual resync button runs
        it: the sync flag rises when someone is signed in. */
    method StartSync()
      requires Valid()
      modifies this`screen
      ensures Valid()
      ensures screen == old(screen).(isSyncingStatus := old(screen).isSyncingStatus || old(screen).user.Some?)
    {
      if screen.user.Some? {
        screen := screen.(isSyncingStatus := true);
      }
    }

    /** A status sync completes with the plan the status endpoint reported
        (ReconciledPlan of its transport outcomes; None when the status could
        not be read): the plan is merged into the current record, its toast
        replaces the shown one, and the sync flag drops. Only the plan of the
        record can change, and an unread status changes nothing but the flag. */
    method FinishSync(fetched: Option<UserPlan>)
      requires Valid()
      modifies this`screen, this`store
      ensures Valid()
      ensures var m := ApplyReconciled(old(screen).user, fetched);
        screen == old(screen).(user := m.user, isSyncingStatus := false,
                               notification := if m.notification.Some? then m.notification else old(screen).notification)
      ensures store == Persisted(old(store), screen)
      ensures screen.user.Some? <==> old(screen).user.Some?
      ensures screen.user.Some? ==> screen.user.value == old(screen).user.value.(plan := screen.user.value.plan)
      ensures fetched.None? ==> screen == old(screen).(isSyncingStatus := false) && store == old(store)
    {
      var m := ApplyReconciled(screen.user, fetched);
      screen := screen.(user := m.user, isSyncingStatus := false);
      if m.notification.Some? {
        screen := screen.(notification := m.notification);
      }
      store := Persisted(store, screen);
    }

    /** handleLogin: sign in with the device's stable id (minted and stored
        on the first login only), leave the login view and start a sync. */
    method Login(uuid: string)
      requires Valid()
      modifies this`screen, this`store
      ensures Valid()
      ensures var ids := LoginId(old(store).stableId, uuid);
        screen == old(screen).(user := Some(InitialUser(ids.id, loadDate)), isLoginView := false, isSyncingStatus := true) &&
        store == Store(screen.user, Some(screen.history), ids.stored)
    {
      var ids := LoginId(store.stableId, uuid);
      screen := screen.(user := Some(InitialUser(ids.id, loadDate)), isLoginView := false, isSyncingStatus := true);
      store := Persisted(store.(stableId := ids.stored), screen);
    }

    /** handleLogout: no user, empty history, back to the login view; the
        stored record is removed and the history effect then stores the empty
        list; the stable id stays. */
    method Logout()
      requires Valid()
      modifies this`screen, this`store
      ensures Valid()
      ensures screen == old(screen).(user := None, isLoginView := true, currentResult := None, history := [])
      ensures store == Store(None, Some([]), old(store).stableId)
    {
      screen := screen.(user := None, isLoginView := true, currentResult := None, history := []);
      store := store.(savedUser := None, savedHistory := None);
      store := Persisted(store, screen);
    }

    /** handleUpgrade with the checkout endpoint's outcome: returns the
        checkout request when someone is signed in; then either the address
        moves to the checkout URL (the progress flag stays up) or the error
        toast is raised and the flag drops. */
    method Upgrade(callbackUrl: string, fetch: CheckoutFetch) returns (request: Option<Request>)
      requires Valid()
      modifies this`screen, this`location
      ensures Valid()
      ensures request.Some? <==> old(screen).user.Some?
      ensures request.Some? ==>
        request.value == CheckoutRequest(old(screen).user.value.id, old(screen).user.value.email, callbackUrl)
      ensures old(screen).user.None? ==> screen == old(screen) && location == old(location)
      ensures old(screen).user.Some? ==>
        match UpgradeResult(fetch)
        case Redirect(url) =>
          screen == old(screen).(isUpgrading := true) && location == old(location).(redirectedTo := Some(url))
        case UpgradeFailed(t) =>
          screen == old(screen).(isUpgrading := false, notification := Some(t)) && location == old(location)
    {
      request := None;
      if screen.user.None? {
        return;
      }
      request := Some(CheckoutRequest(screen.user.value.id, screen.user.value.email, callbackUrl));
      screen := screen.(isUpgrading := true);
      match UpgradeResult(fetch) {
        case Redirect(url) =>
          location := location.(redirectedTo := Some(url));
        case UpgradeFailed(t) =>
          screen := screen.(notification := Some(t), isUpgrading := false);
      }
    }
  }
}
