/** The iOS bridge `SwiftFlutterSecureKeyboardPlugin`: a method-call dispatcher that
    turns secure mode on and off, registers a screenshot observer while it is on,
    hides the application window while the app is inactive, and chooses the text
    of the alert shown when a screenshot is taken.

    The pure functions below are the specification of the plugin's transitions;
    the class `SecureKeyboardPlugin` performs them step by step on its fields. */
module IosPlugin {
  import opened FlutterChannel

  const TitleKey := "screenCaptureDetectedAlertTitle"
  const MessageKey := "screenCaptureDetectedAlertMessage"
  const ActionTitleKey := "screenCaptureDetectedAlertActionTitle"
  const MissingArgumentsMessage := "Missing arguments"

  /** The three alert strings stored from the arguments of `secureModeOn`. */
  datatype AlertOverrides = AlertOverrides(title: Option<string>, message: Option<string>, actionTitle: Option<string>)

  const NoOverrides := AlertOverrides(None, None, None)

  /** The application delegate's window as the plugin reaches it through optional
      chaining: it may be absent, in which case setting `isHidden` does nothing. */
  datatype Window = NoWindow | Window(isHidden: bool)

  /** The abstract state of one plugin instance.
      `observerRegistered` stands for `notificationObserver != nil`;
      `screenshotObservers` counts the screenshot observers the notification
      center holds on the plugin's behalf. */
  datatype PluginState = PluginState(
    observerRegistered: bool,
    screenshotObservers: nat,
    isSecureModeOn: bool,
    overrides: AlertOverrides,
    window: Window)

  /** The result of dispatching one call: the new state and what was replied. */
  datatype Outcome = Outcome(state: PluginState, reply: Reply)

  /** The plugin's invariant: an observer is registered exactly when secure mode
      is on, the notification center then holds exactly one registration, and no
      alert override survives while secure mode is off. */
  predicate Invariant(s: PluginState) {
    && (s.observerRegistered <==> s.isSecureModeOn)
    && s.screenshotObservers == (if s.observerRegistered then 1 else 0)
    && (!s.isSecureModeOn ==> s.overrides == NoOverrides)
  }

  /** The state of a freshly created plugin, before any call. */
  function InitialState(window: Window): (s: PluginState)
    ensures Invariant(s)
    ensures !s.isSecureModeOn && !s.observerRegistered && s.screenshotObservers == 0
    ensures s.overrides == NoOverrides && s.window == window
  {
    PluginState(false, 0, false, NoOverrides, window)
  }

  /** `args[key] as? String`: the entry when it is present and a string. */
  function StringArgument(entries: map<string, Value>, key: string): (r: Option<string>)
    ensures r.Some? <==> key in entries && entries[key].StringValue?
    ensures r.Some? ==> entries[key] == StringValue(r.value)
  {
    if key in entries then
      match entries[key]
      case StringValue(s) => Some(s)
      case OtherValue => None
    else None
  }

  /** The three overrides `secureModeOn` reads from its argument dictionary. */
  function OverridesFrom(entries: map<string, Value>): (o: AlertOverrides)
    ensures o.title.Some? <==> TitleKey in entries && entries[TitleKey].StringValue?
    ensures o.title.Some? ==> entries[TitleKey] == StringValue(o.title.value)
    ensures o.message.Some? <==> MessageKey in entries && entries[MessageKey].StringValue?
    ensures o.message.Some? ==> entries[MessageKey] == StringValue(o.message.value)
    ensures o.actionTitle.Some? <==> ActionTitleKey in entries && entries[ActionTitleKey].StringValue?
    ensures o.actionTitle.Some? ==> entries[ActionTitleKey] == StringValue(o.actionTitle.value)
  {
    AlertOverrides(
      StringArgument(entries, TitleKey),
      StringArgument(entries, MessageKey),
      StringArgument(entries, ActionTitleKey))
  }

  /** The error `secureModeOn` replies with when its arguments are not a dictionary. */
  const MissingArgumentsError := Error(SecureModeOnMethod, Some(MissingArgumentsMessage), None)

  /** `secureModeOn` with a dictionary argument. */
  function SecureModeOn(s: PluginState, entries: map<string, Value>): (r: PluginState)
    requires Invariant(s)
    ensures Invariant(r)
    ensures r.isSecureModeOn && r.screenshotObservers == 1
    ensures s.observerRegistered ==> r.screenshotObservers == s.screenshotObservers
    ensures r.overrides == OverridesFrom(entries)
    ensures r.window == s.window
  {
    var registered :=
      if !s.observerRegistered
      then s.(observerRegistered := true, screenshotObservers := s.screenshotObservers + 1)
      else s;
    registered.(isSecureModeOn := true, overrides := OverridesFrom(entries))
  }

  /** `secureModeOff`: unregister the observer if there is one, switch secure mode
      off and forget the overrides. */
  function SecureModeOff(s: PluginState): (r: PluginState)
    requires Invariant(s)
    ensures Invariant(r)
    ensures !r.isSecureModeOn && !r.observerRegistered && r.screenshotObservers == 0
    ensures r.overrides == NoOverrides
    ensures r.window == s.window
  {
    var unregistered :=
      if s.observerRegistered
      then s.(observerRegistered := false, screenshotObservers := s.screenshotObservers - 1)
      else s;
    unregistered.(isSecureModeOn := false, overrides := NoOverrides)
  }

  /** `onMethodCall`: route by method name. */
  function Dispatch(s: PluginState, call: MethodCall): (r: Outcome)
    requires Invariant(s)
    ensures Invariant(r.state)
    ensures r.state.window == s.window
    ensures r.reply.Error? <==> call.methodName == SecureModeOnMethod && call.arguments.NotDictionary?
    ensures r.reply.Error? ==> r.reply == MissingArgumentsError && r.state == s
    ensures r.reply.NotImplemented? <==> call.methodName != SecureModeOnMethod && call.methodName != SecureModeOffMethod
    ensures r.reply.NotImplemented? ==> r.state == s
    ensures r.reply.NoReply? ==> r.state.isSecureModeOn == (call.methodName == SecureModeOnMethod)
  {
    if call.methodName == SecureModeOnMethod then
      match call.arguments
      case Dictionary(entries) => Outcome(SecureModeOn(s, entries), NoReply)
      case NotDictionary => Outcome(s, MissingArgumentsError)
    else if call.methodName == SecureModeOffMethod then
      Outcome(SecureModeOff(s), NoReply)
    else
      Outcome(s, NotImplemented)
  }

  /** `applicationWillResignActive`: hide the window, but only in secure mode. */
  function ResignActive(s: PluginState): (r: PluginState)
    ensures r == s.(window := r.window)
    ensures s.isSecureModeOn && s.window.Window? ==> r.window == Window(true)
    ensures !s.isSecureModeOn || s.window.NoWindow? ==> r == s
  {
    if s.isSecureModeOn && s.window.Window? then s.(window := Window(true)) else s
  }

  /** `applicationDidBecomeActive`: show the window again, but only in secure mode. */
  function BecomeActive(s: PluginState): (r: PluginState)
    ensures r == s.(window := r.window)
    ensures s.isSecureModeOn && s.window.Window? ==> r.window == Window(false)
    ensures !s.isSecureModeOn || s.window.NoWindow? ==> r == s
  {
    if s.isSecureModeOn && s.window.Window? then s.(window := Window(false)) else s
  }

  /** The three strings of the screenshot alert. */
  datatype AlertText = AlertText(title: string, message: string, actionTitle: string)

  const KoreanAlert := AlertText("보안 경고", "보안 문자를 입력하는 동안 화면 캡처가 탐지되었습니다.", "확인")
  const EnglishAlert := AlertText("Security Warning", "Screen Capture was detected while typing secure text.", "OK")

  /** The device language: the language code of the first preferred locale, "en"
      when there is none. */
  function DeviceLanguage(languageCode: Option<string>): string {
    languageCode.GetOr("en")
  }

  /** The built-in alert text for the device language. */
  function DefaultAlert(languageCode: Option<string>): (r: AlertText)
    ensures r == KoreanAlert <==> DeviceLanguage(languageCode) == "ko"
    ensures r == EnglishAlert <==> DeviceLanguage(languageCode) != "ko"
  {
    if DeviceLanguage(languageCode) == "ko" then KoreanAlert else EnglishAlert
  }

  /** The alert shown on a screenshot: each stored override wins over the default. */
  function ScreenshotAlert(languageCode: Option<string>, o: AlertOverrides): (r: AlertText)
    ensures o.title.Some? ==> r.title == o.title.value
    ensures o.title.None? ==> r.title == DefaultAlert(languageCode).title
    ensures o.message.Some? ==> r.message == o.message.value
    ensures o.message.None? ==> r.message == DefaultAlert(languageCode).message
    ensures o.actionTitle.Some? ==> r.actionTitle == o.actionTitle.value
    ensures o.actionTitle.None? ==> r.actionTitle == DefaultAlert(languageCode).actionTitle
  {
    var d := DefaultAlert(languageCode);
    AlertText(o.title.GetOr(d.title), o.message.GetOr(d.message), o.actionTitle.GetOr(d.actionTitle))
  }

  // ---------------------------------------------------------------------------
  // Sequences of calls

  /** The state after dispatching `calls` in order, starting from `s`. */
  function Run(s: PluginState, calls: seq<MethodCall>): (r: PluginState)
    requires Invariant(s)
    ensures Invariant(r)
    ensures r.window == s.window
    decreases |calls|
  {
    if calls == [] then s
    else Dispatch(Run(s, calls[..|calls| - 1]), calls[|calls| - 1]).state
  }

  /** The calls that change the state: `secureModeOn` with a dictionary, and `secureModeOff`. */
  predicate Switches(call: MethodCall) {
    (call.methodName == SecureModeOnMethod && call.arguments.Dictionary?) || call.methodName == SecureModeOffMethod
  }

  /** The last call of `calls` that changes the state, if any. */
  function LastSwitch(calls: seq<MethodCall>): (r: Option<MethodCall>)
    ensures r.Some? ==> Switches(r.value) && r.value in calls
    ensures r.None? ==> forall i :: 0 <= i < |calls| ==> !Switches(calls[i])
    decreases |calls|
  {
    if calls == [] then None
    else if Switches(calls[|calls| - 1]) then Some(calls[|calls| - 1])
    else LastSwitch(calls[..|calls| - 1])
  }

  /** The state after any sequence of calls is decided by the last call that
      switches: secure mode is on exactly when it was `secureModeOn`, and the
      overrides are the ones it carried; with no such call nothing changed. */
  lemma {:induction false} RunFollowsLastSwitch(s: PluginState, calls: seq<MethodCall>)
    requires Invariant(s)
    ensures LastSwitch(calls).None? ==> Run(s, calls) == s
    ensures LastSwitch(calls).Some? ==>
      var c := LastSwitch(calls).value;
      && Run(s, calls).isSecureModeOn == (c.methodName == SecureModeOnMethod)
      && Run(s, calls).overrides ==
           (if c.methodName == SecureModeOnMethod then OverridesFrom(c.arguments.entries) else NoOverrides)
    decreases |calls|
  {
    if calls != [] {
      var init := calls[..|calls| - 1];
      RunFollowsLastSwitch(s, init);
    }
  }

  /** Repeating `secureModeOn` leaves exactly one screenshot registration. */
  lemma RepeatedSecureModeOnRegistersOnce(s: PluginState, calls: seq<MethodCall>)
    requires Invariant(s)
    requires |calls| > 0
    requires forall i :: 0 <= i < |calls| ==> calls[i].methodName == SecureModeOnMethod && calls[i].arguments.Dictionary?
    ensures Run(s, calls).isSecureModeOn && Run(s, calls).observerRegistered
    ensures Run(s, calls).screenshotObservers == 1
  {
  }

  /** `secureModeOff` twice is `secureModeOff` once. */
  lemma SecureModeOffIdempotent(s: PluginState)
    requires Invariant(s)
    ensures SecureModeOff(SecureModeOff(s)) == SecureModeOff(s)
  {
  }

  /** Without arguments the alert shows the locale default; with all three keys
      given as strings it shows exactly those strings. */
  lemma AlertAfterSecureModeOn(s: PluginState, languageCode: Option<string>, title: string, message: string, action: string)
    requires Invariant(s)
    ensures ScreenshotAlert(languageCode, Dispatch(s, MethodCall(SecureModeOnMethod, Dictionary(map[]))).state.overrides)
            == DefaultAlert(languageCode)
    ensures var entries := map[TitleKey := StringValue(title), MessageKey := StringValue(message), ActionTitleKey := StringValue(action)];
            ScreenshotAlert(languageCode, Dispatch(s, MethodCall(SecureModeOnMethod, Dictionary(entries))).state.overrides)
            == AlertText(title, message, action)
  {
  }

  /** Turning secure mode on, then leaving and re-entering the foreground, hides
      and then shows the window. */
  lemma BackgroundForegroundScenario()
    ensures var on := Dispatch(InitialState(Window(false)), MethodCall(SecureModeOnMethod, Dictionary(map[]))).state;
            && ResignActive(on).window == Window(true)
            && BecomeActive(ResignActive(on)).window == Window(false)
  {
  }

  // ---------------------------------------------------------------------------
  // The plugin object

  class SecureKeyboardPlugin {
    var observerRegistered: bool
    var screenshotObservers: nat
    var isSecureModeOn: bool
    var screenCaptureDetectedAlertTitle: Option<string>
    var screenCaptureDetectedAlertMessage: Option<string>
    var screenCaptureDetectedAlertActionTitle: Option<string>
    var window: Window

    /** The abstract value of the fields. */
    function State(): PluginState
      reads this
    {
      PluginState(
        observerRegistered, screenshotObservers, isSecureModeOn,
        AlertOverrides(screenCaptureDetectedAlertTitle, screenCaptureDetectedAlertMessage, screenCaptureDetectedAlertActionTitle),
        window)
    }

    ghost predicate Valid()
      reads this
    {
      Invariant(State())
    }

    constructor (window: Window)
      ensures Valid()
      ensures State() == InitialState(window)
    {
      observerRegistered := false;
      screenshotObservers := 0;
      isSecureModeOn := false;
      screenCaptureDetectedAlertTitle := None;
      screenCaptureDetectedAlertMessage := None;
      screenCaptureDetectedAlertActionTitle := None;
      this.window := window;
    }

    method OnMethodCall(call: MethodCall) returns (reply: Reply)
      requires Valid()
      modifies this
      ensures Valid()
      ensures Outcome(State(), reply) == Dispatch(old(State()), call)
    {
      if call.methodName == SecureModeOnMethod {
        if !call.arguments.Dictionary? {
          reply := Error(call.methodName, Some(MissingArgumentsMessage), None);
          return;
        }
        var args := call.arguments.entries;
        if !observerRegistered {
          observerRegistered := true;
          screenshotObservers := screenshotObservers + 1;
        }
        isSecureModeOn := true;
        screenCaptureDetectedAlertTitle := StringArgument(args, TitleKey);
        screenCaptureDetectedAlertMessage := StringArgument(args, MessageKey);
        screenCaptureDetectedAlertActionTitle := StringArgument(args, ActionTitleKey);
        reply := NoReply;
      } else if call.methodName == SecureModeOffMethod {
        if observerRegistered {
          screenshotObservers := screenshotObservers - 1;
          observerRegistered := false;
        }
        isSecureModeOn := false;
        screenCaptureDetectedAlertTitle := None;
        screenCaptureDetectedAlertMessage := None;
        screenCaptureDetectedAlertActionTitle := None;
        reply := NoReply;
      } else {
        reply := NotImplemented;
      }
    }

    method ApplicationWillResignActive()
      requires Valid()
      modifies this
      ensures Valid()
      ensures State() == ResignActive(old(State()))
    {
      if isSecureModeOn && window.Window? {
        window := Window(true);
      }
    }

    method ApplicationDidBecomeActive()
      requires Valid()
      modifies this
      ensures Valid()
      ensures State() == BecomeActive(old(State()))
    {
      if isSecureModeOn && window.Window? {
        window := Window(false);
      }
    }

    /** The alert presented when the screenshot notification arrives, for the
        given language code of the first preferred locale. */
    method ApplicationUserDidTakeScreenshot(languageCode: Option<string>) returns (alert: AlertText)
      ensures alert == ScreenshotAlert(languageCode, State().overrides)
    {
      var alertTitle, alertMessage, alertActionTitle;
      var deviceLocale := languageCode.GetOr("en");
      if deviceLocale == "ko" {
        alertTitle := "보안 경고";
        alertMessage := "보안 문자를 입력하는 동안 화면 캡처가 탐지되었습니다.";
        alertActionTitle := "확인";
      } else {
        alertTitle := "Security Warning";
        alertMessage := "Screen Capture was detected while typing secure text.";
        alertActionTitle := "OK";
      }
      alert := AlertText(
        screenCaptureDetectedAlertTitle.GetOr(alertTitle),
        screenCaptureDetectedAlertMessage.GetOr(alertMessage),
        screenCaptureDetectedAlertActionTitle.GetOr(alertActionTitle));
    }
  }

  /** A client of the plugin object: secure mode on, a second `secureModeOn`,
      then the app leaves and re-enters the foreground. */
  method BackgroundForegroundClient()
  {
    var plugin := new SecureKeyboardPlugin(Window(false));
    var reply := plugin.OnMethodCall(MethodCall(SecureModeOnMethod, Dictionary(map[])));
    assert reply == NoReply && plugin.screenshotObservers == 1;
    reply := plugin.OnMethodCall(MethodCall(SecureModeOnMethod, Dictionary(map[TitleKey := StringValue("T")])));
    assert plugin.screenshotObservers == 1;
    plugin.ApplicationWillResignActive();
    assert plugin.window == Window(true);
    plugin.ApplicationDidBecomeActive();
    assert plugin.window == Window(false);
    reply := plugin.OnMethodCall(MethodCall("secureModeToggle", NotDictionary));
    assert reply == NotImplemented && plugin.isSecureModeOn;
  }
}
