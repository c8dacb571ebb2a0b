/** The Android plugin `FlutterSecureKeyboardPlugin`: on engine attach it creates a
    `MethodCallHandler` and starts it listening; the activity lifecycle callbacks set
    or clear the handler's activity; on engine detach the handler stops listening.

    The abstract model runs a sequence of lifecycle events and incoming calls over
    the handler's `Attachment`; the class performs the callbacks on the heap. */
module AndroidPlugin {
  import opened FlutterChannel
  import opened AndroidHandler

  /** What reaches an attached handler: the activity callbacks (carrying, for an
      attach, the flags of the new activity's window) and incoming method calls. */
  datatype Event =
    | AttachedToActivity(windowFlags: Flags)
    | DetachedFromActivityForConfigChanges
    | ReattachedToActivityForConfigChanges(windowFlags: Flags)
    | DetachedFromActivity
    | CallReceived(call: MethodCall)
  {
    predicate Attaches() {
      AttachedToActivity? || ReattachedToActivityForConfigChanges?
    }
  }

  /** The attachment after some events, and the replies the calls among them got. */
  datatype Trace = Trace(attachment: Attachment, replies: seq<Reply>)

  /** One event. The two config-change callbacks forward to the plain ones. */
  function Step(a: Attachment, e: Event): (r: Trace)
    ensures e.Attaches() ==> r == Trace(Attached(e.windowFlags), [])
    ensures e.DetachedFromActivity? || e.DetachedFromActivityForConfigChanges? ==> r == Trace(Detached, [])
    ensures e.CallReceived? ==> r.replies == [Dispatch(a, e.call).reply] && r.attachment == Dispatch(a, e.call).attachment
    decreases if e.DetachedFromActivityForConfigChanges? || e.ReattachedToActivityForConfigChanges? then 1 else 0
  {
    match e
    case AttachedToActivity(flags) => Trace(Attached(flags), [])
    case DetachedFromActivityForConfigChanges => Step(a, DetachedFromActivity)
    case ReattachedToActivityForConfigChanges(flags) => Step(a, AttachedToActivity(flags))
    case DetachedFromActivity => Trace(Detached, [])
    case CallReceived(call) =>
      var o := Dispatch(a, call);
      Trace(o.attachment, [o.reply])
  }

  /** The number of calls among `events`. */
  function CallCount(events: seq<Event>): nat
    decreases |events|
  {
    if events == [] then 0
    else CallCount(events[..|events| - 1]) + (if events[|events| - 1].CallReceived? then 1 else 0)
  }

  /** All events in order, starting from `a`. */
  function Run(a: Attachment, events: seq<Event>): (r: Trace)
    ensures |r.replies| == CallCount(events)
    decreases |events|
  {
    if events == [] then Trace(a, [])
    else
      var t := Run(a, events[..|events| - 1]);
      var u := Step(t.attachment, events[|events| - 1]);
      Trace(u.attachment, t.replies + u.replies)
  }

  /** Running two stretches of events one after the other is running them together. */
  lemma {:induction false} RunAppend(a: Attachment, first: seq<Event>, second: seq<Event>)
    ensures Run(a, first + second).attachment == Run(Run(a, first).attachment, second).attachment
    ensures Run(a, first + second).replies == Run(a, first).replies + Run(Run(a, first).attachment, second).replies
    decreases |second|
  {
    if second == [] {
      assert first + second == first;
    } else {
      var all := first + second;
      var init := second[..|second| - 1];
      assert all[..|all| - 1] == first + init;
      assert all[|all| - 1] == second[|second| - 1];
      RunAppend(a, first, init);
      var mid := Run(a, first).attachment;
      var u := Step(Run(mid, init).attachment, second[|second| - 1]);
      calc {
        Run(a, all).replies;
        Run(a, first + init).replies + u.replies;
        (Run(a, first).replies + Run(mid, init).replies) + u.replies;
        Run(a, first).replies + (Run(mid, init).replies + u.replies);
        Run(a, first).replies + Run(mid, second).replies;
      }
    }
  }

  /** While nothing attaches an activity, the handler stays detached and every
      call gets the not-attached error. */
  lemma {:induction false} RunWhileDetached(events: seq<Event>)
    requires forall i :: 0 <= i < |events| ==> !events[i].Attaches()
    ensures Run(Detached, events).attachment == Detached
    ensures forall i :: 0 <= i < |Run(Detached, events).replies| ==> Run(Detached, events).replies[i] == NotAttachedError
    decreases |events|
  {
    if events != [] {
      RunWhileDetached(events[..|events| - 1]);
    }
  }

  /** After a detach (plain or for a config change), every call errors until an
      activity attaches again. */
  lemma EveryCallErrorsAfterDetach(a: Attachment, detach: Event, events: seq<Event>)
    requires detach.DetachedFromActivity? || detach.DetachedFromActivityForConfigChanges?
    requires forall i :: 0 <= i < |events| ==> !events[i].Attaches()
    ensures Run(a, [detach] + events).attachment == Detached
    ensures |Run(a, [detach] + events).replies| == CallCount(events)
    ensures forall i :: 0 <= i < CallCount(events) ==> Run(a, [detach] + events).replies[i] == NotAttachedError
  {
    RunAppend(a, [detach], events);
    assert Run(a, [detach]) == Trace(Detached, []) by {
      assert [detach][..0] == [];
    }
    RunWhileDetached(events);
  }

  /** The on/off switch the last `secureModeOn` or `secureModeOff` call among
      `events` asked for, if there was one. */
  function LastSwitch(events: seq<Event>): (r: Option<bool>)
    ensures r.Some? ==>
      (exists i :: 0 <= i < |events| && events[i].CallReceived? &&
         events[i].call.methodName == (if r.value then SecureModeOnMethod else SecureModeOffMethod))
    decreases |events|
  {
    if events == [] then None
    else
      var e := events[|events| - 1];
      if e.CallReceived? && e.call.methodName == SecureModeOnMethod then Some(true)
      else if e.CallReceived? && e.call.methodName == SecureModeOffMethod then Some(false)
      else LastSwitch(events[..|events| - 1])
  }

  /** With an activity attached throughout, the secure flag ends up as the last
      on/off call left it (on and off are idempotent), no other window flag
      changes, and no call gets an error. */
  lemma {:induction false} LastCallWins(a: Attachment, events: seq<Event>)
    requires a.Attached?
    requires forall i :: 0 <= i < |events| ==> events[i].CallReceived?
    ensures Run(a, events).attachment.Attached?
    ensures IsSecure(Run(a, events).attachment.windowFlags) == LastSwitch(events).GetOr(IsSecure(a.windowFlags))
    ensures OtherFlags(Run(a, events).attachment.windowFlags) == OtherFlags(a.windowFlags)
    ensures forall i :: 0 <= i < |Run(a, events).replies| ==> !Run(a, events).replies[i].Error?
    decreases |events|
  {
    if events != [] {
      LastCallWins(a, events[..|events| - 1]);
    }
  }

  /** The events with each config-change callback replaced by the plain one it forwards to. */
  function Plain(e: Event): Event {
    match e
    case DetachedFromActivityForConfigChanges => DetachedFromActivity
    case ReattachedToActivityForConfigChanges(flags) => AttachedToActivity(flags)
    case _ => e
  }

  function PlainEvents(events: seq<Event>): (r: seq<Event>)
    ensures |r| == |events|
    ensures forall i :: 0 <= i < |events| ==> r[i] == Plain(events[i])
  {
    seq(|events|, i requires 0 <= i < |events| => Plain(events[i]))
  }

  /** In any sequence of events, the config-change callbacks act exactly as a
      plain detach and a plain attach. */
  lemma {:induction false} ConfigChangesActAsPlain(a: Attachment, events: seq<Event>)
    ensures Run(a, events) == Run(a, PlainEvents(events))
    decreases |events|
  {
    if events != [] {
      var init := events[..|events| - 1];
      var plain := PlainEvents(events);
      assert plain[..|plain| - 1] == PlainEvents(init);
      ConfigChangesActAsPlain(a, init);
    }
  }

  // ---------------------------------------------------------------------------
  // The plugin object

  class SecureKeyboardPlugin {
    /** The `lateinit` handler: null until the engine attaches. */
    var methodCallHandler: MethodCallHandler?

    constructor ()
      ensures methodCallHandler == null
    {
      methodCallHandler := null;
    }

    /** A fresh, listening handler with no activity: every call is refused until
        an activity attaches. The source calls `initChannel`, which the handler
        does not declare; its `startListening` is what is meant and is used here. */
    method OnAttachedToEngine()
      modifies this
      ensures methodCallHandler != null && fresh(methodCallHandler)
      ensures methodCallHandler.activity == null && methodCallHandler.State() == Detached
      ensures methodCallHandler.channel == Initialized(ChannelName, true)
    {
      methodCallHandler := new MethodCallHandler();
      methodCallHandler.StartListening();
    }

    /** Stop the handler listening, if there is a handler at all. The source calls
        `disposeChannel`, which the handler does not declare; its `stopListening`
        is what is meant and is used here. */
    method OnDetachedFromEngine()
      modifies if methodCallHandler != null then {methodCallHandler} else {}
      ensures methodCallHandler == old(methodCallHandler)
      ensures methodCallHandler != null ==>
        && !methodCallHandler.channel.Installed()
        && methodCallHandler.activity == old(methodCallHandler.activity)
        && (old(methodCallHandler.channel).Uninitialized? ==> methodCallHandler.channel == Uninitialized)
        && (old(methodCallHandler.channel).Initialized? ==>
              methodCallHandler.channel == old(methodCallHandler.channel).(handlerInstalled := false))
    {
      if methodCallHandler != null {
        methodCallHandler.StopListening();
      }
    }

    method OnAttachedToActivity(activity: Activity)
      requires methodCallHandler != null
      modifies methodCallHandler
      ensures methodCallHandler == old(methodCallHandler)
      ensures methodCallHandler.activity == activity
      ensures methodCallHandler.channel == old(methodCallHandler.channel)
      ensures methodCallHandler.State() ==
        Step(old(methodCallHandler.State()), AttachedToActivity(activity.window.flags)).attachment
    {
      methodCallHandler.SetActivity(activity);
    }

    method OnDetachedFromActivityForConfigChanges()
      requires methodCallHandler != null
      modifies methodCallHandler
      ensures methodCallHandler == old(methodCallHandler)
      ensures methodCallHandler.activity == null
      ensures methodCallHandler.channel == old(methodCallHandler.channel)
      ensures methodCallHandler.State() ==
        Step(old(methodCallHandler.State()), DetachedFromActivityForConfigChanges).attachment
    {
      OnDetachedFromActivity();
    }

    method OnReattachedToActivityForConfigChanges(activity: Activity)
      requires methodCallHandler != null
      modifies methodCallHandler
      ensures methodCallHandler == old(methodCallHandler)
      ensures methodCallHandler.activity == activity
      ensures methodCallHandler.channel == old(methodCallHandler.channel)
      ensures methodCallHandler.State() ==
        Step(old(methodCallHandler.State()), ReattachedToActivityForConfigChanges(activity.window.flags)).attachment
    {
      OnAttachedToActivity(activity);
    }

    method OnDetachedFromActivity()
      requires methodCallHandler != null
      modifies methodCallHandler
      ensures methodCallHandler == old(methodCallHandler)
      ensures methodCallHandler.activity == null
      ensures methodCallHandler.channel == old(methodCallHandler.channel)
      ensures methodCallHandler.State() ==
        Step(old(methodCallHandler.State()), DetachedFromActivity).attachment
    {
      methodCallHandler.SetActivity(null);
    }
  }

  /** A client of the plugin object: before an activity attaches a call is refused;
      once attached, `secureModeOn` sets the flag; after a detach calls are refused
      again and the old window keeps its flags. */
  method LifecycleClient()
  {
    var plugin := new SecureKeyboardPlugin();
    plugin.OnAttachedToEngine();
    var handler := plugin.methodCallHandler;
    var reply := handler.OnMethodCall(MethodCall(SecureModeOnMethod, NotDictionary));
    assert reply == NotAttachedError;

    var window := new Window({});
    var activity := new Activity(window);
    plugin.OnAttachedToActivity(activity);
    reply := handler.OnMethodCall(MethodCall(SecureModeOnMethod, NotDictionary));
    assert reply == NoReply && IsSecure(window.flags);

    plugin.OnDetachedFromActivityForConfigChanges();
    reply := handler.OnMethodCall(MethodCall(SecureModeOffMethod, NotDictionary));
    assert reply == NotAttachedError && IsSecure(window.flags);

    plugin.OnDetachedFromEngine();
    assert !handler.channel.Installed();
  }
}
