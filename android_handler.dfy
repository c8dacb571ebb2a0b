/** The Android dispatcher `MethodCallHandlerImpl`: it holds an optional activity and
    sets or clears `FLAG_SECURE` on that activity's window when asked to; without an
    activity every call is refused.

    `Dispatch` is the specification of one call on the abstract `Attachment`; the
    class `MethodCallHandler` performs it on the heap. */
module AndroidHandler {
  import opened FlutterChannel
  import opened AndroidErrors

  const ChannelName := "flutter_secure_keyboard"

  /** A window's flag word, as the set of the values of the flags it has set
      (`FLAG_SECURE` is 0x2000); a mask passed to `addFlags` or `clearFlags` likewise. */
  type Flags = set<nat>

  /** `WindowManager.LayoutParams.FLAG_SECURE`. */
  const FlagSecure: nat := 0x2000

  /** Whether the secure flag is among `flags`. */
  predicate IsSecure(flags: Flags) {
    FlagSecure in flags
  }

  /** The window flags other than the secure flag. */
  function OtherFlags(flags: Flags): Flags {
    flags - {FlagSecure}
  }

  /** What dispatching can see of the handler: whether an activity is attached and,
      if so, the flags of that activity's window. */
  datatype Attachment = Detached | Attached(windowFlags: Flags)

  datatype Outcome = Outcome(attachment: Attachment, reply: Reply)

  /** `handleError`: the code's name as the error code, with null message and details.
      The source writes `ErrorCodes.ACTIVITY_NOT_REGISTERED`, a constant the enum does
      not declare; the one code it declares, `ACTIVITY_NOT_ATTACHED`, is used here. */
  function HandleError(code: ErrorCode): (r: Reply)
    ensures r == Error("ACTIVITY_NOT_ATTACHED", None, None)
    ensures r.message != Some(code.Message())
  {
    Error(code.Name(), None, None)
  }

  const NotAttachedError := HandleError(ActivityNotAttached)

  /** `onMethodCall`: the activity guard first, then routing by method name. */
  function Dispatch(a: Attachment, call: MethodCall): (r: Outcome)
    ensures r.attachment.Attached? == a.Attached?
    ensures a.Detached? ==> r == Outcome(a, NotAttachedError)
    ensures a.Attached? && call.methodName == SecureModeOnMethod ==>
      && IsSecure(r.attachment.windowFlags)
      && OtherFlags(r.attachment.windowFlags) == OtherFlags(a.windowFlags)
      && r.reply == NoReply
    ensures a.Attached? && call.methodName == SecureModeOffMethod ==>
      && !IsSecure(r.attachment.windowFlags)
      && OtherFlags(r.attachment.windowFlags) == OtherFlags(a.windowFlags)
      && r.reply == NoReply
    ensures a.Attached? && call.methodName != SecureModeOnMethod && call.methodName != SecureModeOffMethod ==>
      r == Outcome(a, NotImplemented)
  {
    match a
    case Detached => Outcome(a, HandleError(ActivityNotAttached))
    case Attached(flags) =>
      if call.methodName == SecureModeOnMethod then Outcome(Attached(flags + {FlagSecure}), NoReply)
      else if call.methodName == SecureModeOffMethod then Outcome(Attached(flags - {FlagSecure}), NoReply)
      else Outcome(a, NotImplemented)
  }

  /** An Android window, reduced to its layout flags. */
  class Window {
    var flags: Flags

    constructor (flags: Flags)
      ensures this.flags == flags
    {
      this.flags := flags;
    }

    method AddFlags(mask: Flags)
      modifies this
      ensures flags == old(flags) + mask
    {
      flags := flags + mask;
    }

    method ClearFlags(mask: Flags)
      modifies this
      ensures flags == old(flags) - mask
    {
      flags := flags - mask;
    }
  }

  /** An Android activity, reduced to its window. */
  class Activity {
    const window: Window

    constructor (window: Window)
      ensures this.window == window
    {
      this.window := window;
    }
  }

  /** The method channel as the handler knows it: not yet created (the `lateinit`
      field is unset), or created under a name, with or without this handler installed. */
  datatype ChannelState = Uninitialized | Initialized(name: string, handlerInstalled: bool) {
    predicate Installed() {
      Initialized? && handlerInstalled
    }
  }

  class MethodCallHandler {
    var channel: ChannelState
    var activity: Activity?

    /** The objects `State()` depends on besides the handler itself. */
    function WindowFrame(): set<object>
      reads this
    {
      if activity != null then {activity.window} else {}
    }

    /** The abstract value `Dispatch` works on. */
    function State(): Attachment
      reads this, WindowFrame()
    {
      if activity == null then Detached else Attached(activity.window.flags)
    }

    constructor ()
      ensures channel == Uninitialized && activity == null
      ensures State() == Detached
    {
      activity := null;
      channel := Uninitialized;
    }

    /** Create the channel and install this handler on it. */
    method StartListening()
      modifies this
      ensures channel == Initialized(ChannelName, true)
      ensures activity == old(activity)
    {
      channel := Initialized(ChannelName, true);
    }

    /** Remove this handler from the channel, if the channel was ever created. */
    method StopListening()
      modifies this
      ensures !channel.Installed()
      ensures old(channel).Uninitialized? ==> channel == Uninitialized
      ensures old(channel).Initialized? ==> channel == old(channel).(handlerInstalled := false)
      ensures activity == old(activity)
    {
      if channel.Initialized? {
        channel := channel.(handlerInstalled := false);
      }
    }

    method SetActivity(activity: Activity?)
      modifies this
      ensures this.activity == activity
      ensures channel == old(channel)
    {
      this.activity := activity;
    }

    method OnMethodCall(call: MethodCall) returns (reply: Reply)
      modifies WindowFrame()
      ensures Outcome(State(), reply) == Dispatch(old(State()), call)
    {
      if activity == null {
        reply := HandleError(ActivityNotAttached);
        return;
      }
      if call.methodName == SecureModeOnMethod {
        activity.window.AddFlags({FlagSecure});
        reply := NoReply;
      } else if call.methodName == SecureModeOffMethod {
        activity.window.ClearFlags({FlagSecure});
        reply := NoReply;
      } else {
        reply := NotImplemented;
      }
    }
  }
}
