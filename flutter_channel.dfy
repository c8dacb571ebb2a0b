/** Values that cross the Flutter method channel, shared by both platform bridges.
    The transport itself (channels, messengers, codecs) is not modelled: a call is
    a method name with its decoded arguments, and a reply is an abstract value. */
module FlutterChannel {

  datatype Option<+T> = None | Some(value: T) {
    /** The wrapped value, or `default` when there is none (Swift's `??`). */
    function GetOr(default: T): T {
      match this
      case Some(v) => v
      case None => default
    }
  }

  /** A decoded argument value: a string, or anything else the codec can carry. */
  datatype Value = StringValue(s: string) | OtherValue

  /** The arguments of a call: a string-keyed dictionary, or anything else
      (nil, a list, a scalar). */
  datatype Arguments = Dictionary(entries: map<string, Value>) | NotDictionary

  datatype MethodCall = MethodCall(methodName: string, arguments: Arguments)

  /** What the handler sends back through the result callback. The success paths
      of both bridges never invoke the callback, which is `NoReply`. */
  datatype Reply =
    | NoReply
    | Error(code: string, message: Option<string>, details: Option<string>)
    | NotImplemented

  const SecureModeOnMethod := "secureModeOn"
  const SecureModeOffMethod := "secureModeOff"
}
