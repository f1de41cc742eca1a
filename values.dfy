/** Values carried by properties, actions and events, and the errors the
    exposed-thing runtime reports to its callers. */
module Values {

  /** A JSON-like value. `Null` stands for Python's `None`, which is what a
      property that was never set reads as. */
  datatype Value =
    | Null
    | Bool(b: bool)
    | Num(n: int)
    | Text(s: string)
    | List(items: seq<Value>)
    | Object(fields: map<string, Value>)

  datatype Option<+T> = None | Some(value: T)

  /** The exceptions raised by the runtime itself, plus one wrapper for
      whatever an application handler raised. */
  datatype Error =
    | InteractionNotFound(name: string)  // ValueError "Interaction not found: <name>"
    | NonWritable                        // TypeError "Property is non-writable"
    | MissingAttribute(attribute: string) // AttributeError: `writable`/`observable` asked of a non-property
    | MissingHandler                     // KeyError: no global handler for the kind
    | NotCallable                        // TypeError: the resolved handler is None
    | UndefinedActionHandler             // the default action handler's failure
    | ArgumentMismatch                   // TypeError: arguments passed to the zero-argument default action handler
    | HandlerFailed(reason: string)      // an application handler's own error, passed on unchanged
    | UnknownEvent                       // on_event: "Unknown event"
    | UnknownProperty                    // on_property_change: "Unknown property"
    | NotObservable                      // on_property_change: "Property is not observable"
    | UnknownEmittedEvent(name: string)  // emit_event: ValueError "Unknown event: <name>"

  datatype Result<+T> = Ok(value: T) | Err(error: Error)

  /** What the future returned by an application-supplied handler resolves to. */
  datatype Reply<+T> = Resolved(value: T) | Raised(reason: string)

  /** A handler's future, as seen by the runtime: its error is passed on unchanged. */
  function Lift<T>(reply: Reply<T>): (r: Result<T>)
    ensures r.Ok? <==> reply.Resolved?
    ensures reply.Resolved? ==> r.value == reply.value
    ensures reply.Raised? ==> r.error == HandlerFailed(reply.reason)
  {
    match reply
    case Resolved(v) => Ok(v)
    case Raised(reason) => Err(HandlerFailed(reason))
  }
}
