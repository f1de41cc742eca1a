/** The multiplexed event stream. Every notification the runtime produces is
    appended to one ordered log; a subscription is a filter over that log,
    and what a subscriber sees is the filtered suffix of the log published
    after it subscribed. */
module Events {
  import opened Values

  /** Names of the runtime's own notifications. */
  const PropertyChangeName: string := "propertychange"
  const ActionInvocationName: string := "actioninvocation"
  const DescriptionChangeName: string := "descriptionchange"

  /** What part of the Thing Description a description change touches. */
  datatype ChangeType = PropertyType | ActionType | EventType

  /** Whether an interaction was added or removed. */
  datatype ChangeMethod = Add | Remove

  datatype EventData =
    | PropertyChangeData(property: string, value: Value)
    | ActionInvocationData(actionName: string, returnValue: Value)
    | DescriptionChangeData(changeType: ChangeType, changeMethod: ChangeMethod, interaction: string,
                            data: Option<Value>, description: Option<Value>)
    | Payload(payload: Value)

  /** One notification: a name and its data. */
  datatype EmittedEvent = EmittedEvent(name: string, data: EventData)

  function PropertyChangeEvent(property: string, value: Value): EmittedEvent {
    EmittedEvent(PropertyChangeName, PropertyChangeData(property, value))
  }

  function ActionInvocationEvent(action: string, returnValue: Value): EmittedEvent {
    EmittedEvent(ActionInvocationName, ActionInvocationData(action, returnValue))
  }

  function DescriptionChangeEvent(changeType: ChangeType, changeMethod: ChangeMethod, interaction: string,
                                  data: Option<Value>, description: Option<Value>): EmittedEvent
  {
    EmittedEvent(DescriptionChangeName, DescriptionChangeData(changeType, changeMethod, interaction, data, description))
  }

  /** The three filter closures a subscription can be built from. */
  datatype Filter =
    | EventNamed(name: string)        // on_event's event_filter
    | PropertyChangeOf(property: string) // on_property_change's property_change_filter
    | DescriptionChanges              // on_td_change's td_change_filter

  /** Whether a filter lets an event through: `on_event`'s filter exactly the
      events of its name, `on_property_change`'s exactly the property-change
      events `write_property` publishes for its property, `on_td_change`'s
      exactly the description changes. */
  predicate Accepts(f: Filter, e: EmittedEvent): (b: bool)
    ensures f.EventNamed? ==> (b <==> e.name == f.name)
    ensures f.PropertyChangeOf? ==> (b <==> exists v :: e == PropertyChangeEvent(f.property, v))
    ensures f.DescriptionChanges? ==> (b <==> e.name == DescriptionChangeName)
  {
    match f
    case EventNamed(n) => e.name == n
    case PropertyChangeOf(p) =>
      if e.name == PropertyChangeName && e.data.PropertyChangeData? && e.data.property == p then
        assert e == PropertyChangeEvent(p, e.data.value);
        true
      else false
    case DescriptionChanges => e.name == DescriptionChangeName
  }

  /** The events of `log` a filter lets through, in publish order. */
  function Select(f: Filter, log: seq<EmittedEvent>): (r: seq<EmittedEvent>)
    ensures |r| <= |log|
    ensures forall i :: 0 <= i < |r| ==> Accepts(f, r[i])
  {
    if log == [] then []
    else (if Accepts(f, log[0]) then [log[0]] else []) + Select(f, log[1..])
  }

  /** What an `on_*` call hands back: a filtered view of the stream, or a
      stream that fails as soon as it is subscribed to (`Observable.throw`). */
  datatype Observable = Stream(filter: Filter) | Throw(error: Error)

  /** What a subscriber attached when the log had length `from` has received. */
  function Delivered(o: Observable, log: seq<EmittedEvent>, from: nat): (r: Result<seq<EmittedEvent>>)
    requires from <= |log|
    ensures r.Err? <==> o.Throw?
    ensures r.Ok? ==> r.value == Select(o.filter, log[from..])
  {
    match o
    case Stream(f) => Ok(Select(f, log[from..]))
    case Throw(e) => Err(e)
  }

  /** A filter's view holds exactly the accepted events of the log. */
  lemma {:induction false} SelectMembers(f: Filter, log: seq<EmittedEvent>, e: EmittedEvent)
    ensures e in Select(f, log) <==> e in log && Accepts(f, e)
  {
    if log != [] {
      SelectMembers(f, log[1..], e);
      assert log == [log[0]] + log[1..];
    }
  }

  /** Filtering distributes over concatenation, so publishing never reorders
      or rewrites what a subscriber has already seen. */
  lemma {:induction false} SelectAppend(f: Filter, a: seq<EmittedEvent>, b: seq<EmittedEvent>)
    ensures Select(f, a + b) == Select(f, a) + Select(f, b)
  {
    if a == [] {
      assert a + b == b;
    } else {
      assert (a + b)[1..] == a[1..] + b;
      SelectAppend(f, a[1..], b);
    }
  }

  /** Publishing one event extends every matching subscriber's view by that
      event and leaves every other subscriber's view as it was. */
  lemma PublishOne(o: Observable, log: seq<EmittedEvent>, from: nat, e: EmittedEvent)
    requires from <= |log|
    ensures o.Stream? && Accepts(o.filter, e) ==> Delivered(o, log + [e], from) == Ok(Delivered(o, log, from).value + [e])
    ensures o.Stream? && !Accepts(o.filter, e) ==> Delivered(o, log + [e], from) == Delivered(o, log, from)
    ensures o.Throw? ==> Delivered(o, log + [e], from) == Err(o.error)
  {
    if o.Stream? {
      var f := o.filter;
      assert (log + [e])[from..] == log[from..] + [e];
      SelectAppend(f, log[from..], [e]);
      assert [e][1..] == [];
      var single := Select(f, [e]);
      assert single == (if Accepts(f, e) then [e] else []) + Select(f, []);
      assert Select(f, []) == [];
      assert single == if Accepts(f, e) then [e] else [];
      assert Delivered(o, log + [e], from).value == Select(f, log[from..]) + single;
      assert Select(f, log[from..]) + [] == Select(f, log[from..]);
    }
  }
}
