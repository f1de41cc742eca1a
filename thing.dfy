/** The exposed Thing as a value: its interactions, its property values, its
    handler tables and the log of everything published on its event stream,
    with one transition function per operation. The `Exposed` module's class
    is proved to behave as these functions say. */
module Thing {
  import opened Values
  import opened Events
  import opened Handlers

  /** An interaction definition, as held by the interaction registry. */
  datatype Interaction =
    | Property(labelValue: Value, description: Value, valueType: Value, writable: bool, observable: bool)
    | Action(labelValue: Value, description: Value, input: Value, output: Value)
    | Event(labelValue: Value, description: Value, valueType: Value)

  /** The initialisation dictionaries passed to add_property, add_action and add_event. */
  datatype PropertyInit = PropertyInit(labelValue: Value, description: Value, valueType: Value,
                                       writable: bool, observable: bool, value: Value)
  datatype ActionInit = ActionInit(labelValue: Value, description: Value, input: Value, output: Value)
  datatype EventInit = EventInit(labelValue: Value, description: Value, valueType: Value)

  function PropertyOf(init: PropertyInit): Interaction {
    Property(init.labelValue, init.description, init.valueType, init.writable, init.observable)
  }

  function ActionOf(init: ActionInit): Interaction {
    Action(init.labelValue, init.description, init.input, init.output)
  }

  function EventOf(init: EventInit): Interaction {
    Event(init.labelValue, init.description, init.valueType)
  }

  /** The behaviour of the application's handlers, by handler identifier.
      A read handler gets the property name, a write handler the name and
      the value, an action handler only the call's arguments. */
  datatype UserCode = UserCode(read: (nat, string) -> Reply<Value>,
                               write: (nat, string, Value) -> Reply<()>,
                               invoke: (nat, seq<Value>) -> Reply<Value>)

  /** The serialisations carried by description-change events: each init
      dictionary's `to_dict()`, and the Thing Description built from the
      Thing's interactions. */
  datatype Codec = Codec(propertyDict: PropertyInit -> Value,
                         actionDict: ActionInit -> Value,
                         eventDict: EventInit -> Value,
                         describe: map<string, Interaction> -> Value)

  datatype ThingState = ThingState(interactions: map<string, Interaction>,
                                   values: map<string, Value>,
                                   handlers: HandlerTables,
                                   log: seq<EmittedEvent>)

  /** The outcome of an operation and the state it leaves behind. */
  datatype Step<+T> = Step(result: Result<T>, after: ThingState)

  /** The object invariant: the handler tables stay seeded. */
  ghost predicate Valid(s: ThingState) {
    Seeded(s.handlers)
  }

  /** A registered property whose `writable` flag is set. */
  predicate WritableProperty(s: ThingState, name: string) {
    name in s.interactions && s.interactions[name].Property? && s.interactions[name].writable
  }

  /** A registered property whose `observable` flag is set. */
  predicate ObservableProperty(s: ThingState, name: string) {
    name in s.interactions && s.interactions[name].Property? && s.interactions[name].observable
  }

  /** Appends one event to the stream. */
  function Publish(s: ThingState, e: EmittedEvent): (r: ThingState)
    ensures r.log == s.log + [e]
    ensures r.(log := s.log) == s
  {
    s.(log := s.log + [e])
  }

  /** `__init__`: the Thing's existing interactions, no property values,
      default handlers for the three kinds and an empty stream. */
  function Init(interactions: map<string, Interaction>): (s: ThingState)
    ensures Valid(s)
    ensures s.interactions == interactions && s.values == map[] && s.log == []
    ensures forall k :: k in SeededKeys ==> GetHandler(s.handlers, k, None) == Some(Default)
  {
    ThingState(interactions, map[], Initial(), [])
  }

  /** `_find_interaction`. */
  function FindInteraction(interactions: map<string, Interaction>, name: string): (r: Result<Interaction>)
    ensures r.Ok? <==> name in interactions
    ensures r.Ok? ==> r.value == interactions[name]
    ensures r.Err? ==> r.error == InteractionNotFound(name)
  {
    if name in interactions then Ok(interactions[name]) else Err(InteractionNotFound(name))
  }

  /** `_get_property_value`: a property with no stored value reads as `Null`. */
  function GetPropertyValue(values: map<string, Value>, name: string): (v: Value)
    ensures name !in values ==> v == Null
    ensures name in values ==> v == values[name]
  {
    if name in values then values[name] else Null
  }

  /** `_default_retrieve_property_handler`. */
  function DefaultRetrieve(s: ThingState, name: string): (r: Result<Value>)
    ensures r.Ok? <==> name in s.interactions
    ensures r.Ok? ==> r.value == GetPropertyValue(s.values, name)
    ensures r.Err? ==> r.error == InteractionNotFound(name)
  {
    match FindInteraction(s.interactions, name)
    case Err(e) => Err(e)
    case Ok(_) => Ok(GetPropertyValue(s.values, name))
  }

  /** `_default_update_property_handler`, giving the new value store. */
  function DefaultUpdate(s: ThingState, name: string, value: Value): (r: Result<map<string, Value>>)
    ensures r.Ok? <==> name in s.interactions
    ensures r.Ok? ==> GetPropertyValue(r.value, name) == value
    ensures r.Ok? ==> forall n :: n != name ==> GetPropertyValue(r.value, n) == GetPropertyValue(s.values, n)
    ensures r.Ok? ==> r.value.Keys == s.values.Keys + {name}
    ensures r.Err? ==> r.error == InteractionNotFound(name)
  {
    match FindInteraction(s.interactions, name)
    case Err(e) => Err(e)
    case Ok(_) => Ok(s.values[name := value])
  }

  /** `_default_invoke_action_handler`: it never succeeds. It takes no
      arguments, so a call that passes some fails before its body runs. */
  function DefaultInvoke(args: seq<Value>): (r: Result<Value>)
    ensures r.Err?
    ensures r.error == UndefinedActionHandler <==> args == []
  {
    if args == [] then Err(UndefinedActionHandler) else Err(ArgumentMismatch)
  }

  /** `read_property`: find the interaction, resolve its read handler and
      pass on that handler's result. Reading changes nothing. */
  function ReadProperty(s: ThingState, code: UserCode, name: string): (r: Result<Value>)
    ensures name !in s.interactions ==> r == Err(InteractionNotFound(name))
    ensures name in s.interactions && GetHandler(s.handlers, RetrieveKey, Some(name)) == Some(Default) ==>
              r == Ok(GetPropertyValue(s.values, name))
    ensures name in s.interactions ==> forall id: nat :: GetHandler(s.handlers, RetrieveKey, Some(name)) == Some(User(id)) ==>
              r == Lift(code.read(id, name))
    ensures name in s.interactions && GetHandler(s.handlers, RetrieveKey, Some(name)) == Some(Cleared) ==>
              r == Err(NotCallable)
    ensures Valid(s) ==> r != Err(MissingHandler)
  {
    match FindInteraction(s.interactions, name)
    case Err(e) => Err(e)
    case Ok(_) =>
      match GetHandler(s.handlers, RetrieveKey, Some(name))
      case None => Err(MissingHandler)
      case Some(Default) => DefaultRetrieve(s, name)
      case Some(User(id)) => Lift(code.read(id, name))
      case Some(Cleared) => Err(NotCallable)
  }

  /** `write_property`: find the interaction, refuse a non-writable one
      before any handler runs, resolve and run the write handler, and only
      once it has succeeded publish one property-change event. */
  function WriteProperty(s: ThingState, code: UserCode, name: string, value: Value): (r: Step<()>)
    ensures Valid(s) ==> Valid(r.after)
    ensures r.result.Err? ==> r.after == s
    ensures r.result.Ok? ==> r.after.log == s.log + [PropertyChangeEvent(name, value)]
    ensures r.result.Ok? ==> WritableProperty(s, name)
    ensures r.after.interactions == s.interactions && r.after.handlers == s.handlers
    ensures r.after.values == s.values || r.after.values == s.values[name := value]
    ensures name !in s.interactions ==> r.result == Err(InteractionNotFound(name))
    ensures name in s.interactions && s.interactions[name].Property? && !s.interactions[name].writable ==>
              r.result == Err(NonWritable)
    ensures WritableProperty(s, name) && GetHandler(s.handlers, UpdateKey, Some(name)) == Some(Default) ==>
              r.result == Ok(()) && r.after.values == s.values[name := value]
    ensures WritableProperty(s, name) ==> forall id: nat :: GetHandler(s.handlers, UpdateKey, Some(name)) == Some(User(id)) ==>
              r.result == Lift(code.write(id, name, value)) && r.after.values == s.values
    ensures WritableProperty(s, name) && GetHandler(s.handlers, UpdateKey, Some(name)) == Some(Cleared) ==>
              r.result == Err(NotCallable)
    ensures Valid(s) ==> r.result != Err(MissingHandler)
  {
    match FindInteraction(s.interactions, name)
    case Err(e) => Step(Err(e), s)
    case Ok(i) =>
      if !i.Property? then Step(Err(MissingAttribute("writable")), s)
      else if !i.writable then Step(Err(NonWritable), s)
      else
        var written: Result<map<string, Value>> :=
          match GetHandler(s.handlers, UpdateKey, Some(name))
          case None => Err(MissingHandler)
          case Some(Default) => DefaultUpdate(s, name, value)
          case Some(User(id)) =>
            (match code.write(id, name, value)
             case Raised(reason) => Err(HandlerFailed(reason))
             case Resolved(u) => match u case () => Ok(s.values))
          case Some(Cleared) => Err(NotCallable);
        match written
        case Err(e) => Step(Err(e), s)
        case Ok(values) => Step(Ok(()), Publish(s.(values := values), PropertyChangeEvent(name, value)))
  }

  /** `invoke_action`: find the interaction, resolve and run the action
      handler, and only on success publish one action-invocation event with
      the same result the caller receives. */
  function InvokeAction(s: ThingState, code: UserCode, name: string, args: seq<Value>): (r: Step<Value>)
    ensures Valid(s) ==> Valid(r.after)
    ensures r.result.Err? ==> r.after == s
    ensures r.result.Ok? ==> r.after == Publish(s, ActionInvocationEvent(name, r.result.value))
    ensures name !in s.interactions ==> r.result == Err(InteractionNotFound(name))
    ensures GetHandler(s.handlers, InvokeKey, Some(name)) == Some(Default) ==> r.result.Err?
    ensures name in s.interactions && GetHandler(s.handlers, InvokeKey, Some(name)) == Some(Default) ==>
              r.result == Err(if args == [] then UndefinedActionHandler else ArgumentMismatch)
    ensures name in s.interactions ==> forall id: nat :: GetHandler(s.handlers, InvokeKey, Some(name)) == Some(User(id)) ==>
              r.result == Lift(code.invoke(id, args))
    ensures name in s.interactions && GetHandler(s.handlers, InvokeKey, Some(name)) == Some(Cleared) ==>
              r.result == Err(NotCallable)
    ensures Valid(s) ==> r.result != Err(MissingHandler)
  {
    match FindInteraction(s.interactions, name)
    case Err(e) => Step(Err(e), s)
    case Ok(_) =>
      var result: Result<Value> :=
        match GetHandler(s.handlers, InvokeKey, Some(name))
        case None => Err(MissingHandler)
        case Some(Default) => DefaultInvoke(args)
        case Some(User(id)) => Lift(code.invoke(id, args))
        case Some(Cleared) => Err(NotCallable);
      match result
      case Err(e) => Step(Err(e), s)
      case Ok(v) => Step(Ok(v), Publish(s, ActionInvocationEvent(name, v)))
  }

  /** `on_event`: a known name gives the stream of events of that name. */
  function OnEvent(s: ThingState, name: string): (o: Observable)
    ensures o.Throw? <==> name !in s.interactions
    ensures o.Throw? ==> o.error == UnknownEvent
    ensures o.Stream? ==> forall e :: Accepts(o.filter, e) <==> e.name == name
  {
    match FindInteraction(s.interactions, name)
    case Err(_) => Throw(UnknownEvent)
    case Ok(_) => Stream(EventNamed(name))
  }

  /** `on_property_change`: a known, observable property gives the stream of
      its property-change events. Asking `observable` of an interaction that
      is not a property raises at once. */
  function OnPropertyChange(s: ThingState, name: string): (r: Result<Observable>)
    ensures name !in s.interactions ==> r == Ok(Throw(UnknownProperty))
    ensures name in s.interactions && s.interactions[name].Property? && !s.interactions[name].observable ==>
              r == Ok(Throw(NotObservable))
    ensures name in s.interactions && !s.interactions[name].Property? ==> r.Err?
    ensures ObservableProperty(s, name) ==> r == Ok(Stream(PropertyChangeOf(name)))
    ensures r.Ok? && r.value.Stream? ==>
              && name in s.interactions && s.interactions[name].Property? && s.interactions[name].observable
              && forall e :: Accepts(r.value.filter, e) <==>
                               e.name == PropertyChangeName && e.data.PropertyChangeData? && e.data.property == name
  {
    match FindInteraction(s.interactions, name)
    case Err(_) => Ok(Throw(UnknownProperty))
    case Ok(i) =>
      if !i.Property? then Err(MissingAttribute("observable"))
      else if !i.observable then Ok(Throw(NotObservable))
      else Ok(Stream(PropertyChangeOf(name)))
  }

  /** `on_td_change`: the stream of description-change events, always available. */
  function OnTdChange(): (o: Observable)
    ensures o.Stream? && forall e :: Accepts(o.filter, e) <==> e.name == DescriptionChangeName
  {
    Stream(DescriptionChanges)
  }

  /** `emit_event`: an unknown name is refused; a known one publishes exactly
      the emitted event. */
  function EmitEvent(s: ThingState, name: string, payload: Value): (r: Step<()>)
    ensures Valid(s) ==> Valid(r.after)
    ensures r.result.Ok? <==> name in s.interactions
    ensures r.result.Err? ==> r.result.error == UnknownEmittedEvent(name) && r.after == s
    ensures r.result.Ok? ==> r.after == Publish(s, EmittedEvent(name, Payload(payload)))
  {
    if name !in s.interactions then Step(Err(UnknownEmittedEvent(name)), s)
    else Step(Ok(()), Publish(s, EmittedEvent(name, Payload(payload))))
  }

  /** Registers an interaction and announces it with an ADD description change
      carrying its init dictionary and the updated Thing Description. */
  function Announce(s: ThingState, codec: Codec, changeType: ChangeType, name: string,
                    i: Interaction, data: Value): ThingState
  {
    var interactions := s.interactions[name := i];
    Publish(s.(interactions := interactions),
            DescriptionChangeEvent(changeType, Add, name, Some(data), Some(codec.describe(interactions))))
  }

  /** Unregisters an interaction and announces it with a REMOVE description
      change that carries only the name. */
  function Retract(s: ThingState, changeType: ChangeType, name: string): ThingState
  {
    Publish(s.(interactions := s.interactions - {name}), DescriptionChangeEvent(changeType, Remove, name, None, None))
  }

  /** `add_property`: also seeds the value store with the initial value. */
  function AddProperty(s: ThingState, codec: Codec, name: string, init: PropertyInit): (r: ThingState)
    ensures Valid(s) ==> Valid(r)
    ensures r.interactions == s.interactions[name := PropertyOf(init)]
    ensures GetPropertyValue(r.values, name) == init.value
    ensures forall n :: n != name ==> GetPropertyValue(r.values, n) == GetPropertyValue(s.values, n)
    ensures r.handlers == s.handlers
    ensures r.log == s.log + [DescriptionChangeEvent(PropertyType, Add, name, Some(codec.propertyDict(init)),
                                                     Some(codec.describe(r.interactions)))]
  {
    Announce(s.(values := s.values[name := init.value]), codec, PropertyType, name, PropertyOf(init), codec.propertyDict(init))
  }

  /** `remove_property`: the value store and the handler tables keep their
      entries for the removed name. */
  function RemoveProperty(s: ThingState, name: string): (r: ThingState)
    ensures Valid(s) ==> Valid(r)
    ensures r.interactions == s.interactions - {name} && name !in r.interactions
    ensures r.values == s.values && r.handlers == s.handlers
    ensures r.log == s.log + [DescriptionChangeEvent(PropertyType, Remove, name, None, None)]
  {
    Retract(s, PropertyType, name)
  }

  /** `add_action`. */
  function AddAction(s: ThingState, codec: Codec, name: string, init: ActionInit): (r: ThingState)
    ensures Valid(s) ==> Valid(r)
    ensures r.interactions == s.interactions[name := ActionOf(init)]
    ensures r.values == s.values && r.handlers == s.handlers
    ensures r.log == s.log + [DescriptionChangeEvent(ActionType, Add, name, Some(codec.actionDict(init)),
                                                     Some(codec.describe(r.interactions)))]
  {
    Announce(s, codec, ActionType, name, ActionOf(init), codec.actionDict(init))
  }

  /** `remove_action`. */
  function RemoveAction(s: ThingState, name: string): (r: ThingState)
    ensures Valid(s) ==> Valid(r)
    ensures r.interactions == s.interactions - {name} && name !in r.interactions
    ensures r.values == s.values && r.handlers == s.handlers
    ensures r.log == s.log + [DescriptionChangeEvent(ActionType, Remove, name, None, None)]
  {
    Retract(s, ActionType, name)
  }

  /** `add_event`. */
  function AddEvent(s: ThingState, codec: Codec, name: string, init: EventInit): (r: ThingState)
    ensures Valid(s) ==> Valid(r)
    ensures r.interactions == s.interactions[name := EventOf(init)]
    ensures r.values == s.values && r.handlers == s.handlers
    ensures r.log == s.log + [DescriptionChangeEvent(EventType, Add, name, Some(codec.eventDict(init)),
                                                     Some(codec.describe(r.interactions)))]
  {
    Announce(s, codec, EventType, name, EventOf(init), codec.eventDict(init))
  }

  /** `remove_event`. */
  function RemoveEvent(s: ThingState, name: string): (r: ThingState)
    ensures Valid(s) ==> Valid(r)
    ensures r.interactions == s.interactions - {name} && name !in r.interactions
    ensures r.values == s.values && r.handlers == s.handlers
    ensures r.log == s.log + [DescriptionChangeEvent(EventType, Remove, name, None, None)]
  {
    Retract(s, EventType, name)
  }

  /** `set_action_handler`, `set_property_read_handler` and
      `set_property_write_handler`, for the kind each of them uses: a named
      interaction must exist, and is looked up before any table changes. The
      handler may be `None`, which is stored like any other. */
  function SetHandlerFor(s: ThingState, kind: HandlerKey, handler: Option<nat>, name: Option<string>): (r: Step<()>)
    ensures Valid(s) ==> Valid(r.after)
    ensures name.Some? && name.value !in s.interactions ==>
              r.result == Err(InteractionNotFound(name.value)) && r.after == s
    ensures name.None? || name.value in s.interactions ==>
              r.result.Ok? && r.after == s.(handlers := SetHandler(s.handlers, kind, Supplied(handler), name))
  {
    if name.Some? && name.value !in s.interactions then Step(Err(InteractionNotFound(name.value)), s)
    else Step(Ok(()), s.(handlers := SetHandler(s.handlers, kind, Supplied(handler), name)))
  }
}
