/** Properties of the exposed Thing that relate several operations: reading
    back what was written, what subscribers receive, what adding and
    removing interactions does, and the invariants every sequence of
    operations keeps. */
module ThingProperties {
  import opened Values
  import opened Events
  import opened Handlers
  import opened Thing

  /** Reading and writing `name` both resolve to the default handlers. */
  predicate DefaultPropertyHandlers(s: ThingState, name: string) {
    && GetHandler(s.handlers, RetrieveKey, Some(name)) == Some(Default)
    && GetHandler(s.handlers, UpdateKey, Some(name)) == Some(Default)
  }

  /** Through the default handlers, a write to a writable property succeeds
      and a read that follows returns the written value. */
  lemma WriteThenRead(s: ThingState, code: UserCode, name: string, v: Value)
    requires WritableProperty(s, name) && DefaultPropertyHandlers(s, name)
    ensures WriteProperty(s, code, name, v).result == Ok(())
    ensures ReadProperty(WriteProperty(s, code, name, v).after, code, name) == Ok(v)
  {
  }

  /** On a freshly constructed Thing every interaction reads as `Null`, an
      ordinary value rather than an error. */
  lemma FreshThingReadsNull(interactions: map<string, Interaction>, code: UserCode, name: string)
    requires name in interactions
    ensures ReadProperty(Init(interactions), code, name) == Ok(Null)
  {
  }

  /** A read override takes the place of the default read: the caller gets
      that handler's result, or its error unchanged. */
  lemma ReadUsesOverride(s: ThingState, code: UserCode, name: string, id: nat)
    requires name in s.interactions
    requires HasOverride(s.handlers, RetrieveKey, name) && s.handlers.overrides[RetrieveKey][name] == User(id)
    ensures ReadProperty(s, code, name) == Lift(code.read(id, name))
  {
  }

  /** While an action resolves to the default action handler (none was set
      for it or globally, as on a new object), every invocation fails and
      changes nothing, the stream included. */
  lemma InvokeWithoutHandlerFails(s: ThingState, code: UserCode, name: string, args: seq<Value>)
    requires name in s.interactions && GetHandler(s.handlers, InvokeKey, Some(name)) == Some(Default)
    ensures InvokeAction(s, code, name, args) ==
            Step(Err(if args == [] then UndefinedActionHandler else ArgumentMismatch), s)
  {
  }

  /** Through an application write handler, the handler alone decides the
      outcome: its error fails the write and changes nothing; its success
      publishes the property-change event and leaves the value store as it
      was, since only the default handler writes there. */
  lemma WriteHandlerDecides(s: ThingState, code: UserCode, name: string, v: Value, id: nat)
    requires WritableProperty(s, name) && GetHandler(s.handlers, UpdateKey, Some(name)) == Some(User(id))
    ensures code.write(id, name, v).Raised? ==>
              WriteProperty(s, code, name, v) == Step(Err(HandlerFailed(code.write(id, name, v).reason)), s)
    ensures code.write(id, name, v).Resolved? ==>
              WriteProperty(s, code, name, v) == Step(Ok(()), Publish(s, PropertyChangeEvent(name, v)))
  {
  }

  /** `set_property_read_handler(None, name)` clears the read override of
      `name`: reading it falls back to the global read handler again. */
  lemma ClearedOverrideFallsBack(s: ThingState, code: UserCode, name: string)
    requires Valid(s) && name in s.interactions
    ensures SetHandlerFor(s, RetrieveKey, None, Some(name)).result == Ok(())
    ensures var t := SetHandlerFor(s, RetrieveKey, None, Some(name)).after;
            && GetHandler(t.handlers, RetrieveKey, Some(name)) == Some(s.handlers.global[RetrieveKey])
            && (s.handlers.global[RetrieveKey] == Default ==> ReadProperty(t, code, name) == Ok(GetPropertyValue(s.values, name)))
  {
  }

  /** `set_action_handler(None)` leaves `None` as the global action handler:
      every action without an override of its own then fails to invoke, and
      nothing is published. */
  lemma ClearedGlobalActionHandlerFails(s: ThingState, code: UserCode, name: string, args: seq<Value>)
    requires Valid(s) && name in s.interactions && !HasOverride(s.handlers, InvokeKey, name)
    ensures var t := SetHandlerFor(s, InvokeKey, None, None).after;
            InvokeAction(t, code, name, args) == Step(Err(NotCallable), t)
  {
  }

  /** After `set_action_handler` for a named action, invoking it runs that
      handler, and on success publishes its result. */
  lemma ActionHandlerThenInvoke(s: ThingState, code: UserCode, handler: nat, name: string, args: seq<Value>)
    requires Valid(s) && name in s.interactions
    ensures SetHandlerFor(s, InvokeKey, Some(handler), Some(name)).result == Ok(())
    ensures var t := SetHandlerFor(s, InvokeKey, Some(handler), Some(name)).after;
            var call := InvokeAction(t, code, name, args);
            && call.result == Lift(code.invoke(handler, args))
            && (call.result.Ok? ==> call.after.log == s.log + [ActionInvocationEvent(name, call.result.value)])
  {
  }

  /** Subscribing to an observable property's changes succeeds, and a
      subscriber attached just before a successful write receives exactly
      that one property-change event. */
  lemma SubscribeThenWriteDeliversOne(s: ThingState, code: UserCode, name: string, v: Value)
    requires ObservableProperty(s, name)
    requires WriteProperty(s, code, name, v).result.Ok?
    ensures OnPropertyChange(s, name) == Ok(Stream(PropertyChangeOf(name)))
    ensures Delivered(OnPropertyChange(s, name).value, WriteProperty(s, code, name, v).after.log, |s.log|) ==
            Ok([PropertyChangeEvent(name, v)])
  {
    var o := OnPropertyChange(s, name).value;
    var e := PropertyChangeEvent(name, v);
    assert Accepts(o.filter, e);
    PublishOne(o, s.log, |s.log|, e);
    assert s.log[|s.log|..] == [];
    assert Delivered(o, s.log, |s.log|).value + [e] == [e];
  }

  /** The observability flag gates only the notification: a writable,
      non-observable property still accepts writes and still publishes the
      property-change event, but cannot be subscribed to. */
  lemma NotObservableStillWritable(s: ThingState, code: UserCode, name: string, v: Value)
    requires WritableProperty(s, name) && !s.interactions[name].observable
    requires DefaultPropertyHandlers(s, name)
    ensures OnPropertyChange(s, name) == Ok(Throw(NotObservable))
    ensures WriteProperty(s, code, name, v).result == Ok(())
    ensures WriteProperty(s, code, name, v).after.log == s.log + [PropertyChangeEvent(name, v)]
  {
  }

  /** Adding a property makes its initial value readable, and a
      description-change subscriber sees exactly one ADD event for it. */
  lemma AddPropertyThenRead(s: ThingState, codec: Codec, code: UserCode, name: string, init: PropertyInit)
    requires GetHandler(s.handlers, RetrieveKey, Some(name)) == Some(Default)
    ensures ReadProperty(AddProperty(s, codec, name, init), code, name) == Ok(init.value)
    ensures var t := AddProperty(s, codec, name, init);
            Delivered(OnTdChange(), t.log, |s.log|) ==
            Ok([DescriptionChangeEvent(PropertyType, Add, name, Some(codec.propertyDict(init)), Some(codec.describe(t.interactions)))])
  {
    var t := AddProperty(s, codec, name, init);
    var e := t.log[|s.log|];
    assert t.log == s.log + [e];
    PublishOne(OnTdChange(), s.log, |s.log|, e);
    assert s.log[|s.log|..] == [];
    assert Delivered(OnTdChange(), s.log, |s.log|).value + [e] == [e];
  }

  /** Once an event is removed, subscribing to it fails and emitting it is refused. */
  lemma RemoveEventThenSubscribeFails(s: ThingState, name: string, payload: Value)
    ensures OnEvent(RemoveEvent(s, name), name) == Throw(UnknownEvent)
    ensures EmitEvent(RemoveEvent(s, name), name, payload).result == Err(UnknownEmittedEvent(name))
  {
  }

  /** One call on the exposed Thing, with its arguments. */
  datatype Operation =
    | Write(name: string, value: Value)
    | Invoke(name: string, args: seq<Value>)
    | Emit(name: string, payload: Value)
    | AddProp(name: string, propertyInit: PropertyInit)
    | RemoveProp(name: string)
    | AddAct(name: string, actionInit: ActionInit)
    | RemoveAct(name: string)
    | AddEvt(name: string, eventInit: EventInit)
    | RemoveEvt(name: string)
    | SetHandlerOf(kind: HandlerKey, handler: Option<nat>, target: Option<string>)

  /** The state one call leaves behind (a read changes nothing). */
  function Apply(s: ThingState, code: UserCode, codec: Codec, op: Operation): (r: ThingState)
    ensures Valid(s) ==> Valid(r)
    ensures r.log == s.log || (|r.log| == |s.log| + 1 && r.log[..|s.log|] == s.log)
  {
    match op
    case Write(n, v) => WriteProperty(s, code, n, v).after
    case Invoke(n, args) => InvokeAction(s, code, n, args).after
    case Emit(n, p) => EmitEvent(s, n, p).after
    case AddProp(n, init) => AddProperty(s, codec, n, init)
    case RemoveProp(n) => RemoveProperty(s, n)
    case AddAct(n, init) => AddAction(s, codec, n, init)
    case RemoveAct(n) => RemoveAction(s, n)
    case AddEvt(n, init) => AddEvent(s, codec, n, init)
    case RemoveEvt(n) => RemoveEvent(s, n)
    case SetHandlerOf(k, h, target) => SetHandlerFor(s, k, h, target).after
  }

  /** The state a sequence of calls leaves behind. */
  function Run(s: ThingState, code: UserCode, codec: Codec, ops: seq<Operation>): ThingState
    decreases |ops|
  {
    if ops == [] then s else Run(Apply(s, code, codec, ops[0]), code, codec, ops[1..])
  }

  /** Whatever calls are made, every seeded handler kind keeps its global
      handler, and the stream only ever grows: nothing published is
      rewritten or retracted. */
  lemma {:induction false} RunKeepsInvariants(s: ThingState, code: UserCode, codec: Codec, ops: seq<Operation>)
    requires Valid(s)
    ensures Valid(Run(s, code, codec, ops))
    ensures s.log <= Run(s, code, codec, ops).log
    decreases |ops|
  {
    if ops != [] {
      var next := Apply(s, code, codec, ops[0]);
      RunKeepsInvariants(next, code, codec, ops[1..]);
      assert s.log <= next.log;
    }
  }

  /** Because the stream only grows, what any subscriber has received is a
      prefix of what it will have received after any further calls. */
  lemma SubscribersSeePrefixes(s: ThingState, code: UserCode, codec: Codec, ops: seq<Operation>, o: Observable, from: nat)
    requires Valid(s) && from <= |s.log|
    ensures var later := Run(s, code, codec, ops).log;
            from <= |later| && Delivered(o, later, from).Ok? == Delivered(o, s.log, from).Ok? &&
            (o.Stream? ==> Delivered(o, s.log, from).value <= Delivered(o, later, from).value)
  {
    RunKeepsInvariants(s, code, codec, ops);
    var later := Run(s, code, codec, ops).log;
    if o.Stream? {
      assert later[from..] == s.log[from..] + later[|s.log|..];
      SelectAppend(o.filter, s.log[from..], later[|s.log|..]);
    }
  }
}
