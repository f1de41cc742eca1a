/** The exposed Thing as an object whose methods update its fields in place.
    Each method is proved to leave the object in the state, and return the
    result, that the matching function of module `Thing` gives. */
module Exposed {
  import opened Values
  import opened Events
  import opened Handlers
  import opened Thing
  import ThingProperties

  class ExposedThing {
    var interactions: map<string, Interaction>
    var values: map<string, Value>
    var global: map<HandlerKey, Handler>
    var overrides: map<HandlerKey, map<string, Handler>>
    var log: seq<EmittedEvent>

    /** The object's state as a value. */
    function State(): ThingState
      reads this
    {
      ThingState(interactions, values, HandlerTables(global, overrides), log)
    }

    /** The object invariant: the handler tables stay seeded, so no
      operation ever fails for want of a global handler. */
    ghost predicate Valid()
      reads this
    {
      Thing.Valid(State())
    }

    /** `__init__`, for a Thing that already holds `interactions`. */
    constructor (interactions: map<string, Interaction>)
      ensures Valid()
      ensures State() == Init(interactions)
    {
      this.interactions := interactions;
      values := map[];
      global := map[RetrieveKey := Default, UpdateKey := Default, InvokeKey := Default];
      overrides := map[RetrieveKey := map[], UpdateKey := map[], InvokeKey := map[]];
      log := [];
    }

    /** `_set_property_value`: overwrites one entry of the value store. */
    method SetPropertyValue(name: string, value: Value)
      modifies this`values
      ensures GetPropertyValue(values, name) == value
      ensures values == old(values)[name := value]
    {
      values := values[name := value];
    }

    /** `_set_handler`. */
    method SetHandler(kind: HandlerKey, handler: Handler, interaction: Option<string>)
      modifies this`global, this`overrides
      ensures HandlerTables(global, overrides) == Handlers.SetHandler(old(HandlerTables(global, overrides)), kind, handler, interaction)
    {
      if interaction.None? || kind !in overrides {
        global := global[kind := handler];
      } else {
        var table := overrides[kind];
        overrides := overrides[kind := table[interaction.value := handler]];
      }
    }

    /** `_default_update_property_handler`. */
    method DefaultUpdatePropertyHandler(name: string, value: Value) returns (r: Result<()>)
      modifies this`values
      ensures r.Ok? <==> name in interactions
      ensures r.Ok? ==> values == old(values)[name := value]
      ensures r.Err? ==> r.error == InteractionNotFound(name) && values == old(values)
    {
      var found := FindInteraction(interactions, name);
      if found.Err? {
        return Err(found.error);
      }
      SetPropertyValue(name, value);
      r := Ok(());
    }

    /** `read_property`. */
    method ReadProperty(code: UserCode, name: string) returns (r: Result<Value>)
      requires Valid()
      ensures r == Thing.ReadProperty(State(), code, name)
      ensures name !in interactions ==> r.Err?
      ensures r != Err(MissingHandler)
    {
      var found := FindInteraction(interactions, name);
      if found.Err? {
        return Err(found.error);
      }
      var handler := GetHandler(HandlerTables(global, overrides), RetrieveKey, Some(name));
      match handler {
        case None =>
          r := Err(MissingHandler);
        case Some(Default) =>
          r := DefaultRetrieve(State(), name);
        case Some(User(id)) =>
          r := Lift(code.read(id, name));
        case Some(Cleared) =>
          r := Err(NotCallable);
      }
    }

    /** `write_property`. */
    method WriteProperty(code: UserCode, name: string, value: Value) returns (r: Result<()>)
      requires Valid()
      modifies this
      ensures Valid()
      ensures Step(r, State()) == Thing.WriteProperty(old(State()), code, name, value)
      ensures r != Err(MissingHandler)
      ensures r.Err? ==> log == old(log)
      ensures r.Ok? ==> log == old(log) + [PropertyChangeEvent(name, value)]
    {
      var found := FindInteraction(interactions, name);
      if found.Err? {
        return Err(found.error);
      }
      var interaction := found.value;
      if !interaction.Property? {
        return Err(MissingAttribute("writable"));
      }
      if !interaction.writable {
        return Err(NonWritable);
      }
      var handler := GetHandler(HandlerTables(global, overrides), UpdateKey, Some(name));
      match handler {
        case None =>
          return Err(MissingHandler);
        case Some(Default) =>
          var done := DefaultUpdatePropertyHandler(name, value);
          if done.Err? {
            return done;
          }
        case Some(User(id)) =>
          var done := Lift(code.write(id, name, value));
          if done.Err? {
            return done;
          }
        case Some(Cleared) =>
          return Err(NotCallable);
      }
      log := log + [PropertyChangeEvent(name, value)];
      r := Ok(());
    }

    /** `invoke_action`. */
    method InvokeAction(code: UserCode, name: string, args: seq<Value>) returns (r: Result<Value>)
      requires Valid()
      modifies this
      ensures Valid()
      ensures Step(r, State()) == Thing.InvokeAction(old(State()), code, name, args)
      ensures r != Err(MissingHandler)
      ensures r.Err? ==> log == old(log)
      ensures r.Ok? ==> log == old(log) + [ActionInvocationEvent(name, r.value)]
    {
      var found := FindInteraction(interactions, name);
      if found.Err? {
        return Err(found.error);
      }
      var handler := GetHandler(HandlerTables(global, overrides), InvokeKey, Some(name));
      match handler {
        case None =>
          r := Err(MissingHandler);
        case Some(Default) =>
          r := DefaultInvoke(args);
        case Some(User(id)) =>
          r := Lift(code.invoke(id, args));
        case Some(Cleared) =>
          r := Err(NotCallable);
      }
      if r.Ok? {
        log := log + [ActionInvocationEvent(name, r.value)];
      }
    }

    /** `emit_event`. */
    method EmitEvent(name: string, payload: Value) returns (r: Result<()>)
      requires Valid()
      modifies this`log
      ensures Valid()
      ensures Step(r, State()) == Thing.EmitEvent(old(State()), name, payload)
    {
      if name !in interactions {
        return Err(UnknownEmittedEvent(name));
      }
      log := log + [EmittedEvent(name, Payload(payload))];
      r := Ok(());
    }

    /** `add_property`. */
    method AddProperty(codec: Codec, name: string, init: PropertyInit)
      requires Valid()
      modifies this
      ensures Valid()
      ensures State() == Thing.AddProperty(old(State()), codec, name, init)
    {
      interactions := interactions[name := PropertyOf(init)];
      SetPropertyValue(name, init.value);
      var change := DescriptionChangeEvent(PropertyType, Add, name, Some(codec.propertyDict(init)),
                                           Some(codec.describe(interactions)));
      log := log + [change];
    }

    /** `remove_property`. */
    method RemoveProperty(name: string)
      requires Valid()
      modifies this`interactions, this`log
      ensures Valid()
      ensures State() == Thing.RemoveProperty(old(State()), name)
    {
      interactions := interactions - {name};
      log := log + [DescriptionChangeEvent(PropertyType, Remove, name, None, None)];
    }

    /** `add_action`. */
    method AddAction(codec: Codec, name: string, init: ActionInit)
      requires Valid()
      modifies this`interactions, this`log
      ensures Valid()
      ensures State() == Thing.AddAction(old(State()), codec, name, init)
    {
      interactions := interactions[name := ActionOf(init)];
      var change := DescriptionChangeEvent(ActionType, Add, name, Some(codec.actionDict(init)),
                                           Some(codec.describe(interactions)));
      log := log + [change];
    }

    /** `remove_action`. */
    method RemoveAction(name: string)
      requires Valid()
      modifies this`interactions, this`log
      ensures Valid()
      ensures State() == Thing.RemoveAction(old(State()), name)
    {
      interactions := interactions - {name};
      log := log + [DescriptionChangeEvent(ActionType, Remove, name, None, None)];
    }

    /** `add_event`. */
    method AddEvent(codec: Codec, name: string, init: EventInit)
      requires Valid()
      modifies this`interactions, this`log
      ensures Valid()
      ensures State() == Thing.AddEvent(old(State()), codec, name, init)
    {
      interactions := interactions[name := EventOf(init)];
      var change := DescriptionChangeEvent(EventType, Add, name, Some(codec.eventDict(init)),
                                           Some(codec.describe(interactions)));
      log := log + [change];
    }

    /** `remove_event`. */
    method RemoveEvent(name: string)
      requires Valid()
      modifies this`interactions, this`log
      ensures Valid()
      ensures State() == Thing.RemoveEvent(old(State()), name)
    {
      interactions := interactions - {name};
      log := log + [DescriptionChangeEvent(EventType, Remove, name, None, None)];
    }

    /** The body shared by the three `set_*_handler` methods. `None` is an
        accepted handler: it clears an override, or leaves the kind without
        a callable global handler. */
    method SetNamedHandler(kind: HandlerKey, handler: Option<nat>, name: Option<string>) returns (r: Result<()>)
      requires Valid()
      modifies this`global, this`overrides
      ensures Valid()
      ensures Step(r, State()) == SetHandlerFor(old(State()), kind, handler, name)
    {
      if name.Some? {
        var found := FindInteraction(interactions, name.value);
        if found.Err? {
          return Err(found.error);
        }
      }
      SetHandler(kind, Supplied(handler), name);
      r := Ok(());
    }

    /** `set_action_handler`. */
    method SetActionHandler(handler: Option<nat>, actionName: Option<string>) returns (r: Result<()>)
      requires Valid()
      modifies this`global, this`overrides
      ensures Valid()
      ensures Step(r, State()) == SetHandlerFor(old(State()), InvokeKey, handler, actionName)
    {
      r := SetNamedHandler(InvokeKey, handler, actionName);
    }

    /** `set_property_read_handler`. */
    method SetPropertyReadHandler(handler: Option<nat>, propertyName: Option<string>) returns (r: Result<()>)
      requires Valid()
      modifies this`global, this`overrides
      ensures Valid()
      ensures Step(r, State()) == SetHandlerFor(old(State()), RetrieveKey, handler, propertyName)
    {
      r := SetNamedHandler(RetrieveKey, handler, propertyName);
    }

    /** `set_property_write_handler`. */
    method SetPropertyWriteHandler(handler: Option<nat>, propertyName: Option<string>) returns (r: Result<()>)
      requires Valid()
      modifies this`global, this`overrides
      ensures Valid()
      ensures Step(r, State()) == SetHandlerFor(old(State()), UpdateKey, handler, propertyName)
    {
      r := SetNamedHandler(UpdateKey, handler, propertyName);
    }
  }

  /** A client of the class: a Thing with no interactions gets a writable,
      observable property "temp" with value 20; a property-change
      subscriber attaches; 21 is written and read back. */
  method TemperatureScenario(codec: Codec, code: UserCode)
    returns (initial: Result<Value>, subscription: Result<Observable>, written: Result<()>,
             current: Result<Value>, delivered: Result<seq<EmittedEvent>>)
    ensures initial == Ok(Num(20))
    ensures subscription == Ok(Stream(PropertyChangeOf("temp")))
    ensures written == Ok(())
    ensures current == Ok(Num(21))
    ensures delivered == Ok([PropertyChangeEvent("temp", Num(21))])
  {
    var thing := new ExposedThing(map[]);
    var init := PropertyInit(Null, Object(map["type" := Text("number")]), Null, true, true, Num(20));
    FallbackToGlobal(thing.State().handlers, RetrieveKey, Some("temp"));
    FallbackToGlobal(thing.State().handlers, UpdateKey, Some("temp"));
    thing.AddProperty(codec, "temp", init);
    ThingProperties.AddPropertyThenRead(Init(map[]), codec, code, "temp", init);
    initial := thing.ReadProperty(code, "temp");
    subscription := OnPropertyChange(thing.State(), "temp");
    var from := |thing.log|;
    ghost var before := thing.State();
    ThingProperties.WriteThenRead(before, code, "temp", Num(21));
    ThingProperties.SubscribeThenWriteDeliversOne(before, code, "temp", Num(21));
    written := thing.WriteProperty(code, "temp", Num(21));
    current := thing.ReadProperty(code, "temp");
    delivered := Delivered(subscription.value, thing.log, from);
  }
}
