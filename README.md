# Exposed Thing runtime (wotpy), modelled in Dafny

This project models the server side of a W3C Web of Things "Thing" as wotpy's
`ExposedThing` implements it. The Thing binds its interactions (properties,
actions and events) to handlers. Handlers are either the runtime's defaults
or supplied by the application. The Thing keeps the current property values
and publishes every notification on one ordered event stream. Subscriptions
are filters over that stream.

The model has two layers.

- **A value layer** (modules `Values`, `Events`, `Handlers`, `Thing`). The
  whole object is a `ThingState` value with four parts:
  - the interaction registry, `map<string, Interaction>`;
  - the property-value store, `map<string, Value>`;
  - the handler tables: one global handler per kind, plus per-interaction
    overrides per kind;
  - the event log, `seq<EmittedEvent>`.

  Each operation is a function from a state to a result and the next state
  (`Step`).
- **An object layer** (module `Exposed`). Class `ExposedThing` holds the same
  five fields as mutable state: `interactions`, `values`, `global`,
  `overrides` and `log`. Its methods update them in place, step by step, the
  way the Python methods do. Each method is proved to return the result, and
  leave the state, that the matching `Thing` function gives.

What the source promises is proved as lemmas about the functions. These are
in module `ThingProperties` and, for the event stream and the handler
tables, in `Events` and `Handlers`.

Collaborators are modelled as follows.

- Application handlers are `Handler.User(id)`. A setter may also be passed
  `None`, stored as `Handler.Cleared`: `_get_handler` skips a falsy
  override, so a cleared override falls back to the global handler, while a
  cleared global handler fails when called (`NotCallable`, Python's
  `TypeError`). What each `id` does comes in
  a `UserCode` parameter: total functions returning `Reply` (`Resolved(v)` or
  `Raised(reason)`). A raised reason reaches the caller unchanged, as
  `HandlerFailed(reason)`.
- A Tornado future is modelled as its value once it has resolved. Every
  default handler resolves at once.
- The Rx `Subject` is modelled as the log. What a subscriber that attached
  when the log had length `from` receives is `Select(filter, log[from..])`.
- `Observable.throw(...)` is modelled as `Observable.Throw(error)`.
- The Thing Description serialiser and the init objects' `to_dict()` are
  opaque functions, given in a `Codec` parameter.

Assumptions about modules outside this model:

- An interaction's identity is its name. The source keys property values and
  per-interaction handlers by the interaction object. Here they are keyed by
  the interaction's name, which is unique within a Thing.
- `add_interaction` stores the interaction under its name, replacing any
  interaction already there. `remove_interaction` deletes the name, and does
  nothing when the name is absent. So the `remove_*` operations publish their
  event even for an unknown name.
- `Action` and `Event` objects have no `writable` or `observable` attribute.
  Asking for one raises `AttributeError`, modelled as `MissingAttribute(..)`.
- The default action handler takes no arguments. Calling it with arguments
  raises `TypeError`, modelled as `ArgumentMismatch`, instead of "Undefined
  action handler". Either way the call fails and nothing is published.
- The notification names are `"propertychange"`, `"actioninvocation"` and
  `"descriptionchange"`. The enum that defines them, `DefaultThingEvent`, is
  not part of this model.

## Model

| member | source | states |
|---|---|---|
| Handlers.Initial | wotpy/wot/exposed/thing.py:55-65 | each of read, write and invoke starts with the default global handler and an empty override table; observe has no global handler |
| Handlers.SetHandler | wotpy/wot/exposed/thing.py:87-93 | with an interaction, for a kind that has a table, only that one override is written and every other table and the globals are unchanged; otherwise only the kind's global handler is replaced; the seeded invariant is kept |
| Handlers.Supplied | wotpy/wot/exposed/thing.py:406-449 | a setter's argument is never the runtime default; `None` becomes the cleared handler and a function the application handler it names |
| Handlers.GetHandler | wotpy/wot/exposed/thing.py:95-99 | lookup fails exactly when there is neither a non-`None` override for the pair nor a global handler for the kind; in seeded tables it never fails for the three seeded kinds |
| Handlers.OverrideTakesPrecedence | wotpy/wot/exposed/thing.py:95-99 | a stored override is what resolves for its interaction, and replacing the global handler later does not change that |
| Handlers.FallbackToGlobal | wotpy/wot/exposed/thing.py:55-59 | without an override the lookup silently yields the kind's global handler |
| Handlers.SetOverrideResolves | wotpy/wot/exposed/thing.py:87-99 | after storing an override it resolves for that pair; after storing `None` the pair resolves to the global handler again; either way no other (kind, interaction) pair resolves differently |
| Handlers.SetGlobalResolves | wotpy/wot/exposed/thing.py:87-99 | after replacing a global handler it resolves for every interaction of that kind without an override, and other kinds resolve as before |
| Events.Accepts | wotpy/wot/exposed/thing.py:239-271 | `on_event`'s filter accepts exactly the events of its name, `on_property_change`'s exactly the property-change events published for its property, `on_td_change`'s exactly the description changes |
| Events.Select | wotpy/wot/exposed/thing.py:243 | a filtered view is no longer than the stream and holds only accepted events |
| Events.SelectMembers | wotpy/wot/exposed/thing.py:239-243 | an event is in a filter's view exactly when it is in the stream and the filter accepts it |
| Events.SelectAppend | wotpy/wot/exposed/thing.py:67 | filtering distributes over concatenation, so publishing keeps every view in publish order |
| Events.PublishOne | wotpy/wot/exposed/thing.py:206 | publishing one event adds it to each view whose filter accepts it and leaves the other views unchanged; a throwing observable stays an error |
| Events.Delivered | wotpy/wot/exposed/thing.py:237-243 | a subscriber gets an error exactly when it subscribed to a throwing observable, and otherwise the filtered suffix of the stream since it attached |
| Values.Lift | wotpy/wot/exposed/thing.py:183-221 | awaiting an application handler's future succeeds exactly when it resolved, with its value, and otherwise fails with its own reason unchanged |
| Thing.Publish | wotpy/wot/exposed/thing.py:204-206 | `on_next` appends exactly the one event to the end of the stream and changes no other part of the state |
| Thing.Init | wotpy/wot/exposed/thing.py:47-67 | the new object is valid, holds no property values and an empty stream, and resolves every seeded kind to its default |
| Thing.FindInteraction | wotpy/wot/exposed/thing.py:101-109 | succeeds exactly for registered names, returning their definition; otherwise fails with "Interaction not found" for that name |
| Thing.GetPropertyValue | wotpy/wot/exposed/thing.py:81-85 | a stored value is returned; a property never set reads as None, not as an error |
| Thing.DefaultRetrieve | wotpy/wot/exposed/thing.py:111-119 | succeeds exactly for a registered name, returning its stored value or None |
| Thing.DefaultUpdate | wotpy/wot/exposed/thing.py:121-129 | succeeds exactly for a registered name; afterwards that name reads as the written value and every other name reads as before |
| Thing.DefaultInvoke | wotpy/wot/exposed/thing.py:131-138 | never succeeds; the error is "Undefined action handler" exactly when no arguments were passed |
| Thing.ReadProperty | wotpy/wot/exposed/thing.py:170-185 | an unknown name fails; with the default handler the stored value (or None) is returned; with an application handler its result or error is passed on unchanged; a `None` handler fails as not callable; a valid object never lacks a handler |
| Thing.WriteProperty | wotpy/wot/exposed/thing.py:187-206 | an unknown name fails with not-found; a non-writable property fails with "Property is non-writable"; a failure changes nothing at all; on success exactly one property-change event {name, value} is appended; through the default handler the write succeeds and stores the value; through an application handler the result is that handler's reply or error and the store is left alone; a `None` handler fails as not callable |
| Thing.InvokeAction | wotpy/wot/exposed/thing.py:208-227 | an unknown name fails; with the default handler the call fails ("Undefined action handler" without arguments); with an application handler, set for the action or globally, the caller gets its reply or error unchanged; a `None` handler fails as not callable; a failure changes nothing; on success exactly one action-invocation event carrying the returned value is appended |
| Thing.OnEvent | wotpy/wot/exposed/thing.py:229-243 | an unknown name gives a throwing observable ("Unknown event"); a known one gives a filter accepting exactly the events of that name |
| Thing.OnPropertyChange | wotpy/wot/exposed/thing.py:245-264 | unknown name gives "Unknown property", a non-observable property gives "Property is not observable", a non-property raises; an observable property, and only such a property, gives a stream, whose filter accepts exactly the property-change events for that name |
| Thing.OnTdChange | wotpy/wot/exposed/thing.py:266-274 | always a stream, whose filter accepts exactly the description-change events |
| Thing.EmitEvent | wotpy/wot/exposed/thing.py:288-295 | succeeds exactly for a registered name; a refusal changes nothing; success appends exactly the emitted event with its payload |
| Thing.AddProperty | wotpy/wot/exposed/thing.py:297-320 | the property is registered, its initial value becomes readable, other values and the handler tables are unchanged, and one ADD property description change with the init's dictionary and the updated description is appended |
| Thing.RemoveProperty | wotpy/wot/exposed/thing.py:322-333 | the name is unregistered, values and handler tables are untouched, and one REMOVE property description change carrying only the name is appended |
| Thing.AddAction | wotpy/wot/exposed/thing.py:335-356 | the action is registered, values and handlers are unchanged, and one ADD action description change with data and description is appended |
| Thing.RemoveAction | wotpy/wot/exposed/thing.py:358-369 | the name is unregistered, values and handlers are untouched, and one REMOVE action description change with only the name is appended |
| Thing.AddEvent | wotpy/wot/exposed/thing.py:371-391 | the event is registered, values and handlers are unchanged, and one ADD event description change with data and description is appended |
| Thing.RemoveEvent | wotpy/wot/exposed/thing.py:393-404 | the name is unregistered, values and handlers are untouched, and one REMOVE event description change with only the name is appended |
| Thing.SetHandlerFor | wotpy/wot/exposed/thing.py:406-449 | a named but unknown interaction fails with not-found before any table changes; otherwise exactly the `_set_handler` update is made, with `None` stored as the cleared handler |
| ThingProperties.WriteThenRead | wotpy/wot/exposed/thing.py:170-206 | with default handlers a write to a writable property succeeds and the following read returns the written value |
| ThingProperties.FreshThingReadsNull | wotpy/wot/exposed/thing.py:75-85 | on a new object every interaction reads as None |
| ThingProperties.ReadUsesOverride | wotpy/wot/exposed/thing.py:177-185 | a read override's result, or its error, is what the caller gets; the global handler is not consulted |
| ThingProperties.InvokeWithoutHandlerFails | wotpy/wot/exposed/thing.py:208-221 | in any state where a known action resolves to the default action handler, invoking it fails ("Undefined action handler" when called without arguments) and the state, the stream included, is unchanged |
| ThingProperties.WriteHandlerDecides | wotpy/wot/exposed/thing.py:196-206 | through an application write handler, its error fails the write and changes nothing, and its success publishes the one property-change event and leaves the store as it was |
| ThingProperties.ClearedOverrideFallsBack | wotpy/wot/exposed/thing.py:95-99 | after `set_property_read_handler(None, name)` the property resolves to the global read handler again, and with the default one reads its stored value |
| ThingProperties.ClearedGlobalActionHandlerFails | wotpy/wot/exposed/thing.py:208-221 | after `set_action_handler(None)` invoking an action without its own handler fails as not callable and changes nothing |
| ThingProperties.ActionHandlerThenInvoke | wotpy/wot/exposed/thing.py:406-419 | after setting an action handler for an action, invoking it runs that handler and on success publishes its result |
| ThingProperties.SubscribeThenWriteDeliversOne | wotpy/wot/exposed/thing.py:245-264 | subscribing to the changes of an observable property succeeds, and the subscriber, attached before a successful write, receives exactly the one event {name, value} |
| ThingProperties.NotObservableStillWritable | wotpy/wot/exposed/thing.py:194-206 | writes to a writable, non-observable property succeed and publish their event, while subscribing to its changes fails with "Property is not observable" |
| ThingProperties.AddPropertyThenRead | wotpy/wot/exposed/thing.py:297-320 | after adding a property its initial value reads back, and a description-change subscriber receives exactly one ADD event for it |
| ThingProperties.RemoveEventThenSubscribeFails | wotpy/wot/exposed/thing.py:393-404 | once removed, subscribing to the event gives "Unknown event" and emitting it is refused |
| ThingProperties.RunKeepsInvariants | wotpy/wot/exposed/thing.py:55-67 | over any sequence of calls the three seeded kinds keep a global handler, and the stream only grows |
| ThingProperties.SubscribersSeePrefixes | wotpy/wot/exposed/thing.py:67 | what a subscriber has received is a prefix of what it will have received after any further calls |
| Exposed.ExposedThing.constructor | wotpy/wot/exposed/thing.py:47-67 | the new object's state is the initial state, and the object is valid |
| Exposed.ExposedThing.SetPropertyValue | wotpy/wot/exposed/thing.py:75-79 | writes exactly one entry of the value store in place |
| Exposed.ExposedThing.SetHandler | wotpy/wot/exposed/thing.py:87-93 | the tables are updated in place as `Handlers.SetHandler` says |
| Exposed.ExposedThing.DefaultUpdatePropertyHandler | wotpy/wot/exposed/thing.py:121-129 | stores the value exactly when the name is registered, otherwise fails with not-found and leaves the store alone |
| Exposed.ExposedThing.ReadProperty | wotpy/wot/exposed/thing.py:170-185 | returns `Thing.ReadProperty` of the current state, changes nothing, and on a valid object never fails for want of a handler |
| Exposed.ExposedThing.WriteProperty | wotpy/wot/exposed/thing.py:187-206 | result and new state are those of `Thing.WriteProperty`; the object stays valid and never fails for want of a handler; the stream is unchanged on failure and gains one property-change event on success |
| Exposed.ExposedThing.InvokeAction | wotpy/wot/exposed/thing.py:208-227 | result and new state are those of `Thing.InvokeAction`; the object stays valid and never fails for want of a handler; the stream gains the action-invocation event only on success |
| Exposed.ExposedThing.EmitEvent | wotpy/wot/exposed/thing.py:288-295 | result and new state are those of `Thing.EmitEvent` |
| Exposed.ExposedThing.AddProperty | wotpy/wot/exposed/thing.py:297-320 | new state is `Thing.AddProperty` of the old |
| Exposed.ExposedThing.RemoveProperty | wotpy/wot/exposed/thing.py:322-333 | new state is `Thing.RemoveProperty` of the old |
| Exposed.ExposedThing.AddAction | wotpy/wot/exposed/thing.py:335-356 | new state is `Thing.AddAction` of the old |
| Exposed.ExposedThing.RemoveAction | wotpy/wot/exposed/thing.py:358-369 | new state is `Thing.RemoveAction` of the old |
| Exposed.ExposedThing.AddEvent | wotpy/wot/exposed/thing.py:371-391 | new state is `Thing.AddEvent` of the old |
| Exposed.ExposedThing.RemoveEvent | wotpy/wot/exposed/thing.py:393-404 | new state is `Thing.RemoveEvent` of the old |
| Exposed.ExposedThing.SetNamedHandler | wotpy/wot/exposed/thing.py:411-419 | the lookup-then-`_set_handler` body shared by the three setters, as `Thing.SetHandlerFor` says |
| Exposed.ExposedThing.SetActionHandler | wotpy/wot/exposed/thing.py:406-419 | `Thing.SetHandlerFor` for the invoke kind |
| Exposed.ExposedThing.SetPropertyReadHandler | wotpy/wot/exposed/thing.py:421-434 | `Thing.SetHandlerFor` for the read kind |
| Exposed.ExposedThing.SetPropertyWriteHandler | wotpy/wot/exposed/thing.py:436-449 | `Thing.SetHandlerFor` for the write kind |
| Exposed.TemperatureScenario | wotpy/wot/exposed/thing.py:170-206 | on a new object: add "temp" = 20 and read 20; subscribe to its changes; write 21; read 21; the subscriber received exactly one event {temp, 21} |

## Left out

- Tornado coroutine and future scheduling: each handler's future is modelled as already resolved. Interleaving of concurrent calls is not modelled.
- Rx scheduling, and the subscribe/dispose lifecycle of subscriptions: a subscription is a filter and the log length at which it attached. Unsubscribing is not modelled.
- Application handlers touching the Thing's own state: a handler here only computes its reply, so an override that calls the value store itself is not modelled.
- Keyword arguments to `invoke_action`: an action's arguments are a single positional sequence.
- `get_thing_description`, the Thing Description builder and the init objects' `to_dict()`: these live in modules that are not part of this model, so their outputs are opaque `Codec` values.
- How the interaction registry stores interactions (duplicates, object equality): it is a name-keyed map, under the assumptions stated above.
- `expose` and `destroy`: they only call the servient's registry.
- `__eq__`/`__hash__`, the `servient`, `url_name`, `name` and `thing` accessors, and the `properties`, `actions`, `events`, `links` and `subscribe` members, which only raise `NotImplementedError`.
- Events.Accepts: a user event named `"propertychange"` whose payload has no `name` makes the source's property-change filter raise inside the stream. The Rx subscription then ends with `on_error` and receives nothing more. The model's filter just rejects such an event, and the subscription keeps receiving later events.
