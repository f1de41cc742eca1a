/** The handler registry: one global handler per kind, and for the three
    interaction kinds a table of per-interaction overrides. Interactions are
    identified by name. */
module Handlers {
  import opened Values

  /** The handler kinds (HandlerKeys). `ObserveKey` has no per-interaction
      table and no default. */
  datatype HandlerKey = RetrieveKey | UpdateKey | InvokeKey | ObserveKey

  /** A registered handler: the runtime's default for the slot's kind, an
      application-supplied one named by an identifier, or `Cleared`, the
      `None` an application may pass to a setter. */
  datatype Handler = Default | User(id: nat) | Cleared

  /** The handler an application passes to a `set_*_handler` call: a
      function it supplies, or `None`. */
  function Supplied(h: Option<nat>): (r: Handler)
    ensures r != Default
    ensures r == Cleared <==> h.None?
    ensures h.Some? ==> r == User(h.value)
  {
    match h
    case None => Cleared
    case Some(id) => User(id)
  }

  datatype HandlerTables = HandlerTables(global: map<HandlerKey, Handler>,
                                         overrides: map<HandlerKey, map<string, Handler>>)

  /** The kinds seeded with a default and given an override table at construction. */
  const SeededKeys: set<HandlerKey> := {RetrieveKey, UpdateKey, InvokeKey}

  /** Every seeded kind keeps a global handler, and only they have override tables. */
  ghost predicate Seeded(t: HandlerTables) {
    SeededKeys <= t.global.Keys && t.overrides.Keys == SeededKeys
  }

  /** The tables right after construction. */
  function Initial(): (t: HandlerTables)
    ensures Seeded(t)
    ensures forall k :: k in SeededKeys ==> t.global[k] == Default && t.overrides[k] == map[]
    ensures ObserveKey !in t.global
  {
    HandlerTables(map[RetrieveKey := Default, UpdateKey := Default, InvokeKey := Default],
                  map[RetrieveKey := map[], UpdateKey := map[], InvokeKey := map[]])
  }

  /** True when an override other than `None` is stored for exactly this
      kind and interaction; `_get_handler` treats a stored `None` (it is
      falsy) as no override at all. */
  predicate HasOverride(t: HandlerTables, kind: HandlerKey, interaction: string) {
    kind in t.overrides && interaction in t.overrides[kind] && t.overrides[kind][interaction] != Cleared
  }

  /** `_set_handler`: with an interaction, and for a kind that has an
      override table, write that one override; otherwise replace the global
      handler of the kind. Nothing else changes. */
  function SetHandler(t: HandlerTables, kind: HandlerKey, h: Handler, interaction: Option<string>): (r: HandlerTables)
    ensures Seeded(t) ==> Seeded(r)
    ensures interaction.Some? && kind in t.overrides ==>
              && r.global == t.global
              && r.overrides.Keys == t.overrides.Keys
              && r.overrides[kind] == t.overrides[kind][interaction.value := h]
              && forall k :: k in t.overrides && k != kind ==> r.overrides[k] == t.overrides[k]
    ensures interaction.None? || kind !in t.overrides ==>
              r.overrides == t.overrides && r.global == t.global[kind := h]
  {
    if interaction.None? || kind !in t.overrides then
      t.(global := t.global[kind := h])
    else
      t.(overrides := t.overrides[kind := t.overrides[kind][interaction.value := h]])
  }

  /** `_get_handler`: the override for this exact interaction if one other
      than `None` is stored, else the global handler of the kind, which may
      itself be `Cleared`; the result `None` is the KeyError of a kind
      without a global handler. */
  function GetHandler(t: HandlerTables, kind: HandlerKey, interaction: Option<string>): (r: Option<Handler>)
    ensures Seeded(t) && kind in SeededKeys ==> r.Some?
    ensures r.None? <==> kind !in t.global && !(interaction.Some? && HasOverride(t, kind, interaction.value))
  {
    if interaction.Some? && HasOverride(t, kind, interaction.value) then Some(t.overrides[kind][interaction.value])
    else if kind in t.global then Some(t.global[kind])
    else None
  }

  /** An override shadows the global handler whatever the global handler is,
      and replacing the global handler afterwards does not disturb it. */
  lemma OverrideTakesPrecedence(t: HandlerTables, kind: HandlerKey, interaction: string, g: Handler)
    requires HasOverride(t, kind, interaction)
    ensures GetHandler(t, kind, Some(interaction)) == Some(t.overrides[kind][interaction])
    ensures GetHandler(SetHandler(t, kind, g, None), kind, Some(interaction)) == GetHandler(t, kind, Some(interaction))
  {
  }

  /** Without an override the lookup falls back to the global handler, and in
      seeded tables that fallback never fails for the seeded kinds. */
  lemma FallbackToGlobal(t: HandlerTables, kind: HandlerKey, interaction: Option<string>)
    requires Seeded(t) && kind in SeededKeys
    requires interaction.None? || !HasOverride(t, kind, interaction.value)
    ensures GetHandler(t, kind, interaction) == Some(t.global[kind])
  {
  }

  /** Storing an override makes it the resolved handler for that kind and
      interaction; storing `None` there instead clears the override, so the
      pair falls back to the global handler. Neither changes the resolution
      of any other pair. */
  lemma SetOverrideResolves(t: HandlerTables, kind: HandlerKey, h: Handler, interaction: string,
                            otherKind: HandlerKey, other: Option<string>)
    requires kind in t.overrides
    ensures h != Cleared ==> GetHandler(SetHandler(t, kind, h, Some(interaction)), kind, Some(interaction)) == Some(h)
    ensures h == Cleared ==>
              GetHandler(SetHandler(t, kind, h, Some(interaction)), kind, Some(interaction)) == GetHandler(t, kind, None)
    ensures (otherKind, other) != (kind, Some(interaction)) ==>
              GetHandler(SetHandler(t, kind, h, Some(interaction)), otherKind, other) == GetHandler(t, otherKind, other)
  {
  }

  /** Replacing the global handler of a kind makes it the resolved handler of
      every interaction of that kind without an override, and changes the
      resolution of no other kind. */
  lemma SetGlobalResolves(t: HandlerTables, kind: HandlerKey, h: Handler, interaction: Option<string>,
                          otherKind: HandlerKey, other: Option<string>)
    ensures interaction.None? || !HasOverride(t, kind, interaction.value) ==>
              GetHandler(SetHandler(t, kind, h, None), kind, interaction) == Some(h)
    ensures otherKind != kind ==>
              GetHandler(SetHandler(t, kind, h, None), otherKind, other) == GetHandler(t, otherKind, other)
  {
  }
}
