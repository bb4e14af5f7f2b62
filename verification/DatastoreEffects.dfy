/** What each datastore step writes, field by field, and exactly when. */
module DatastoreEffects {
  import opened Json
  import opened DatastoreSteps
  import opened DatastoreSafety

  // -------------------------------------------------------- ordinary destroys

  /** The binding is incomplete and carries the one to go back to. */
  predicate HasLayerBeneath(r: Row) {
    r.bindings.provisioning && r.bindings.previousProvider.Some? && r.bindings.previous.Some?
  }

  /** What that one would be called, and whether it can be bound again. */
  function BeneathId(b: Bindings): Option<string>
    requires b.previous.Some?
  {
    OrElse(b.previousId, OrElse(b.previous.value.instanceId, b.previous.value.serviceId))
  }

  predicate CanGoBack(r: Row) {
    HasLayerBeneath(r) && BeneathId(r.bindings).Some? && r.bindings.previous.value.scope.Some?
    && r.bindings.previous.value.scope.value != map[]
  }

  predicate TextScope(scope: Option<Scope>) {
    scope.Some? && scope.value != map[] && forall k :: k in scope.value ==> scope.value[k].Str? && scope.value[k].text != ""
  }

  /** Whose resource a destroy may be about: the bound one, by its effective id and scope, or
      else the stashed previous one, by the id stashed with it. */
  predicate AsksForBound(r: Row, a: Destruction) {
    && r.bindings.provider == Some(a.provider) && a.externalId.Some? && a.sameIdentity && TextScope(a.scope)
    && OrElse(r.externalId, OrElse(r.bindings.instanceId, r.bindings.serviceId)) == a.externalId && r.bindings.scope == a.scope
  }

  predicate AsksForPrevious(r: Row, a: Destruction) {
    && r.bindings.provider != Some(a.provider) && r.bindings.previousProvider == Some(a.provider) && r.bindings.previous.Some?
    && a.externalId.Some? && a.sameIdentity && TextScope(a.scope)
    && BeneathId(r.bindings) == a.externalId && r.bindings.previous.value.scope == a.scope
  }

  /** A destroy asks for the resource that was reviewed, the bound or the previous one. Once it
      is confirmed, the bound one's row is gone exactly when it is not an incomplete binding with
      one beneath, which comes back if it can; the previous one's stash is gone from the row.
      Nothing else changes. */
  lemma DestroysExactly(s: Store, key: Key, a: Destruction, adapter: bool, confirmed: bool)
    ensures var r := Destroy(s, key, a, adapter, confirmed);
            var asks := adapter && key in s.rows && (AsksForBound(s.rows[key], a) || AsksForPrevious(s.rows[key], a));
            && r.asked == (if asks then Some(Target(a.provider, a.externalId.value, a.scope.value)) else None)
            && (!asks || !confirmed ==> r.store == s)
            && r.store.slots == s.slots && r.store.topology == s.topology
            && (forall k :: k != key ==> RowAt(r.store, k) == RowAt(s, k))
            && (asks && confirmed ==>
                  var was, after := s.rows[key], RowAt(r.store, key);
                  if AsksForBound(was, a) then
                    && (after.None? <==> !HasLayerBeneath(was))
                    && (after.Some? ==>
                          after.value == if CanGoBack(was) then Row(BeneathId(was.bindings), was.bindings.previous.value) else was)
                  else
                    after == Some(was.(bindings := was.bindings.(previousProvider := None, previousId := None, previous := None))))
  {
  }

  // ------------------------------------------------------------------ creates

  /** Whatever the answer brings wins, field by field. */
  predicate AnswerWins(before: Bindings, answer: Bindings, after: Bindings) {
    && after.provider == (if answer.provider.Some? then answer.provider else before.provider)
    && after.instanceId == (if answer.instanceId.Some? then answer.instanceId else before.instanceId)
    && after.serviceId == (if answer.serviceId.Some? then answer.serviceId else before.serviceId)
    && after.scope == (if answer.scope.Some? then answer.scope else before.scope)
    && after.resource == (if answer.resource.Some? then answer.resource else before.resource)
    && after.network == (if answer.network.Some? then answer.network else before.network)
    && after.previousProvider == (if answer.previousProvider.Some? then answer.previousProvider else before.previousProvider)
    && after.previousId == (if answer.previousId.Some? then answer.previousId else before.previousId)
    && after.previous == (if answer.previous.Some? then answer.previous else before.previous)
    && after.replicas == (if answer.replicas != map[] then answer.replicas else before.replicas)
    && after.rest.Keys == before.rest.Keys + answer.rest.Keys
    && forall k :: k in after.rest ==> after.rest[k] == if k in answer.rest then answer.rest[k] else before.rest[k]
  }

  /** The fields of the answer, with the binding of the other provider stashed in them. */
  predicate AnswerStashes(was: Row, answer: Bindings, after: Bindings) {
    after == answer.(provisioning := after.provisioning, reconciling := after.reconciling, previousProvider := was.bindings.provider,
                     previousId := was.externalId, previous := Some(was.bindings))
  }

  predicate OtherProvider(existing: Option<Row>, provider: string) {
    existing.Some? && existing.value.bindings.provider.Some? && existing.value.bindings.provider.value != provider
  }

  /** Nothing unresolved stands in the way, and a cache's network marker is the planned one. */
  predicate Free(s: Store, key: Key, planned: Option<Unresolved>) {
    && (key in s.rows && s.rows[key].bindings.resource.Some? && s.rows[key].bindings.resource.value.UnresolvedResource? ==>
          s.rows[key].bindings.resource.value.kind != key.kind)
    && (key.kind.Cache? ==>
          planned == if key in s.rows && s.rows[key].bindings.network.Some? && s.rows[key].bindings.network.value.UnresolvedNetwork?
                     then s.rows[key].bindings.network else None)
  }

  /** A create that succeeds stores what the provider handed out, complete, over what was there;
      a binding of another provider is stashed in it. The row keeps its external id if none was
      reported, and a database enters the index. Nothing else changes. */
  lemma CreatesExactly(s: Store, key: Key, provider: string, planned: Option<Unresolved>, made: Made, required: set<string>)
    ensures var t, was := Create(s, key, provider, planned, Some((true, made)), required), RowAt(s, key);
            if !Free(s, key, planned) then t == s
            else
              && RowAt(t, key).Some? && t.slots == s.slots
              && (forall k :: k != key ==> RowAt(t, k) == RowAt(s, k))
              && var after := t.rows[key];
                 && after.externalId == (if made.externalId.Some? || was.None? then made.externalId else was.value.externalId)
                 && !after.bindings.provisioning && !after.bindings.reconciling
                 && (if OtherProvider(was, provider) then AnswerStashes(was.value, made.bindings, after.bindings)
                     else after.bindings == made.bindings.(provisioning := false, reconciling := false))
                 && var id := if made.externalId.Some? then made.externalId else made.bindings.instanceId;
                    t.topology == if key.kind.Database? && id.Some?
                                  then s.topology[key.environment := Topology(provider, id.value, map[])] else s.topology
  {
  }

  /** The scope can be found again: complete, with every field the provider requires. */
  predicate CanBeFound(made: Made, required: set<string>) {
    CompleteScope(made.bindings.scope) && required != {} && forall k :: k in required ==> k in made.bindings.scope.value
  }

  function ResourceAsked(b: Bindings, kind: Kind): Option<Unresolved> {
    if b.resource.Some? && b.resource.value.UnresolvedResource? && b.resource.value.kind == kind then b.resource else None
  }

  function NetworkAsked(b: Bindings, kind: Kind): Option<Unresolved> {
    if kind.Cache? && b.network.Some? && b.network.value.UnresolvedNetwork? then b.network else None
  }

  function BoundId(r: Row): Option<string> { OrElse(r.externalId, OrElse(r.bindings.instanceId, r.bindings.serviceId)) }

  /** A failed answer that names something: by an id, with a scope in which it can be found again;
      or as the one thing that was asked for, in its scope. */
  predicate NamesSomething(kind: Kind, made: Made, required: set<string>) {
    if made.externalId.Some? then CanBeFound(made, required)
    else
      var resource, network := ResourceAsked(made.bindings, kind), NetworkAsked(made.bindings, kind);
      (resource.Some? != network.Some?) && made.bindings.scope == Some(OrElse(resource, network).value.scope)
  }

  /** Over a binding of the same provider: an id may be recorded for a database, and for a cache
      only if it is the very one bound, in the same scope; something asked for may be recorded
      only while nothing is bound, and for a cache only if it is what was asked for before. */
  predicate FitsOwn(kind: Kind, made: Made, was: Row) {
    var before := OrElse(ResourceAsked(was.bindings, kind), NetworkAsked(was.bindings, kind));
    var now := OrElse(ResourceAsked(made.bindings, kind), NetworkAsked(made.bindings, kind));
    && (kind.Cache? ==> was.bindings.scope.Some? && was.bindings.scope == made.bindings.scope)
    && if made.externalId.Some? then kind.Cache? ==> BoundId(was) == made.externalId
       else BoundId(was).None? && (kind.Cache? ==> before.Some? && before == now)
  }

  predicate Records(kind: Kind, provider: string, made: Made, was: Option<Row>, required: set<string>) {
    && made.local && made.bindings.provider == Some(provider) && NamesSomething(kind, made, required)
    && (was.Some? && was.value.bindings.provider == Some(provider) ==> FitsOwn(kind, made, was.value))
  }

  /** A create that fails is recorded exactly then: with the reported id, merged into the binding
      of its own provider, or with that of another provider stashed in it; and it is marked as
      incomplete, a cache update in place as incompletely reconciled. Otherwise nothing changes. */
  lemma FailsExactly(s: Store, key: Key, provider: string, planned: Option<Unresolved>, made: Made, required: set<string>)
    ensures var t, was := Create(s, key, provider, planned, Some((false, made)), required), RowAt(s, key);
            if !Free(s, key, planned) || !Records(key.kind, provider, made, was, required) then t == s
            else
              && t.slots == s.slots && t.topology == s.topology && (forall k :: k != key ==> RowAt(t, k) == RowAt(s, k))
              && RowAt(t, key).Some?
              && var after := t.rows[key];
                 && after.externalId == made.externalId && after.bindings.provisioning == !after.bindings.reconciling
                 && (after.bindings.reconciling <==>
                       key.kind.Cache? && made.externalId.Some? && was.Some? && was.value.bindings.provider == Some(provider))
                 && (if OtherProvider(was, provider) then AnswerStashes(was.value, made.bindings, after.bindings)
                     else if was.Some? then AnswerWins(was.value.bindings, made.bindings, after.bindings)
                     else after.bindings == made.bindings.(provisioning := true, reconciling := false))
  {
    RecordsMeans(key.kind, provider, made, RowAt(s, key), required);
    FreeMeans(s, key, planned);
    hide MayCreate, Free, Records, Retainable, CompleteScope;
  }

  lemma FreeMeans(s: Store, key: Key, planned: Option<Unresolved>)
    ensures MayCreate(s, key, planned) <==> Free(s, key, planned)
  {
  }

  lemma RecordsMeans(kind: Kind, provider: string, made: Made, was: Option<Row>, required: set<string>)
    ensures Retainable(kind, provider, made, was, required) <==> Records(kind, provider, made, was, required)
    ensures Records(kind, provider, made, was, required) && kind.Cache? ==>
              (InPlace(was, provider, made) <==> made.externalId.Some? && was.Some? && was.value.bindings.provider == Some(provider))
  {
    hide CompleteScope;
  }

  // --------------------------------------------------------- retained cleanup

  /** A component of this kind, anywhere, goes by that provider and id. */
  ghost predicate BoundAnywhere(s: Store, kind: Kind, provider: string, id: string) {
    exists k :: k in s.rows && k.kind == kind && s.rows[k].bindings.provider == Some(provider)
                && (s.rows[k].externalId == Some(id) || s.rows[k].bindings.instanceId == Some(id) || s.rows[k].bindings.serviceId == Some(id))
  }

  /** The row waits for the outcome of a create by this provider. */
  predicate Waits(r: Row, provider: string) {
    r.externalId.None? && r.bindings.provisioning && r.bindings.provider == Some(provider)
  }

  predicate WaitsFor(r: Row, kind: Kind, slot: Slot) {
    Waits(r, slot.provider) && r.bindings.resource == Some(UnresolvedResource(kind, slot.name, slot.scope))
  }

  /** An import takes the slot exactly when it is confirmed, the slot is free, the scope is text
      with everything required, nothing is bound to the target, and a waiting create is for it. */
  lemma ImportsExactly(s: Store, key: Key, seen: Slot, required: set<string>, confirm: bool)
    ensures var t := RetainTarget(s, key, seen, required, confirm);
            t == if && confirm && key !in s.slots
                    && required != {} && (forall k :: k in required ==> k in seen.scope) && TextScope(Some(seen.scope))
                    && (key.kind.Cache? ==> CompleteScope(Some(seen.scope)))
                    && !BoundAnywhere(s, key.kind, seen.provider, seen.externalId)
                    && (key in s.rows && Waits(s.rows[key], seen.provider) ==> WaitsFor(s.rows[key], key.kind, seen))
                 then s.(slots := s.slots[key := seen]) else s
  {
    BoundMeans(s, key.kind, seen.provider, seen.externalId);
    hide CompleteScope, BoundSomewhere, BoundAnywhere;
  }

  lemma BoundMeans(s: Store, kind: Kind, provider: string, id: string)
    ensures BoundSomewhere(s, kind, provider, id) <==> BoundAnywhere(s, kind, provider, id)
  {
    assert forall k :: k in s.rows ==>
      (Binds(s.rows[k], provider, id) <==>
         s.rows[k].bindings.provider == Some(provider)
         && (s.rows[k].externalId == Some(id) || s.rows[k].bindings.instanceId == Some(id) || s.rows[k].bindings.serviceId == Some(id)));
    hide Binds;
  }

  /** What the provider shows is the retained target, or nothing. */
  predicate ShowsTarget(kind: Kind, slot: Slot, seen: Observation) {
    || seen.Absent?
    || (seen.Present? && seen.externalId == slot.externalId && seen.scope == Some(slot.scope)
        && (kind.Cache? ==> seen.name == slot.name))
  }

  /** The binding beneath a waiting create can be bound again. */
  predicate BeneathIsWhole(b: Bindings, kind: Kind) {
    && b.previous.Some? && b.previous.value.provider == b.previousProvider && BeneathId(b).Some? && CompleteScope(b.previous.value.scope)
    && var own := if b.previous.value.instanceId.Some? then b.previous.value.instanceId else b.previous.value.serviceId;
       kind.Cache? && own.Some? ==> own == BeneathId(b)
  }

  /** Retained cleanup asks for the target in the slot exactly when the plan is about it, nothing
      is bound to it, and the provider shows it or nothing. Once its absence is seen after a
      confirmed deletion, the slot is empty; a create that waited for it is undone, in favour of
      the binding beneath or of none. Nothing else changes. */
  lemma CleansUpExactly(s: Store, key: Key, planned: Slot, c: Cleanup)
    ensures var r := DestroyRetained(s, key, planned, c);
            var asks := && key in s.slots && c.adapter && ShowsTarget(key.kind, s.slots[key], c.before)
                        && planned.provider == s.slots[key].provider && planned.externalId == s.slots[key].externalId
                        && planned.scope == s.slots[key].scope && (key.kind.Cache? ==> planned.name == s.slots[key].name)
                        && CompleteScope(Some(s.slots[key].scope))
                        && !BoundAnywhere(s, key.kind, s.slots[key].provider, s.slots[key].externalId)
                        && (key in s.rows && WaitsFor(s.rows[key], key.kind, s.slots[key]) ==>
                              s.rows[key].bindings.previousProvider.Some? ==> BeneathIsWhole(s.rows[key].bindings, key.kind));
            && r.asked == (if asks then Some(Target(planned.provider, planned.externalId, planned.scope)) else None)
            && (!(asks && c.confirmed && c.after.Absent?) ==> r.store == s)
            && r.store.topology == s.topology && (forall k :: k != key ==> RowAt(r.store, k) == RowAt(s, k))
            && (asks && c.confirmed && c.after.Absent? ==>
                  && r.store.slots == s.slots - {key}
                  && var was, after := RowAt(s, key), RowAt(r.store, key);
                     after == if was.None? || !WaitsFor(was.value, key.kind, s.slots[key]) then was
                              else if was.value.bindings.previousProvider.Some?
                              then Some(Row(BeneathId(was.value.bindings), was.value.bindings.previous.value)) else None)
  {
    if key in s.slots { BoundMeans(s, key.kind, s.slots[key].provider, s.slots[key].externalId); }
    hide CompleteScope, BoundSomewhere, BoundAnywhere;
  }

  // ------------------------------------------------------------------ replicas

  /** A replica change is carried out exactly for the database that is bound under the reviewed
      id, and for the replica whose id was reviewed; then it adds or drops just that replica, and
      the index names the database and those of its replicas that have an id. */
  lemma ChangesReplicaExactly(s: Store, e: string, provider: string, primary: string, name: string, reviewed: Option<string>,
                              change: ReplicaChange)
    ensures var t, key := ChangeReplica(s, e, provider, primary, name, reviewed, change), Key(e, Database);
            var may := && key in s.rows && s.rows[key].bindings.provider == Some(provider)
                       && (if s.rows[key].externalId.Some? then s.rows[key].externalId else s.rows[key].bindings.instanceId) == Some(primary)
                       && var replicas := s.rows[key].bindings.replicas;
                          if change.Add? then change.made.Some? && (name in replicas ==> replicas[name].externalId == reviewed)
                          else change.confirmed && name in replicas && reviewed.Some? && replicas[name].externalId == reviewed;
            && (!may ==> t == s)
            && (may ==>
                  && t.rows.Keys == s.rows.Keys && t.slots == s.slots && (forall k :: k in s.rows && k != key ==> t.rows[k] == s.rows[k])
                  && var before, after := s.rows[key].bindings.replicas, t.rows[key].bindings.replicas;
                     && t.rows[key] == s.rows[key].(bindings := s.rows[key].bindings.(replicas := after))
                     && after == (if change.Add? then before[name := change.made.value] else before - {name})
                     && e in t.topology && t.topology[e].provider == provider && t.topology[e].primary == primary
                     && t.topology == s.topology[e := t.topology[e]]
                     && (forall n :: n in t.topology[e].replicas <==> n in after && after[n].externalId.Some?)
                     && (forall n :: n in t.topology[e].replicas ==> t.topology[e].replicas[n] == (provider, after[n])))
  {
  }
}
