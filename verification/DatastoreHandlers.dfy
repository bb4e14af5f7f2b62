/** The datastore handlers as they run over the repositories. */
module DatastoreHandlers {
  import opened Json
  import Steps = DatastoreSteps
  import opened DatastoreSteps

  datatype ScopeState = Exact | Missing | Mismatched

  datatype Conflict = Conflict(project: string, key: Key, state: ScopeState)

  class Handlers {
    var projects: set<string>
    var environments: map<string, string>
    var store: Store
    var asked: Option<Target>

    constructor (projects: set<string>, environments: map<string, string>, s: Store)
      ensures this.projects == projects && this.environments == environments && store == s && asked == None
    {
      this.projects, this.environments, store, asked := projects, environments, s, None;
    }

    /** The foreign keys the database enforces. */
    ghost predicate Linked()
      reads this
    {
      forall key :: key in store.rows ==> key.environment in environments && environments[key.environment] in projects
    }

    /** findActiveDatastoreBindingConflict: finds nothing exactly when no component of any
        project binds this provider and id; a find says how its scope compares. */
    method FindActiveBindingConflict(kind: Kind, provider: string, externalId: string, scope: Scope)
      returns (found: Option<Conflict>)
      requires Linked()
      ensures found.None? <==> !BoundSomewhere(store, kind, provider, externalId)
      ensures found.None? <==>
                forall key :: key in store.rows && key.kind == kind && store.rows[key].bindings.provider == Some(provider) ==>
                  store.rows[key].externalId != Some(externalId) && store.rows[key].bindings.instanceId != Some(externalId)
                  && store.rows[key].bindings.serviceId != Some(externalId)
      ensures found.Some? ==>
                var key := found.value.key;
                && key in store.rows && key.kind == kind && Binds(store.rows[key], provider, externalId)
                && (found.value.state.Exact? <==> store.rows[key].bindings.scope == Some(scope))
                && (found.value.state.Missing? <==> store.rows[key].bindings.scope.None?)
    {
      var left := projects;
      while left != {}
        invariant left <= projects
        invariant forall key :: key in store.rows && key.kind == kind && environments[key.environment] !in left ==>
                    !Binds(store.rows[key], provider, externalId)
        decreases |left|
      {
        var project :| project in left;
        left := left - {project};
        var within := set e | e in environments && environments[e] == project;
        while within != {}
          invariant forall e :: e in within ==> e in environments && environments[e] == project
          invariant forall key ::
                      key in store.rows && key.kind == kind && environments[key.environment] == project && key.environment !in within ==>
                        !Binds(store.rows[key], provider, externalId)
          decreases |within|
        {
          var e :| e in within;
          within := within - {e};
          var key := Key(e, kind);
          if key in store.rows && Binds(store.rows[key], provider, externalId) {
            var bound := store.rows[key].bindings.scope;
            var state := if bound.None? then Missing else if bound.value == scope then Exact else Mismatched;
            return Some(Conflict(project, key, state));
          }
        }
      }
      found := None;
    }

    /** retainFailedProvisionIdentity. */
    method RetainFailedProvisionIdentity(key: Key, provider: string, made: Made,
                                         required: set<string>) returns (retained: bool)
      modifies this`store
      ensures var r := RetainFailed(key.kind, provider, made, RowAt(old(store), key), required);
              retained == r.Some? && store == if r.Some? then WithRow(old(store), key, r.value) else old(store)
    {
      var existing := RowAt(store, key);
      if Ambiguous(key.kind, made) {
        return false;
      }
      if !Durable(key.kind, provider, made, required) {
        return false;
      }
      hide Durable, CompleteFor;
      var mutation := UnresolvedOf(key.kind, made);
      var inPlace := key.kind.Cache? && InPlace(existing, provider, made);
      var recovery := key.kind.Cache? && SameMarker(existing, provider, made);
      if key.kind.Cache? && SameProvider(existing, provider) && !inPlace && !recovery {
        return false;
      }
      if mutation.Some? && SameProvider(existing, provider) && EffectiveId(existing.value).Some? {
        return false;
      }
      var stored := if Switches(existing, provider) then Nesting(made.bindings, existing.value)
                    else if existing.Some? then Spread(existing.value.bindings, made.bindings) else made.bindings;
      stored := stored.(provisioning := false, reconciling := false);
      stored := if inPlace then stored.(reconciling := true) else stored.(provisioning := true);
      store := WithRow(store, key, Row(made.externalId, stored));
      retained := true;
    }

    /** Storing a successful provision. */
    method RecordProvision(key: Key, provider: string, made: Made)
      modifies this`store
      ensures store == WithRow(old(store), key, Recorded(provider, made, RowAt(old(store), key)))
    {
      var existing := RowAt(store, key);
      var b := made.bindings.(provisioning := false, reconciling := false);
      if Switches(existing, provider) {
        b := Nesting(b, existing.value);
      }
      store := WithRow(store, key, Row(if existing.Some? then OrElse(made.externalId, existing.value.externalId) else made.externalId, b));
    }

    /** createDatabase. */
    method CreateDatabase(environment: string, provider: string, answer: Option<(bool, Made)>, required: set<string>)
      returns (success: bool)
      modifies this`store
      ensures store == Create(old(store), Key(environment, Database), provider, None, answer, required)
      ensures success <==> MayCreate(old(store), Key(environment, Database), None) && answer.Some? && answer.value.0
      ensures success ==> Key(environment, Database) in store.rows
                          && Complete(store.rows[Key(environment, Database)].bindings)
    {
      var key := Key(environment, Database);
      success := false;
      if key in store.rows && ResourceMarker(store.rows[key].bindings, Database).Some? {
        return;
      }
      if answer.None? {
        return;
      }
      var made := answer.value.1;
      if !answer.value.0 {
        var _ := RetainFailedProvisionIdentity(key, provider, made, required);
        return;
      }
      RecordProvision(key, provider, made);
      var primary := OrElse(made.externalId, made.bindings.instanceId);
      if primary.Some? {
        store := store.(topology := store.topology[environment := Topology(provider, primary.value, map[])]);
      }
      success := true;
    }

    /** createCache. */
    method CreateCache(environment: string, provider: string, planned: Option<Unresolved>,
                       answer: Option<(bool, Made)>,
                       required: set<string>) returns (success: bool)
      modifies this`store
      ensures store == Create(old(store), Key(environment, Cache), provider, planned, answer, required)
      ensures success <==> MayCreate(old(store), Key(environment, Cache), planned) && answer.Some? && answer.value.0
      ensures success ==> Key(environment, Cache) in store.rows && Complete(store.rows[Key(environment, Cache)].bindings)
    {
      var key := Key(environment, Cache);
      success := false;
      if key in store.rows && ResourceMarker(store.rows[key].bindings, Cache).Some? {
        return;
      }
      var unresolved := if key in store.rows then NetworkMarker(store.rows[key].bindings) else None;
      if unresolved != planned || answer.None? {
        return;
      }
      if !answer.value.0 {
        var _ := RetainFailedProvisionIdentity(key, provider, answer.value.1, required);
        return;
      }
      RecordProvision(key, provider, answer.value.1);
      success := true;
    }

    /** destroyDatabase and destroyCache. */
    method DestroyDatastore(key: Key, a: Destruction, adapter: bool, confirmed: bool) returns (success: bool)
      modifies this`store, this`asked
      ensures Effect(store, asked) == Steps.Destroy(old(store), key, a, adapter, confirmed)
      ensures success <==>
                asked.Some? && confirmed
                && var b := old(store).rows[key].bindings;
                   (b.provider == Some(a.provider) && b.provisioning && b.previousProvider.Some? && b.previous.Some? ==> Restorable(b))
      ensures success ==>
                (key !in store.rows <==>
                   var b := old(store).rows[key].bindings;
                   b.provider == Some(a.provider) && !(b.provisioning && b.previousProvider.Some? && b.previous.Some?))
    {
      success, asked := false, None;
      if key !in store.rows {
        return;
      }
      var row := store.rows[key];
      var b := row.bindings;
      var destroysPrevious := b.provider != Some(a.provider) && b.previousProvider == Some(a.provider) && b.previous.Some?;
      if b.provider != Some(a.provider) && !destroysPrevious {
        return;
      }
      var id := if destroysPrevious then PreviousId(b) else EffectiveId(row);
      var scope := if destroysPrevious then b.previous.value.scope else b.scope;
      if a.externalId.None? || id != a.externalId || !Textual(a.scope) || scope != a.scope || !a.sameIdentity || !adapter {
        return;
      }
      asked := Some(Target(a.provider, id.value, scope.value));
      hide Textual;
      if !confirmed {
        return;
      }
      if destroysPrevious {
        store := WithRow(store, key, row.(bindings := WithoutPrevious(b)));
        success := true;
      } else if b.provisioning && b.previousProvider.Some? && b.previous.Some? {
        if PreviousId(b).None? || b.previous.value.scope.None? || b.previous.value.scope.value == map[] {
          assert store == WithRow(store, key, row);
          return;
        }
        store := WithRow(store, key, Row(PreviousId(b), b.previous.value));
        success := true;
      } else {
        store := store.(rows := store.rows - {key});
        success := true;
      }
    }

    /** retainDatabaseCleanup and retainCacheCleanup, once the inventory came down to one
        candidate. */
    method RetainCleanup(key: Key, seen: Slot, required: set<string>, confirm: bool) returns (success: bool)
      requires Linked()
      modifies this`store
      ensures store == RetainTarget(old(store), key, seen, required, confirm)
      ensures success <==> key !in old(store).slots && key in store.slots
      ensures success ==> store.slots[key] == seen
    {
      success := false;
      if key in store.slots {
        return;
      }
      if !ScopeImportable(key.kind, seen.scope, required) {
        return;
      }
      var conflict := FindActiveBindingConflict(key.kind, seen.provider, seen.externalId, seen.scope);
      hide BoundSomewhere, ScopeImportable;
      if conflict.Some? {
        return;
      }
      if key in store.rows && Pending(store.rows[key], seen.provider) && !Matches(store.rows[key], key.kind, seen) {
        return;
      }
      if !confirm {
        return;
      }
      store := store.(slots := store.slots[key := seen]);
      success := true;
    }

    /** Clearing the slot, and the unresolved marker it was about. */
    method ClearSlot(key: Key)
      requires key in store.slots
      modifies this`store
      ensures store == Cleared(old(store), key)
    {
      var slot := store.slots[key];
      if key in store.rows && Matches(store.rows[key], key.kind, slot) {
        var b := store.rows[key].bindings;
        if b.previousProvider.Some? && b.previous.Some? {
          store := WithRow(store, key, Row(PreviousId(b), b.previous.value));
        } else {
          store := store.(rows := store.rows - {key});
        }
      }
      store := store.(slots := store.slots - {key});
    }

    /** destroyRetainedDatabase and destroyRetainedCache. */
    method DestroyRetainedDatastore(key: Key, planned: Slot, c: Cleanup) returns (success: bool)
      requires Linked()
      modifies this`store, this`asked
      ensures Effect(store, asked) == DestroyRetained(old(store), key, planned, c)
      ensures success <==> asked.Some? && c.confirmed && c.after.Absent?
      ensures success <==> key in old(store).slots && key !in store.slots
    {
      success, asked := false, None;
      if key !in store.slots {
        return;
      }
      var slot := store.slots[key];
      if !Planned(key.kind, slot, planned) || !CompleteScope(Some(slot.scope)) {
        return;
      }
      var conflict := FindActiveBindingConflict(key.kind, slot.provider, slot.externalId, slot.scope);
      hide BoundSomewhere, CompleteScope;
      if conflict.Some? {
        return;
      }
      if key in store.rows && Matches(store.rows[key], key.kind, slot) {
        var b := store.rows[key].bindings;
        if b.previousProvider.Some? && !PreviousComplete(b, key.kind) {
          return;
        }
      }
      if !c.adapter || !SeenAsRetained(key.kind, slot, c.before) {
        return;
      }
      asked := Some(Target(slot.provider, slot.externalId, slot.scope));
      if !c.confirmed || !c.after.Absent? {
        return;
      }
      ClearSlot(key);
      success := true;
    }

    /** provisionReadReplica and destroyReadReplica, then persistTopology. */
    method ChangeReadReplica(environment: string, provider: string, primary: string, name: string,
                             reviewed: Option<string>, change: ReplicaChange) returns (success: bool)
      modifies this`store
      ensures store == ChangeReplica(old(store), environment, provider, primary, name, reviewed, change)
      ensures success <==> MayChangeReplica(old(store), environment, provider, primary, name, reviewed, change) && Happened(change)
      ensures success ==> environment in store.topology && store.topology[environment].primary == primary
    {
      success := false;
      var key := Key(environment, Database);
      if !MayChangeReplica(store, environment, provider, primary, name, reviewed, change) || !Happened(change) {
        return;
      }
      var row := store.rows[key];
      var next := if change.Add? then row.bindings.replicas[name := change.made.value] else row.bindings.replicas - {name};
      store := WithRow(store, key, row.(bindings := row.bindings.(replicas := next)));
      var safe := PersistedReplicas(provider, next);
      store := store.(topology := store.topology[environment := Topology(provider, primary, safe)]);
      success := true;
    }

    /** Replicas without an id are left out of the index. */
    method PersistedReplicas(provider: string,
                             replicas: map<string, Replica>) returns (safe: map<string, (string, Replica)>)
      ensures safe == Projection(provider, replicas)
    {
      safe := map[];
      var names := replicas.Keys;
      while names != {}
        invariant names <= replicas.Keys
        invariant forall n :: n in safe <==> n in replicas && n !in names && replicas[n].externalId.Some?
        invariant forall n :: n in safe ==> safe[n] == (provider, replicas[n])
        decreases |names|
      {
        var n :| n in names;
        names := names - {n};
        if replicas[n].externalId.Some? {
          safe := safe[n := (provider, replicas[n])];
        }
      }
      assert safe == Projection(provider, replicas);
    }
  }

  // ------------------------------------------- retained provider resources

  predicate TextualValues(scope: Scope) { forall k :: k in scope ==> scope[k].Str? && scope[k].text != "" }

  /** One look at a retained resource. None: the answer is unusable and ends the cleanup. */
  function Look(slot: Slot, seen: Observation): Option<bool> {
    match seen
    case Absent => Some(false)
    case Present(id, _, scope) => if id == slot.externalId && scope == Some(slot.scope) then Some(true) else None
    case Unknown => None
  }

  /** The k-th look shows absence, and every look before it from `from` on showed the target. */
  ghost predicate AbsentAt(slot: Slot, looks: nat -> Observation, from: nat, k: nat) {
    from <= k && Look(slot, looks(k)) == Some(false) && forall j: nat :: from <= j < k ==> Look(slot, looks(j)) == Some(true)
  }

  ghost predicate AbsenceSeen(slot: Slot, looks: nat -> Observation, from: nat, until: nat) {
    exists k: nat :: k < until && AbsentAt(slot, looks, from, k)
  }

  class ResourceSlots {
    var slots: map<string, Slot>

    constructor (slots: map<string, Slot>)
      ensures this.slots == slots
    {
      this.slots := slots;
    }

    /** destroyRetainedResource: looks, deletes what is still there, and polls. The slot is
        emptied exactly when absence was seen: at the first look, or within the allowed
        attempts after a confirmed deletion. */
    method DestroyRetainedResource(e: string, planned: Slot, looks: nat -> Observation, confirmed: bool,
                                   configured: int)
      returns (asked: bool)
      modifies this
      ensures var authorised := e in old(slots) && old(slots)[e] == planned && TextualValues(planned.scope);
              var attempts := if configured < 1 then 1 else configured;
              && (asked <==> authorised && Look(planned, looks(0)) == Some(true))
              && slots == if authorised && (Look(planned, looks(0)) == Some(false)
                                            || (asked && confirmed && AbsenceSeen(planned, looks, 1, 1 + attempts)))
                          then old(slots) - {e} else old(slots)
    {
      hide TextualValues;
      asked := false;
      var attempts := if configured < 1 then 1 else configured;
      if e !in slots || slots[e] != planned || !TextualValues(planned.scope) {
        return;
      }
      var before := Look(planned, looks(0));
      if before.None? {
        return;
      }
      if before.value {
        asked := true;
        if !confirmed {
          return;
        }
        var attempt := 0;
        var gone := false;
        while attempt < attempts && !gone
          invariant attempt <= attempts && slots == old(slots)
          invariant gone ==> AbsenceSeen(planned, looks, 1, 1 + attempts)
          invariant !gone ==> forall j: nat :: 1 <= j <= attempt ==> Look(planned, looks(j)) == Some(true)
          decreases attempts - attempt, !gone
        {
          var seen := Look(planned, looks(1 + attempt));
          if seen.None? {
            NotSeenAfter(planned, looks, 1 + attempt, 1 + attempts);
            return;
          }
          if !seen.value {
            assert AbsentAt(planned, looks, 1, 1 + attempt);
            gone := true;
          } else {
            attempt := attempt + 1;
          }
        }
        if !gone {
          return;
        }
      }
      slots := slots - {e};
    }
  }

  /** An unusable answer before any absence: none is seen. */
  lemma NotSeenAfter(slot: Slot, looks: nat -> Observation, bad: nat, until: nat)
    requires 1 <= bad && Look(slot, looks(bad)).None?
    requires forall j: nat :: 1 <= j < bad ==> Look(slot, looks(j)) == Some(true)
    ensures !AbsenceSeen(slot, looks, 1, until)
  {
    forall k: nat ensures !AbsentAt(slot, looks, 1, k) {
      if 1 <= k < bad { assert Look(slot, looks(k)) == Some(true); }
    }
  }
}
