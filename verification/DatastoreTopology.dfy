/** The topology index agrees with the database component it was derived from. */
module DatastoreTopology {
  import opened Json
  import opened DatastoreSteps
  import opened DatastoreSafety

  /** The row whose identity the index should name: the row itself, or, while it is
      incomplete, the one that a cleanup would restore. */
  function Owner(r: Row): Option<Row>
    decreases r.bindings
  {
    if Complete(r.bindings) then Some(r)
    else if r.bindings.previousProvider.Some? && r.bindings.previous.Some?
    then Owner(Row(PreviousId(r.bindings), r.bindings.previous.value)) else None
  }

  predicate Named(t: map<string, Topology>, environment: string, o: Row) {
    o.bindings.provider.Some? && EffectiveId(o).Some? ==>
      && environment in t
      && t[environment] == Topology(o.bindings.provider.value, EffectiveId(o).value,
                                    Projection(o.bindings.provider.value, o.bindings.replicas))
  }

  /** A complete database is named as primary, with the projection of its replicas. */
  ghost predicate Agrees(s: Store) {
    forall e: string :: Key(e, Database) in s.rows ==>
      var o := Owner(s.rows[Key(e, Database)]);
      o.Some? ==> Named(s.topology, e, o.value)
  }

  /** The stored row is named by what the provider returned. */
  predicate IdentityReported(made: Made, existing: Option<Row>) {
    made.externalId.Some? || existing.None? || existing.value.externalId.None? || existing.value.externalId == made.bindings.instanceId
  }

  /** Under which a step keeps index and component in agreement. A database provider names
      what it made by an external or instance id, fresh and without replicas; a bound
      database that still has a previous one stashed is not created again unsuccessfully
      under its own provider; a replica change is one that keeps them in agreement. */
  predicate Orderly(s: Store, e: Event) {
    match e
    case Created(key, provider, _, answer, required) =>
      key.kind.Database? && answer.Some? ==>
        var made, existing := answer.value.1, RowAt(s, key);
        && made.bindings.previous.None? && made.bindings.previousProvider.None? && made.bindings.previousId.None?
        && if answer.value.0 then
             && made.bindings.replicas == map[] && PrimaryIdOf(made).Some? && IdentityReported(made, existing)
             && made.bindings.provider == Some(provider)
           else existing.Some? && Complete(existing.value.bindings) && !Switches(existing, provider) ==>
                  existing.value.bindings.previous.None?
    case ReplicaChanged(environment, provider, primary, name, reviewed, change) =>
      MayChangeReplica(s, environment, provider, primary, name, reviewed, change) && Happened(change) ==>
        StaysNamed(s.rows[Key(environment, Database)], provider, primary, NextReplicas(s, environment, name, change))
    case Migrated(environment, provider, candidate) =>
      && Complete(candidate.bindings) && candidate.bindings.provider == Some(provider) && candidate.bindings.replicas == map[]
      && PrimaryId(candidate).Some?
      && IdentityReported(Made(candidate.externalId, true, candidate.bindings), RowAt(s, Key(environment, Database)))
    case _ => true
  }

  /** Naming `r` by its own provider and id in the index names its owner too: the row is
      complete, or what a cleanup would restore needs no entry, or has this very one. */
  predicate StaysNamed(r: Row, provider: string, primary: string, replicas: map<string, Replica>) {
    || Complete(r.bindings)
    || (Owner(r).Some? ==>
          var o := Owner(r).value;
          || o.bindings.provider.None? || EffectiveId(o).None?
          || (o.bindings.provider == Some(provider) && EffectiveId(o) == Some(primary)
              && Projection(provider, o.bindings.replicas) == Projection(provider, replicas)))
  }

  function NextReplicas(s: Store, e: string, name: string, change: ReplicaChange): map<string, Replica>
    requires Key(e, Database) in s.rows && (change.Add? ==> change.made.Some?)
  {
    var replicas := s.rows[Key(e, Database)].bindings.replicas;
    if change.Add? then replicas[name := change.made.value] else replicas - {name}
  }

  function PrimaryIdOf(made: Made): Option<string> { OrElse(made.externalId, made.bindings.instanceId) }

  /** A row's own effective id is what is stashed with it. */
  lemma NestedOwner(b: Bindings, was: Row)
    requires was.bindings.provider.Some? && !Complete(b)
    requires b.previousProvider == was.bindings.provider && b.previousId == was.externalId && b.previous == Some(was.bindings)
    ensures forall externalId :: Owner(Row(externalId, b)) == Owner(Row(EffectiveId(was), was.bindings))
  {
  }

  /** Writing the effective id into the external id changes nothing the index depends on. */
  lemma SameOwner(was: Row, t: map<string, Topology>, e: string)
    ensures Owner(was).Some? <==> Owner(Row(EffectiveId(was), was.bindings)).Some?
    ensures Owner(was).Some? ==>
              (Named(t, e, Owner(was).value) <==> Named(t, e, Owner(Row(EffectiveId(was), was.bindings)).value))
  {
    if !Complete(was.bindings) {
      assert Owner(was) == Owner(Row(EffectiveId(was), was.bindings));
    }
  }

  predicate RowAgrees(r: Row, t: map<string, Topology>, e: string) {
    Owner(r).Some? ==> Named(t, e, Owner(r).value)
  }

  /** Only this environment's row and index entry change. */
  lemma OnlyHere(s: Store, u: Store, e: string)
    requires Agrees(s)
    requires forall f: string :: f != e ==>
               && (Key(f, Database) in u.rows ==>
                     Key(f, Database) in s.rows && u.rows[Key(f, Database)] == s.rows[Key(f, Database)])
               && (f in s.topology ==> f in u.topology && u.topology[f] == s.topology[f])
    requires Key(e, Database) in u.rows ==> RowAgrees(u.rows[Key(e, Database)], u.topology, e)
    ensures Agrees(u)
  {
    forall f: string | Key(f, Database) in u.rows ensures RowAgrees(u.rows[Key(f, Database)], u.topology, f) {
      if f != e {
        assert RowAgrees(s.rows[Key(f, Database)], s.topology, f);
      }
    }
  }

  lemma FailedAgrees(s: Store, e: string, provider: string, made: Made, required: set<string>)
    requires Agrees(s) && made.bindings.previous.None? && made.bindings.previousProvider.None? && made.bindings.previousId.None?
    requires RetainFailed(Database, provider, made, RowAt(s, Key(e, Database)), required).Some?
    requires var existing := RowAt(s, Key(e, Database));
             existing.Some? && Complete(existing.value.bindings) && !Switches(existing, provider) ==>
               existing.value.bindings.previous.None?
    ensures RowAgrees(RetainFailed(Database, provider, made, RowAt(s, Key(e, Database)), required).value, s.topology, e)
  {
    var existing := RowAt(s, Key(e, Database));
    var failed := RetainFailed(Database, provider, made, existing, required).value;
    hide Retainable, Projection;
    if existing.Some? {
      assert RowAgrees(existing.value, s.topology, e);
      if Switches(existing, provider) {
        NestedOwner(failed.bindings, existing.value);
        SameOwner(existing.value, s.topology, e);
      } else {
        MergedOwner(existing.value, failed);
      }
    }
    hide RetainFailed;
  }

  /** A merge keeps the stash of an incomplete row. */
  lemma MergedOwner(was: Row, failed: Row)
    requires failed.bindings.provisioning && failed.bindings.previousProvider == was.bindings.previousProvider
    requires failed.bindings.previousId == was.bindings.previousId && failed.bindings.previous == was.bindings.previous
    ensures !Complete(was.bindings) ==> Owner(failed) == Owner(was)
    ensures was.bindings.previous.None? ==> Owner(failed).None?
  {
  }

  lemma RecordedIsNamed(provider: string, made: Made, existing: Option<Row>)
    requires made.bindings.replicas == map[] && PrimaryIdOf(made).Some? && IdentityReported(made, existing)
    requires made.bindings.provider == Some(provider)
    ensures var r := Recorded(provider, made, existing);
            && Owner(r) == Some(r) && EffectiveId(r) == PrimaryIdOf(made) && r.bindings.provider == Some(provider)
            && Projection(provider, r.bindings.replicas) == map[]
  {
  }

  lemma CreatedAgrees(s: Store, key: Key, provider: string, planned: Option<Unresolved>,
                      answer: Option<(bool, Made)>, required: set<string>)
    requires Agrees(s) && Orderly(s, Created(key, provider, planned, answer, required))
    ensures Agrees(Create(s, key, provider, planned, answer, required))
  {
    var u := Create(s, key, provider, planned, answer, required);
    if key.kind.Database? && answer.Some? {
      var made := answer.value.1;
      if answer.value.0 {
        RecordedIsNamed(provider, made, RowAt(s, key));
      } else if RetainFailed(Database, provider, made, RowAt(s, key), required).Some? && MayCreate(s, key, planned) {
        FailedAgrees(s, key.environment, provider, made, required);
      }
    }
    hide MayCreate, RetainFailed, Recorded, Owner, Projection, Named, EffectiveId;
    if u != s {
      OnlyHere(s, u, key.environment);
    }
  }

  lemma DestroyedAgrees(s: Store, key: Key, a: Destruction, adapter: bool, confirmed: bool)
    requires Agrees(s)
    ensures Agrees(Destroy(s, key, a, adapter, confirmed).store)
  {
    var u := Destroy(s, key, a, adapter, confirmed).store;
    if key in s.rows && key.kind.Database? {
      assert RowAgrees(s.rows[key], s.topology, key.environment);
      AfterDestroyAgrees(s.rows[key], a, s.topology, key.environment);
    }
    hide DestroyTarget, AfterDestroy, Owner, Named;
    if u != s {
      OnlyHere(s, u, key.environment);
    }
  }

  lemma AfterDestroyAgrees(r: Row, a: Destruction, t: map<string, Topology>, e: string)
    requires RowAgrees(r, t, e)
    ensures AfterDestroy(r, a).Some? ==> RowAgrees(AfterDestroy(r, a).value, t, e)
  {
    hide Projection;
    if !HitsPrevious(r.bindings, a.provider) && r.bindings.provisioning && r.bindings.previous.Some? && r.bindings.previousProvider.Some? {
      assert Owner(r) == Owner(Row(PreviousId(r.bindings), r.bindings.previous.value));
    }
  }

  lemma CleanedUpAgrees(s: Store, key: Key, slot: Slot, c: Cleanup)
    requires Agrees(s)
    ensures Agrees(DestroyRetained(s, key, slot, c).store)
  {
    var u := DestroyRetained(s, key, slot, c).store;
    if key in s.rows && key.kind.Database? && s.rows[key].bindings.provisioning
       && s.rows[key].bindings.previousProvider.Some? && s.rows[key].bindings.previous.Some?
    {
      var b := s.rows[key].bindings;
      assert RowAgrees(s.rows[key], s.topology, key.environment);
      assert Owner(s.rows[key]) == Owner(Row(PreviousId(b), b.previous.value));
    }
    hide CleanupAuthorised, SeenAsRetained, Owner, Named, ResourceMarker;
    if u != s {
      OnlyHere(s, u, key.environment);
    }
  }

  /** An accepted replica change keeps index and component in agreement exactly when the
      database is complete or what a cleanup would restore is not misnamed by the change. */
  lemma ReplicaAgreesExactly(s: Store, e: string, provider: string, primary: string, name: string,
                             reviewed: Option<string>, change: ReplicaChange)
    requires Agrees(s) && MayChangeReplica(s, e, provider, primary, name, reviewed, change) && Happened(change)
    ensures Agrees(ChangeReplica(s, e, provider, primary, name, reviewed, change)) <==>
              StaysNamed(s.rows[Key(e, Database)], provider, primary, NextReplicas(s, e, name, change))
  {
    var key := Key(e, Database);
    var u := ChangeReplica(s, e, provider, primary, name, reviewed, change);
    SameOwnerOfReplicas(s.rows[key], NextReplicas(s, e, name, change));
    assert RowAgrees(u.rows[key], u.topology, e) <==>
           StaysNamed(s.rows[key], provider, primary, NextReplicas(s, e, name, change));
    hide Owner, Named, Projection, StaysNamed, MayChangeReplica;
    if RowAgrees(u.rows[key], u.topology, e) { OnlyHere(s, u, e); }
  }

  /** A replica of an incomplete row is not one of its owner's. */
  lemma SameOwnerOfReplicas(r: Row, replicas: map<string, Replica>)
    ensures var after := r.(bindings := r.bindings.(replicas := replicas));
            Owner(after) == if Complete(r.bindings) then Some(after) else Owner(r)
  {
  }

  lemma ReplicaAgrees(s: Store, e: string, provider: string, primary: string, name: string, reviewed: Option<string>,
                      change: ReplicaChange)
    requires Agrees(s) && Orderly(s, ReplicaChanged(e, provider, primary, name, reviewed, change))
    ensures Agrees(ChangeReplica(s, e, provider, primary, name, reviewed, change))
  {
    hide Agrees;
    if MayChangeReplica(s, e, provider, primary, name, reviewed, change) && Happened(change) {
      ReplicaAgreesExactly(s, e, provider, primary, name, reviewed, change);
    }
  }

  /** A migration clears the index's replicas along with the component's. */
  lemma MigratedAgrees(s: Store, e: string, provider: string, candidate: Row)
    requires Agrees(s) && Orderly(s, Migrated(e, provider, candidate))
    ensures Agrees(Migrate(s, e, provider, candidate))
  {
    var u := Migrate(s, e, provider, candidate);
    if u != s {
      var r := u.rows[Key(e, Database)];
      assert Owner(r) == Some(r) && EffectiveId(r) == PrimaryId(candidate);
      assert Projection(provider, r.bindings.replicas) == map[];
      hide Owner, Projection, EffectiveId;
      OnlyHere(s, u, e);
    }
  }

  lemma AgreesStep(s: Store, e: Event)
    requires Agrees(s) && Orderly(s, e)
    ensures Agrees(Step(s, e))
  {
    hide Agrees;
    match e
    case Created(key, provider, planned, answer, required) =>
      CreatedAgrees(s, key, provider, planned, answer, required);
      hide Create, Orderly;
    case Destroyed(key, a, adapter, confirmed) =>
      DestroyedAgrees(s, key, a, adapter, confirmed);
      hide Destroy;
    case Imported(key, seen, required, confirm) =>
      ImportAgrees(s, key, seen, required, confirm);
      hide RetainTarget;
    case CleanedUp(key, slot, c) =>
      CleanedUpAgrees(s, key, slot, c);
      hide DestroyRetained;
    case ReplicaChanged(environment, provider, primary, name, reviewed, change) =>
      ReplicaAgrees(s, environment, provider, primary, name, reviewed, change);
      hide ChangeReplica;
    case Migrated(environment, provider, candidate) =>
      MigratedAgrees(s, environment, provider, candidate);
      hide Migrate, Orderly;
  }

  lemma ImportAgrees(s: Store, key: Key, seen: Slot, required: set<string>, confirm: bool)
    requires Agrees(s)
    ensures Agrees(RetainTarget(s, key, seen, required, confirm))
  {
    hide ScopeImportable, BoundSomewhere, Matches, Pending, Owner, Named;
  }

  ghost predicate OrderlyRun(s: Store, events: seq<Event>) {
    forall i :: 0 <= i < |events| ==> Orderly(Run(s, events[..i]), events[i])
  }

  /** Through creates, failed switches and restores, cleanups, replica changes and migrations,
      the index names every complete database under its own id with its own replicas. */
  lemma {:induction false} EveryRunAgrees(s: Store, events: seq<Event>)
    requires Agrees(s) && OrderlyRun(s, events)
    ensures Agrees(Run(s, events))
  {
    hide Step, Agrees, Orderly;
    if events != [] {
      var init := events[..|events| - 1];
      assert OrderlyRun(s, init) by {
        forall i | 0 <= i < |init| ensures Orderly(Run(s, init[..i]), init[i]) { assert init[..i] == events[..i]; }
      }
      EveryRunAgrees(s, init);
      AgreesStep(Run(s, init), events[|events| - 1]);
    }
  }

  // ------------------------------------------------------- where it fails

  /** A create that reports only an instance id over a row with an external id: the index
      names the new database, the row still goes by the old one. */
  lemma KeptExternalIdDisagrees(s: Store, e: string, provider: string, made: Made, required: set<string>)
    requires Key(e, Database) in s.rows && MayCreate(s, Key(e, Database), None)
    requires made.externalId.None? && made.bindings.instanceId.Some? && made.bindings.provider == Some(provider)
    ensures Agrees(Create(s, Key(e, Database), provider, None, Some((true, made)), required)) ==>
              IdentityReported(made, RowAt(s, Key(e, Database)))
  {
    var u := Create(s, Key(e, Database), provider, None, Some((true, made)), required);
    var r := u.rows[Key(e, Database)];
    assert Owner(r) == Some(r);
    if Agrees(u) {
      assert Named(u.topology, e, r);
    }
  }

  /** A switched database, created again under its own provider without success and then
      cleaned up: the earlier one is restored, the index still names the later one. */
  lemma RestoredBehindTheIndex(s: Store, e: string, provider: string, made: Made, required: set<string>,
                               a: Destruction)
    requires var key := Key(e, Database);
             && key in s.rows && Agrees(s) && Complete(s.rows[key].bindings) && s.rows[key].bindings.provider == Some(provider)
             && s.rows[key].bindings.previousProvider.Some? && s.rows[key].bindings.previousProvider != Some(provider)
             && Restorable(s.rows[key].bindings) && Complete(s.rows[key].bindings.previous.value)
             && s.rows[key].bindings.previous.value.provider == s.rows[key].bindings.previousProvider
             && EffectiveId(s.rows[key]).Some? && MayCreate(s, key, None)
    requires Durable(Database, provider, made, required) && made.externalId.Some? && made.bindings.previous.None?
    requires made.bindings.previousProvider.None? && made.bindings.previousId.None?
    requires var failed := Create(s, Key(e, Database), provider, None, Some((false, made)), required);
             a.provider == provider && DestroyTarget(failed.rows[Key(e, Database)], a).Some?
    ensures var failed := Create(s, Key(e, Database), provider, None, Some((false, made)), required);
            !Agrees(Destroy(failed, Key(e, Database), a, true, true).store)
  {
    var key := Key(e, Database);
    var was := s.rows[key];
    var failed := Create(s, key, provider, None, Some((false, made)), required);
    var u := Destroy(failed, key, a, true, true).store;
    hide DestroyTarget, CompleteFor, Projection;
    assert failed.rows[key].bindings.previous == was.bindings.previous && failed.rows[key].bindings.provisioning;
    assert PreviousId(failed.rows[key].bindings) == PreviousId(was.bindings);
    var r := Row(PreviousId(was.bindings), was.bindings.previous.value);
    assert u.rows[key] == r && Owner(r) == Some(r) && u.topology == s.topology;
    assert Owner(was) == Some(was) && Named(s.topology, e, was);
    assert s.topology[e].provider == provider;
    assert !Named(u.topology, e, r);
  }

  /** A whole run, from any store without such a database: it is created at `a`; a switch to
      `b` fails and leaves an identity; a replica is added to that one, which the handler
      accepts; and it is cleaned up. The first database is back, complete, and the index names
      the one that is gone. */
  lemma ReplicaOfIncompleteDisagrees(s: Store, e: string, a: string, b: string, scope: Scope, required: set<string>,
                                     replica: Replica)
    requires Key(e, Database) !in s.rows && a != b && CompleteFor(Some(scope), required)
    ensures var key, first, second := Key(e, Database), AtProvider(a, scope), AtProvider(b, scope);
            var one := Step(s, Created(key, a, None, Some((true, Made(Some("1"), true, first))), required));
            var two := Step(one, Created(key, b, None, Some((false, Made(Some("2"), true, second))), required));
            var three := Step(two, ReplicaChanged(e, b, "2", "r", None, Add(Some(replica))));
            var four := Step(three, Destroyed(key, Destruction(b, Some("2"), Some(scope), true), true, true));
            && RowAt(four, key) == Some(Row(Some("1"), first))
            && e in four.topology && four.topology[e].provider == b && four.topology[e].primary == "2" && !Agrees(four)
  {
    hide CompleteScope;
    assert CompleteScope(Some(scope));
    CreatedThenHalfway(s, e, a, b, scope, required);
    hide CompleteFor, Create, Agrees, RowAt, HalfSwitched, AtProvider, ChangeReplica, Destroy, RetainTarget,
         DestroyRetained, Migrate;
    var key := Key(e, Database);
    var one := Create(s, key, a, None, Some((true, Made(Some("1"), true, AtProvider(a, scope)))), required);
    AddedThenUndone(Create(one, key, b, None, Some((false, Made(Some("2"), true, AtProvider(b, scope)))), required), e, a, b, scope,
                    replica);
  }

  lemma CreatedThenHalfway(s: Store, e: string, a: string, b: string, scope: Scope, required: set<string>)
    requires Key(e, Database) !in s.rows && a != b && CompleteFor(Some(scope), required)
    ensures var key := Key(e, Database);
            var one := Create(s, key, a, None, Some((true, Made(Some("1"), true, AtProvider(a, scope)))), required);
            var two := Create(one, key, b, None, Some((false, Made(Some("2"), true, AtProvider(b, scope)))), required);
            RowAt(two, key) == Some(Row(Some("2"), HalfSwitched(a, b, scope)))
  {
    hide CompleteFor;
  }

  lemma AddedThenUndone(two: Store, e: string, a: string, b: string, scope: Scope, replica: Replica)
    requires RowAt(two, Key(e, Database)) == Some(Row(Some("2"), HalfSwitched(a, b, scope)))
    requires a != b && CompleteScope(Some(scope))
    ensures var three := ChangeReplica(two, e, b, "2", "r", None, Add(Some(replica)));
            var four := Destroy(three, Key(e, Database), Destruction(b, Some("2"), Some(scope), true), true, true).store;
            && RowAt(four, Key(e, Database)) == Some(Row(Some("1"), AtProvider(a, scope)))
            && e in four.topology && four.topology[e].provider == b && four.topology[e].primary == "2" && !Agrees(four)
  {
    ReplicaAdded(two, e, b, "2", "r", replica, Row(Some("2"), HalfSwitched(a, b, scope)));
    var three := ChangeReplica(two, e, b, "2", "r", None, Add(Some(replica)));
    HalfIsUndone(three, e, a, b, scope, map["r" := replica]);
    FirstIsMisnamed(e, a, scope, Destroy(three, Key(e, Database), Destruction(b, Some("2"), Some(scope), true), true, true).store);
    hide ChangeReplica, Destroy, Agrees, CompleteScope;
  }

  lemma ReplicaAdded(s: Store, e: string, provider: string, primary: string, name: string, replica: Replica, r: Row)
    requires RowAt(s, Key(e, Database)) == Some(r) && r.bindings.provider == Some(provider)
    requires PrimaryId(r) == Some(primary) && r.bindings.replicas == map[]
    ensures var u := ChangeReplica(s, e, provider, primary, name, None, Add(Some(replica)));
            && RowAt(u, Key(e, Database)) == Some(r.(bindings := r.bindings.(replicas := map[name := replica])))
            && e in u.topology && u.topology[e].provider == provider && u.topology[e].primary == primary
  {
    hide Projection;
  }

  /** The bindings while the switch from `a` to `b` is half done. */
  function HalfSwitched(a: string, b: string, scope: Scope): Bindings {
    Nesting(AtProvider(b, scope), Row(Some("1"), AtProvider(a, scope))).(provisioning := true)
  }

  lemma HalfIsUndone(s: Store, e: string, a: string, b: string, scope: Scope, replicas: map<string, Replica>)
    requires a != b && CompleteScope(Some(scope))
    requires RowAt(s, Key(e, Database)) == Some(Row(Some("2"), HalfSwitched(a, b, scope).(replicas := replicas)))
    ensures var u := Destroy(s, Key(e, Database), Destruction(b, Some("2"), Some(scope), true), true, true).store;
            RowAt(u, Key(e, Database)) == Some(Row(Some("1"), AtProvider(a, scope))) && u.topology == s.topology
  {
    CompleteIsTextual(Some(scope));
    ScopeNotEmpty(scope);
    hide Textual, CompleteScope;
  }

  lemma ScopeNotEmpty(scope: Scope)
    requires CompleteScope(Some(scope))
    ensures scope != map[]
  {
  }

  lemma FirstIsMisnamed(e: string, a: string, scope: Scope, s: Store)
    requires RowAt(s, Key(e, Database)) == Some(Row(Some("1"), AtProvider(a, scope)))
    requires e in s.topology && s.topology[e].provider != a
    ensures !Agrees(s)
  {
    assert Owner(s.rows[Key(e, Database)]) == Some(s.rows[Key(e, Database)]);
    hide Projection;
  }

  function AtProvider(provider: string, scope: Scope): Bindings {
    Bindings(Some(provider), None, None, Some(scope), false, false, None, None, None, None, None, map[], map[])
  }
}
