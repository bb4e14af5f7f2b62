/** The database migration seen from the datastore steps: a completed one is their swap. */
module DatabaseMigrationTopology {
  import opened Json
  import opened DatabaseMigrationSteps
  import opened DatabaseMigrationConservation
  import Datastores = DatastoreSteps
  import Topologies = DatastoreTopology

  /** The same identity, external id, provider and instance id, and the same other fields. */
  predicate SameIdentity(r: Row, d: Datastores.Row) {
    r.externalId == d.externalId && r.bindings.provider == d.bindings.provider && r.bindings.instanceId == d.bindings.instanceId
    && r.bindings.rest == d.bindings.rest
  }

  predicate SameIndex(index: Index, t: Datastores.Topology) {
    t.provider == index.primary.provider && t.primary == index.primary.id && t.replicas.Keys == index.replicas.Keys
  }

  /** The datastore store holds the same databases of this engine, and the same index. */
  ghost predicate Mirrors(s: State, u: Datastores.Store, engine: string) {
    && (forall e: string ::
          (Slot(e, Engine(engine)) in s.table.rows <==> Datastores.Key(e, Datastores.Database) in u.rows)
          && (Slot(e, Engine(engine)) in s.table.rows ==>
                SameIdentity(s.table.rows[Slot(e, Engine(engine))], u.rows[Datastores.Key(e, Datastores.Database)])))
    && (forall e: string :: (e in s.topology <==> e in u.topology) && (e in s.topology ==> SameIndex(s.topology[e], u.topology[e])))
  }

  /** What the migration hands to the swap. */
  predicate Describes(candidate: Row, q: Request, d: Datastores.Row) {
    SameIdentity(candidate, d) && candidate.bindings.provider == Some(q.targetProvider)
  }

  /** Only candidates differ. */
  ghost predicate SameActives(t: Table, u: Table) {
    forall slot: Slot :: slot.kind.Engine? ==> RowAt(t, slot) == RowAt(u, slot)
  }

  /** Other writers leave the active databases alone. */
  ghost predicate Quiet(others: Others) { forall i, t: Table :: SameActives(t, others(i, t)) }

  lemma CommitRefines(p: Progress, q: Request, a: Answers, others: Others, candidate: Row, reviewed: Table,
                      u: Datastores.Store, d: Datastores.Row)
    requires Mirrors(p.state, u, q.engine) && Describes(candidate, q, d)
    requires Reviewed(reviewed, q) && Unchanged(p.state.table, q, reviewed) && SameActives(reviewed, p.state.table)
    ensures Mirrors(Commit(p, q, a, others, candidate, reviewed).state,
                    Datastores.Migrate(u, q.targetEnvironment, q.targetProvider, d), q.engine)
  {
    var t := Commit(p, q, a, others, candidate, reviewed).state;
    var v := Datastores.Migrate(u, q.targetEnvironment, q.targetProvider, d);
    var key := Datastores.Key(q.targetEnvironment, Datastores.Database);
    assert RowAt(reviewed, ActiveSlot(q)) == RowAt(p.state.table, ActiveSlot(q));
    CommitRow(p, q, a, others, candidate, reviewed, u, d);
    CommitElsewhere(p, q, a, others, candidate, reviewed);
    forall e: string
      ensures (Slot(e, Engine(q.engine)) in t.table.rows <==> Datastores.Key(e, Datastores.Database) in v.rows)
              && (Slot(e, Engine(q.engine)) in t.table.rows ==>
                    SameIdentity(t.table.rows[Slot(e, Engine(q.engine))], v.rows[Datastores.Key(e, Datastores.Database)]))
    {
      assert e != q.targetEnvironment ==> RowAt(t.table, Slot(e, Engine(q.engine))) == RowAt(p.state.table, Slot(e, Engine(q.engine)));
    }
    hide Unchanged, Reviewed, SameActives, Commit, SameIdentity;
  }

  lemma CommitElsewhere(p: Progress, q: Request, a: Answers, others: Others, candidate: Row, reviewed: Table)
    requires Reviewed(reviewed, q) && Unchanged(p.state.table, q, reviewed)
    ensures var t := Commit(p, q, a, others, candidate, reviewed).state;
            && (forall e: string :: e != q.targetEnvironment ==>
                  RowAt(t.table, Slot(e, Engine(q.engine))) == RowAt(p.state.table, Slot(e, Engine(q.engine))))
            && t.topology == if EffectiveId(candidate).None? then p.state.topology
                             else p.state.topology[q.targetEnvironment :=
                                    Index(DbOf(q.targetProvider, EffectiveId(candidate)), map[])]
  {
    hide Unchanged, Reviewed;
  }

  lemma CommitRow(p: Progress, q: Request, a: Answers, others: Others, candidate: Row, reviewed: Table,
                  u: Datastores.Store, d: Datastores.Row)
    requires Mirrors(p.state, u, q.engine) && Describes(candidate, q, d)
    requires Reviewed(reviewed, q) && Unchanged(p.state.table, q, reviewed)
    requires RowAt(reviewed, ActiveSlot(q)) == RowAt(p.state.table, ActiveSlot(q))
    ensures var t := Commit(p, q, a, others, candidate, reviewed).state;
            var v := Datastores.Migrate(u, q.targetEnvironment, q.targetProvider, d);
            var key := Datastores.Key(q.targetEnvironment, Datastores.Database);
            && ActiveSlot(q) in t.table.rows && key in v.rows && SameIdentity(t.table.rows[ActiveSlot(q)], v.rows[key])
            && v.rows == u.rows[key := v.rows[key]]
            && v.topology == if EffectiveId(candidate).None? then u.topology
                             else u.topology[q.targetEnvironment :=
                                    Datastores.Topology(q.targetProvider, EffectiveId(candidate).value, map[])]
  {
    var key := Datastores.Key(q.targetEnvironment, Datastores.Database);
    assert key in u.rows ==> Datastores.PrimaryId(u.rows[key]).Some?;
    hide Unchanged;
  }

  lemma CleanupKeepsActives(p: Progress, q: Request, a: Answers, others: Others, candidate: Row)
    requires Quiet(others)
    ensures var r := Cleanup(p, q, a, others, candidate).state;
            SameActives(p.state.table, r.table) && r.topology == p.state.topology
  {
    assert SameActives(p.state.table, others(6, p.state.table));
  }

  lemma ClearKeepsActives(p: Progress, q: Request, a: Answers, others: Others)
    requires Quiet(others)
    ensures var r := ClearLingering(p, q, a, others).state;
            SameActives(p.state.table, r.table) && r.topology == p.state.topology
  {
    assert SameActives(p.state.table, others(1, p.state.table));
  }

  lemma ProvisionKeepsActives(p: Progress, q: Request, a: Answers, others: Others)
    requires Quiet(others) && p.candidate.None?
    ensures var r := ProvisionCandidate(p, q, a, others);
            && SameActives(p.state.table, r.state.table) && r.state.topology == p.state.topology
            && (r.outcome.Continue? && r.candidate.Some? ==>
                  r.candidate.value.externalId == a.provision.externalId && r.candidate.value.bindings == a.provision.bindings)
  {
    hide Cleanup;
    var one := others(2, p.state.table);
    assert SameActives(p.state.table, one);
    var two := others(3, one);
    assert SameActives(one, two);
    var s := Wait(Wait(p.state, others, 2), others, 3);
    var id := ProvisionedId(a.provision);
    var made := if id.None? then p.(state := s)
                else p.(state := s.(live := s.live + {DbOf(q.targetProvider, id)}), created := Some(DbOf(q.targetProvider, id)));
    var t := CreateRow(s.table, CandidateSlot(q), if a.provision.success then a.provision.externalId else id, a.provision.bindings);
    CleanupKeepsActives(Wrote(made, t).(candidate := Some(t.rows[CandidateSlot(q)])), q, a, others, t.rows[CandidateSlot(q)]);
    CleanupStops(q, a, others);
  }

  lemma CopyDataKeepsActives(p: Progress, q: Request, a: Answers, others: Others, candidate: Row)
    requires Quiet(others)
    ensures var r := CopyData(p, q, a, others, candidate).state;
            SameActives(p.state.table, r.table) && r.topology == p.state.topology
  {
    hide Cleanup;
    var one := p.(state := Wait(p.state, others, 4));
    assert SameActives(p.state.table, one.state.table);
    var two := p.(state := Wait(one.state, others, 5),
                  leases := one.leases + [AcquiredSource, AcquiredTarget, ReleasedSource, ReleasedTarget]);
    assert SameActives(one.state.table, two.state.table);
    CleanupKeepsActives(one, q, a, others, candidate);
    CleanupKeepsActives(one.(leases := one.leases + [AcquiredSource, ReleasedSource]), q, a, others, candidate);
    CleanupKeepsActives(two, q, a, others, candidate);
  }

  lemma SameActivesTwice(t: Table, u: Table, v: Table)
    requires SameActives(t, u) && SameActives(u, v)
    ensures SameActives(t, v)
  {
  }

  lemma MirrorsStill(s: State, t: State, u: Datastores.Store, engine: string)
    requires Mirrors(s, u, engine) && SameActives(s.table, t.table) && t.topology == s.topology
    ensures Mirrors(t, u, engine)
  {
    forall e: string
      ensures (Slot(e, Engine(engine)) in t.table.rows <==> Datastores.Key(e, Datastores.Database) in u.rows)
              && (Slot(e, Engine(engine)) in t.table.rows ==>
                    SameIdentity(t.table.rows[Slot(e, Engine(engine))], u.rows[Datastores.Key(e, Datastores.Database)]))
    {
      assert RowAt(t.table, Slot(e, Engine(engine))) == RowAt(s.table, Slot(e, Engine(engine)));
    }
    hide SameIdentity, SameIndex;
  }

  /** While nobody else writes active databases, a whole migration is the datastore swap of what
      the provider made if it completed, and nothing at all if it did not. */
  lemma CopyRefines(s: State, q: Request, a: Answers, others: Others, u: Datastores.Store, d: Datastores.Row)
    requires Mirrors(s, u, q.engine) && Quiet(others) && Honest(q, a)
    requires d.externalId == a.provision.externalId && d.bindings.provider == a.provision.bindings.provider
    requires d.bindings.instanceId == a.provision.bindings.instanceId && d.bindings.rest == a.provision.bindings.rest
    ensures var r := Copy(s, q, a, others);
            Mirrors(r.state, if r.outcome.Completed? then Datastores.Migrate(u, q.targetEnvironment, q.targetProvider, d) else u, q.engine)
  {
    var p := Progress(Wait(s, others, 0), [], [], None, None, Continue);
    assert SameActives(s.table, p.state.table);
    MirrorsStill(s, p.state, u, q.engine);
    hide Mirrors, SameActives, Quiet, ClearLingering, ProvisionCandidate, CopyData, Commit, Reviewed, AlreadyComplete;
    ClearNeverCompletes(p, q, a, others);
    ClearKeepsActives(p, q, a, others);
    var cleared := ClearLingering(p, q, a, others);
    MirrorsStill(p.state, cleared.state, u, q.engine);
    if Reviewed(p.state.table, q) && cleared.outcome.Continue? {
      ProvisionNeverCompletes(cleared, q, a, others);
      ProvisionKeepsActives(cleared, q, a, others);
      var made := ProvisionCandidate(cleared, q, a, others);
      MirrorsStill(cleared.state, made.state, u, q.engine);
      SameActivesTwice(p.state.table, cleared.state.table, made.state.table);
      if made.outcome.Continue? && made.candidate.Some? {
        LastRefines(made, q, a, others, p.state.table, u, d);
      }
    }
    hide Datastores.Migrate;
  }

  lemma LastRefines(p: Progress, q: Request, a: Answers, others: Others, reviewed: Table, u: Datastores.Store, d: Datastores.Row)
    requires Mirrors(p.state, u, q.engine) && Quiet(others) && Reviewed(reviewed, q) && SameActives(reviewed, p.state.table)
    requires p.outcome.Continue? && p.candidate.Some? && Describes(p.candidate.value, q, d)
    ensures var copied := CopyData(p, q, a, others, p.candidate.value);
            var r := if !copied.outcome.Continue? then copied else Commit(copied, q, a, others, p.candidate.value, reviewed);
            Mirrors(r.state, if r.outcome.Completed? then Datastores.Migrate(u, q.targetEnvironment, q.targetProvider, d) else u, q.engine)
  {
    var copied := CopyData(p, q, a, others, p.candidate.value);
    CopyDataKeepsActives(p, q, a, others, p.candidate.value);
    CopyDataNeverCompletes(p, q, a, others, p.candidate.value);
    MirrorsStill(p.state, copied.state, u, q.engine);
    SameActivesTwice(reviewed, p.state.table, copied.state.table);
    if Unchanged(copied.state.table, q, reviewed) {
      CommitRefines(copied, q, a, others, p.candidate.value, reviewed, u, d);
    } else {
      CleanupKeepsActives(copied, q, a, others, p.candidate.value);
      CleanupStops(q, a, others);
      MirrorsStill(copied.state, Cleanup(copied, q, a, others, p.candidate.value).state, u, q.engine);
    }
    hide Mirrors, SameActives, Quiet, CopyData, Cleanup, Unchanged, Reviewed, Describes, Datastores.Migrate;
  }

  lemma CopyDataNeverCompletes(p: Progress, q: Request, a: Answers, others: Others, candidate: Row)
    requires p.outcome.Continue?
    ensures !CopyData(p, q, a, others, candidate).outcome.Completed?
  {
    CleanupStops(q, a, others);
    hide Cleanup;
  }

  /** So the index goes on naming the databases over migrations as they are carried out: it
      agrees with a store that mirrors the table, before and after. */
  lemma MigrationKeepsAgreement(s: State, q: Request, a: Answers, others: Others, u: Datastores.Store, d: Datastores.Row)
    requires Mirrors(s, u, q.engine) && Quiet(others) && Honest(q, a)
    requires d.externalId == a.provision.externalId && d.bindings.provider == a.provision.bindings.provider
    requires d.bindings.instanceId == a.provision.bindings.instanceId && d.bindings.rest == a.provision.bindings.rest
    requires Topologies.Agrees(u) && Topologies.Orderly(u, Datastores.Migrated(q.targetEnvironment, q.targetProvider, d))
    ensures exists v :: Mirrors(Copy(s, q, a, others).state, v, q.engine) && Topologies.Agrees(v)
  {
    CopyRefines(s, q, a, others, u, d);
    Topologies.MigratedAgrees(u, q.targetEnvironment, q.targetProvider, d);
    hide Mirrors, Topologies.Agrees, Copy, Datastores.Migrate;
  }
}
