/** No database gets lost by a migration, its retries, or the removal of what it replaced. */
module DatabaseMigrationConservation {
  import opened Json
  import opened DatabaseMigrationSteps
  import opened DatabaseMigrationSafety

  // ------------------------------------------------ what other writers do

  /** Versions and ids are older than the clock. */
  ghost predicate Clocked(t: Table) {
    forall slot :: slot in t.rows ==> t.rows[slot].version < t.clock && t.rows[slot].id < t.clock
  }

  /** Every row of `b` was in `a`, or was written at or after `a`'s clock. */
  ghost predicate Later(a: Table, b: Table) {
    && a.clock <= b.clock && Clocked(b)
    && forall slot :: slot in b.rows ==> RowAt(a, slot) == Some(b.rows[slot]) || a.clock <= b.rows[slot].version
  }

  ghost predicate Stamped(others: Others) {
    forall i, t :: Clocked(t) ==> Later(t, others(i, t))
  }

  lemma LaterLater(a: Table, b: Table, c: Table)
    requires Later(a, b) && Later(b, c)
    ensures Later(a, c)
  {
  }

  /** An unchanged version is an unchanged row. */
  lemma SameVersionSameRow(a: Table, b: Table, slot: Slot)
    requires Clocked(a) && Later(a, b) && SameVersion(b, slot, RowAt(a, slot))
    ensures RowAt(b, slot) == RowAt(a, slot)
  {
  }

  lemma OwnWritesLater(t: Table, slot: Slot, externalId: Option<string>, b: Bindings, id: nat)
    requires Clocked(t)
    ensures Later(t, CreateRow(t, slot, externalId, b)) && Later(t, DeleteRow(t, slot, id))
    ensures slot in t.rows ==> Later(t, UpdateRow(t, slot, externalId, b))
  {
  }

  lemma ClearLater(p: Progress, q: Request, a: Answers, others: Others)
    requires Clocked(p.state.table) && Stamped(others)
    ensures Later(p.state.table, ClearLingering(p, q, a, others).state.table)
  {
    hide Stamped;
    WaitLater(p.state, others, 1);
    var t := Wait(p.state, others, 1).table;
    if CandidateSlot(q) in p.state.table.rows {
      var id := p.state.table.rows[CandidateSlot(q)].id;
      OwnWritesLater(t, CandidateSlot(q), None, Bindings(None, None, None, None, map[]), id);
      LaterLater(p.state.table, t, DeleteRow(t, CandidateSlot(q), id));
    }
    hide Later, DeleteRow;
  }

  lemma WaitLater(s: State, others: Others, i: nat)
    requires Clocked(s.table) && Stamped(others)
    ensures Later(s.table, Wait(s, others, i).table) && Clocked(Wait(s, others, i).table)
  {
  }

  /** Provisioning and copying, when they go on to the swap. */
  lemma ProvisionLater(p: Progress, q: Request, a: Answers, others: Others)
    requires Clocked(p.state.table) && Stamped(others) && p.outcome.Continue?
    ensures var r := ProvisionCandidate(p, q, a, others);
            r.outcome.Continue? ==> Later(p.state.table, r.state.table)
  {
    hide Stamped, Cleanup;
    WaitLater(p.state, others, 2);
    var one := Wait(p.state, others, 2);
    WaitLater(one, others, 3);
    var two := Wait(one, others, 3).table;
    var externalId := if a.provision.success then a.provision.externalId else ProvisionedId(a.provision);
    OwnWritesLater(two, CandidateSlot(q), externalId, a.provision.bindings, 0);
    var made := CreateRow(two, CandidateSlot(q), externalId, a.provision.bindings);
    LaterLater(p.state.table, one.table, two);
    LaterLater(p.state.table, two, made);
    CleanupStops(q, a, others);
    hide Later, CreateRow, Clocked;
  }

  lemma CleanupStops(q: Request, a: Answers, others: Others)
    ensures forall p, candidate :: Cleanup(p, q, a, others, candidate).outcome.Stopped?
  {
  }

  lemma CopyDataLater(p: Progress, q: Request, a: Answers, others: Others, candidate: Row)
    requires Clocked(p.state.table) && Stamped(others) && p.outcome.Continue?
    ensures var r := CopyData(p, q, a, others, candidate);
            r.outcome.Continue? ==> Later(p.state.table, r.state.table)
  {
    hide Stamped, Cleanup;
    WaitLater(p.state, others, 4);
    var one := Wait(p.state, others, 4);
    WaitLater(one, others, 5);
    LaterLater(p.state.table, one.table, Wait(one, others, 5).table);
    CleanupStops(q, a, others);
    hide Later;
  }

  /** The table in which the swap is made, if the run gets that far. */
  function BeforeCommit(s: State, q: Request, a: Answers, others: Others): Progress {
    var p := Progress(Wait(s, others, 0), [], [], None, None, Continue);
    var provisioned := ProvisionCandidate(ClearLingering(p, q, a, others), q, a, others);
    if provisioned.candidate.None? then provisioned
    else CopyData(provisioned, q, a, others, provisioned.candidate.value)
  }

  lemma CompletedRan(s: State, q: Request, a: Answers, others: Others)
    requires Copy(s, q, a, others).outcome.Completed?
    ensures var p := Progress(Wait(s, others, 0), [], [], None, None, Continue);
            var cleared := ClearLingering(p, q, a, others);
            var provisioned := ProvisionCandidate(cleared, q, a, others);
            var r := BeforeCommit(s, q, a, others);
            && a.reviewed && Reviewed(p.state.table, q) && cleared.outcome.Continue? && provisioned.outcome.Continue?
            && provisioned.candidate.Some? && r.outcome.Continue? && Unchanged(r.state.table, q, p.state.table)
            && r.candidate == provisioned.candidate
            && Copy(s, q, a, others) == Commit(r, q, a, others, provisioned.candidate.value, p.state.table)
  {
    hide ClearLingering, ProvisionCandidate, Reviewed, AlreadyComplete, Unchanged;
    CleanupStops(q, a, others);
    var p := Progress(Wait(s, others, 0), [], [], None, None, Continue);
    ClearNeverCompletes(p, q, a, others);
    ProvisionNeverCompletes(ClearLingering(p, q, a, others), q, a, others);
    hide Cleanup;
  }

  lemma ClearNeverCompletes(p: Progress, q: Request, a: Answers, others: Others)
    requires p.outcome.Continue? && p.candidate.None?
    ensures var r := ClearLingering(p, q, a, others); !r.outcome.Completed? && r.candidate.None?
  {
  }

  lemma ProvisionNeverCompletes(p: Progress, q: Request, a: Answers, others: Others)
    requires p.candidate.None? && !p.outcome.Completed?
    ensures var r := ProvisionCandidate(p, q, a, others);
            !r.outcome.Completed? && (r.outcome.Continue? && p.outcome.Continue? ==> r.candidate.Some?)
  {
    CleanupStops(q, a, others);
    hide Cleanup;
  }

  /** The recorded rollback target is exactly the provider, id and bindings of the row that
      was replaced, which is the reviewed row, however other writers interfered. */
  lemma RollbackTargetExact(s: State, q: Request, a: Answers, others: Others)
    requires Clocked(others(0, s.table)) && Stamped(others) && Copy(s, q, a, others).outcome.Completed?
    ensures var r, reviewed := Copy(s, q, a, others), others(0, s.table);
            && ActiveSlot(q) in r.state.table.rows
            && var after := r.state.table.rows[ActiveSlot(q)].bindings;
               && after.marker == Some(Marker(q.migrationId, q.sourceEnvironment, true))
               && (ActiveSlot(q) in reviewed.rows ==>
                     var replaced := reviewed.rows[ActiveSlot(q)];
                     && RowAt(r.writes[|r.writes| - 2].before, ActiveSlot(q)) == Some(replaced)
                     && after.previous == Some(Previous(replaced.bindings.provider.value, EffectiveId(replaced).value, replaced.bindings)))
  {
    CompletedRan(s, q, a, others);
    OptimisticSwap(s, q, a, others);
    var p := Progress(Wait(s, others, 0), [], [], None, None, Continue);
    var cleared := ClearLingering(p, q, a, others);
    ClearLater(p, q, a, others);
    ProvisionLater(cleared, q, a, others);
    var provisioned := ProvisionCandidate(cleared, q, a, others);
    CopyDataLater(provisioned, q, a, others, provisioned.candidate.value);
    var now := BeforeCommit(s, q, a, others).state.table;
    LaterLater(p.state.table, cleared.state.table, provisioned.state.table);
    LaterLater(p.state.table, provisioned.state.table, now);
    SameVersionSameRow(p.state.table, now, ActiveSlot(q));
    hide ClearLingering, ProvisionCandidate, CopyData, Copy, Later, Stamped;
    CommitContent(BeforeCommit(s, q, a, others), q, a, others, provisioned.candidate.value, p.state.table);
  }

  lemma CommitContent(p: Progress, q: Request, a: Answers, others: Others, candidate: Row, reviewed: Table)
    requires Reviewed(reviewed, q) && Unchanged(p.state.table, q, reviewed)
    requires RowAt(p.state.table, ActiveSlot(q)) == RowAt(reviewed, ActiveSlot(q))
    ensures var r := Commit(p, q, a, others, candidate, reviewed);
            && r.outcome.Completed? && |r.writes| >= 2 && r.writes[|r.writes| - 2].before == p.state.table
            && ActiveSlot(q) in r.state.table.rows
            && var after := r.state.table.rows[ActiveSlot(q)].bindings;
               && after.marker == Some(Marker(q.migrationId, q.sourceEnvironment, true))
               && (ActiveSlot(q) in reviewed.rows ==>
                     var replaced := reviewed.rows[ActiveSlot(q)];
                     after.previous == Some(Previous(replaced.bindings.provider.value, EffectiveId(replaced).value, replaced.bindings)))
  {
  }

  /** Running a completed migration again, while the row it swapped in is still there,
      changes nothing: nothing is asked of a provider, written, or leased. */
  lemma RerunChangesNothing(s: State, q: Request, a: Answers, others: Others, again: Answers, later: Others)
    requires Copy(s, q, a, others).outcome.Completed? && again.reviewed
    requires var t := Copy(s, q, a, others).state.table;
             RowAt(later(0, t), ActiveSlot(q)) == RowAt(t, ActiveSlot(q))
    ensures var t := Copy(s, q, a, others).state;
            Copy(t, q, again, later) == Progress(Wait(t, later, 0), [], [], None, None, Skipped)
  {
    CompletedRan(s, q, a, others);
    var p := BeforeCommit(s, q, a, others);
    CommitMarks(p, q, a, others, p.candidate.value, others(0, s.table));
    var t := Copy(s, q, a, others).state;
    hide Copy, Commit, BeforeCommit, Reviewed, Unchanged;
    assert AlreadyComplete(later(0, t.table), q);
    CompletedIsSkipped(t, q, again, later);
  }

  lemma CommitMarks(p: Progress, q: Request, a: Answers, others: Others, candidate: Row, reviewed: Table)
    requires Reviewed(reviewed, q) && Unchanged(p.state.table, q, reviewed)
    ensures AlreadyComplete(Commit(p, q, a, others, candidate, reviewed).state.table, q)
  {
    hide Cleanup;
  }

  // ------------------------------------------------------------ conservation

  function OwnDb(r: Row): set<Db> {
    if r.bindings.provider.Some? && EffectiveId(r).Some? then {Db(r.bindings.provider.value, EffectiveId(r).value)} else {}
  }

  /** The rollback targets retained in bindings, and in the bindings retained with them. */
  function Retained(b: Bindings): set<Db> {
    if b.previous.None? then {}
    else {Db(b.previous.value.provider, b.previous.value.externalId)} + Retained(b.previous.value.bindings)
  }

  function RowDbs(r: Row): set<Db> { OwnDb(r) + Retained(r.bindings) }

  ghost predicate IsTracked(t: Table, db: Db) {
    exists slot :: slot in t.rows && db in RowDbs(t.rows[slot])
  }

  /** Every live database can be found in the store. */
  ghost predicate Conserved(s: State) {
    forall db :: db in s.live ==> IsTracked(s.table, db)
  }

  /** Other writers lose no database and leave migration candidates alone. */
  ghost predicate Careful(others: Others) {
    && (forall i, t, db :: IsTracked(t, db) ==> IsTracked(others(i, t), db))
    && (forall i, t, slot: Slot :: slot.kind.CandidateOf? ==> RowAt(others(i, t), slot) == RowAt(t, slot))
  }

  /** A provider names what it made, and hands out its own, fresh bindings. */
  predicate Honest(q: Request, a: Answers) {
    && (a.provision.success ==> ProvisionedId(a.provision).Some?)
    && a.provision.bindings.provider == Some(q.targetProvider) && a.provision.bindings.previous.None?
  }

  predicate PlainCandidate(t: Table, q: Request) {
    CandidateSlot(q) in t.rows ==> t.rows[CandidateSlot(q)].bindings.previous.None?
  }

  lemma WaitConserves(s: State, others: Others, i: nat, q: Request)
    requires Conserved(s) && Careful(others)
    ensures Conserved(Wait(s, others, i)) && RowAt(Wait(s, others, i).table, CandidateSlot(q)) == RowAt(s.table, CandidateSlot(q))
  {
    hide RowAt;
  }

  /** Deleting a candidate whose only database is gone loses nothing else. */
  lemma CandidateDeleted(s: State, q: Request, row: Row, d: Destroyed)
    requires Conserved(s) && RowAt(s.table, CandidateSlot(q)) == Some(row)
    requires row.bindings.previous.None? && row.bindings.provider == Some(q.targetProvider)
    ensures var live := Destroy(s.live, DbOf(q.targetProvider, EffectiveId(row)), d);
            && Conserved(s.(live := live))
            && (d.Gone? ==> Conserved(s.(live := live, table := DeleteRow(s.table, CandidateSlot(q), row.id)))
                            && CandidateSlot(q) !in DeleteRow(s.table, CandidateSlot(q), row.id).rows)
  {
    var slot := CandidateSlot(q);
    var live := Destroy(s.live, DbOf(q.targetProvider, EffectiveId(row)), d);
    var after := DeleteRow(s.table, slot, row.id);
    assert RowDbs(row) <= {DbOf(q.targetProvider, EffectiveId(row))};
    hide RowDbs, DbOf;
    forall db | db in live && d.Gone? ensures IsTracked(after, db) {
      var at :| at in s.table.rows && db in RowDbs(s.table.rows[at]);
      assert at != slot && at in after.rows && after.rows[at] == s.table.rows[at];
    }
  }

  lemma CleanupConserves(p: Progress, q: Request, a: Answers, others: Others, candidate: Row)
    requires Conserved(p.state) && Careful(others) && RowAt(p.state.table, CandidateSlot(q)) == Some(candidate)
    requires candidate.bindings.previous.None? && candidate.bindings.provider == Some(q.targetProvider)
    ensures Conserved(Cleanup(p, q, a, others, candidate).state)
  {
    hide Conserved, Careful;
    WaitConserves(p.state, others, 6, q);
    CandidateDeleted(Wait(p.state, others, 6), q, candidate, a.cleanup);
    hide DeleteRow, Wait;
  }

  lemma ClearConserves(p: Progress, q: Request, a: Answers, others: Others)
    requires Conserved(p.state) && Careful(others) && PlainCandidate(p.state.table, q) && p.outcome.Continue?
    ensures var r := ClearLingering(p, q, a, others);
            Conserved(r.state) && (r.outcome.Continue? ==> CandidateSlot(q) !in r.state.table.rows)
  {
    hide Conserved, Careful;
    WaitConserves(p.state, others, 1, q);
    if CandidateSlot(q) in p.state.table.rows {
      var lingering := p.state.table.rows[CandidateSlot(q)];
      if lingering.bindings.provider == Some(q.targetProvider) {
        CandidateDeleted(Wait(p.state, others, 1), q, lingering, a.lingering);
      }
    }
    hide DeleteRow, Wait;
  }

  /** Recording what was just made. */
  lemma CandidateCreated(s: State, q: Request, externalId: Option<string>, b: Bindings, id: string)
    requires Conserved(s) && CandidateSlot(q) !in s.table.rows
    requires b.provider == Some(q.targetProvider) && OrElse(externalId, b.instanceId) == Some(id)
    ensures Conserved(s.(live := s.live + {Db(q.targetProvider, id)}, table := CreateRow(s.table, CandidateSlot(q), externalId, b)))
  {
    var slot := CandidateSlot(q);
    var after := CreateRow(s.table, slot, externalId, b);
    assert Db(q.targetProvider, id) in RowDbs(after.rows[slot]);
    hide RowDbs;
    forall db | db in s.live + {Db(q.targetProvider, id)} ensures IsTracked(after, db) {
      if db in s.live {
        var at :| at in s.table.rows && db in RowDbs(s.table.rows[at]);
        assert at in after.rows && after.rows[at] == s.table.rows[at];
      }
    }
  }

  lemma ProvisionConserves(p: Progress, q: Request, a: Answers, others: Others)
    requires Conserved(p.state) && Careful(others) && Honest(q, a)
    requires CandidateSlot(q) !in p.state.table.rows && p.candidate.None?
    ensures var r := ProvisionCandidate(p, q, a, others);
            && Conserved(r.state)
            && (r.outcome.Continue? && r.candidate.Some? ==>
                  RowAt(r.state.table, CandidateSlot(q)) == r.candidate && r.candidate.value.externalId == a.provision.externalId
                  && r.candidate.value.bindings == a.provision.bindings)
  {
    hide Conserved, Careful, Cleanup;
    WaitConserves(p.state, others, 2, q);
    var one := Wait(p.state, others, 2);
    WaitConserves(one, others, 3, q);
    var s := Wait(one, others, 3);
    var id := ProvisionedId(a.provision);
    if a.adapter && id.Some? {
      var externalId := if a.provision.success then a.provision.externalId else id;
      CandidateCreated(s, q, externalId, a.provision.bindings, id.value);
      var made := p.(state := s.(live := s.live + {DbOf(q.targetProvider, id)}), created := Some(DbOf(q.targetProvider, id)));
      var t := CreateRow(s.table, CandidateSlot(q), externalId, a.provision.bindings);
      var tracked := Wrote(made, t).(candidate := Some(t.rows[CandidateSlot(q)]));
      CleanupConserves(tracked, q, a, others, t.rows[CandidateSlot(q)]);
      CleanupStops(q, a, others);
    }
  }

  lemma CopyDataConserves(p: Progress, q: Request, a: Answers, others: Others, candidate: Row)
    requires Conserved(p.state) && Careful(others) && RowAt(p.state.table, CandidateSlot(q)) == Some(candidate)
    requires candidate.bindings.previous.None? && candidate.bindings.provider == Some(q.targetProvider)
    ensures var r := CopyData(p, q, a, others, candidate);
            Conserved(r.state) && (p.outcome.Continue? && r.outcome.Continue? ==> RowAt(r.state.table, CandidateSlot(q)) == Some(candidate))
  {
    hide Conserved, Careful, Cleanup;
    WaitConserves(p.state, others, 4, q);
    var one := p.(state := Wait(p.state, others, 4));
    CleanupConserves(one, q, a, others, candidate);
    CleanupConserves(one.(leases := one.leases + [AcquiredSource, ReleasedSource]), q, a, others, candidate);
    WaitConserves(one.state, others, 5, q);
    var two := p.(state := Wait(one.state, others, 5),
                  leases := one.leases + [AcquiredSource, AcquiredTarget, ReleasedSource, ReleasedTarget]);
    CleanupConserves(two, q, a, others, candidate);
    CleanupStops(q, a, others);
  }

  /** The row keeps an old external id when the provider reports the new identity only in
      the bindings. */
  predicate IdentityReported(t: Table, q: Request, externalId: Option<string>, instanceId: Option<string>) {
    externalId.Some? || ActiveSlot(q) !in t.rows || t.rows[ActiveSlot(q)].externalId.None?
    || t.rows[ActiveSlot(q)].externalId == instanceId
  }

  /** The active row after a swap names the candidate's database exactly when the provider
      reported an external id, or there was none to keep. */
  lemma SwapIdentityExactly(t: Table, q: Request, candidate: Row, reviewedId: Option<string>)
    requires ActiveSlot(q) in t.rows ==> reviewedId.Some?
    ensures EffectiveId(Swapped(t, q, candidate, reviewedId).rows[ActiveSlot(q)]) == EffectiveId(candidate)
       <==> IdentityReported(t, q, candidate.externalId, candidate.bindings.instanceId)
  {
  }

  lemma SwapTracks(t: Table, q: Request, candidate: Row, reviewedId: Option<string>, db: Db)
    requires RowAt(t, CandidateSlot(q)) == Some(candidate)
    requires candidate.bindings.previous.None? && candidate.bindings.provider == Some(q.targetProvider)
    requires IdentityReported(t, q, candidate.externalId, candidate.bindings.instanceId)
    requires ActiveSlot(q) in t.rows ==> reviewedId.Some? && reviewedId == EffectiveId(t.rows[ActiveSlot(q)])
                                         && t.rows[ActiveSlot(q)].bindings.provider.Some?
    requires IsTracked(t, db)
    ensures IsTracked(DeleteRow(Swapped(t, q, candidate, reviewedId), CandidateSlot(q), candidate.id), db)
  {
    var active, spare := ActiveSlot(q), CandidateSlot(q);
    var swapped := Swapped(t, q, candidate, reviewedId);
    var after := DeleteRow(swapped, spare, candidate.id);
    assert active in after.rows && after.rows[active] == swapped.rows[active];
    SwapIdentityExactly(t, q, candidate, reviewedId);
    assert OwnDb(swapped.rows[active]) == OwnDb(candidate);
    var at :| at in t.rows && db in RowDbs(t.rows[at]);
    if at == spare {
      assert db in RowDbs(after.rows[active]);
    } else if at == active {
      assert db in Retained(swapped.rows[active].bindings);
      assert db in RowDbs(after.rows[active]);
    } else {
      assert after.rows[at] == t.rows[at];
    }
  }

  lemma CommitConserves(p: Progress, q: Request, a: Answers, others: Others, candidate: Row, reviewed: Table)
    requires Conserved(p.state) && Careful(others) && Reviewed(reviewed, q)
    requires RowAt(p.state.table, CandidateSlot(q)) == Some(candidate)
    requires candidate.bindings.previous.None? && candidate.bindings.provider == Some(q.targetProvider)
    requires IdentityReported(reviewed, q, candidate.externalId, candidate.bindings.instanceId)
    requires Unchanged(p.state.table, q, reviewed) ==> RowAt(p.state.table, ActiveSlot(q)) == RowAt(reviewed, ActiveSlot(q))
    ensures Conserved(Commit(p, q, a, others, candidate, reviewed).state)
  {
    if Unchanged(p.state.table, q, reviewed) {
      var t := p.state.table;
      hide Unchanged, IsTracked, Careful;
      forall db | db in p.state.live
        ensures IsTracked(DeleteRow(Swapped(t, q, candidate, ReviewedId(reviewed, q)), CandidateSlot(q), candidate.id), db)
      {
        SwapTracks(t, q, candidate, ReviewedId(reviewed, q), db);
      }
      hide Swapped, DeleteRow;
    } else {
      CleanupConserves(p, q, a, others, candidate);
    }
  }

  /** One migration loses no database, at any of its returns and whatever other careful
      writers do: the fresh one and the replaced one included. */
  lemma CopyConserves(s: State, q: Request, a: Answers, others: Others)
    requires Conserved(s) && PlainCandidate(s.table, q) && Careful(others) && Honest(q, a)
    requires Clocked(others(0, s.table)) && Stamped(others)
    requires IdentityReported(others(0, s.table), q, a.provision.externalId, a.provision.bindings.instanceId)
    ensures Conserved(Copy(s, q, a, others).state)
  {
    hide Conserved, Clocked, Later;
    WaitConserves(s, others, 0, q);
    hide Careful, Stamped;
    var p := Progress(Wait(s, others, 0), [], [], None, None, Continue);
    ClearConserves(p, q, a, others);
    ClearLater(p, q, a, others);
    ClearNeverCompletes(p, q, a, others);
    var cleared := ClearLingering(p, q, a, others);
    if Reviewed(p.state.table, q) && cleared.outcome.Continue? {
      LaterIsClocked(p.state.table, cleared.state.table);
      ProvisionConserves(cleared, q, a, others);
      ProvisionLater(cleared, q, a, others);
      ProvisionNeverCompletes(cleared, q, a, others);
      var provisioned := ProvisionCandidate(cleared, q, a, others);
      if provisioned.outcome.Continue? && provisioned.candidate.Some? {
        LastStages(provisioned, q, a, others, cleared.state.table, p.state.table);
      }
    }
    hide ClearLingering, ProvisionCandidate, CopyData, Commit, Reviewed, AlreadyComplete, IdentityReported;
  }

  lemma LaterIsClocked(a: Table, b: Table)
    requires Later(a, b)
    ensures Clocked(b)
  {
  }

  lemma LastStages(p: Progress, q: Request, a: Answers, others: Others, cleared: Table, reviewed: Table)
    requires Conserved(p.state) && Careful(others) && Stamped(others) && Honest(q, a)
    requires Clocked(reviewed) && Later(reviewed, cleared) && Later(cleared, p.state.table) && Reviewed(reviewed, q)
    requires IdentityReported(reviewed, q, a.provision.externalId, a.provision.bindings.instanceId)
    requires p.outcome.Continue? && p.candidate.Some? && RowAt(p.state.table, CandidateSlot(q)) == p.candidate
    requires p.candidate.value.externalId == a.provision.externalId && p.candidate.value.bindings == a.provision.bindings
    ensures var r := CopyData(p, q, a, others, p.candidate.value);
            && Conserved(r.state)
            && (r.outcome.Continue? ==> Conserved(Commit(r, q, a, others, p.candidate.value, reviewed).state))
  {
    hide Conserved, Careful, Stamped, Clocked, Later;
    var candidate := p.candidate.value;
    LaterIsClocked(cleared, p.state.table);
    CopyDataConserves(p, q, a, others, candidate);
    CopyDataLater(p, q, a, others, candidate);
    var r := CopyData(p, q, a, others, candidate);
    if r.outcome.Continue? {
      LaterLater(reviewed, cleared, p.state.table);
      LaterLater(reviewed, p.state.table, r.state.table);
      if Unchanged(r.state.table, q, reviewed) {
        SameVersionSameRow(reviewed, r.state.table, ActiveSlot(q));
      }
      CommitConserves(r, q, a, others, candidate, reviewed);
    }
    hide CopyData, Commit;
  }
}
