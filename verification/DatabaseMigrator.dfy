/** applyDatabaseMigration and destroyPreviousDatabaseTarget as they run: read, wait for the
    provider, write. The fields are what is stored and what exists at the providers. */
module DatabaseMigrator {
  import opened Json
  import opened DatabaseMigrationSteps

  class Migrator {
    var table: Table
    var live: set<Db>
    var topology: map<string, Index>
    var leases: seq<Lease>
    var candidate: Option<Row>
    var created: Option<Db>
    ghost var writes: seq<Write>

    constructor (s: State)
      ensures table == s.table && live == s.live && topology == s.topology
      ensures writes == [] && leases == [] && candidate == None && created == None
    {
      table, live, topology := s.table, s.live, s.topology;
      leases, candidate, created, writes := [], None, None, [];
    }

    ghost function Now(outcome: Outcome): Progress
      reads this
    {
      Progress(State(table, live, topology), writes, leases, candidate, created, outcome)
    }

    /** Other writers run while this one waits. */
    method Await(others: Others, i: nat)
      modifies this`table
      ensures table == others(i, old(table))
    {
      table := others(i, table);
    }

    method Store(after: Table)
      modifies this`table, this`writes
      ensures table == after && writes == old(writes) + [Write(old(table), after)]
    {
      writes := writes + [Write(table, after)];
      table := after;
    }

    /** destroyDatabaseCandidate. */
    method DestroyDatabaseCandidate(q: Request, row: Row, d: Destroyed, others: Others,
                                    i: nat) returns (removed: bool)
      modifies this`table, this`live, this`writes
      ensures removed == d.Gone?
      ensures d.NoAdapter? ==> table == old(table) && live == old(live) && writes == old(writes)
      ensures !d.NoAdapter? ==> live == Destroy(old(live), DbOf(q.targetProvider, EffectiveId(row)), d)
      ensures d.Refused? ==> table == others(i, old(table)) && writes == old(writes)
      ensures removed ==> table == DeleteRow(others(i, old(table)), CandidateSlot(q), row.id)
                          && writes == old(writes) + [Write(others(i, old(table)), table)]
    {
      if d.NoAdapter? {
        return false;
      }
      Await(others, i);
      live := Destroy(live, DbOf(q.targetProvider, EffectiveId(row)), d);
      if !d.Gone? {
        return false;
      }
      Store(DeleteRow(table, CandidateSlot(q), row.id));
      removed := true;
    }

    method CleanupCandidate(q: Request, a: Answers, others: Others, row: Row)
      modifies this`table, this`live, this`writes
      ensures Now(Stopped) == Cleanup(old(Now(Continue)), q, a, others, row)
      ensures Now(Stopped) == Cleanup(old(Now(Stopped)), q, a, others, row)
    {
      var _ := DestroyDatabaseCandidate(q, row, a.cleanup, others, 6);
    }

    method ClearLingeringCandidate(q: Request, a: Answers, others: Others) returns (outcome: Outcome)
      modifies this`table, this`live, this`writes
      ensures Now(outcome) == ClearLingering(old(Now(Continue)), q, a, others)
    {
      outcome := Continue;
      if CandidateSlot(q) in table.rows {
        var lingering := table.rows[CandidateSlot(q)];
        if lingering.bindings.provider != Some(q.targetProvider) {
          return Stopped;
        }
        var removed := DestroyDatabaseCandidate(q, lingering, a.lingering, others, 1);
        if !removed {
          outcome := Stopped;
        }
      }
    }

    method ProvisionFreshTarget(q: Request, a: Answers, others: Others) returns (outcome: Outcome)
      modifies this`table, this`live, this`writes, this`candidate, this`created
      ensures Now(outcome) == ProvisionCandidate(old(Now(Continue)), q, a, others)
    {
      Await(others, 2);
      if !a.adapter {
        return Stopped;
      }
      Await(others, 3);
      var id := ProvisionedId(a.provision);
      if !a.provision.success && id.None? {
        return Stopped;
      }
      if id.Some? {
        live := live + {DbOf(q.targetProvider, id)};
        created := Some(DbOf(q.targetProvider, id));
      }
      if CandidateSlot(q) in table.rows {
        return Stopped;
      }
      Store(CreateRow(table, CandidateSlot(q), if a.provision.success then a.provision.externalId else id, a.provision.bindings));
      candidate := Some(table.rows[CandidateSlot(q)]);
      outcome := Continue;
      if !a.provision.success {
        CleanupCandidate(q, a, others, candidate.value);
        outcome := Stopped;
      }
    }

    method CopyBetweenLeases(q: Request, a: Answers, others: Others, row: Row) returns (outcome: Outcome)
      modifies this`table, this`live, this`writes, this`leases
      ensures Now(outcome) == CopyData(old(Now(Continue)), q, a, others, row)
    {
      ghost var log := leases;
      Await(others, 4);
      outcome := Stopped;
      if !a.sourceAccess {
        CleanupCandidate(q, a, others, row);
        return;
      }
      leases := leases + [AcquiredSource];
      if !a.targetAccess {
        leases := leases + [ReleasedSource];
        assert leases == log + [AcquiredSource, ReleasedSource];
        CleanupCandidate(q, a, others, row);
        return;
      }
      leases := leases + [AcquiredTarget];
      Await(others, 5);
      leases := leases + [ReleasedSource, ReleasedTarget];
      assert leases == log + [AcquiredSource, AcquiredTarget, ReleasedSource, ReleasedTarget];
      if !a.copied || !a.sourceReleased || !a.targetReleased {
        CleanupCandidate(q, a, others, row);
        return;
      }
      outcome := Continue;
    }

    method SwapIn(q: Request, a: Answers, others: Others, row: Row, reviewed: Table) returns (outcome: Outcome)
      requires Reviewed(reviewed, q)
      modifies this`table, this`live, this`writes, this`topology
      ensures Now(outcome) == Commit(old(Now(Continue)), q, a, others, row, reviewed)
    {
      var targetChanged := !SameVersion(table, ActiveSlot(q), RowAt(reviewed, ActiveSlot(q)));
      var sourceChanged := !SameVersion(table, SourceSlot(q), RowAt(reviewed, SourceSlot(q)));
      if targetChanged || sourceChanged {
        CleanupCandidate(q, a, others, row);
        return Stopped;
      }
      Store(Swapped(table, q, row, ReviewedId(reviewed, q)));
      Store(DeleteRow(table, CandidateSlot(q), row.id));
      var id := EffectiveId(row);
      if id.Some? {
        topology := topology[q.targetEnvironment := Index(DbOf(q.targetProvider, id), map[])];
      }
      outcome := Completed;
    }

    method ApplyDatabaseMigration(q: Request, a: Answers, others: Others) returns (outcome: Outcome)
      requires writes == [] && leases == [] && candidate == None && created == None
      modifies this
      ensures Now(outcome) == Copy(old(State(table, live, topology)), q, a, others)
    {
      Await(others, 0);
      if !a.reviewed {
        return Stopped;
      }
      if AlreadyComplete(table, q) {
        return Skipped;
      }
      var reviewed := table;
      if !Reviewed(reviewed, q) {
        return Stopped;
      }
      hide Reviewed, AlreadyComplete, ClearLingering, ProvisionCandidate, CopyData, Commit;
      outcome := ClearLingeringCandidate(q, a, others);
      if !outcome.Continue? {
        return;
      }
      outcome := ProvisionFreshTarget(q, a, others);
      if !outcome.Continue? || candidate.None? {
        return;
      }
      var row := candidate.value;
      outcome := CopyBetweenLeases(q, a, others, row);
      if !outcome.Continue? {
        return;
      }
      outcome := SwapIn(q, a, others, row, reviewed);
    }

    method DestroyPreviousDatabaseTarget(q: Removal, reviewed: bool, d: Destroyed, others: Others)
      returns (outcome: Outcome, asked: Option<Db>)
      requires writes == []
      modifies this
      ensures Removed(State(table, live, topology), writes, asked, outcome)
           == DestroyPrevious(old(State(table, live, topology)), q, reviewed, d, others)
    {
      asked := None;
      var slot := Slot(q.targetEnvironment, Engine(q.engine));
      if !reviewed || slot !in table.rows {
        return Stopped, None;
      }
      var row := table.rows[slot];
      if !Migrated(row.bindings, q) {
        return Stopped, None;
      }
      if row.bindings.previous.None? {
        return Skipped, None;
      }
      var previous := row.bindings.previous.value;
      if previous.provider != q.provider || Some(previous.externalId) != q.previousId || previous.externalId == "" {
        return Stopped, None;
      }
      Await(others, 0);
      if d.NoAdapter? {
        return Stopped, None;
      }
      Await(others, 1);
      asked := Some(Db(previous.provider, previous.externalId));
      live := Destroy(live, asked.value, d);
      if !d.Gone? {
        return Stopped, asked;
      }
      if slot in table.rows && table.rows[slot].id == row.id {
        Store(UpdateRow(table, slot, row.externalId, row.bindings.(previous := None)));
      }
      outcome := Completed;
    }
  }
}
