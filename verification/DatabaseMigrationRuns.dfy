/** Unbounded retries of migrations and removals of rollback targets. */
module DatabaseMigrationRuns {
  import opened Json
  import opened DatabaseMigrationSteps
  import opened DatabaseMigrationSafety
  import opened DatabaseMigrationConservation

  // --------------------------------------- what becomes of the fresh target

  /** The fresh database is the candidate's if a candidate is left, and gone if none is. */
  ghost predicate CandidateOrGone(r: Progress, q: Request) {
    r.created.Some? ==>
      if CandidateSlot(q) in r.state.table.rows then OwnDb(r.state.table.rows[CandidateSlot(q)]) == {r.created.value}
      else r.created.value !in r.state.live
  }

  predicate OwnsCreated(p: Progress, q: Request, candidate: Row) {
    && candidate.bindings.provider == Some(q.targetProvider) && EffectiveId(candidate).Some?
    && p.created == Some(Db(q.targetProvider, EffectiveId(candidate).value))
  }

  lemma CleanupAccounts(p: Progress, q: Request, a: Answers, others: Others, candidate: Row)
    requires Careful(others) && RowAt(p.state.table, CandidateSlot(q)) == Some(candidate) && OwnsCreated(p, q, candidate)
    ensures CandidateOrGone(Cleanup(p, q, a, others, candidate), q)
  {
    assert RowAt(others(6, p.state.table), CandidateSlot(q)) == RowAt(p.state.table, CandidateSlot(q));
    hide Careful;
  }

  lemma ProvisionAccounts(p: Progress, q: Request, a: Answers, others: Others)
    requires Careful(others) && Honest(q, a) && CandidateSlot(q) !in p.state.table.rows
    requires p.created.None? && p.candidate.None? && p.outcome.Continue?
    ensures var r := ProvisionCandidate(p, q, a, others);
            if r.outcome.Continue? then
              && r.candidate.Some? && RowAt(r.state.table, CandidateSlot(q)) == r.candidate
              && OwnsCreated(r, q, r.candidate.value) && r.created.value in r.state.live
            else r.outcome.Stopped? && CandidateOrGone(r, q)
  {
    hide Cleanup;
    var one := Wait(p.state, others, 2);
    var s := Wait(one, others, 3);
    assert RowAt(one.table, CandidateSlot(q)) == RowAt(p.state.table, CandidateSlot(q));
    assert RowAt(s.table, CandidateSlot(q)) == RowAt(one.table, CandidateSlot(q));
    var id := ProvisionedId(a.provision);
    if a.adapter && id.Some? && !a.provision.success {
      var made := p.(state := s.(live := s.live + {DbOf(q.targetProvider, id)}), created := Some(DbOf(q.targetProvider, id)));
      var t := CreateRow(s.table, CandidateSlot(q), id, a.provision.bindings);
      var tracked := Wrote(made, t).(candidate := Some(t.rows[CandidateSlot(q)]));
      CleanupAccounts(tracked, q, a, others, t.rows[CandidateSlot(q)]);
      CleanupStops(q, a, others);
    }
    hide Careful;
  }

  lemma CopyDataAccounts(p: Progress, q: Request, a: Answers, others: Others, candidate: Row)
    requires Careful(others) && RowAt(p.state.table, CandidateSlot(q)) == Some(candidate) && OwnsCreated(p, q, candidate)
    requires p.outcome.Continue? && p.created.value in p.state.live
    ensures var r := CopyData(p, q, a, others, candidate);
            if r.outcome.Continue? then
              RowAt(r.state.table, CandidateSlot(q)) == Some(candidate) && r.created == p.created && r.created.value in r.state.live
            else r.outcome.Stopped? && CandidateOrGone(r, q)
  {
    hide Cleanup;
    var one := p.(state := Wait(p.state, others, 4));
    assert RowAt(one.state.table, CandidateSlot(q)) == RowAt(p.state.table, CandidateSlot(q));
    CleanupAccounts(one, q, a, others, candidate);
    CleanupAccounts(one.(leases := one.leases + [AcquiredSource, ReleasedSource]), q, a, others, candidate);
    var two := p.(state := Wait(one.state, others, 5),
                  leases := one.leases + [AcquiredSource, AcquiredTarget, ReleasedSource, ReleasedTarget]);
    assert RowAt(two.state.table, CandidateSlot(q)) == RowAt(one.state.table, CandidateSlot(q));
    CleanupAccounts(two, q, a, others, candidate);
    CleanupStops(q, a, others);
    hide Careful, CandidateOrGone;
  }

  lemma CommitAccounts(p: Progress, q: Request, a: Answers, others: Others, candidate: Row, reviewed: Table)
    requires Careful(others) && RowAt(p.state.table, CandidateSlot(q)) == Some(candidate) && OwnsCreated(p, q, candidate)
    requires Reviewed(reviewed, q) && IdentityReported(reviewed, q, candidate.externalId, candidate.bindings.instanceId)
    ensures var r := Commit(p, q, a, others, candidate, reviewed);
            if r.outcome.Completed? then
              && ActiveSlot(q) in r.state.table.rows && OwnDb(r.state.table.rows[ActiveSlot(q)]) == {p.created.value}
              && CandidateSlot(q) !in r.state.table.rows && r.created == p.created && r.state.live == p.state.live
              && q.targetEnvironment in r.state.topology && r.state.topology[q.targetEnvironment] == Index(p.created.value, map[])
            else CandidateOrGone(r, q)
  {
    if Unchanged(p.state.table, q, reviewed) {
      SwapIdentityExactly(p.state.table, q, candidate, ReviewedId(reviewed, q));
      hide Careful, Cleanup;
    } else {
      CleanupAccounts(p, q, a, others, candidate);
      CleanupStops(q, a, others);
      hide Cleanup;
    }
  }

  /** At every return the database that a migration made is accounted for: it is the active
      one, under its own id and named by the topology index without any replica, if and only
      if the migration completed; else it is the tracked candidate, or it is gone. */
  lemma CreatedIsAccountedFor(s: State, q: Request, a: Answers, others: Others)
    requires Conserved(s) && PlainCandidate(s.table, q) && Careful(others) && Honest(q, a)
    requires IdentityReported(others(0, s.table), q, a.provision.externalId, a.provision.bindings.instanceId)
    ensures var r := Copy(s, q, a, others);
            if r.outcome.Completed? then
              && r.created.Some? && r.created.value in r.state.live
              && ActiveSlot(q) in r.state.table.rows && OwnDb(r.state.table.rows[ActiveSlot(q)]) == {r.created.value}
              && CandidateSlot(q) !in r.state.table.rows
              && q.targetEnvironment in r.state.topology && r.state.topology[q.targetEnvironment] == Index(r.created.value, map[])
            else CandidateOrGone(r, q)
  {
    WaitConserves(s, others, 0, q);
    hide Conserved, Careful, Cleanup, CandidateOrGone;
    var p := Progress(Wait(s, others, 0), [], [], None, None, Continue);
    ClearConserves(p, q, a, others);
    ClearAccounts(p, q, a, others);
    var cleared := ClearLingering(p, q, a, others);
    if Reviewed(p.state.table, q) && cleared.outcome.Continue? {
      ProvisionAccounts(cleared, q, a, others);
      ProvisionConserves(cleared, q, a, others);
      var provisioned := ProvisionCandidate(cleared, q, a, others);
      if provisioned.outcome.Continue? {
        var candidate := provisioned.candidate.value;
        CopyDataAccounts(provisioned, q, a, others, candidate);
        var copied := CopyData(provisioned, q, a, others, candidate);
        if copied.outcome.Continue? {
          CommitAccounts(copied, q, a, others, candidate, p.state.table);
        }
      }
    }
    NothingCreated(q);
    hide ClearLingering, ProvisionCandidate, CopyData, Commit, Reviewed, AlreadyComplete, IdentityReported;
  }

  lemma NothingCreated(q: Request)
    ensures forall r: Progress :: r.created.None? ==> CandidateOrGone(r, q)
  {
  }

  lemma ClearAccounts(p: Progress, q: Request, a: Answers, others: Others)
    requires p.created.None? && p.candidate.None? && p.outcome.Continue?
    ensures var r := ClearLingering(p, q, a, others);
            r.created.None? && r.candidate.None? && (r.outcome.Continue? || r.outcome.Stopped?)
  {
  }

  // ------------------------------------------------ removing the old target

  function RemovalSlot(q: Removal): Slot { Slot(q.targetEnvironment, Engine(q.engine)) }

  /** Only the planned rollback target of the migrated row is ever removed. */
  lemma RemovesOnlyRetained(s: State, q: Removal, reviewed: bool, d: Destroyed, others: Others)
    ensures var r := DestroyPrevious(s, q, reviewed, d, others);
            && (r.asked.None? ==> r.state.live == s.live && r.writes == [])
            && (r.asked.Some? ==>
                  && RemovalSlot(q) in s.table.rows && Migrated(s.table.rows[RemovalSlot(q)].bindings, q)
                  && s.table.rows[RemovalSlot(q)].bindings.previous.Some?
                  && var previous := s.table.rows[RemovalSlot(q)].bindings.previous.value;
                     && r.asked == Some(Db(previous.provider, previous.externalId)) && q.previousId == Some(previous.externalId)
                     && s.live - {r.asked.value} <= r.state.live <= s.live)
  {
  }

  /** The row when the provider is asked, after the removal's first wait. */
  function RowAtAsk(s: State, q: Removal, others: Others): Option<Row> { RowAt(others(0, s.table), RemovalSlot(q)) }

  /** The removal asks for the database that is active at that moment. */
  predicate HitsActive(s: State, q: Removal, reviewed: bool, d: Destroyed, others: Others) {
    var asked, now := DestroyPrevious(s, q, reviewed, d, others).asked, RowAtAsk(s, q, others);
    asked.Some? && now.Some? && asked.value in OwnDb(now.value)
  }

  /** It does exactly when the row goes by the retained identity then. */
  lemma RemovesActiveExactly(s: State, q: Removal, reviewed: bool, d: Destroyed, others: Others)
    requires DestroyPrevious(s, q, reviewed, d, others).asked.Some?
    ensures HitsActive(s, q, reviewed, d, others) <==>
              var now := RowAtAsk(s, q, others);
              now.Some? && now.value.bindings.provider == Some(q.provider) && EffectiveId(now.value) == q.previousId
  {
  }

  /** A second removal finds nothing to do. */
  lemma RemovalIsIdempotent(s: State, q: Removal, d: Destroyed, others: Others, d2: Destroyed, others2: Others)
    requires var r := DestroyPrevious(s, q, true, d, others); r.outcome.Completed? && r.writes != []
    ensures var t := DestroyPrevious(s, q, true, d, others).state;
            DestroyPrevious(t, q, true, d2, others2) == Removed(t, [], None, Skipped)
  {
  }

  /** A removal gets as far as writing the row: what a caller can tell from the row it reads
      and the provider's answer, without knowing what others do. */
  predicate WritesRow(s: State, q: Removal, reviewed: bool, d: Destroyed) {
    && reviewed && d.Gone? && RemovalSlot(q) in s.table.rows
    && var b := s.table.rows[RemovalSlot(q)].bindings;
       && Migrated(b, q) && b.previous.Some? && b.previous.value.provider == q.provider
       && q.previousId == Some(b.previous.value.externalId) && b.previous.value.externalId != ""
  }

  /** Some of what another writer stored in the row while this removal waited is undone. */
  predicate Undoes(r: Removed, slot: Slot) {
    && r.writes != [] && slot in r.writes[0].before.rows && slot in r.state.table.rows
    && r.state.table.rows[slot].bindings != r.writes[0].before.rows[slot].bindings.(previous := None)
  }

  /** Another writer who stores `newer` in the row during the second wait. */
  function Storing(slot: Slot, newer: Row): Others {
    (i: nat, t: Table) => if i == 1 then t.(rows := t.rows[slot := newer]) else t
  }

  /** A concurrent change of the row can be lost exactly when the removal writes the row. */
  lemma RemovalCanLoseExactly(s: State, q: Removal, reviewed: bool, d: Destroyed)
    ensures (exists others: Others :: Undoes(DestroyPrevious(s, q, reviewed, d, others), RemovalSlot(q)))
       <==> WritesRow(s, q, reviewed, d)
  {
    if WritesRow(s, q, reviewed, d) {
      var row := s.table.rows[RemovalSlot(q)];
      var id := if row.bindings.instanceId == Some("a") then Some("b") else Some("a");
      var others := Storing(RemovalSlot(q), row.(bindings := row.bindings.(instanceId := id)));
      assert Undoes(DestroyPrevious(s, q, reviewed, d, others), RemovalSlot(q));
    }
  }

  /** The worst of it: when another writer swaps a newer database into the row meanwhile, the
      removal puts the old binding back and the newer database is named nowhere. */
  lemma RemovalForgetsNewer(s: State, q: Removal, newer: Row, db: Db)
    requires WritesRow(s, q, true, Gone) && s.table.rows[RemovalSlot(q)].externalId.Some?
    requires newer.id == s.table.rows[RemovalSlot(q)].id && OwnDb(newer) == {db} && !IsTracked(s.table, db)
    ensures var r := DestroyPrevious(s, q, true, Gone, Storing(RemovalSlot(q), newer));
            && r.outcome.Completed? && IsTracked(r.writes[0].before, db) && !IsTracked(r.state.table, db)
            && (db in s.live && r.asked != Some(db) ==> !Conserved(r.state))
  {
    var slot, row := RemovalSlot(q), s.table.rows[RemovalSlot(q)];
    var r := DestroyPrevious(s, q, true, Gone, Storing(slot, newer));
    assert r.writes[0].before.rows[slot] == newer && db in RowDbs(newer);
    var after := r.state.table.rows[slot];
    assert OwnDb(after) == OwnDb(row) && Retained(after.bindings) == {};
    forall at | at in r.state.table.rows ensures db !in RowDbs(r.state.table.rows[at]) {
      assert db !in RowDbs(row);
      assert at != slot ==> r.state.table.rows[at] == s.table.rows[at];
    }
  }

  /** Nobody wrote the row while the provider worked. */
  predicate Undisturbed(s: State, q: Removal, others: Others) {
    RowAt(others(1, others(0, s.table)), RemovalSlot(q)) == RowAt(s.table, RemovalSlot(q))
  }

  /** What the retained bindings retain in turn, and still lives, is named beside them: by the
      row itself or by another one. */
  ghost predicate InnerNamed(s: State, q: Removal, reviewed: bool, d: Destroyed, others: Others) {
    var r, slot := DestroyPrevious(s, q, reviewed, d, others), RemovalSlot(q);
    r.writes != [] && slot in s.table.rows && s.table.rows[slot].bindings.previous.Some? ==>
      forall db :: db in Retained(s.table.rows[slot].bindings.previous.value.bindings) && db in r.state.live ==>
        db in OwnDb(s.table.rows[slot])
        || exists at :: at in r.writes[0].before.rows && at != slot && db in RowDbs(r.writes[0].before.rows[at])
  }

  /** The rollback target is removed and nothing else is lost, exactly when whatever the
      replaced bindings retained in turn is named beside them. */
  lemma RemovalConservesExactly(s: State, q: Removal, reviewed: bool, d: Destroyed, others: Others)
    requires Conserved(s) && Careful(others) && Undisturbed(s, q, others)
    ensures Conserved(DestroyPrevious(s, q, reviewed, d, others).state) <==> InnerNamed(s, q, reviewed, d, others)
  {
    var r := DestroyPrevious(s, q, reviewed, d, others);
    TwoWaits(s, others);
    if r.writes != [] {
      var slot := RemovalSlot(q);
      var row, found := s.table.rows[slot], r.writes[0].before;
      assert found.rows[slot] == row && r.asked.value !in r.state.live;
      assert RowDbs(row) == OwnDb(row) + {r.asked.value} + Retained(row.bindings.previous.value.bindings);
      assert r.state.table.rows.Keys == found.rows.Keys;
      assert RowDbs(r.state.table.rows[slot]) == OwnDb(row);
      assert forall at :: at in found.rows && at != slot ==> r.state.table.rows[at] == found.rows[at];
      assert r.state.live <= s.live;
      hide RowDbs, Retained, OwnDb, Careful, DestroyPrevious;
      WithoutInner(State(found, s.live, r.state.topology), r.state, slot, row, r.asked.value);
    }
  }

  /** A row that comes to name only its own database. */
  lemma WithoutInner(found: State, after: State, slot: Slot, row: Row, gone: Db)
    requires Conserved(found) && after.live <= found.live && gone !in after.live
    requires slot in found.table.rows && found.table.rows[slot] == row && row.bindings.previous.Some?
    requires after.table.rows.Keys == found.table.rows.Keys && RowDbs(after.table.rows[slot]) == OwnDb(row)
    requires forall at :: at in found.table.rows && at != slot ==> after.table.rows[at] == found.table.rows[at]
    requires RowDbs(row) == OwnDb(row) + {gone} + Retained(row.bindings.previous.value.bindings)
    ensures Conserved(after) <==>
              forall db :: db in Retained(row.bindings.previous.value.bindings) && db in after.live ==>
                db in OwnDb(row) || exists at :: at in found.table.rows && at != slot && db in RowDbs(found.table.rows[at])
  {
    hide RowDbs, OwnDb, Retained;
    forall db | db in after.live
      ensures IsTracked(after.table, db) <==>
                db in OwnDb(row) || exists at :: at in found.table.rows && at != slot && db in RowDbs(found.table.rows[at])
    {
      if db in OwnDb(row) { assert db in RowDbs(after.table.rows[slot]); }
      if at :| at in found.table.rows && at != slot && db in RowDbs(found.table.rows[at]) {
        assert db in RowDbs(after.table.rows[at]);
      }
    }
    forall db | db in after.live && db !in Retained(row.bindings.previous.value.bindings)
      ensures db in OwnDb(row) || exists at :: at in found.table.rows && at != slot && db in RowDbs(found.table.rows[at])
    {
      var at :| at in found.table.rows && db in RowDbs(found.table.rows[at]);
      assert at == slot ==> db in OwnDb(row);
    }
  }

  lemma TwoWaits(s: State, others: Others)
    requires Conserved(s) && Careful(others)
    ensures Conserved(Wait(s, others, 0)) && Conserved(Wait(Wait(s, others, 0), others, 1))
  {
    hide IsTracked;
  }

  /** So an inner target that no other row names is lost for good. */
  lemma InnerTargetLost(s: State, q: Removal, others: Others, inner: Db)
    requires Undisturbed(s, q, others)
    requires var r := DestroyPrevious(s, q, true, Gone, others); r.outcome.Completed? && r.writes != [] && r.asked != Some(inner)
    requires var b := s.table.rows[RemovalSlot(q)].bindings.previous.value.bindings;
             b.previous.Some? && Db(b.previous.value.provider, b.previous.value.externalId) == inner
    requires inner in s.live && inner !in OwnDb(s.table.rows[RemovalSlot(q)])
    requires forall slot :: slot in others(1, others(0, s.table)).rows && slot != RemovalSlot(q) ==>
               inner !in RowDbs(others(1, others(0, s.table)).rows[slot])
    ensures !Conserved(DestroyPrevious(s, q, true, Gone, others).state)
  {
    var r := DestroyPrevious(s, q, true, Gone, others);
    assert RowDbs(r.state.table.rows[RemovalSlot(q)]) == OwnDb(r.state.table.rows[RemovalSlot(q)]);
    assert inner in r.state.live && !IsTracked(r.state.table, inner);
  }

  // ------------------------------------------------------------------ runs

  datatype Event =
    | Migration(request: Request, answers: Answers, others: Others)
    | PreviousRemoval(removal: Removal, reviewed: bool, destroyed: Destroyed, others: Others)

  function Step(s: State, e: Event): State {
    match e
    case Migration(q, a, others) => Copy(s, q, a, others).state
    case PreviousRemoval(q, reviewed, d, others) => DestroyPrevious(s, q, reviewed, d, others).state
  }

  function Run(s: State, events: seq<Event>): State {
    if events == [] then s else Step(Run(s, events[..|events| - 1]), events[|events| - 1])
  }

  /** Candidates are plain, and no row retains the database it goes by itself. */
  predicate Distinct(r: Row, kind: RowKind) {
    && (kind.CandidateOf? ==> r.bindings.previous.None?)
    && OwnDb(r) !! Retained(r.bindings)
  }

  ghost predicate AllDistinct(t: Table) {
    forall slot :: slot in t.rows ==> Distinct(t.rows[slot], slot.kind)
  }

  ghost predicate KeepsDistinct(others: Others) {
    forall i, t :: AllDistinct(t) ==> AllDistinct(others(i, t))
  }

  /** The id of a fresh database is not one that the active row names already. */
  ghost predicate Fresh(t: Table, q: Request, a: Answers) {
    ActiveSlot(q) in t.rows && ProvisionedId(a.provision).Some? ==>
      DbOf(q.targetProvider, ProvisionedId(a.provision)) !in RowDbs(t.rows[ActiveSlot(q)])
  }

  /** A migration's provider reports fresh ids that the row can take, and other writers keep
      rollback targets apart from active databases. */
  ghost predicate Separate(s: State, e: Event) {
    KeepsDistinct(e.others)
    && (e.Migration? ==>
          var q, a, reviewed := e.request, e.answers, e.others(0, s.table);
          && Stamped(e.others) && Clocked(reviewed) && Honest(q, a) && Fresh(reviewed, q, a)
          && IdentityReported(reviewed, q, a.provision.externalId, a.provision.bindings.instanceId))
  }

  /** Besides, other writers are careful, and a removal runs while nobody else writes the row
      and forgets no inner target that is named nowhere else. */
  ghost predicate Proper(s: State, e: Event) {
    && Separate(s, e) && Careful(e.others)
    && (e.PreviousRemoval? ==>
          Undisturbed(s, e.removal, e.others) && InnerNamed(s, e.removal, e.reviewed, e.destroyed, e.others))
  }

  lemma TableDistinct(t: Table, slot: Slot, externalId: Option<string>, b: Bindings, id: nat)
    requires AllDistinct(t)
    ensures AllDistinct(DeleteRow(t, slot, id))
    ensures b.previous.None? ==> AllDistinct(CreateRow(t, slot, externalId, b))
    ensures b.previous.None? && slot in t.rows ==> AllDistinct(UpdateRow(t, slot, externalId, b))
  {
  }

  const NOTHING := Bindings(None, None, None, None, map[])

  lemma CleanupDistinct(p: Progress, q: Request, a: Answers, others: Others, candidate: Row)
    requires AllDistinct(p.state.table) && KeepsDistinct(others)
    ensures AllDistinct(Cleanup(p, q, a, others, candidate).state.table)
  {
    var t := others(6, p.state.table);
    assert AllDistinct(t);
    TableDistinct(t, CandidateSlot(q), None, NOTHING, candidate.id);
    hide AllDistinct, DeleteRow, KeepsDistinct;
  }

  lemma ClearDistinct(p: Progress, q: Request, a: Answers, others: Others)
    requires AllDistinct(p.state.table) && KeepsDistinct(others)
    ensures AllDistinct(ClearLingering(p, q, a, others).state.table)
  {
    var t := others(1, p.state.table);
    assert AllDistinct(t);
    if CandidateSlot(q) in p.state.table.rows {
      TableDistinct(t, CandidateSlot(q), None, NOTHING, p.state.table.rows[CandidateSlot(q)].id);
    }
    hide AllDistinct, DeleteRow, KeepsDistinct;
  }

  lemma ProvisionDistinct(p: Progress, q: Request, a: Answers, others: Others)
    requires AllDistinct(p.state.table) && KeepsDistinct(others) && Honest(q, a)
    ensures AllDistinct(ProvisionCandidate(p, q, a, others).state.table)
  {
    hide Cleanup;
    var one := others(2, p.state.table);
    assert AllDistinct(one);
    var t := others(3, one);
    assert AllDistinct(t);
    hide AllDistinct, KeepsDistinct;
    var id := ProvisionedId(a.provision);
    var externalId := if a.provision.success then a.provision.externalId else id;
    TableDistinct(t, CandidateSlot(q), externalId, a.provision.bindings, 0);
    var s := Wait(Wait(p.state, others, 2), others, 3);
    if id.Some? {
      var made := p.(state := s.(live := s.live + {DbOf(q.targetProvider, id)}), created := Some(DbOf(q.targetProvider, id)));
      var created := CreateRow(s.table, CandidateSlot(q), externalId, a.provision.bindings);
      var tracked := Wrote(made, created).(candidate := Some(created.rows[CandidateSlot(q)]));
      CleanupDistinct(tracked, q, a, others, created.rows[CandidateSlot(q)]);
    }
  }

  lemma CopyDataDistinct(p: Progress, q: Request, a: Answers, others: Others, candidate: Row)
    requires AllDistinct(p.state.table) && KeepsDistinct(others)
    ensures AllDistinct(CopyData(p, q, a, others, candidate).state.table)
  {
    hide Cleanup;
    var one := p.(state := Wait(p.state, others, 4));
    assert AllDistinct(one.state.table);
    var two := p.(state := Wait(one.state, others, 5),
                  leases := one.leases + [AcquiredSource, AcquiredTarget, ReleasedSource, ReleasedTarget]);
    assert AllDistinct(two.state.table);
    CleanupDistinct(one, q, a, others, candidate);
    CleanupDistinct(one.(leases := one.leases + [AcquiredSource, ReleasedSource]), q, a, others, candidate);
    CleanupDistinct(two, q, a, others, candidate);
    hide AllDistinct, KeepsDistinct;
  }

  lemma CommitDistinct(p: Progress, q: Request, a: Answers, others: Others, candidate: Row, reviewed: Table)
    requires AllDistinct(p.state.table) && KeepsDistinct(others) && Reviewed(reviewed, q)
    requires candidate.bindings.previous.None? && candidate.bindings.provider == Some(q.targetProvider)
    requires IdentityReported(p.state.table, q, candidate.externalId, candidate.bindings.instanceId)
             || !Unchanged(p.state.table, q, reviewed)
    requires Unchanged(p.state.table, q, reviewed) && ActiveSlot(q) in p.state.table.rows ==>
               var row := p.state.table.rows[ActiveSlot(q)];
               && RowAt(reviewed, ActiveSlot(q)) == Some(row)
               && (EffectiveId(candidate).Some? ==> DbOf(q.targetProvider, EffectiveId(candidate)) !in RowDbs(row))
    ensures AllDistinct(Commit(p, q, a, others, candidate, reviewed).state.table)
  {
    if Unchanged(p.state.table, q, reviewed) {
      SwappedDistinct(p.state.table, q, candidate, ReviewedId(reviewed, q));
      var swapped := Swapped(p.state.table, q, candidate, ReviewedId(reviewed, q));
      TableDistinct(swapped, CandidateSlot(q), None, NOTHING, candidate.id);
      hide AllDistinct, DeleteRow, Swapped;
    } else {
      CleanupDistinct(p, q, a, others, candidate);
      hide AllDistinct;
    }
  }

  /** The replaced database becomes the rollback target of a fresh one. */
  lemma SwappedDistinct(t: Table, q: Request, candidate: Row, reviewedId: Option<string>)
    requires AllDistinct(t) && candidate.bindings.previous.None? && candidate.bindings.provider == Some(q.targetProvider)
    requires IdentityReported(t, q, candidate.externalId, candidate.bindings.instanceId)
    requires ActiveSlot(q) in t.rows ==>
               var row := t.rows[ActiveSlot(q)];
               && reviewedId.Some? && reviewedId == EffectiveId(row) && row.bindings.provider.Some?
               && (EffectiveId(candidate).Some? ==> DbOf(q.targetProvider, EffectiveId(candidate)) !in RowDbs(row))
    ensures AllDistinct(Swapped(t, q, candidate, reviewedId))
  {
    var swapped := Swapped(t, q, candidate, reviewedId);
    SwapIdentityExactly(t, q, candidate, reviewedId);
    var after := swapped.rows[ActiveSlot(q)];
    if ActiveSlot(q) in t.rows {
      assert Retained(after.bindings) == RowDbs(t.rows[ActiveSlot(q)]);
    }
    assert Distinct(after, ActiveSlot(q).kind);
    hide Distinct, EffectiveId;
  }

  lemma CopyDistinct(s: State, q: Request, a: Answers, others: Others)
    requires AllDistinct(s.table) && Separate(s, Migration(q, a, others))
    ensures AllDistinct(Copy(s, q, a, others).state.table)
  {
    hide Stamped, Clocked, Later;
    var p := Progress(Wait(s, others, 0), [], [], None, None, Continue);
    assert AllDistinct(p.state.table);
    hide AllDistinct, KeepsDistinct, Fresh, Honest;
    ClearDistinct(p, q, a, others);
    ClearLater(p, q, a, others);
    ClearAccounts(p, q, a, others);
    var cleared := ClearLingering(p, q, a, others);
    if Reviewed(p.state.table, q) && cleared.outcome.Continue? {
      LaterIsClocked(p.state.table, cleared.state.table);
      ProvisionDistinct(cleared, q, a, others);
      ProvisionLater(cleared, q, a, others);
      ProvisionPlain(cleared, q, a, others);
      var provisioned := ProvisionCandidate(cleared, q, a, others);
      if provisioned.outcome.Continue? && provisioned.candidate.Some? {
        LaterIsClocked(cleared.state.table, provisioned.state.table);
        LaterLater(p.state.table, cleared.state.table, provisioned.state.table);
        LastDistinct(provisioned, q, a, others, p.state.table);
      }
    }
    hide ClearLingering, ProvisionCandidate, CopyData, Commit, Reviewed, AlreadyComplete, IdentityReported;
  }

  lemma ProvisionPlain(p: Progress, q: Request, a: Answers, others: Others)
    requires p.candidate.None? && Honest(q, a)
    ensures var r := ProvisionCandidate(p, q, a, others);
            r.outcome.Continue? && r.candidate.Some? ==>
              r.candidate.value.bindings == a.provision.bindings && r.candidate.value.externalId == a.provision.externalId
  {
    CleanupStops(q, a, others);
    hide Cleanup;
  }

  lemma LastDistinct(p: Progress, q: Request, a: Answers, others: Others, reviewed: Table)
    requires AllDistinct(p.state.table) && KeepsDistinct(others) && Stamped(others) && Reviewed(reviewed, q)
    requires Clocked(reviewed) && Clocked(p.state.table) && Later(reviewed, p.state.table) && p.outcome.Continue?
    requires Honest(q, a) && Fresh(reviewed, q, a) && p.candidate.Some?
    requires p.candidate.value.bindings == a.provision.bindings && p.candidate.value.externalId == a.provision.externalId
    requires IdentityReported(reviewed, q, a.provision.externalId, a.provision.bindings.instanceId)
    ensures var r := CopyData(p, q, a, others, p.candidate.value);
            && AllDistinct(r.state.table)
            && (r.outcome.Continue? ==> AllDistinct(Commit(r, q, a, others, p.candidate.value, reviewed).state.table))
  {
    hide AllDistinct, KeepsDistinct, Stamped, Later, Clocked;
    var candidate := p.candidate.value;
    CopyDataDistinct(p, q, a, others, candidate);
    CopyDataLater(p, q, a, others, candidate);
    var r := CopyData(p, q, a, others, candidate);
    if r.outcome.Continue? {
      LaterLater(reviewed, p.state.table, r.state.table);
      if Unchanged(r.state.table, q, reviewed) {
        SameVersionSameRow(reviewed, r.state.table, ActiveSlot(q));
      }
      assert EffectiveId(candidate) == ProvisionedId(a.provision);
      hide RowDbs;
      CommitDistinct(r, q, a, others, candidate, reviewed);
    }
    hide CopyData, Commit;
  }

  lemma RemovalDistinct(s: State, q: Removal, reviewed: bool, d: Destroyed, others: Others)
    requires AllDistinct(s.table) && KeepsDistinct(others)
    ensures AllDistinct(DestroyPrevious(s, q, reviewed, d, others).state.table)
  {
    var one := others(0, s.table);
    assert AllDistinct(one);
    var two := others(1, one);
    assert AllDistinct(two);
    var slot := RemovalSlot(q);
    if slot in s.table.rows {
      var row := s.table.rows[slot];
      TableDistinct(two, slot, row.externalId, row.bindings.(previous := None), 0);
    }
    hide AllDistinct, UpdateRow, KeepsDistinct;
  }

  ghost predicate Healthy(s: State) { Conserved(s) && AllDistinct(s.table) }

  lemma StepHealthy(s: State, e: Event)
    requires Healthy(s) && Proper(s, e)
    ensures Healthy(Step(s, e))
  {
    match e
    case Migration(q, a, others) =>
      CopyConserves(s, q, a, others);
      CopyDistinct(s, q, a, others);
      hide Copy, Conserved, AllDistinct;
    case PreviousRemoval(q, reviewed, d, others) =>
      RemovalConservesExactly(s, q, reviewed, d, others);
      RemovalDistinct(s, q, reviewed, d, others);
      hide DestroyPrevious, Conserved, AllDistinct;
  }

  ghost predicate ProperRun(s: State, events: seq<Event>) {
    forall i :: 0 <= i < |events| ==> Proper(Run(s, events[..i]), events[i])
  }

  /** Over any number of migrations, retries and removals, by any outcomes and with other
      careful writers at every wait, every live database stays in the store: as active
      binding, tracked candidate or rollback target. */
  lemma {:induction false} EveryRunConserves(s: State, events: seq<Event>)
    requires Healthy(s) && ProperRun(s, events)
    ensures Conserved(Run(s, events))
    ensures Healthy(Run(s, events))
  {
    hide Step, Proper;
    if events != [] {
      var init := events[..|events| - 1];
      assert ProperRun(s, init) by {
        forall i | 0 <= i < |init| ensures Proper(Run(s, init[..i]), init[i]) { assert init[..i] == events[..i]; }
      }
      EveryRunConserves(s, init);
      hide Healthy;
      StepHealthy(Run(s, init), events[|events| - 1]);
    }
    HealthyMeans(Run(s, events));
  }

  lemma RetainedIsNotOwn(s: State, q: Removal, reviewed: bool, d: Destroyed, others: Others)
    requires AllDistinct(s.table) && RowAtAsk(s, q, others) == RowAt(s.table, RemovalSlot(q))
    ensures !HitsActive(s, q, reviewed, d, others)
  {
    if DestroyPrevious(s, q, reviewed, d, others).asked.Some? {
      var row := s.table.rows[RemovalSlot(q)];
      assert Distinct(row, RemovalSlot(q).kind);
      assert DestroyPrevious(s, q, reviewed, d, others).asked.value in Retained(row.bindings);
    }
    hide OwnDb;
  }

  lemma {:induction false} EveryRunDistinct(s: State, events: seq<Event>)
    requires AllDistinct(s.table) && forall i :: 0 <= i < |events| ==> Separate(Run(s, events[..i]), events[i])
    ensures AllDistinct(Run(s, events).table)
  {
    hide AllDistinct, Copy, DestroyPrevious, Separate;
    if events != [] {
      var init, last := events[..|events| - 1], events[|events| - 1];
      forall i | 0 <= i < |init| ensures Separate(Run(s, init[..i]), init[i]) { assert init[..i] == events[..i]; }
      EveryRunDistinct(s, init);
      assert Separate(Run(s, init), last);
      SeparateKeeps(Run(s, init), last);
      match last
      case Migration(q, a, others) => CopyDistinct(Run(s, init), q, a, others);
      case PreviousRemoval(q, reviewed, d, others) => RemovalDistinct(Run(s, init), q, reviewed, d, others);
    }
  }

  lemma SeparateKeeps(s: State, e: Event)
    requires Separate(s, e)
    ensures KeepsDistinct(e.others)
  {
  }

  /** No removal in such a run, whatever the other steps and their other writers do, asks for
      the database that is active, as long as nobody writes the row just before it asks. */
  lemma NoRunAsksForActive(s: State, events: seq<Event>, i: nat)
    requires AllDistinct(s.table) && forall j :: 0 <= j < |events| ==> Separate(Run(s, events[..j]), events[j])
    requires i < |events| && events[i].PreviousRemoval?
    requires var before, e := Run(s, events[..i]), events[i];
             RowAtAsk(before, e.removal, e.others) == RowAt(before.table, RemovalSlot(e.removal))
    ensures var before, e := Run(s, events[..i]), events[i];
            !HitsActive(before, e.removal, e.reviewed, e.destroyed, e.others)
  {
    hide Separate, Step;
    forall j | 0 <= j < i ensures Separate(Run(s, events[..i][..j]), events[..i][j]) { assert events[..i][..j] == events[..j]; }
    EveryRunDistinct(s, events[..i]);
    var e := events[i];
    RetainedIsNotOwn(Run(s, events[..i]), e.removal, e.reviewed, e.destroyed, e.others);
    hide AllDistinct, HitsActive;
  }

  /** A removal gets as far as asking. */
  predicate Asks(s: State, q: Removal, reviewed: bool, d: Destroyed) {
    && reviewed && !d.NoAdapter? && RemovalSlot(q) in s.table.rows
    && var b := s.table.rows[RemovalSlot(q)].bindings;
       && Migrated(b, q) && b.previous.Some? && b.previous.value.provider == q.provider
       && q.previousId == Some(b.previous.value.externalId) && b.previous.value.externalId != ""
  }

  /** Another writer who rolls the row back, to the database it retains, during the first wait. */
  function RollingBack(slot: Slot): Others {
    (i: nat, t: Table) => if i == 0 && slot in t.rows then t.(rows := t.rows[slot := RolledBack(t.rows[slot])]) else t
  }

  function RolledBack(r: Row): Row {
    if r.bindings.previous.None? then r
    else
      var previous := r.bindings.previous.value;
      r.(externalId := Some(previous.externalId),
         bindings := previous.bindings.(provider := Some(previous.provider), previous := None))
  }

  /** Otherwise it can happen: some other writer, who keeps rollback targets apart, makes the
      removal ask for the active database exactly when it gets as far as asking. */
  lemma CanHitActiveExactly(s: State, q: Removal, reviewed: bool, d: Destroyed)
    ensures (exists others: Others :: KeepsDistinct(others) && HitsActive(s, q, reviewed, d, others)) <==> Asks(s, q, reviewed, d)
  {
    if Asks(s, q, reviewed, d) {
      var others := RollingBack(RemovalSlot(q));
      RollingBackKeepsDistinct(RemovalSlot(q));
      RolledBackNames(s.table.rows[RemovalSlot(q)]);
      assert RowAtAsk(s, q, others) == Some(RolledBack(s.table.rows[RemovalSlot(q)]));
      hide RolledBack, OwnDb;
      assert HitsActive(s, q, reviewed, d, others);
    }
    hide KeepsDistinct;
  }

  lemma RollingBackKeepsDistinct(slot: Slot)
    ensures KeepsDistinct(RollingBack(slot))
  {
    forall i, t | AllDistinct(t) ensures AllDistinct(RollingBack(slot)(i, t)) {
      var after := RollingBack(slot)(i, t);
      forall at | at in after.rows ensures Distinct(after.rows[at], at.kind) {
        assert Distinct(t.rows[at], at.kind);
        assert after.rows[at] == t.rows[at] || after.rows[at] == RolledBack(t.rows[at]);
        RolledBackIsDistinct(t.rows[at], at.kind);
      }
    }
    hide RolledBack, Distinct;
  }

  lemma RolledBackIsDistinct(r: Row, kind: RowKind)
    ensures Distinct(r, kind) ==> Distinct(RolledBack(r), kind)
  {
  }

  lemma RolledBackNames(r: Row)
    requires r.bindings.previous.Some?
    ensures OwnDb(RolledBack(r)) == {Db(r.bindings.previous.value.provider, r.bindings.previous.value.externalId)}
  {
  }

  lemma HealthyMeans(s: State)
    ensures Healthy(s) ==> Conserved(s)
  {
  }
}
