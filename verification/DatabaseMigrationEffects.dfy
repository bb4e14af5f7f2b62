/** What a database migration does, in terms of its rows alone: what the active row holds after a
    completed one, and when one completes. */
module DatabaseMigrationEffects {
  import opened Json
  import opened DatabaseMigrationSteps
  import opened DatabaseMigrationSafety
  import opened DatabaseMigrationConservation

  /** The bindings of a fresh database once they are active: those that the provider handed out,
      with the marker of the migration, and the replaced row to go back to. */
  function Activated(provided: Bindings, q: Request, replaced: Option<Row>): Bindings {
    Bindings(provided.provider, provided.instanceId, Some(Marker(q.migrationId, q.sourceEnvironment, true)),
             if replaced.None? then provided.previous
             else
               var id := OrElse(replaced.value.externalId, replaced.value.bindings.instanceId);
               Some(Previous(OrElse(replaced.value.bindings.provider, Some(q.targetProvider)).value,
                             OrElse(id, Some("")).value, replaced.value.bindings)),
             provided.rest)
  }

  lemma CommitActivates(p: Progress, q: Request, a: Answers, others: Others, candidate: Row, reviewed: Table)
    requires Reviewed(reviewed, q) && Unchanged(p.state.table, q, reviewed)
    requires RowAt(p.state.table, ActiveSlot(q)) == RowAt(reviewed, ActiveSlot(q))
    ensures var r := Commit(p, q, a, others, candidate, reviewed);
            var active := Slot(q.targetEnvironment, Engine(q.engine));
            var replaced := RowAt(reviewed, active);
            && active in r.state.table.rows
            && r.state.table.rows[active].bindings == Activated(candidate.bindings, q, replaced)
            && r.state.table.rows[active].externalId ==
                 (if replaced.None? then candidate.externalId else OrElse(candidate.externalId, replaced.value.externalId))
            && (replaced.Some? ==> r.state.table.rows[active].id == replaced.value.id)
  {
  }

  /** Whatever other writers do meanwhile: after a completed migration the active row holds the
      bindings that the provider handed out, the marker, and the replaced row as rollback
      target, and no other field differs; and at the swap both the source and the replaced row
      were still what they were when they were reviewed. */
  lemma CompletedHolds(s: State, q: Request, a: Answers, others: Others)
    requires Clocked(others(0, s.table)) && Stamped(others) && Copy(s, q, a, others).outcome.Completed?
    ensures var active := Slot(q.targetEnvironment, Engine(q.engine));
            var replaced, after := RowAt(others(0, s.table), active), RowAt(Copy(s, q, a, others).state.table, active);
            && after.Some? && after.value.bindings == Activated(a.provision.bindings, q, replaced)
            && after.value.externalId ==
                 (if replaced.None? then a.provision.externalId else OrElse(a.provision.externalId, replaced.value.externalId))
            && (replaced.Some? ==> after.value.id == replaced.value.id)
    ensures var r := Copy(s, q, a, others);
            |r.writes| >= 2
            && var found := r.writes[|r.writes| - 2].before;
               forall e :: e in {q.sourceEnvironment, q.targetEnvironment} ==>
                 RowAt(found, Slot(e, Engine(q.engine))) == RowAt(others(0, s.table), Slot(e, Engine(q.engine)))
  {
    SwapPoint(s, q, a, others);
    var p := BeforeCommit(s, q, a, others);
    CompletedRan(s, q, a, others);
    hide Copy, BeforeCommit, Reviewed, Unchanged, Stamped, Clocked, ClearLingering, ProvisionCandidate, CopyData;
    CommitActivates(p, q, a, others, p.candidate.value, others(0, s.table));
    CommitContent(p, q, a, others, p.candidate.value, others(0, s.table));
    hide Commit, Activated;
  }

  /** At the swap both reviewed rows are exactly what they were when they were reviewed. */
  lemma SwapPoint(s: State, q: Request, a: Answers, others: Others)
    requires Clocked(others(0, s.table)) && Stamped(others) && Copy(s, q, a, others).outcome.Completed?
    ensures var p, reviewed := BeforeCommit(s, q, a, others), others(0, s.table);
            && RowAt(p.state.table, Slot(q.targetEnvironment, Engine(q.engine))) == RowAt(reviewed, Slot(q.targetEnvironment, Engine(q.engine)))
            && RowAt(p.state.table, Slot(q.sourceEnvironment, Engine(q.engine))) == RowAt(reviewed, Slot(q.sourceEnvironment, Engine(q.engine)))
            && p.candidate.Some? && p.candidate.value.externalId == a.provision.externalId
            && p.candidate.value.bindings == a.provision.bindings
  {
    CompletedRan(s, q, a, others);
    var p := Progress(Wait(s, others, 0), [], [], None, None, Continue);
    var cleared := ClearLingering(p, q, a, others);
    ClearLater(p, q, a, others);
    ClearNeverCompletes(p, q, a, others);
    ProvisionLater(cleared, q, a, others);
    ProvidedCandidate(cleared, q, a, others);
    var provisioned := ProvisionCandidate(cleared, q, a, others);
    CopyDataLater(provisioned, q, a, others, provisioned.candidate.value);
    var now := BeforeCommit(s, q, a, others).state.table;
    LaterLater(p.state.table, cleared.state.table, provisioned.state.table);
    LaterLater(p.state.table, provisioned.state.table, now);
    SameVersionSameRow(p.state.table, now, ActiveSlot(q));
    SameVersionSameRow(p.state.table, now, SourceSlot(q));
    hide ClearLingering, ProvisionCandidate, CopyData, Copy, Later, Stamped, Commit, Reviewed;
  }

  lemma ProvidedCandidate(p: Progress, q: Request, a: Answers, others: Others)
    requires p.candidate.None?
    ensures var r := ProvisionCandidate(p, q, a, others);
            r.outcome.Continue? && r.candidate.Some? ==>
              && r.candidate.value.externalId == a.provision.externalId && r.candidate.value.bindings == a.provision.bindings
              && a.provision.success && a.adapter
  {
    CleanupStops(q, a, others);
    hide Cleanup;
  }

  /** What a caller can tell from the table and the answers: the source is the planned one, a
      target to replace can be named again, an earlier candidate is gone, and every call
      succeeds. */
  predicate Runs(t: Table, q: Request, a: Answers) {
    var source, active := RowAt(t, Slot(q.sourceEnvironment, Engine(q.engine))), RowAt(t, Slot(q.targetEnvironment, Engine(q.engine)));
    var lingering := RowAt(t, Slot(q.targetEnvironment, CandidateOf(q.migrationId, q.engine)));
    && a.reviewed
    && source.Some? && source.value.id == q.sourceId && source.value.externalId == q.sourceExternalId
    && source.value.bindings.provider == Some(q.sourceProvider)
    && (active.Some? ==>
          && active.value.bindings.provider.Some? && (active.value.externalId.Some? || active.value.bindings.instanceId.Some?)
          && active.value.bindings.marker != Some(Marker(q.migrationId, q.sourceEnvironment, true)))
    && (lingering.Some? ==> lingering.value.bindings.provider == Some(q.targetProvider) && a.lingering.Gone?)
    && a.adapter && a.provision.success && a.sourceAccess && a.targetAccess
    && a.copied && a.sourceReleased && a.targetReleased
  }

  /** Completing needs every one of these, whatever other writers do. */
  lemma CompletingNeedsAll(s: State, q: Request, a: Answers, others: Others)
    requires Copy(s, q, a, others).outcome.Completed?
    ensures Runs(others(0, s.table), q, a)
  {
    CompletedRan(s, q, a, others);
    var p := Progress(Wait(s, others, 0), [], [], None, None, Continue);
    var cleared := ClearLingering(p, q, a, others);
    ClearNeverCompletes(p, q, a, others);
    ProvidedCandidate(cleared, q, a, others);
    var provisioned := ProvisionCandidate(cleared, q, a, others);
    ClearedNeeds(p, q, a, others);
    CopiedNeeds(provisioned, q, a, others, provisioned.candidate.value);
    assert !AlreadyComplete(p.state.table, q) by { NotSkipped(s, q, a, others); }
    hide ClearLingering, ProvisionCandidate, CopyData, Copy, Commit, BeforeCommit, Unchanged;
  }

  lemma NotSkipped(s: State, q: Request, a: Answers, others: Others)
    requires Copy(s, q, a, others).outcome.Completed?
    ensures !AlreadyComplete(others(0, s.table), q)
  {
    hide ClearLingering, ProvisionCandidate, CopyData, Commit;
  }

  lemma ClearedNeeds(p: Progress, q: Request, a: Answers, others: Others)
    requires ClearLingering(p, q, a, others).outcome.Continue?
    ensures var lingering := RowAt(p.state.table, CandidateSlot(q));
            lingering.Some? ==> lingering.value.bindings.provider == Some(q.targetProvider) && a.lingering.Gone?
  {
  }

  lemma CopiedNeeds(p: Progress, q: Request, a: Answers, others: Others, candidate: Row)
    requires CopyData(p, q, a, others, candidate).outcome.Continue?
    ensures a.sourceAccess && a.targetAccess && a.copied && a.sourceReleased && a.targetReleased
  {
    CleanupStops(q, a, others);
    hide Cleanup;
  }

  // ------------------------------------------------------- left undisturbed

  /** Nobody else writes. */
  ghost predicate Alone(others: Others) { forall i, t: Table :: others(i, t) == t }

  /** The rows, databases and index after a completed migration, from what was there before. */
  ghost predicate Done(s: State, t: State, q: Request, a: Answers) {
    var active := Slot(q.targetEnvironment, Engine(q.engine));
    var spare := Slot(q.targetEnvironment, CandidateOf(q.migrationId, q.engine));
    var replaced, id := RowAt(s.table, active), OrElse(a.provision.externalId, a.provision.bindings.instanceId);
    && t.table.rows.Keys == (s.table.rows.Keys - {spare}) + {active}
    && (forall slot :: slot in t.table.rows && slot != active ==> t.table.rows[slot] == s.table.rows[slot])
    && t.table.rows[active].bindings == Activated(a.provision.bindings, q, replaced)
    && t.table.rows[active].externalId ==
         (if replaced.None? then a.provision.externalId else OrElse(a.provision.externalId, replaced.value.externalId))
    && (id.Some? ==>
          && t.live == {Db(q.targetProvider, id.value)} + LiveWithout(s, spare, q)
          && t.topology == s.topology[q.targetEnvironment := Index(Db(q.targetProvider, id.value), map[])])
  }

  /** The databases that lived, but for the one of an earlier candidate. */
  function LiveWithout(s: State, spare: Slot, q: Request): set<Db> {
    if spare !in s.table.rows then s.live
    else
      var id := OrElse(s.table.rows[spare].externalId, s.table.rows[spare].bindings.instanceId);
      s.live - {Db(q.targetProvider, OrElse(id, Some("")).value)}
  }

  lemma ClearedAlone(p: Progress, q: Request, a: Answers, others: Others)
    requires Alone(others) && p.outcome.Continue?
    requires CandidateSlot(q) in p.state.table.rows ==>
               p.state.table.rows[CandidateSlot(q)].bindings.provider == Some(q.targetProvider) && a.lingering.Gone?
    ensures var r := ClearLingering(p, q, a, others);
            && r.outcome.Continue? && r.candidate == p.candidate && r.created == p.created
            && r.state.table.rows == p.state.table.rows - {CandidateSlot(q)} && r.state.topology == p.state.topology
            && r.state.live == LiveWithout(p.state, CandidateSlot(q), q)
  {
  }

  lemma ProvisionedAlone(p: Progress, q: Request, a: Answers, others: Others)
    requires Alone(others) && p.outcome.Continue? && p.candidate.None? && CandidateSlot(q) !in p.state.table.rows
    requires a.adapter && a.provision.success
    ensures var r := ProvisionCandidate(p, q, a, others);
            var id := OrElse(a.provision.externalId, a.provision.bindings.instanceId);
            && r.outcome.Continue? && r.candidate.Some? && r.candidate.value.externalId == a.provision.externalId
            && r.candidate.value.bindings == a.provision.bindings
            && r.state.table.rows == p.state.table.rows[CandidateSlot(q) := r.candidate.value] && r.state.topology == p.state.topology
            && (id.Some? ==> r.state.live == p.state.live + {Db(q.targetProvider, id.value)})
  {
    hide Cleanup;
  }

  lemma CopiedAlone(p: Progress, q: Request, a: Answers, others: Others, candidate: Row)
    requires Alone(others) && p.outcome.Continue?
    requires a.sourceAccess && a.targetAccess && a.copied && a.sourceReleased && a.targetReleased
    ensures var r := CopyData(p, q, a, others, candidate); r.outcome.Continue? && r.state == p.state
  {
    hide Cleanup;
  }

  lemma CommittedAlone(p: Progress, q: Request, a: Answers, others: Others, candidate: Row, reviewed: Table)
    requires Reviewed(reviewed, q) && RowAt(p.state.table, CandidateSlot(q)) == Some(candidate)
    requires forall slot :: slot != CandidateSlot(q) ==> RowAt(p.state.table, slot) == RowAt(reviewed, slot)
    ensures var r := Commit(p, q, a, others, candidate, reviewed);
            var active, id := ActiveSlot(q), EffectiveId(candidate);
            && r.outcome.Completed? && r.state.live == p.state.live
            && r.state.table.rows.Keys == (p.state.table.rows.Keys - {CandidateSlot(q)}) + {active}
            && (forall slot :: slot in r.state.table.rows && slot != active ==> r.state.table.rows[slot] == p.state.table.rows[slot])
            && (id.Some? ==> r.state.topology == p.state.topology[q.targetEnvironment := Index(Db(q.targetProvider, id.value), map[])])
  {
    assert RowAt(p.state.table, ActiveSlot(q)) == RowAt(reviewed, ActiveSlot(q));
    assert RowAt(p.state.table, SourceSlot(q)) == RowAt(reviewed, SourceSlot(q));
    hide Cleanup;
  }

  /** Left alone, a migration completes exactly when all of that is given; and then the table,
      the databases and the index are these. */
  lemma AloneCompletesExactly(s: State, q: Request, a: Answers, others: Others)
    requires Alone(others)
    ensures Copy(s, q, a, others).outcome.Completed? <==> Runs(s.table, q, a)
    ensures Runs(s.table, q, a) ==> Done(s, Copy(s, q, a, others).state, q, a)
  {
    if Runs(s.table, q, a) {
      StagesAlone(s, q, a, others);
    }
    if Copy(s, q, a, others).outcome.Completed? { CompletingNeedsAll(s, q, a, others); }
    hide Copy, Runs, Done;
  }

  lemma StagesAlone(s: State, q: Request, a: Answers, others: Others)
    requires Alone(others) && Runs(s.table, q, a)
    ensures Copy(s, q, a, others).outcome.Completed? && Done(s, Copy(s, q, a, others).state, q, a)
  {
    var p := Progress(s, [], [], None, None, Continue);
    assert Wait(s, others, 0) == s && Reviewed(s.table, q) && !AlreadyComplete(s.table, q);
    assert RowAt(s.table, CandidateSlot(q)).Some? <==> CandidateSlot(q) in s.table.rows;
    ClearedAlone(p, q, a, others);
    var cleared := ClearLingering(p, q, a, others);
    ProvisionedAlone(cleared, q, a, others);
    var made := ProvisionCandidate(cleared, q, a, others);
    var candidate := made.candidate.value;
    CopiedAlone(made, q, a, others, candidate);
    var copied := CopyData(made, q, a, others, candidate);
    hide ClearLingering, ProvisionCandidate, CopyData, Runs, Reviewed, AlreadyComplete, Alone;
    CommittedAlone(copied, q, a, others, candidate, s.table);
    CommitActivatesAlone(copied, q, a, others, candidate, s.table);
    hide Commit, Activated, LiveWithout, Done;
    StagesMakeDone(s, made.state, Commit(copied, q, a, others, candidate, s.table).state, q, a, candidate);
  }

  lemma StagesMakeDone(s: State, made: State, t: State, q: Request, a: Answers, candidate: Row)
    requires candidate.externalId == a.provision.externalId && candidate.bindings == a.provision.bindings
    requires made.table.rows == (s.table.rows - {CandidateSlot(q)})[CandidateSlot(q) := candidate] && made.topology == s.topology
    requires EffectiveId(candidate).Some? ==>
               made.live == LiveWithout(s, CandidateSlot(q), q) + {Db(q.targetProvider, EffectiveId(candidate).value)}
    requires t.live == made.live && t.table.rows.Keys == (made.table.rows.Keys - {CandidateSlot(q)}) + {ActiveSlot(q)}
    requires forall slot :: slot in t.table.rows && slot != ActiveSlot(q) ==> t.table.rows[slot] == made.table.rows[slot]
    requires EffectiveId(candidate).Some? ==>
               t.topology == made.topology[q.targetEnvironment := Index(Db(q.targetProvider, EffectiveId(candidate).value), map[])]
    requires var replaced := RowAt(s.table, ActiveSlot(q));
             && t.table.rows[ActiveSlot(q)].bindings == Activated(candidate.bindings, q, replaced)
             && t.table.rows[ActiveSlot(q)].externalId ==
                  (if replaced.None? then candidate.externalId else OrElse(candidate.externalId, replaced.value.externalId))
    ensures Done(s, t, q, a)
  {
    hide Activated, LiveWithout;
  }

  lemma CommitActivatesAlone(p: Progress, q: Request, a: Answers, others: Others, candidate: Row, reviewed: Table)
    requires Reviewed(reviewed, q)
    requires forall slot :: slot != CandidateSlot(q) ==> RowAt(p.state.table, slot) == RowAt(reviewed, slot)
    ensures var r := Commit(p, q, a, others, candidate, reviewed);
            var active := Slot(q.targetEnvironment, Engine(q.engine));
            var replaced := RowAt(reviewed, active);
            && active in r.state.table.rows
            && r.state.table.rows[active].bindings == Activated(candidate.bindings, q, replaced)
            && r.state.table.rows[active].externalId ==
                 (if replaced.None? then candidate.externalId else OrElse(candidate.externalId, replaced.value.externalId))
  {
    assert RowAt(p.state.table, ActiveSlot(q)) == RowAt(reviewed, ActiveSlot(q));
    assert RowAt(p.state.table, SourceSlot(q)) == RowAt(reviewed, SourceSlot(q));
    assert Unchanged(p.state.table, q, reviewed);
    CommitActivates(p, q, a, others, candidate, reviewed);
    hide Commit, Unchanged, Activated;
  }

  // ------------------------------------------------------------- failing

  /** The rows but for the candidate's, and the index, are as they were. */
  ghost predicate OnlySpareChanged(s: State, t: State, q: Request) {
    && (forall slot :: slot != Slot(q.targetEnvironment, CandidateOf(q.migrationId, q.engine)) ==>
          RowAt(t.table, slot) == RowAt(s.table, slot))
    && t.topology == s.topology
  }

  /** The fresh database still lives exactly if no deletion of it was carried out, and its row is
      still there exactly if none was confirmed. */
  predicate CleanedUp(t: State, q: Request, a: Answers, created: Db) {
    && (created in t.live <==> a.cleanup.NoAdapter? || (a.cleanup.Refused? && !a.cleanup.removed))
    && (Slot(q.targetEnvironment, CandidateOf(q.migrationId, q.engine)) in t.table.rows <==> !a.cleanup.Gone?)
  }

  /** The candidate that is left goes by the id that was reported, and holds what was handed out. */
  predicate LeftAsReported(t: State, q: Request, a: Answers) {
    var left := RowAt(t.table, Slot(q.targetEnvironment, CandidateOf(q.migrationId, q.engine)));
    left.Some? ==>
      && left.value.bindings == a.provision.bindings
      && left.value.externalId == if a.provision.success || a.provision.externalId.Some? then a.provision.externalId
                                  else a.provision.bindings.instanceId
  }

  lemma CleanupAlone(p: Progress, q: Request, a: Answers, others: Others, candidate: Row)
    requires Alone(others) && RowAt(p.state.table, CandidateSlot(q)) == Some(candidate)
    requires EffectiveId(candidate).Some? && DbOf(q.targetProvider, EffectiveId(candidate)) in p.state.live
    ensures var r := Cleanup(p, q, a, others, candidate);
            && r.created == p.created && OnlySpareChanged(p.state, r.state, q)
            && CleanedUp(r.state, q, a, DbOf(q.targetProvider, EffectiveId(candidate)))
            && (RowAt(r.state.table, CandidateSlot(q)).Some? ==> RowAt(r.state.table, CandidateSlot(q)) == Some(candidate))
  {
  }

  lemma ProvisionFailsAlone(p: Progress, q: Request, a: Answers, others: Others)
    requires Alone(others) && p.outcome.Continue? && p.candidate.None? && p.created.None? && CandidateSlot(q) !in p.state.table.rows
    requires !a.provision.success && ProvisionCandidate(p, q, a, others).created.Some?
    ensures var r := ProvisionCandidate(p, q, a, others);
            r.outcome.Stopped? && OnlySpareChanged(p.state, r.state, q) && CleanedUp(r.state, q, a, r.created.value)
            && LeftAsReported(r.state, q, a)
  {
    var id := ProvisionedId(a.provision);
    var made := p.(state := p.state.(live := p.state.live + {DbOf(q.targetProvider, id)}), created := Some(DbOf(q.targetProvider, id)));
    var t := CreateRow(p.state.table, CandidateSlot(q), id, a.provision.bindings);
    assert Wait(Wait(p.state, others, 2), others, 3) == p.state;
    CleanupAlone(Wrote(made, t).(candidate := Some(t.rows[CandidateSlot(q)])), q, a, others, t.rows[CandidateSlot(q)]);
    CleanupStops(q, a, others);
    hide Cleanup, CleanedUp;
  }

  lemma CopyFailsAlone(p: Progress, q: Request, a: Answers, others: Others, candidate: Row)
    requires Alone(others) && p.outcome.Continue? && RowAt(p.state.table, CandidateSlot(q)) == Some(candidate)
    requires EffectiveId(candidate).Some? && p.created == Some(DbOf(q.targetProvider, EffectiveId(candidate)))
    requires p.created.value in p.state.live
    requires !(a.sourceAccess && a.targetAccess && a.copied && a.sourceReleased && a.targetReleased)
    ensures var r := CopyData(p, q, a, others, candidate);
            && r.outcome.Stopped? && r.created == p.created && OnlySpareChanged(p.state, r.state, q)
            && CleanedUp(r.state, q, a, r.created.value)
            && (RowAt(r.state.table, CandidateSlot(q)).Some? ==> RowAt(r.state.table, CandidateSlot(q)) == Some(candidate))
  {
    var one := p.(state := Wait(p.state, others, 4));
    assert one == p;
    CleanupAlone(one, q, a, others, candidate);
    CleanupAlone(one.(leases := one.leases + [AcquiredSource, ReleasedSource]), q, a, others, candidate);
    var two := p.(state := Wait(one.state, others, 5),
                  leases := one.leases + [AcquiredSource, AcquiredTarget, ReleasedSource, ReleasedTarget]);
    assert two.state == p.state;
    CleanupAlone(two, q, a, others, candidate);
    CleanupStops(q, a, others);
    hide Cleanup, CleanedUp;
  }

  /** Left alone, a migration that made a database and did not complete has touched nothing but
      the candidate's row, and left exactly what its cleanup could not remove. */
  lemma AloneFailsCleanly(s: State, q: Request, a: Answers, others: Others)
    requires Alone(others) && !Copy(s, q, a, others).outcome.Completed? && Copy(s, q, a, others).created.Some?
    requires a.provision.success ==> ProvisionedId(a.provision).Some?
    ensures var r := Copy(s, q, a, others);
            OnlySpareChanged(s, r.state, q) && CleanedUp(r.state, q, a, r.created.value) && LeftAsReported(r.state, q, a)
  {
    MadeAlone(s, q, a, others);
    var p := Progress(s, [], [], None, None, Continue);
    var cleared := ClearLingering(p, q, a, others);
    ClearedAlone(p, q, a, others);
    if a.provision.success {
      ProvisionedAlone(cleared, q, a, others);
      ProvisionedCreates(cleared, q, a, others);
      var made := ProvisionCandidate(cleared, q, a, others);
      if a.sourceAccess && a.targetAccess && a.copied && a.sourceReleased && a.targetReleased {
        assert Runs(s.table, q, a);
        AloneCompletesExactly(s, q, a, others);
      } else {
        CopyFailsAlone(made, q, a, others, made.candidate.value);
        hide ProvisionCandidate, CopyData, ClearLingering, CleanedUp;
      }
    } else {
      ProvisionFailsAlone(cleared, q, a, others);
      hide ProvisionCandidate, ClearLingering, CleanedUp;
    }
  }

  lemma ProvisionedCreates(p: Progress, q: Request, a: Answers, others: Others)
    requires Alone(others) && p.outcome.Continue? && CandidateSlot(q) !in p.state.table.rows && a.adapter && a.provision.success
    requires ProvisionedId(a.provision).Some?
    ensures var r := ProvisionCandidate(p, q, a, others);
            r.created == Some(DbOf(q.targetProvider, ProvisionedId(a.provision))) && r.created.value in r.state.live
  {
  }

  /** A run that makes a database got past the review and past any earlier candidate. */
  lemma MadeAlone(s: State, q: Request, a: Answers, others: Others)
    requires Alone(others) && Copy(s, q, a, others).created.Some?
    ensures a.reviewed && Reviewed(s.table, q) && !AlreadyComplete(s.table, q) && a.adapter
    ensures CandidateSlot(q) in s.table.rows ==>
              s.table.rows[CandidateSlot(q)].bindings.provider == Some(q.targetProvider) && a.lingering.Gone?
    ensures var p := Progress(s, [], [], None, None, Continue);
            var cleared := ClearLingering(p, q, a, others);
            var made := ProvisionCandidate(cleared, q, a, others);
            Copy(s, q, a, others) ==
              if !made.outcome.Continue? || made.candidate.None? then made
              else
                var copied := CopyData(made, q, a, others, made.candidate.value);
                if !copied.outcome.Continue? then copied else Commit(copied, q, a, others, made.candidate.value, s.table)
  {
    assert Wait(s, others, 0) == s;
    var p := Progress(s, [], [], None, None, Continue);
    ClearedNothing(p, q, a, others);
    UnpreparedMakesNothing(ClearLingering(p, q, a, others), q, a, others);
    hide ClearLingering, ProvisionCandidate, CopyData, Commit, Reviewed, AlreadyComplete, Alone;
  }

  lemma ClearedNothing(p: Progress, q: Request, a: Answers, others: Others)
    ensures var r := ClearLingering(p, q, a, others);
            && r.created == p.created
            && (p.outcome.Continue? && r.outcome.Continue? && CandidateSlot(q) in p.state.table.rows ==>
                  p.state.table.rows[CandidateSlot(q)].bindings.provider == Some(q.targetProvider) && a.lingering.Gone?)
  {
  }

  lemma UnpreparedMakesNothing(p: Progress, q: Request, a: Answers, others: Others)
    ensures var r := ProvisionCandidate(p, q, a, others);
            !a.adapter ==> r.created == p.created && !r.outcome.Continue?
  {
  }

  // ------------------------------------------------ removing the old target

  /** Left alone, a removal asks exactly for the retained target of the migrated row, and then
      takes just that target out of just that row, exactly if the deletion was confirmed. */
  lemma RemovalAloneExactly(s: State, q: Removal, reviewed: bool, d: Destroyed, others: Others)
    requires Alone(others)
    ensures var r := DestroyPrevious(s, q, reviewed, d, others);
            var slot := Slot(q.targetEnvironment, Engine(q.engine));
            var row := RowAt(s.table, slot);
            && (r.asked.Some? <==>
                  && reviewed && !d.NoAdapter? && row.Some? && row.value.bindings.marker.Some? && row.value.bindings.previous.Some?
                  && row.value.bindings.marker.value.id == q.migrationId
                  && row.value.bindings.marker.value.fromEnvironment == q.sourceEnvironment
                  && row.value.bindings.previous.value.provider == q.provider
                  && q.previousId == Some(row.value.bindings.previous.value.externalId)
                  && row.value.bindings.previous.value.externalId != "")
            && (r.asked.Some? ==> r.asked == Some(Db(q.provider, q.previousId.value)))
            && r.state.live == (if r.asked.Some? && (d.Gone? || d.removed) then s.live - {r.asked.value} else s.live)
            && r.state.table.rows.Keys == s.table.rows.Keys
            && (forall at :: at in s.table.rows && at != slot ==> r.state.table.rows[at] == s.table.rows[at])
            && (row.Some? ==>
                  var after := r.state.table.rows[slot];
                  after == if r.asked.Some? && d.Gone? then row.value.(version := after.version, bindings := row.value.bindings.(previous := None))
                           else row.value)
            && (r.outcome.Completed? <==> r.asked.Some? && d.Gone?)
  {
  }
}
