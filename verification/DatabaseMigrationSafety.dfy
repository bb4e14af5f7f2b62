/** What a database migration keeps, whatever other writers do while it waits. */
module DatabaseMigrationSafety {
  import opened Json
  import opened DatabaseMigrationSteps

  // ---------------------------------------------------- the optimistic swap

  /** A write that leaves every row but the candidate's as it found it. */
  ghost predicate OnlyCandidate(w: Write, q: Request) {
    forall slot :: slot != CandidateSlot(q) ==> RowAt(w.before, slot) == RowAt(w.after, slot)
  }

  ghost predicate OnlyCandidates(ws: seq<Write>, q: Request) {
    forall i :: 0 <= i < |ws| ==> OnlyCandidate(ws[i], q)
  }

  /** The one write that may change the active row: the copy was verified, both leases are
      back, and at that moment the source and the row to be replaced are the reviewed ones. */
  ghost predicate JustifiedSwap(w: Write, q: Request, a: Answers, reviewed: Table) {
    && a.reviewed && a.provision.success && a.copied && a.sourceReleased && a.targetReleased
    && Reviewed(reviewed, q) && Unchanged(w.before, q, reviewed)
    && forall slot :: slot != ActiveSlot(q) ==> RowAt(w.before, slot) == RowAt(w.after, slot)
  }

  lemma WroteCandidate(p: Progress, q: Request, after: Table)
    requires OnlyCandidates(p.writes, q) && OnlyCandidate(Write(p.state.table, after), q)
    ensures OnlyCandidates(Wrote(p, after).writes, q)
  {
  }

  lemma CleanupWrites(p: Progress, q: Request, a: Answers, others: Others, candidate: Row)
    requires OnlyCandidates(p.writes, q)
    ensures var r := Cleanup(p, q, a, others, candidate);
            OnlyCandidates(r.writes, q) && r.outcome.Stopped? && r.leases == p.leases && r.created == p.created
  {
  }

  lemma ClearWrites(p: Progress, q: Request, a: Answers, others: Others)
    requires OnlyCandidates(p.writes, q)
    ensures var r := ClearLingering(p, q, a, others);
            OnlyCandidates(r.writes, q) && r.leases == p.leases && r.created == p.created
            && (p.outcome.Continue? ==> r.outcome.Continue? || r.outcome.Stopped?)
  {
  }

  lemma ProvisionWrites(p: Progress, q: Request, a: Answers, others: Others)
    requires OnlyCandidates(p.writes, q) && p.outcome.Continue? && p.candidate.None?
    ensures var r := ProvisionCandidate(p, q, a, others);
            OnlyCandidates(r.writes, q) && r.leases == p.leases
            && (r.outcome.Stopped? || (r.outcome.Continue? && r.candidate.Some? && a.provision.success))
  {
    hide Cleanup;
    var s := Wait(Wait(p.state, others, 2), others, 3);
    var id := ProvisionedId(a.provision);
    var db := DbOf(q.targetProvider, id);
    var made := if id.None? then p.(state := s) else p.(state := s.(live := s.live + {db}), created := Some(db));
    var externalId := if a.provision.success then a.provision.externalId else id;
    var t := CreateRow(s.table, CandidateSlot(q), externalId, a.provision.bindings);
    var tracked := Wrote(made, t).(candidate := Some(t.rows[CandidateSlot(q)]));
    WroteCandidate(made, q, t);
    CleanupWrites(tracked, q, a, others, t.rows[CandidateSlot(q)]);
  }

  lemma CopyDataWrites(p: Progress, q: Request, a: Answers, others: Others, candidate: Row)
    requires OnlyCandidates(p.writes, q) && p.outcome.Continue? && p.leases == []
    ensures var r := CopyData(p, q, a, others, candidate);
            && OnlyCandidates(r.writes, q)
            && (r.outcome.Stopped? || (r.outcome.Continue? && a.copied && a.sourceReleased && a.targetReleased))
            && EveryLeaseReturned(r.leases)
  {
    hide Cleanup;
    var s := p.(state := Wait(p.state, others, 4));
    CleanupWrites(s, q, a, others, candidate);
    var one := s.(leases := s.leases + [AcquiredSource, ReleasedSource]);
    CleanupWrites(one, q, a, others, candidate);
    var both := p.(state := Wait(s.state, others, 5),
                   leases := s.leases + [AcquiredSource, AcquiredTarget, ReleasedSource, ReleasedTarget]);
    CleanupWrites(both, q, a, others, candidate);
    assert one.leases == [AcquiredSource, ReleasedSource];
    assert both.leases == [AcquiredSource, AcquiredTarget, ReleasedSource, ReleasedTarget];
    LeaseCounts();
    hide EveryLeaseReturned;
  }

  // ------------------------------------------------------------- the leases

  ghost predicate Before(log: seq<Lease>, first: Lease, second: Lease) {
    exists i, j :: 0 <= i < j < |log| && log[i] == first && log[j] == second
  }

  /** Each lease that was acquired is released, once and after it was acquired; nothing else
      is released. */
  ghost predicate ReturnedOnce(log: seq<Lease>, acquired: Lease, released: Lease) {
    && multiset(log)[acquired] <= 1 && multiset(log)[released] == multiset(log)[acquired]
    && (acquired in log ==> Before(log, acquired, released))
  }

  ghost predicate EveryLeaseReturned(log: seq<Lease>) {
    ReturnedOnce(log, AcquiredSource, ReleasedSource) && ReturnedOnce(log, AcquiredTarget, ReleasedTarget)
  }

  lemma LeaseCounts()
    ensures EveryLeaseReturned([]) && EveryLeaseReturned([AcquiredSource, ReleasedSource])
    ensures EveryLeaseReturned([AcquiredSource, AcquiredTarget, ReleasedSource, ReleasedTarget])
  {
    var one := [AcquiredSource, ReleasedSource];
    assert one[0] == AcquiredSource && one[1] == ReleasedSource;
    var two := [AcquiredSource, AcquiredTarget, ReleasedSource, ReleasedTarget];
    assert two[0] == AcquiredSource && two[2] == ReleasedSource && two[1] == AcquiredTarget && two[3] == ReleasedTarget;
  }

  // -------------------------------------------------------- the whole copy

  lemma CommitWrites(p: Progress, q: Request, a: Answers, others: Others, candidate: Row, reviewed: Table)
    requires OnlyCandidates(p.writes, q) && Reviewed(reviewed, q) && a.reviewed && a.provision.success
    requires a.copied && a.sourceReleased && a.targetReleased
    ensures var r := Commit(p, q, a, others, candidate, reviewed);
            && r.leases == p.leases
            && (if r.outcome.Completed? then SwapsOnce(r.writes, q, a, reviewed)
                else r.outcome.Stopped? && OnlyCandidates(r.writes, q))
  {
    if Unchanged(p.state.table, q, reviewed) {
      hide Unchanged, Reviewed;
      var after := Swapped(p.state.table, q, candidate, ReviewedId(reviewed, q));
      var w := Write(p.state.table, after);
      var last := Write(after, DeleteRow(after, CandidateSlot(q), candidate.id));
      assert OnlyCandidate(last, q);
      assert JustifiedSwap(w, q, a, reviewed);
      var r := Commit(p, q, a, others, candidate, reviewed);
      assert r.writes == p.writes + [w, last];
      hide OnlyCandidate, JustifiedSwap, Commit, Swapped;
      assert SwapsOnce(r.writes, q, a, reviewed) by {
        assert r.writes[|r.writes| - 2] == w && r.writes[|r.writes| - 1] == last;
      }
    } else {
      CleanupWrites(p, q, a, others, candidate);
      hide Cleanup;
    }
  }

  /** The last write but one is the swap; every other one stays in the candidate's slot. */
  ghost predicate SwapsOnce(ws: seq<Write>, q: Request, a: Answers, reviewed: Table) {
    && |ws| >= 2 && JustifiedSwap(ws[|ws| - 2], q, a, reviewed)
    && forall i :: 0 <= i < |ws| && i != |ws| - 2 ==> OnlyCandidate(ws[i], q)
  }

  /** Under arbitrary interference at every wait, no write of a migration touches a row
      other than its own candidate's, except the one swap of a completed migration, which is
      justified at the moment it is made. And every lease is back whatever happened. */
  lemma OptimisticSwap(s: State, q: Request, a: Answers, others: Others)
    ensures var r := Copy(s, q, a, others);
            && EveryLeaseReturned(r.leases)
            && (if r.outcome.Completed? then SwapsOnce(r.writes, q, a, others(0, s.table))
                else OnlyCandidates(r.writes, q) && !r.outcome.Continue?)
  {
    hide ClearLingering, ProvisionCandidate, CopyData, Commit, Reviewed, AlreadyComplete, EveryLeaseReturned;
    LeaseCounts();
    var p := Progress(Wait(s, others, 0), [], [], None, None, Continue);
    ClearWrites(p, q, a, others);
    ClearKeepsNothing(p, q, a, others);
    var cleared := ClearLingering(p, q, a, others);
    if a.reviewed && Reviewed(p.state.table, q) && cleared.outcome.Continue? {
      ProvisionWrites(cleared, q, a, others);
      var provisioned := ProvisionCandidate(cleared, q, a, others);
      if provisioned.outcome.Continue? {
        var candidate := provisioned.candidate.value;
        CopyDataWrites(provisioned, q, a, others, candidate);
        var copied := CopyData(provisioned, q, a, others, candidate);
        if copied.outcome.Continue? {
          CommitWrites(copied, q, a, others, candidate, p.state.table);
        }
      }
    }
    hide OnlyCandidate, SwapsOnce;
  }

  lemma ClearKeepsNothing(p: Progress, q: Request, a: Answers, others: Others)
    ensures ClearLingering(p, q, a, others).candidate == p.candidate
  {
  }

  /** While an earlier candidate could not be removed, no second one is made. */
  lemma NoSecondCandidate(s: State, q: Request, a: Answers, others: Others)
    requires Copy(s, q, a, others).created.Some?
    ensures CandidateSlot(q) in others(0, s.table).rows ==> a.lingering.Gone?
  {
    hide ProvisionCandidate, CopyData, Commit, Reviewed, AlreadyComplete;
  }

  lemma CompletedIsSkipped(s: State, q: Request, a: Answers, others: Others)
    requires a.reviewed && AlreadyComplete(others(0, s.table), q)
    ensures Copy(s, q, a, others) == Progress(Wait(s, others, 0), [], [], None, None, Skipped)
  {
  }

  /** A migration onto a row without an id of its own, such as an unresolved create, is
      refused before anything is asked or written. */
  lemma UnidentifiedTargetRefused(s: State, q: Request, a: Answers, others: Others)
    requires ActiveSlot(q) in others(0, s.table).rows && EffectiveId(others(0, s.table).rows[ActiveSlot(q)]).None?
    ensures var r := Copy(s, q, a, others);
            r.writes == [] && r.created.None? && r.state == Wait(s, others, 0) && !r.outcome.Completed?
  {
  }
}
