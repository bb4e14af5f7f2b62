/** What a storage migration, and the removal of what it replaced, do to the records, and when. */
module StorageMigrationEffects {
  import opened Json
  import opened StorageMigrationSteps
  import opened StorageMigrationSafety
  import opened StorageMigrationConservation

  /** Nobody else writes. */
  ghost predicate Alone(others: Others) { forall i, store: Store :: others(i, store) == store }

  /** A binding's scope, or else the context of its provider. */
  function ScopeOf(b: Binding, contexts: map<string, Scope>): Option<Scope> {
    if b.scope.Some? then b.scope else if b.provider in contexts then Some(contexts[b.provider]) else None
  }

  predicate TextOnly(scope: Scope) { forall k :: k in scope ==> scope[k] != "" }

  /** What a caller can tell from the records and the answers: the source is the planned one, the
      target was not migrated to already, an earlier candidate is gone, and every call succeeds. */
  predicate Runs(store: Store, q: Request, a: Answers) {
    && q.targetEnvironment in store && q.sourceEnvironment in store && a.reviewed && a.adapters
    && a.context.Some? && a.bucket.Some? && a.copied
    && var target, origin := store[q.targetEnvironment], store[q.sourceEnvironment];
       && (q.storageName in target.bindings ==>
             target.bindings[q.storageName].marker != Some(Marker(q.migrationId, q.sourceEnvironment, true)))
       && (q.storageName in target.candidates ==>
             && target.candidates[q.storageName].migrationId == q.migrationId
             && target.candidates[q.storageName].provider == q.targetProvider && a.lingering.Gone?)
       && q.storageName in origin.bindings
       && var b := origin.bindings[q.storageName];
          && b.provider == q.sourceProvider && b.externalId == q.sourceExternalId
          && ScopeOf(b, origin.contexts) == Some(q.sourceScope) && TextOnly(q.sourceScope)
  }

  /** The records of the target afterwards: the fresh bucket under the name, with the replaced one to
      go back to; the other bindings, with their scopes written out; the context that was
      resolved; and no candidate under the name. */
  ghost predicate DoneRecords(start: Storage, after: Storage, q: Request, a: Answers)
    requires a.context.Some? && a.bucket.Some?
  {
    && after.bindings.Keys == start.bindings.Keys + {q.storageName}
    && (forall n :: n in start.bindings && n != q.storageName ==>
          after.bindings[n] == start.bindings[n].(scope := ScopeOf(start.bindings[n], start.contexts)))
    && after.bindings[q.storageName] ==
         Binding(q.targetProvider, a.bucket.value, a.context, q.region, Some(a.now),
                 Some(Marker(q.migrationId, q.sourceEnvironment, true)),
                 if q.storageName !in start.bindings then None
                 else
                   var was := start.bindings[q.storageName];
                   Some(Target(was.provider, was.externalId, ScopeOf(was, start.contexts), was.region)))
    && after.contexts == start.contexts[q.targetProvider := a.context.value]
    && after.candidates == start.candidates - {q.storageName}
  }

  lemma RunsWrites(s: State, q: Request, a: Answers)
    ensures Runs(s.store, q, a) ==> WritesSomething(s, q, a) && a.context.Some? && a.bucket.Some? && a.copied
  {
  }

  lemma CompletedRuns(s: State, q: Request, a: Answers, others: Others)
    requires Copy(s, q, a, others).outcome.Completed?
    ensures Runs(s.store, q, a)
  {
    hide SourceUnchanged, TargetUnchanged, Stale, CopyFailed, Commit;
    var target, sources := s.store[q.targetEnvironment], Parsed(s.store[q.sourceEnvironment]);
    var p := Wait(Wait(Progress(s, [], target.(bindings := Parsed(target)), None, Continue), others, 0), others, 1);
    var cleared := ClearLingering(p, q, a, others);
    ClearNeverCompletes(p, q, a, others);
    ProvisionNeverCompletes(cleared, q, a, others);
    var made := ProvisionBucket(cleared, q, a, others);
    if made.created.Some? { OnlyCommitCompletes(Wait(made, others, 5), q, a, others); }
  }

  lemma LeftIsDone(start: Storage, q: Request, a: Answers)
    requires a.context.Some? && a.bucket.Some?
    ensures DoneRecords(start, Left(start, q, a), q, a)
  {
  }

  /** Left alone, a migration completes exactly when all of that is given; and then the records of
      the target are these, those of the others as they were, and the fresh bucket lives. */
  lemma AloneCompletesExactly(s: State, q: Request, a: Answers, others: Others)
    requires Alone(others)
    ensures Copy(s, q, a, others).outcome.Completed? <==> Runs(s.store, q, a)
    ensures Runs(s.store, q, a) ==>
              var e, t := q.targetEnvironment, Copy(s, q, a, others).state;
              && OnlyAt(e, s.store, t.store) && DoneRecords(s.store[e], t.store[e], q, a)
              && t.live == {Bucket(q.targetProvider, a.context.value, a.bucket.value)}
                           + (if q.storageName in s.store[e].candidates then
                                var c := s.store[e].candidates[q.storageName];
                                s.live - {Bucket(c.provider, c.context, c.externalId)}
                              else s.live)
  {
    if Copy(s, q, a, others).outcome.Completed? { CompletedRuns(s, q, a, others); }
    if Runs(s.store, q, a) {
      RunsWrites(s, q, a);
      CopyAlone(s, q, a, others);
      LeftIsDone(s.store[q.targetEnvironment], q, a);
    }
    hide Copy, Runs, DoneRecords, Left, WritesSomething;
  }

  lemma CopyAlone(s: State, q: Request, a: Answers, others: Others)
    requires Alone(others) && WritesSomething(s, q, a) && a.context.Some? && a.bucket.Some? && a.copied
    ensures var e, r := q.targetEnvironment, Copy(s, q, a, others);
            && r.outcome.Completed? && OnlyAt(e, s.store, r.state.store) && r.state.store[e] == Left(s.store[e], q, a)
            && r.state.live == {Bucket(q.targetProvider, a.context.value, a.bucket.value)}
                               + (if q.storageName in s.store[e].candidates then s.live - {BucketOf(s.store[e].candidates[q.storageName])}
                                  else s.live)
  {
    hide AlreadyComplete, SourceReviewed, SourceUnchanged, TargetUnchanged, Parsed, ClearLingering, ProvisionBucket, NextBinding;
    var e, name := q.targetEnvironment, q.storageName;
    var target, sources := s.store[e], Parsed(s.store[q.sourceEnvironment]);
    var p := Progress(s, [], target.(bindings := Parsed(target)), None, Continue);
    assert Wait(Wait(p, others, 0), others, 1) == p;
    ReviewedIsBound(sources, q);
    ClearedQuietly(p, q, a, others);
    var cleared := ClearLingering(p, q, a, others);
    EarlyChangesGoUnseen(cleared, q, a, others);
    assert others(4, others(3, cleared.state.store)) == cleared.state.store;
    ProvisionedOver(cleared, q, a, others);
    var made := ProvisionBucket(cleared, q, a, others);
    assert Wait(made, others, 5) == made;
    SourceStillThere(s, q, made.state.store, p.memory.bindings, made.memory.contexts, sources[name]);
    CommitStores(s, made, q, a);
    hide Commit, OnlyAt, Alone;
    CommitLive(made, q, a, target.contexts);
  }

  lemma CommitLive(p: Progress, q: Request, a: Answers, contexts: map<string, Scope>)
    requires q.storageName in p.memory.candidates
    ensures Commit(p, q, a, contexts).state.live == p.state.live
  {
    hide NextBinding;
  }

  lemma FailedAlone(p: Progress, q: Request, a: Answers, others: Others)
    requires Alone(others) && p.created.Some? && q.targetEnvironment in p.state.store && q.storageName in p.memory.candidates
    requires p.created.value in p.state.live
    ensures var e, r := q.targetEnvironment, CopyFailed(p, q, a, others);
            && OnlyAt(e, p.state.store, r.state.store) && r.created == p.created && r.state.store[e].bindings == p.memory.bindings
            && (q.storageName in r.state.store[e].candidates <==> !a.cleanup.Gone?)
            && (q.storageName in r.state.store[e].candidates ==> r.state.store[e].candidates[q.storageName] == p.memory.candidates[q.storageName])
            && (r.created.value in r.state.live <==> a.cleanup.Refused? && !a.cleanup.removed)
  {
  }

  /** Left alone, a migration that made a bucket and did not complete leaves every binding, and exactly
      what its cleanup could not remove: the candidate unless the deletion was confirmed, and
      the bucket if it was not carried out. */
  lemma AloneFailsCleanly(s: State, q: Request, a: Answers, others: Others)
    requires Alone(others) && Runs(s.store, q, a.(copied := true)) && !a.copied
    ensures var e, r := q.targetEnvironment, Copy(s, q, a, others);
            && r.created == Some(Bucket(q.targetProvider, a.context.value, a.bucket.value)) && OnlyAt(e, s.store, r.state.store)
            && r.state.store[e].bindings.Keys == s.store[e].bindings.Keys
            && (forall n :: n in s.store[e].bindings ==>
                  r.state.store[e].bindings[n] == s.store[e].bindings[n].(scope := ScopeOf(s.store[e].bindings[n], s.store[e].contexts)))
            && (q.storageName in r.state.store[e].candidates <==> !a.cleanup.Gone?)
            && (q.storageName in r.state.store[e].candidates ==>
                  r.state.store[e].candidates[q.storageName] ==
                    Candidate(q.migrationId, q.targetProvider, a.bucket.value, q.region, a.context.value))
            && (r.created.value in r.state.live <==> a.cleanup.Refused? && !a.cleanup.removed)
  {
    RunsWrites(s, q, a.(copied := true));
    hide AlreadyComplete, SourceReviewed, SourceUnchanged, TargetUnchanged, ClearLingering, ProvisionBucket, NextBinding, Runs;
    var e := q.targetEnvironment;
    var target, sources := s.store[e], Parsed(s.store[q.sourceEnvironment]);
    var p := Progress(s, [], target.(bindings := Parsed(target)), None, Continue);
    assert Wait(Wait(p, others, 0), others, 1) == p;
    ReviewedIsBound(sources, q);
    ClearedQuietly(p, q, a, others);
    var cleared := ClearLingering(p, q, a, others);
    assert others(4, others(3, cleared.state.store)) == cleared.state.store;
    ProvisionedOver(cleared, q, a, others);
    var made := ProvisionBucket(cleared, q, a, others);
    assert Wait(made, others, 5) == made;
    FailedAlone(made, q, a, others);
    hide CopyFailed, Alone;
  }

  // ----------------------------------------------------- what the swap has seen

  /** The same bucket, in the same scope, and not touched since. */
  predicate SameBinding(b: Binding, contexts: map<string, Scope>, was: Binding, before: map<string, Scope>) {
    && b.provider == was.provider && b.externalId == was.externalId && b.updatedAt == was.updatedAt
    && ScopeOf(b, contexts).Some? && ScopeOf(b, contexts) == ScopeOf(was, before) && TextOnly(ScopeOf(was, before).value)
  }

  /** Whatever other writers do: the store that a completed migration swaps over, its last write, has
      the source binding as it was read at the start; and the target binding goes by the provider,
      id and time that were read, or is still not there. */
  lemma SwapHasSeen(s: State, q: Request, a: Answers, others: Others)
    requires Copy(s, q, a, others).outcome.Completed?
    ensures var r, e, f, n := Copy(s, q, a, others), q.targetEnvironment, q.sourceEnvironment, q.storageName;
            && r.writes != [] && e in s.store && f in s.store && n in s.store[f].bindings
            && var found := r.writes[|r.writes| - 1].before;
               && e in found && f in found && n in found[f].bindings && r.state.store == r.writes[|r.writes| - 1].after
               && SameBinding(found[f].bindings[n], found[f].contexts, s.store[f].bindings[n], s.store[f].contexts)
               && (n in found[e].bindings <==> n in s.store[e].bindings)
               && (n in s.store[e].bindings ==>
                     && found[e].bindings[n].provider == s.store[e].bindings[n].provider
                     && found[e].bindings[n].externalId == s.store[e].bindings[n].externalId
                     && found[e].bindings[n].updatedAt == s.store[e].bindings[n].updatedAt)
  {
    hide SourceReviewed, AlreadyComplete, Stale, CopyFailed;
    var target, sources := s.store[q.targetEnvironment], Parsed(s.store[q.sourceEnvironment]);
    var p := Wait(Wait(Progress(s, [], target.(bindings := Parsed(target)), None, Continue), others, 0), others, 1);
    var cleared := ClearLingering(p, q, a, others);
    ClearNeverCompletes(p, q, a, others);
    ProvisionNeverCompletes(cleared, q, a, others);
    KeepsBindings(p, q, a, others);
    var made := ProvisionBucket(cleared, q, a, others);
    ReviewedIsBound(sources, q);
    hide ClearLingering, ProvisionBucket, CopyAndCommit;
    if made.created.Some? && q.storageName in made.memory.candidates {
      LastWrite(made, q, a, others, sources[q.storageName], target.contexts);
    }
    hide SourceUnchanged, TargetUnchanged;
    SeenMeans(s, q, Wait(made, others, 5).state.store, sources[q.storageName], made.memory.bindings);
  }

  lemma KeepsBindings(p: Progress, q: Request, a: Answers, others: Others)
    ensures var cleared := ClearLingering(p, q, a, others);
            cleared.memory.bindings == p.memory.bindings && ProvisionBucket(cleared, q, a, others).memory.bindings == p.memory.bindings
  {
  }

  lemma LastWrite(p: Progress, q: Request, a: Answers, others: Others, source: Binding, contexts: map<string, Scope>)
    requires p.created.Some? && q.storageName in p.memory.candidates
    requires CopyAndCommit(p, q, a, others, source, contexts).outcome.Completed?
    ensures var r, now := CopyAndCommit(p, q, a, others, source, contexts), Wait(p, others, 5).state.store;
            && r.writes != [] && r.writes[|r.writes| - 1].before == now && r.writes[|r.writes| - 1].after == r.state.store
            && SourceUnchanged(now, source, q) && TargetUnchanged(now, p.memory.bindings, q)
  {
    OnlyCommitCompletes(Wait(p, others, 5), q, a, others);
    hide SourceUnchanged, TargetUnchanged, NextBinding, Stale, CopyFailed;
  }

  lemma SeenMeans(s: State, q: Request, now: Store, source: Binding, bindings: map<string, Binding>)
    requires q.targetEnvironment in s.store && q.sourceEnvironment in s.store && q.storageName in s.store[q.sourceEnvironment].bindings
    requires source == Parsed(s.store[q.sourceEnvironment])[q.storageName] && bindings == Parsed(s.store[q.targetEnvironment])
    requires SourceUnchanged(now, source, q) && TargetUnchanged(now, bindings, q)
    ensures var e, f, n := q.targetEnvironment, q.sourceEnvironment, q.storageName;
            && e in now && f in now && n in now[f].bindings
            && SameBinding(now[f].bindings[n], now[f].contexts, s.store[f].bindings[n], s.store[f].contexts)
            && (n in now[e].bindings <==> n in s.store[e].bindings)
            && (n in s.store[e].bindings ==>
                  && now[e].bindings[n].provider == s.store[e].bindings[n].provider
                  && now[e].bindings[n].externalId == s.store[e].bindings[n].externalId
                  && now[e].bindings[n].updatedAt == s.store[e].bindings[n].updatedAt)
  {
  }

  // ------------------------------------------------ removing the old target

  /** Left alone, a removal asks exactly for the retained target of the migrated binding, in the scope
      retained with it; and then takes just that target out of just that binding, exactly if
      the deletion was confirmed. */
  lemma RemovalAloneExactly(s: State, q: Removal, reviewed: bool, adapter: bool, d: Destroyed, others: Others)
    requires Alone(others)
    ensures var r, e := DestroyPrevious(s, q, reviewed, adapter, d, others), q.targetEnvironment;
            var asks := && reviewed && adapter && e in s.store && q.storageName in s.store[e].bindings
                        && var b := s.store[e].bindings[q.storageName];
                           && b.marker.Some? && b.marker.value.id == q.migrationId && b.marker.value.fromEnvironment == q.sourceEnvironment
                           && b.previous.Some? && b.previous.value.provider == q.provider && q.previousId == Some(b.previous.value.externalId)
                           && (b.previous.value.scope.Some? || q.provider in s.store[e].contexts);
            && (r.asked.Some? <==> asks)
            && (asks ==>
                  var previous := s.store[e].bindings[q.storageName].previous.value;
                  r.asked == Some(Bucket(q.provider, if previous.scope.Some? then previous.scope.value else s.store[e].contexts[q.provider],
                                         previous.externalId)))
            && r.state.live == (if asks && (d.Gone? || d.removed) then s.live - {r.asked.value} else s.live)
            && (!(asks && d.Gone?) ==> r.state.store == s.store && !r.outcome.Completed?)
            && (asks && d.Gone? ==>
                  && r.outcome.Completed? && OnlyAt(e, s.store, r.state.store)
                  && r.state.store[e].contexts == s.store[e].contexts && r.state.store[e].candidates == s.store[e].candidates
                  && r.state.store[e].bindings.Keys == s.store[e].bindings.Keys
                  && forall n :: n in s.store[e].bindings ==>
                       var scoped := s.store[e].bindings[n].(scope := ScopeOf(s.store[e].bindings[n], s.store[e].contexts));
                       r.state.store[e].bindings[n] == if n == q.storageName then scoped.(previous := None) else scoped)
  {
  }
}
