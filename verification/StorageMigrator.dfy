/** applyStorageMigration and destroyPreviousStorageTarget as they run: the three records are
    read once, changed in memory, and stored again and again. */
module StorageMigrator {
  import opened Json
  import opened StorageMigrationSteps
  import opened StorageMigrationSafety

  class Migrator {
    var store: Store
    var live: set<Bucket>
    var bindings: map<string, Binding>
    var contexts: map<string, Scope>
    var candidates: map<string, Candidate>
    var created: Option<Bucket>
    ghost var writes: seq<Write>

    constructor (s: State)
      ensures store == s.store && live == s.live
      ensures writes == [] && created == None && bindings == map[] && contexts == map[] && candidates == map[]
    {
      store, live := s.store, s.live;
      bindings, contexts, candidates, created, writes := map[], map[], map[], None, [];
    }

    ghost function Now(outcome: Outcome): Progress
      reads this
    {
      Progress(State(store, live), writes, Storage(bindings, contexts, candidates), created, outcome)
    }

    method Await(others: Others, i: nat)
      modifies this`store
      ensures store == others(i, old(store))
    {
      store := others(i, store);
    }

    method PersistStorageState(e: string, st: Storage, ghost why: Why)
      modifies this`store, this`writes
      ensures store == Persist(old(store), e, st) && writes == old(writes) + [Write(old(store), store, why)]
    {
      ghost var before := store;
      if e in store {
        store := store[e := st];
      }
      writes := writes + [Write(before, store, why)];
    }

    method DestroyBucket(b: Bucket, d: Destroyed, others: Others, i: nat) returns (removed: bool)
      modifies this`store, this`live
      ensures store == others(i, old(store)) && live == Destroy(old(live), b, d) && removed == d.Gone?
    {
      Await(others, i);
      live := Destroy(live, b, d);
      removed := d.Gone?;
    }

    method ClearLingeringCandidate(q: Request, a: Answers, others: Others) returns (outcome: Outcome)
      modifies this
      ensures Now(outcome) == ClearLingering(old(Now(Continue)), q, a, others)
    {
      outcome := Continue;
      if q.storageName in candidates {
        var lingering := candidates[q.storageName];
        if lingering.migrationId != q.migrationId || lingering.provider != q.targetProvider {
          return Stopped;
        }
        var removed := DestroyBucket(BucketOf(lingering), a.lingering, others, 2);
        if !removed {
          return Stopped;
        }
        candidates := candidates - {q.storageName};
        PersistStorageState(q.targetEnvironment, Storage(bindings, contexts, candidates), Dropped);
      }
    }

    method ProvisionFreshBucket(q: Request, a: Answers, others: Others) returns (outcome: Outcome)
      modifies this
      ensures Now(outcome) == ProvisionBucket(old(Now(Continue)), q, a, others)
    {
      Await(others, 3);
      if a.context.None? {
        return Stopped;
      }
      Await(others, 4);
      if a.bucket.None? {
        return Stopped;
      }
      var candidate := Candidate(q.migrationId, q.targetProvider, a.bucket.value, q.region, a.context.value);
      live, created := live + {BucketOf(candidate)}, Some(BucketOf(candidate));
      candidates := candidates[q.storageName := candidate];
      contexts := contexts[q.targetProvider := a.context.value];
      PersistStorageState(q.targetEnvironment, Storage(bindings, contexts, candidates), Recorded);
      outcome := Continue;
    }

    method CopyObjects(q: Request, a: Answers, others: Others, source: Binding,
                       read: map<string, Scope>) returns (outcome: Outcome)
      requires created.Some? && q.storageName in candidates
      modifies this
      ensures var r := CopyAndCommit(old(Now(Continue)), q, a, others, source, read);
              && State(store, live) == r.state && writes == r.writes && created == r.created && outcome == r.outcome
    {
      hide SourceUnchanged, TargetUnchanged, NextBinding;
      Await(others, 5);
      outcome := Stopped;
      if !a.copied {
        var removed := DestroyBucket(created.value, a.cleanup, others, 6);
        if removed {
          candidates := candidates - {q.storageName};
        }
        PersistStorageState(q.targetEnvironment, Storage(bindings, contexts, candidates), Dropped);
        return;
      }
      if !SourceUnchanged(store, source, q) || !TargetUnchanged(store, bindings, q) {
        var latest := store;
        var removed := DestroyBucket(created.value, a.cleanup, others, 6);
        if q.targetEnvironment in latest {
          var st := latest[q.targetEnvironment];
          var kept := if removed then st.candidates - {q.storageName} else st.candidates;
          PersistStorageState(q.targetEnvironment, Storage(Parsed(st), st.contexts, kept), FoundStale);
        }
        return;
      }
      var next := NextBinding(q, a, candidates[q.storageName], Storage(bindings, contexts, candidates), read);
      candidates := candidates - {q.storageName};
      bindings := bindings[q.storageName := next];
      PersistStorageState(q.targetEnvironment, Storage(bindings, contexts, candidates), Committed);
      outcome := Completed;
    }

    method ApplyStorageMigration(q: Request, a: Answers, others: Others) returns (outcome: Outcome)
      requires writes == [] && created == None
      modifies this
      ensures var r := Copy(old(State(store, live)), q, a, others);
              State(store, live) == r.state && writes == r.writes && created == r.created && outcome == r.outcome
    {
      if q.targetEnvironment !in store || q.sourceEnvironment !in store {
        return Stopped;
      }
      var target, sources := store[q.targetEnvironment], Parsed(store[q.sourceEnvironment]);
      Await(others, 0);
      if !a.reviewed {
        return Stopped;
      }
      hide ClearLingering, ProvisionBucket, CopyAndCommit, Parsed, SourceReviewed;
      bindings, contexts, candidates := Parsed(target), target.contexts, target.candidates;
      if AlreadyComplete(bindings, q) {
        return Skipped;
      }
      if !SourceReviewed(sources, q) {
        return Stopped;
      }
      assert q.storageName in sources by { ReviewedIsBound(sources, q); }
      Await(others, 1);
      if !a.adapters {
        return Stopped;
      }
      outcome := ClearLingeringCandidate(q, a, others);
      if !outcome.Continue? {
        return;
      }
      outcome := ProvisionFreshBucket(q, a, others);
      if !outcome.Continue? || created.None? || q.storageName !in candidates {
        return;
      }
      outcome := CopyObjects(q, a, others, sources[q.storageName], target.contexts);
    }

    method DestroyPreviousStorageTarget(q: Removal, reviewed: bool, adapter: bool, d: Destroyed, others: Others)
      returns (outcome: Outcome, asked: Option<Bucket>)
      modifies this
      ensures Removed(State(store, live), asked, outcome)
           == DestroyPrevious(old(State(store, live)), q, reviewed, adapter, d, others)
    {
      hide Parsed;
      if !reviewed || q.targetEnvironment !in store {
        return Stopped, None;
      }
      var target := store[q.targetEnvironment];
      var read := Parsed(target);
      if q.storageName !in read {
        return Stopped, None;
      }
      var b := read[q.storageName];
      if b.marker.None? || b.marker.value.id != q.migrationId || b.marker.value.fromEnvironment != q.sourceEnvironment {
        return Stopped, None;
      }
      if b.previous.None? {
        return Skipped, None;
      }
      var context := PreviousContext(b.previous.value, target.contexts);
      if context.None? || b.previous.value.provider != q.provider || Some(b.previous.value.externalId) != q.previousId {
        return Stopped, None;
      }
      Await(others, 0);
      if !adapter {
        return Stopped, None;
      }
      asked := Some(Bucket(q.provider, context.value, b.previous.value.externalId));
      var removed := DestroyBucket(asked.value, d, others, 1);
      if !removed {
        return Stopped, asked;
      }
      PersistStorageState(q.targetEnvironment,
                          Storage(read[q.storageName := b.(previous := None)], target.contexts, target.candidates), Dropped);
      outcome := Completed;
    }
  }
}
