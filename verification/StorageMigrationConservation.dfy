/** No bucket gets lost while nobody else writes the target environment's storage records. */
module StorageMigrationConservation {
  import opened Json
  import opened StorageMigrationSteps
  import opened StorageMigrationSafety

  function ScopedBucket(provider: string, scope: Option<Scope>, externalId: string,
                        contexts: map<string, Scope>): set<Bucket> {
    if scope.Some? then {Bucket(provider, scope.value, externalId)}
    else if provider in contexts then {Bucket(provider, contexts[provider], externalId)} else {}
  }

  /** The bucket a binding names and the rollback target it retains. */
  function BindingBuckets(b: Binding, contexts: map<string, Scope>): set<Bucket> {
    ScopedBucket(b.provider, b.scope, b.externalId, contexts)
    + if b.previous.None? then {}
      else ScopedBucket(b.previous.value.provider, b.previous.value.scope, b.previous.value.externalId, contexts)
  }

  /** The rollback target retained under `name`, which a further swap forgets. */
  function RetainedTarget(bindings: map<string, Binding>, contexts: map<string, Scope>, name: string): set<Bucket> {
    if name !in bindings || bindings[name].previous.None? then {}
    else
      var previous := bindings[name].previous.value;
      ScopedBucket(previous.provider, previous.scope, previous.externalId, contexts)
  }

  /** The provider contexts once this migration has recorded its own. */
  function WithContext(contexts: map<string, Scope>, q: Request, a: Answers): map<string, Scope> {
    if a.context.Some? then contexts[q.targetProvider := a.context.value] else contexts
  }

  ghost predicate InStorage(st: Storage, b: Bucket) {
    || (exists n :: n in st.bindings && b in BindingBuckets(st.bindings[n], st.contexts))
    || (exists n :: n in st.candidates && BucketOf(st.candidates[n]) == b)
  }

  ghost predicate Elsewhere(store: Store, e: string, b: Bucket) {
    exists f :: f != e && f in store && InStorage(store[f], b)
  }

  ghost predicate IsTracked(store: Store, b: Bucket) {
    exists f :: f in store && InStorage(store[f], b)
  }

  ghost predicate Conserved(s: State) {
    forall b :: b in s.live ==> IsTracked(s.store, b)
  }

  /** Other writers leave the environment's storage records alone and lose nothing elsewhere. */
  ghost predicate Careful(others: Others, e: string) {
    && (forall i, store: Store :: e in store ==> e in others(i, store) && others(i, store)[e] == store[e])
    && (forall i, store, b :: Elsewhere(store, e, b) ==> Elsewhere(others(i, store), e, b))
  }

  /** An existing provider context stays what it is. */
  predicate Honest(q: Request, a: Answers, contexts: map<string, Scope>) {
    a.context.Some? && q.targetProvider in contexts ==> a.context.value == contexts[q.targetProvider]
  }

  function Without(s: State, gone: set<Bucket>): State { s.(live := s.live - gone) }

  /** What is in memory, stored in place of the environment's records, would lose nothing. */
  ghost predicate Accounted(live: set<Bucket>, store: Store, e: string, memory: Storage) {
    e in store && forall b :: b in live ==> InStorage(memory, b) || Elsewhere(store, e, b)
  }

  lemma AccountedConserves(live: set<Bucket>, store: Store, e: string, memory: Storage)
    requires Accounted(live, store, e, memory)
    ensures var after := Persist(store, e, memory);
            Conserved(State(after, live)) && Accounted(live, after, e, memory) && after[e] == memory
  {
    var after := Persist(store, e, memory);
    forall b | b in live ensures IsTracked(after, b) && (InStorage(memory, b) || Elsewhere(after, e, b)) {
      if InStorage(memory, b) {
        assert InStorage(after[e], b);
      } else {
        var f :| f != e && f in store && InStorage(store[f], b);
        assert after[f] == store[f];
      }
    }
  }

  lemma WaitAccounted(live: set<Bucket>, store: Store, e: string, memory: Storage, others: Others, i: nat)
    requires Accounted(live, store, e, memory) && Careful(others, e)
    ensures Accounted(live, others(i, store), e, memory) && others(i, store)[e] == store[e]
  {
    hide InStorage, Elsewhere;
  }

  /** The environment holds what is in memory, up to scopes that parsing filled in. */
  ghost predicate Synced(s: State, e: string, memory: Storage) {
    && Accounted(s.live, s.store, e, memory)
    && forall b :: InStorage(memory, b) ==> InStorage(s.store[e], b)
  }

  lemma SyncedConserves(s: State, e: string, memory: Storage)
    requires Synced(s, e, memory)
    ensures Conserved(s)
  {
    hide InStorage;
    forall b | b in s.live ensures IsTracked(s.store, b) {
      if InStorage(memory, b) { assert InStorage(s.store[e], b); }
    }
  }

  lemma ParsedTracksTheSame(st: Storage)
    ensures forall b :: InStorage(st, b) <==> InStorage(st.(bindings := Parsed(st)), b)
  {
    var parsed := Parsed(st);
    forall n | n in st.bindings ensures BindingBuckets(parsed[n], st.contexts) == BindingBuckets(st.bindings[n], st.contexts) {}
    hide BindingBuckets;
  }

  lemma StartSynced(s: State, e: string)
    requires Conserved(s) && e in s.store
    ensures Synced(s, e, s.store[e].(bindings := Parsed(s.store[e])))
  {
    ParsedTracksTheSame(s.store[e]);
    hide InStorage;
    forall b | b in s.live ensures InStorage(s.store[e].(bindings := Parsed(s.store[e])), b) || Elsewhere(s.store, e, b) {
      var f :| f in s.store && InStorage(s.store[f], b);
      assert f == e || Elsewhere(s.store, e, b);
    }
  }

  lemma WaitSynced(p: Progress, e: string, others: Others, i: nat)
    requires Synced(p.state, e, p.memory) && Careful(others, e)
    ensures Synced(Wait(p, others, i).state, e, p.memory)
  {
    WaitAccounted(p.state.live, p.state.store, e, p.memory, others, i);
    hide InStorage, Elsewhere, Careful;
  }

  lemma FewerAccounted(live: set<Bucket>, fewer: set<Bucket>, store: Store, e: string, memory: Storage)
    requires Accounted(live, store, e, memory) && fewer <= live
    ensures Accounted(fewer, store, e, memory)
  {
  }

  /** A candidate whose bucket is gone may be forgotten. */
  lemma CandidateForgotten(live: set<Bucket>, store: Store, e: string, memory: Storage, name: string)
    requires Accounted(live, store, e, memory) && name in memory.candidates
    ensures Accounted(live - {BucketOf(memory.candidates[name])}, store, e, WithoutCandidate(memory, name))
  {
    var left := WithoutCandidate(memory, name);
    forall b | b in live - {BucketOf(memory.candidates[name])} ensures InStorage(left, b) || Elsewhere(store, e, b) {
      if !Elsewhere(store, e, b) && !(exists n :: n in memory.bindings && b in BindingBuckets(memory.bindings[n], memory.contexts)) {
        var n :| n in memory.candidates && BucketOf(memory.candidates[n]) == b;
        assert n in left.candidates;
      }
    }
  }

  lemma SavedSynced(p: Progress, e: string, why: Why)
    requires Accounted(p.state.live, p.state.store, e, p.memory)
    ensures Synced(Save(p, e, why).state, e, p.memory) && Save(p, e, why).state.store[e] == p.memory
  {
    AccountedConserves(p.state.live, p.state.store, e, p.memory);
    hide InStorage, Elsewhere;
  }

  lemma AskedSynced(p: Progress, e: string, b: Bucket, d: Destroyed)
    requires Synced(p.state, e, p.memory)
    ensures Synced(Asked(p, b, d).state, e, p.memory)
  {
    FewerAccounted(p.state.live, Destroy(p.state.live, b, d), p.state.store, e, p.memory);
    hide InStorage, Elsewhere;
  }

  lemma ClearConserves(p: Progress, q: Request, a: Answers, others: Others)
    requires Synced(p.state, q.targetEnvironment, p.memory) && Careful(others, q.targetEnvironment) && p.outcome.Continue?
    ensures var r := ClearLingering(p, q, a, others);
            && Synced(r.state, q.targetEnvironment, r.memory) && r.memory.contexts == p.memory.contexts
            && r.memory.bindings == p.memory.bindings && r.created == p.created
            && (r.outcome.Continue? ==> q.storageName !in r.memory.candidates)
  {
    var e := q.targetEnvironment;
    hide Synced, Careful, Accounted;
    if q.storageName in p.memory.candidates {
      var lingering := p.memory.candidates[q.storageName];
      var waited := Wait(p, others, 2);
      WaitSynced(p, e, others, 2);
      AskedSynced(waited, e, BucketOf(lingering), a.lingering);
      if a.lingering.Gone? {
        SyncedAccounted(waited, e);
        CandidateForgotten(waited.state.live, waited.state.store, e, p.memory, q.storageName);
        SavedSynced(Asked(waited, BucketOf(lingering), a.lingering).(memory := WithoutCandidate(p.memory, q.storageName)), e, Dropped);
      }
    }
  }

  lemma SyncedAccounted(p: Progress, e: string)
    requires Synced(p.state, e, p.memory)
    ensures Accounted(p.state.live, p.state.store, e, p.memory)
  {
  }

  /** The fresh bucket is recorded under a free name; an unchanged context moves nothing. */
  lemma CandidateRecorded(live: set<Bucket>, store: Store, e: string, memory: Storage, q: Request, context: Scope,
                          c: Candidate)
    requires Accounted(live, store, e, memory) && q.storageName !in memory.candidates
    requires q.targetProvider in memory.contexts ==> context == memory.contexts[q.targetProvider]
    ensures Accounted(live + {BucketOf(c)}, store, e,
                      memory.(contexts := memory.contexts[q.targetProvider := context], candidates := memory.candidates[q.storageName := c]))
  {
    var after := memory.(contexts := memory.contexts[q.targetProvider := context], candidates := memory.candidates[q.storageName := c]);
    assert BucketOf(after.candidates[q.storageName]) == BucketOf(c);
    MoreTracksMore(memory, after);
    hide BucketOf, BindingBuckets;
  }

  lemma MoreTracksMore(st: Storage, more: Storage)
    requires more.bindings == st.bindings
    requires forall k :: k in st.contexts ==> k in more.contexts && more.contexts[k] == st.contexts[k]
    requires forall n :: n in st.candidates ==> n in more.candidates && more.candidates[n] == st.candidates[n]
    ensures forall b :: InStorage(st, b) ==> InStorage(more, b)
  {
    forall b | InStorage(st, b) ensures InStorage(more, b) {
      if n :| n in st.bindings && b in BindingBuckets(st.bindings[n], st.contexts) {
        assert b in BindingBuckets(more.bindings[n], more.contexts);
      }
    }
  }

  lemma ProvisionConserves(p: Progress, q: Request, a: Answers, others: Others)
    requires Synced(p.state, q.targetEnvironment, p.memory) && Careful(others, q.targetEnvironment)
    requires Honest(q, a, p.memory.contexts) && q.storageName !in p.memory.candidates && p.created.None? && p.outcome.Continue?
    ensures var r := ProvisionBucket(p, q, a, others);
            && Synced(r.state, q.targetEnvironment, r.memory) && r.memory.bindings == p.memory.bindings
            && (r.created.Some? ==> q.storageName in r.memory.candidates
                                    && r.memory.candidates[q.storageName].provider == q.targetProvider
                                    && BucketOf(r.memory.candidates[q.storageName]) == r.created.value
                                    && q.targetEnvironment in r.state.store && r.state.store[q.targetEnvironment] == r.memory
                                    && r.created.value in r.state.live
                                    && r.memory.contexts == WithContext(p.memory.contexts, q, a)
                                    && forall k :: k in p.memory.contexts ==>
                                         k in r.memory.contexts && r.memory.contexts[k] == p.memory.contexts[k])
            && (r.created.None? ==> r.outcome.Stopped?)
  {
    var e := q.targetEnvironment;
    hide Synced, Careful, Accounted;
    WaitSynced(p, e, others, 3);
    var resolved := Wait(p, others, 3);
    WaitSynced(resolved, e, others, 4);
    var ensured := Wait(resolved, others, 4);
    if a.context.Some? && a.bucket.Some? {
      var c := Candidate(q.migrationId, q.targetProvider, a.bucket.value, q.region, a.context.value);
      SyncedAccounted(ensured, e);
      CandidateRecorded(ensured.state.live, ensured.state.store, e, p.memory, q, a.context.value, c);
      var made := ensured.(created := Some(BucketOf(c)), state := ensured.state.(live := ensured.state.live + {BucketOf(c)}),
                           memory := ensured.memory.(contexts := ensured.memory.contexts[q.targetProvider := a.context.value],
                                                     candidates := ensured.memory.candidates[q.storageName := c]));
      SavedSynced(made, e, Recorded);
    }
  }

  // --------------------------------------------------- the last stages

  /** The fresh bucket is the recorded candidate's if one is left, and gone if none is. */
  ghost predicate CandidateOrGone(r: Progress, q: Request) {
    r.created.Some? && q.targetEnvironment in r.state.store ==>
      var candidates := r.state.store[q.targetEnvironment].candidates;
      if q.storageName in candidates then BucketOf(candidates[q.storageName]) == r.created.value
      else r.created.value !in r.state.live
  }

  predicate Holds(p: Progress, q: Request) {
    && p.created.Some? && q.storageName in p.memory.candidates && BucketOf(p.memory.candidates[q.storageName]) == p.created.value
    && q.targetEnvironment in p.state.store && p.state.store[q.targetEnvironment] == p.memory
  }

  /** Cleaning up the fresh bucket, then storing `latest` with or without its candidate. */
  lemma CleanedUp(p: Progress, q: Request, a: Answers, latest: Storage, why: Why)
    requires Accounted(p.state.live, p.state.store, q.targetEnvironment, latest) && p.created.Some?
    requires q.storageName in latest.candidates && BucketOf(latest.candidates[q.storageName]) == p.created.value
    ensures var asked := Asked(p, p.created.value, a.cleanup);
            var left := if a.cleanup.Gone? then WithoutCandidate(latest, q.storageName) else latest;
            var r := Save(asked.(memory := left), q.targetEnvironment, why);
            Conserved(r.state) && CandidateOrGone(r, q)
  {
    var e := q.targetEnvironment;
    var live := Destroy(p.state.live, p.created.value, a.cleanup);
    CandidateForgotten(p.state.live, p.state.store, e, latest, q.storageName);
    FewerAccounted(p.state.live, live, p.state.store, e, latest);
    AccountedConserves(live, p.state.store, e, if a.cleanup.Gone? then WithoutCandidate(latest, q.storageName) else latest);
    hide Accounted, InStorage, Conserved;
  }

  lemma FailedConserves(p: Progress, q: Request, a: Answers, others: Others)
    requires Synced(p.state, q.targetEnvironment, p.memory) && Careful(others, q.targetEnvironment) && Holds(p, q)
    ensures var r := CopyFailed(p, q, a, others); Conserved(r.state) && CandidateOrGone(r, q)
  {
    hide Synced, Careful, Accounted, Conserved, CandidateOrGone;
    WaitSynced(p, q.targetEnvironment, others, 6);
    var waited := Wait(p, others, 6);
    SyncedAccounted(waited, q.targetEnvironment);
    CleanedUp(waited, q, a, p.memory, Dropped);
    SameOutcome(q);
  }

  lemma SameOutcome(q: Request)
    ensures forall r: Progress :: CandidateOrGone(r, q) ==> CandidateOrGone(Stop(r), q)
  {
  }

  lemma StaleConserves(p: Progress, q: Request, a: Answers, others: Others)
    requires Synced(p.state, q.targetEnvironment, p.memory) && Careful(others, q.targetEnvironment) && Holds(p, q)
    ensures var r := Stale(p, q, a, others); Conserved(r.state) && CandidateOrGone(r, q)
  {
    var e := q.targetEnvironment;
    var waited := Wait(p, others, 6);
    WaitSynced(p, e, others, 6);
    SyncedAccounted(waited, e);
    ParsedTracksTheSame(p.memory);
    var latest := Storage(Parsed(p.memory), p.memory.contexts, p.memory.candidates);
    assert latest == p.memory.(bindings := Parsed(p.memory));
    hide Synced, Careful, Conserved, CandidateOrGone, InStorage, Elsewhere;
    CleanedUp(waited, q, a, latest, FoundStale);
    SameOutcome(q);
  }

  /** The bucket the active binding names, and the one it retains for rollback. */
  lemma SwapAccounted(live: set<Bucket>, store: Store, memory: Storage, q: Request, a: Answers,
                      contexts: map<string, Scope>)
    requires Accounted(live, store, q.targetEnvironment, memory) && q.storageName in memory.candidates
    requires memory.candidates[q.storageName].provider == q.targetProvider
    requires forall k :: k in contexts ==> k in memory.contexts && memory.contexts[k] == contexts[k]
    ensures var next := NextBinding(q, a, memory.candidates[q.storageName], memory, contexts);
            Accounted(live - RetainedTarget(memory.bindings, memory.contexts, q.storageName), store, q.targetEnvironment,
                      WithoutCandidate(memory.(bindings := memory.bindings[q.storageName := next]), q.storageName))
  {
    var next := NextBinding(q, a, memory.candidates[q.storageName], memory, contexts);
    var after := WithoutCandidate(memory.(bindings := memory.bindings[q.storageName := next]), q.storageName);
    assert BucketOf(memory.candidates[q.storageName]) in BindingBuckets(after.bindings[q.storageName], after.contexts);
    forall b | b in live - RetainedTarget(memory.bindings, memory.contexts, q.storageName) && InStorage(memory, b) ensures InStorage(after, b) {
      if n :| n in memory.bindings && b in BindingBuckets(memory.bindings[n], memory.contexts) {
        assert b in BindingBuckets(after.bindings[n], after.contexts);
      } else {
        var n :| n in memory.candidates && BucketOf(memory.candidates[n]) == b;
        assert n != q.storageName ==> n in after.candidates && after.candidates[n] == memory.candidates[n];
      }
    }
  }

  lemma CommitConserves(p: Progress, q: Request, a: Answers, contexts: map<string, Scope>)
    requires Synced(p.state, q.targetEnvironment, p.memory) && Holds(p, q)
    requires p.memory.candidates[q.storageName].provider == q.targetProvider
    requires forall k :: k in contexts ==> k in p.memory.contexts && p.memory.contexts[k] == contexts[k]
    ensures var r := Commit(p, q, a, contexts);
            && Conserved(Without(r.state, RetainedTarget(p.memory.bindings, p.memory.contexts, q.storageName)))
            && r.outcome.Completed? && q.targetEnvironment in r.state.store
            && var st := r.state.store[q.targetEnvironment];
               && q.storageName !in st.candidates && q.storageName in st.bindings
               && ScopedBucket(st.bindings[q.storageName].provider, st.bindings[q.storageName].scope,
                               st.bindings[q.storageName].externalId, st.contexts) == {r.created.value}
  {
    SyncedAccounted(p, q.targetEnvironment);
    SwapAccounted(p.state.live, p.state.store, p.memory, q, a, contexts);
    var next := NextBinding(q, a, p.memory.candidates[q.storageName], p.memory, contexts);
    var left := p.state.live - RetainedTarget(p.memory.bindings, p.memory.contexts, q.storageName);
    AccountedConserves(left, p.state.store, q.targetEnvironment,
                       WithoutCandidate(p.memory.(bindings := p.memory.bindings[q.storageName := next]), q.storageName));
    hide Accounted, InStorage, Conserved, Synced, RetainedTarget;
  }

  /** Whether a run ended with the fresh bucket in place. */
  ghost predicate AccountedFor(r: Progress, q: Request) {
    if r.outcome.Completed? then
      && r.created.Some? && q.targetEnvironment in r.state.store
      && var st := r.state.store[q.targetEnvironment];
         && q.storageName !in st.candidates && q.storageName in st.bindings
         && ScopedBucket(st.bindings[q.storageName].provider, st.bindings[q.storageName].scope,
                         st.bindings[q.storageName].externalId, st.contexts) == {r.created.value}
    else CandidateOrGone(r, q)
  }

  lemma LastStages(p: Progress, q: Request, a: Answers, others: Others, source: Binding, contexts: map<string, Scope>)
    requires Synced(p.state, q.targetEnvironment, p.memory) && Careful(others, q.targetEnvironment) && Holds(p, q)
    requires p.memory.candidates[q.storageName].provider == q.targetProvider
    requires forall k :: k in contexts ==> k in p.memory.contexts && p.memory.contexts[k] == contexts[k]
    ensures var r := CopyAndCommit(p, q, a, others, source, contexts);
            var gone := RetainedTarget(p.memory.bindings, p.memory.contexts, q.storageName);
            Conserved(if r.outcome.Completed? then Without(r.state, gone) else r.state) && AccountedFor(r, q)
  {
    var copied := Wait(p, others, 5);
    WaitSynced(p, q.targetEnvironment, others, 5);
    WaitHolds(p, q, others);
    hide Synced, Careful, Conserved, CandidateOrGone, Holds, SourceUnchanged, TargetUnchanged;
    FailedConserves(copied, q, a, others);
    StaleConserves(copied, q, a, others);
    CommitConserves(copied, q, a, contexts);
    OnlyCommitCompletes(copied, q, a, others);
    hide CopyFailed, Stale, Commit, ScopedBucket, RetainedTarget, Without;
  }

  lemma WaitHolds(p: Progress, q: Request, others: Others)
    requires Holds(p, q) && Careful(others, q.targetEnvironment)
    ensures Holds(Wait(p, others, 5), q)
  {
  }

  /** One migration loses no bucket, at any of its returns, while nobody else writes the
      target's storage records, but for a rollback target retained from an earlier one; and
      the bucket it made is the active one exactly when it completed, else the recorded
      candidate, or gone. */
  lemma CopyConserves(s: State, q: Request, a: Answers, others: Others)
    requires Conserved(s) && Careful(others, q.targetEnvironment) && q.targetEnvironment in s.store
    requires Honest(q, a, s.store[q.targetEnvironment].contexts)
    ensures var r := Copy(s, q, a, others);
            var start := s.store[q.targetEnvironment];
            var gone := RetainedTarget(start.bindings, WithContext(start.contexts, q, a), q.storageName);
            Conserved(if r.outcome.Completed? then Without(r.state, gone) else r.state) && AccountedFor(r, q)
  {
    var e := q.targetEnvironment;
    var target := s.store[e];
    StartSynced(s, e);
    ParsedRetainsTheSame(target, WithContext(target.contexts, q, a), q.storageName);
    hide RetainedTarget, WithContext, Without, Conserved, Synced, Careful, CandidateOrGone, InStorage, SourceReviewed, BindingBuckets, Parsed;
    NothingCreated(q);
    var start := Progress(s, [], target.(bindings := Parsed(target)), None, Continue);
    WaitSynced(start, e, others, 0);
    var p := Wait(start, others, 0);
    WaitSynced(p, e, others, 1);
    var connected := Wait(p, others, 1);
    SyncedConserves(p.state, e, p.memory);
    SyncedConserves(connected.state, e, p.memory);
    ClearConserves(connected, q, a, others);
    var cleared := ClearLingering(connected, q, a, others);
    SyncedConserves(cleared.state, e, cleared.memory);
    ClearNeverCompletes(connected, q, a, others);
    if q.sourceEnvironment in s.store { ReviewedIsBound(Parsed(s.store[q.sourceEnvironment]), q); }
    if cleared.outcome.Continue? && q.sourceEnvironment in s.store && q.storageName in Parsed(s.store[q.sourceEnvironment]) {
      ClearedConserves(cleared, q, a, others, Parsed(s.store[q.sourceEnvironment])[q.storageName]);
    }
    hide ClearLingering, ProvisionBucket, CopyAndCommit, AlreadyComplete, ScopedBucket, AccountedFor;
  }

  lemma ClearedConserves(cleared: Progress, q: Request, a: Answers, others: Others, source: Binding)
    requires Synced(cleared.state, q.targetEnvironment, cleared.memory) && Careful(others, q.targetEnvironment)
    requires Honest(q, a, cleared.memory.contexts) && q.storageName !in cleared.memory.candidates
    requires cleared.created.None? && cleared.outcome.Continue?
    ensures var made := ProvisionBucket(cleared, q, a, others);
            var r := if !made.outcome.Continue? || made.created.None? || q.storageName !in made.memory.candidates then made
                     else CopyAndCommit(made, q, a, others, source, cleared.memory.contexts);
            var gone := RetainedTarget(cleared.memory.bindings, WithContext(cleared.memory.contexts, q, a), q.storageName);
            Conserved(if r.outcome.Completed? then Without(r.state, gone) else r.state) && AccountedFor(r, q)
  {
    hide RetainedTarget, WithContext, Without, Conserved, Synced, Careful, CandidateOrGone, InStorage;
    NothingCreated(q);
    ProvisionConserves(cleared, q, a, others);
    var made := ProvisionBucket(cleared, q, a, others);
    SyncedConserves(made.state, q.targetEnvironment, made.memory);
    ProvisionNeverCompletes(cleared, q, a, others);
    if made.created.Some? { LastStages(made, q, a, others, source, cleared.memory.contexts); }
    hide ProvisionBucket, CopyAndCommit, ScopedBucket, AccountedFor;
  }

  lemma ParsedRetainsTheSame(st: Storage, contexts: map<string, Scope>, name: string)
    ensures RetainedTarget(Parsed(st), contexts, name) == RetainedTarget(st.bindings, contexts, name)
  {
  }

  lemma ClearNeverCompletes(p: Progress, q: Request, a: Answers, others: Others)
    requires p.outcome.Continue?
    ensures ClearLingering(p, q, a, others).outcome in {Continue, Stopped}
  {
  }

  lemma ProvisionNeverCompletes(p: Progress, q: Request, a: Answers, others: Others)
    requires p.outcome.Continue?
    ensures var r := ProvisionBucket(p, q, a, others);
            r.outcome in {Continue, Stopped} && (r.created.Some? && p.created.None? ==> r.outcome.Continue?)
  {
  }

  lemma NothingCreated(q: Request)
    ensures forall r: Progress :: r.created.None? && !r.outcome.Completed? ==> AccountedFor(r, q)
  {
  }

  // ------------------------------------------------ removing the old target

  /** Only the planned rollback target, in its own scope, is ever asked for. */
  lemma RemovesOnlyRetained(s: State, q: Removal, reviewed: bool, adapter: bool, d: Destroyed, others: Others)
    ensures var r := DestroyPrevious(s, q, reviewed, adapter, d, others);
            && (r.asked.None? ==> r.state.live == s.live && !r.outcome.Completed?)
            && (r.asked.Some? ==>
                  && q.targetEnvironment in s.store && q.storageName in s.store[q.targetEnvironment].bindings
                  && var b := s.store[q.targetEnvironment].bindings[q.storageName];
                     && b.previous.Some? && q.previousId == Some(b.previous.value.externalId) && q.provider == b.previous.value.provider
                     && ScopedBucket(b.previous.value.provider, b.previous.value.scope, b.previous.value.externalId,
                                     s.store[q.targetEnvironment].contexts) == {r.asked.value}
                     && s.live - {r.asked.value} <= r.state.live <= s.live)
  {
  }

  /** A second removal finds nothing to do. */
  lemma RemovalIsIdempotent(s: State, q: Removal, d: Destroyed, others: Others, d2: Destroyed, others2: Others)
    requires Careful(others, q.targetEnvironment) && DestroyPrevious(s, q, true, true, d, others).outcome.Completed?
    ensures var t := DestroyPrevious(s, q, true, true, d, others).state;
            DestroyPrevious(t, q, true, true, d2, others2) == Removed(t, None, Skipped)
  {
  }

  lemma TargetForgotten(live: set<Bucket>, store: Store, e: string, memory: Storage, name: string, target: Bucket)
    requires Accounted(live, store, e, memory) && name in memory.bindings && memory.bindings[name].previous.Some?
    requires var t := memory.bindings[name].previous.value;
             ScopedBucket(t.provider, t.scope, t.externalId, memory.contexts) == {target}
    ensures Accounted(live - {target}, store, e,
                      memory.(bindings := memory.bindings[name := memory.bindings[name].(previous := None)]))
  {
    var after := memory.(bindings := memory.bindings[name := memory.bindings[name].(previous := None)]);
    forall b | b in live - {target} && InStorage(memory, b) ensures InStorage(after, b) {
      if n :| n in memory.bindings && b in BindingBuckets(memory.bindings[n], memory.contexts) {
        assert b in BindingBuckets(after.bindings[n], after.contexts);
      } else {
        var n :| n in memory.candidates && BucketOf(memory.candidates[n]) == b;
        assert after.candidates[n] == memory.candidates[n];
      }
    }
  }

  lemma RemovalConserves(s: State, q: Removal, reviewed: bool, adapter: bool, d: Destroyed, others: Others)
    requires Conserved(s) && Careful(others, q.targetEnvironment)
    ensures Conserved(DestroyPrevious(s, q, reviewed, adapter, d, others).state)
  {
    var e := q.targetEnvironment;
    var r := DestroyPrevious(s, q, reviewed, adapter, d, others);
    RemovesOnlyRetained(s, q, reviewed, adapter, d, others);
    if e in s.store && r.state != s {
      var memory := s.store[e].(bindings := Parsed(s.store[e]));
      StartSynced(s, e);
      var start := Progress(s, [], memory, None, Continue);
      WaitSynced(start, e, others, 0);
      var connected := Wait(start, others, 0);
      SyncedConserves(connected.state, e, memory);
      if r.asked.Some? {
        WaitSynced(connected, e, others, 1);
        var waited := Wait(connected, others, 1);
        AskedSynced(waited, e, r.asked.value, d);
        SyncedConserves(Asked(waited, r.asked.value, d).state, e, memory);
        SyncedAccounted(waited, e);
        TargetForgotten(waited.state.live, waited.state.store, e, memory, q.storageName, r.asked.value);
        AccountedConserves(waited.state.live - {r.asked.value}, waited.state.store, e,
                           memory.(bindings := memory.bindings[q.storageName := memory.bindings[q.storageName].(previous := None)]));
      }
    }
    hide Conserved, Synced, Careful, InStorage, Accounted;
  }
}
