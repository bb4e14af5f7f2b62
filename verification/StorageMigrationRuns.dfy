/** Storage migrations over whole runs: what other writers cannot take away, and what is lost. */
module StorageMigrationRuns {
  import opened Json
  import opened StorageMigrationSteps
  import opened StorageMigrationSafety
  import opened StorageMigrationConservation

  // ------------------------------------------------ what a completed run leaves

  /** Other writers name `b` in no further environment. */
  ghost predicate NoMention(others: Others, e: string, b: Bucket) {
    forall i, store: Store :: Elsewhere(others(i, store), e, b) ==> Elsewhere(store, e, b)
  }

  /** Other environments go on naming `b`; none begins to if other writers name it in no further one. */
  ghost predicate SameElsewhere(before: Store, after: Store, others: Others, e: string, b: Bucket) {
    && (Elsewhere(before, e, b) ==> Elsewhere(after, e, b))
    && (NoMention(others, e, b) && Elsewhere(after, e, b) ==> Elsewhere(before, e, b))
  }

  lemma PersistElsewhere(store: Store, e: string, st: Storage, b: Bucket)
    ensures Elsewhere(Persist(store, e, st), e, b) <==> Elsewhere(store, e, b)
  {
    hide InStorage;
    if f :| f != e && f in store && InStorage(store[f], b) {
      assert Persist(store, e, st)[f] == store[f];
    }
    if f :| f != e && f in Persist(store, e, st) && InStorage(Persist(store, e, st)[f], b) {
      assert Persist(store, e, st)[f] == store[f];
    }
  }

  lemma WaitElsewhere(others: Others, e: string, b: Bucket, i: nat, store: Store)
    requires Careful(others, e)
    ensures SameElsewhere(store, others(i, store), others, e, b)
    ensures e in store ==> e in others(i, store)
  {
    hide InStorage;
  }

  lemma ClearedUnder(p: Progress, q: Request, a: Answers, others: Others, b: Bucket)
    requires Careful(others, q.targetEnvironment)
    requires q.targetEnvironment in p.state.store && ClearLingering(p, q, a, others).outcome.Continue?
    ensures var r := ClearLingering(p, q, a, others);
            && r.memory == WithoutCandidate(p.memory, q.storageName) && q.targetEnvironment in r.state.store
            && SameElsewhere(p.state.store, r.state.store, others, q.targetEnvironment, b)
            && r.state.live == if q.storageName in p.memory.candidates then
                                 p.state.live - {BucketOf(p.memory.candidates[q.storageName])}
                               else p.state.live
  {
    var now := others(2, p.state.store);
    WaitElsewhere(others, q.targetEnvironment, b, 2, p.state.store);
    PersistElsewhere(now, q.targetEnvironment, WithoutCandidate(p.memory, q.storageName), b);
    hide Elsewhere, Careful, NoMention;
  }

  lemma ProvisionedUnder(p: Progress, q: Request, a: Answers, others: Others, b: Bucket)
    requires Careful(others, q.targetEnvironment)
    requires q.targetEnvironment in p.state.store && p.outcome.Continue? && ProvisionBucket(p, q, a, others).outcome.Continue?
    ensures a.context.Some? && a.bucket.Some?
    ensures var r := ProvisionBucket(p, q, a, others);
            var c := Candidate(q.migrationId, q.targetProvider, a.bucket.value, q.region, a.context.value);
            && r.memory == Storage(p.memory.bindings, p.memory.contexts[q.targetProvider := a.context.value],
                                   p.memory.candidates[q.storageName := c])
            && q.targetEnvironment in r.state.store && r.created == Some(BucketOf(c)) && r.state.live == p.state.live + {BucketOf(c)}
            && SameElsewhere(p.state.store, r.state.store, others, q.targetEnvironment, b)
  {
    var one := others(3, p.state.store);
    WaitElsewhere(others, q.targetEnvironment, b, 3, p.state.store);
    var two := others(4, one);
    WaitElsewhere(others, q.targetEnvironment, b, 4, one);
    PersistElsewhere(two, q.targetEnvironment, ProvisionBucket(p, q, a, others).memory, b);
    hide Elsewhere, Careful, NoMention;
  }

  lemma SwappedUnder(start: Storage, p: Progress, q: Request, a: Answers, others: Others, source: Binding, b: Bucket)
    requires Careful(others, q.targetEnvironment)
    requires q.targetEnvironment in p.state.store && p.created.Some? && a.context.Some? && a.bucket.Some?
    requires var c := Candidate(q.migrationId, q.targetProvider, a.bucket.value, q.region, a.context.value);
             p.memory == Storage(Parsed(start), start.contexts[q.targetProvider := a.context.value],
                                 WithoutCandidate(start, q.storageName).candidates[q.storageName := c])
    requires CopyAndCommit(p, q, a, others, source, start.contexts).outcome.Completed?
    ensures var r := CopyAndCommit(p, q, a, others, source, start.contexts);
            && q.targetEnvironment in r.state.store && r.state.store[q.targetEnvironment] == Left(start, q, a)
            && r.created == p.created && r.state.live == p.state.live
            && SameElsewhere(p.state.store, r.state.store, others, q.targetEnvironment, b)
  {
    var now := others(5, p.state.store);
    WaitElsewhere(others, q.targetEnvironment, b, 5, p.state.store);
    PersistElsewhere(now, q.targetEnvironment, Left(start, q, a), b);
    assert Left(start, q, a).candidates ==
           p.memory.candidates - {q.storageName};
    hide Elsewhere, Careful, NoMention, SourceUnchanged, TargetUnchanged, Scoped, Replaced;
  }

  function Reading(start: Storage, s: State): Progress {
    Progress(s, [], start.(bindings := Parsed(start)), None, Continue)
  }

  function Connected(s: State, q: Request, others: Others): Progress
    requires q.targetEnvironment in s.store
  {
    Wait(Wait(Reading(s.store[q.targetEnvironment], s), others, 0), others, 1)
  }

  /** A completed run went through every stage. */
  lemma CompletedStages(s: State, q: Request, a: Answers, others: Others)
    requires Copy(s, q, a, others).outcome.Completed?
    ensures q.targetEnvironment in s.store && q.sourceEnvironment in s.store
            && q.storageName in Parsed(s.store[q.sourceEnvironment])
    ensures var cleared := ClearLingering(Connected(s, q, others), q, a, others);
            var made := ProvisionBucket(cleared, q, a, others);
            && cleared.outcome.Continue? && made.outcome.Continue? && made.created.Some? && q.storageName in made.memory.candidates
            && Copy(s, q, a, others) ==
                 CopyAndCommit(made, q, a, others, Parsed(s.store[q.sourceEnvironment])[q.storageName],
                               s.store[q.targetEnvironment].contexts)
  {
    hide AlreadyComplete, SourceReviewed, Parsed, ClearLingering, ProvisionBucket, CopyAndCommit;
    if q.sourceEnvironment in s.store { ReviewedIsBound(Parsed(s.store[q.sourceEnvironment]), q); }
    if q.targetEnvironment in s.store {
      var connected := Connected(s, q, others);
      ClearNeverCompletes(connected, q, a, others);
      ProvisionNeverCompletes(ClearLingering(connected, q, a, others), q, a, others);
    }
  }

  lemma CompletedLeaves(s: State, q: Request, a: Answers, others: Others, b: Bucket)
    requires Careful(others, q.targetEnvironment)
    requires Copy(s, q, a, others).outcome.Completed?
    ensures q.targetEnvironment in s.store && a.context.Some? && a.bucket.Some?
    ensures var e, r, start := q.targetEnvironment, Copy(s, q, a, others), s.store[q.targetEnvironment];
            && e in r.state.store && r.state.store[e] == Left(start, q, a)
            && r.created == Some(Bucket(q.targetProvider, a.context.value, a.bucket.value))
            && r.state.live == {r.created.value}
                               + (if q.storageName in start.candidates then s.live - {BucketOf(start.candidates[q.storageName])} else s.live)
            && SameElsewhere(s.store, r.state.store, others, e, b)
  {
    CompletedStages(s, q, a, others);
    hide Elsewhere, Careful, NoMention, Parsed, ClearLingering, ProvisionBucket, CopyAndCommit, Left, Copy;
    var e, start := q.targetEnvironment, s.store[q.targetEnvironment];
    var p, connected := Reading(start, s), Connected(s, q, others);
    WaitElsewhere(others, e, b, 0, s.store);
    WaitElsewhere(others, e, b, 1, Wait(p, others, 0).state.store);
    ClearedUnder(connected, q, a, others, b);
    var cleared := ClearLingering(connected, q, a, others);
    ProvisionedUnder(cleared, q, a, others, b);
    var made := ProvisionBucket(cleared, q, a, others);
    SwappedUnder(start, made, q, a, others, Parsed(s.store[q.sourceEnvironment])[q.storageName], b);
  }

  /** What the run read, under the provider context it resolves. */
  function Known(start: Storage, q: Request, a: Answers): Storage {
    Storage(Parsed(start), WithContext(start.contexts, q, a), start.candidates)
  }

  /** The same without the rollback target retained under the name that is swapped. */
  function WithoutRetained(start: Storage, q: Request, a: Answers): Storage
    requires q.storageName in start.bindings
  {
    var known := Known(start, q, a);
    known.(bindings := known.bindings[q.storageName := known.bindings[q.storageName].(previous := None)])
  }

  lemma LeftNamesNoMore(start: Storage, q: Request, a: Answers, b: Bucket)
    requires a.context.Some? && a.bucket.Some? && InStorage(Left(start, q, a), b)
    requires b != Bucket(q.targetProvider, a.context.value, a.bucket.value)
    ensures if q.storageName in start.bindings then InStorage(WithoutRetained(start, q, a), b) else InStorage(Known(start, q, a), b)
  {
    var left, n := Left(start, q, a), q.storageName;
    var known := if n in start.bindings then WithoutRetained(start, q, a) else Known(start, q, a);
    if m :| m in left.bindings && b in BindingBuckets(left.bindings[m], left.contexts) {
      ScopeStays(start, q, a);
      assert m in known.bindings && b in BindingBuckets(known.bindings[m], known.contexts);
    } else {
      var m :| m in left.candidates && BucketOf(left.candidates[m]) == b;
      assert known.candidates[m] == left.candidates[m];
    }
    hide Scoped;
  }

  lemma ScopeStays(start: Storage, q: Request, a: Answers)
    ensures q.storageName in start.bindings ==>
              var own := Parsed(start)[q.storageName];
              Replaced(own, start.contexts) == Target(own.provider, own.externalId, own.scope, own.region)
  {
  }

  lemma LeftNamesTheRest(start: Storage, q: Request, a: Answers, b: Bucket)
    requires a.context.Some? && a.bucket.Some? && q.storageName in start.bindings && InStorage(WithoutRetained(start, q, a), b)
    requires q.storageName in start.candidates ==> b != BucketOf(start.candidates[q.storageName])
    ensures InStorage(Left(start, q, a), b)
  {
    var left, known := Left(start, q, a), WithoutRetained(start, q, a);
    if m :| m in known.bindings && b in BindingBuckets(known.bindings[m], known.contexts) {
      ScopeStays(start, q, a);
      assert b in BindingBuckets(left.bindings[m], left.contexts);
    } else {
      var m :| m in known.candidates && BucketOf(known.candidates[m]) == b;
      assert left.candidates[m] == known.candidates[m];
    }
    hide Scoped;
  }

  lemma LeftNamesFresh(start: Storage, q: Request, a: Answers)
    requires a.context.Some? && a.bucket.Some?
    ensures InStorage(Left(start, q, a), Bucket(q.targetProvider, a.context.value, a.bucket.value))
  {
    var left := Left(start, q, a);
    assert Bucket(q.targetProvider, a.context.value, a.bucket.value) in BindingBuckets(left.bindings[q.storageName], left.contexts);
  }

  /** A second migration completed over a retained rollback target loses that target, exactly
      when it still lives and nothing else names it: no other environment, no other binding
      or candidate, and not the swapped binding itself, before or after. */
  lemma RetainedTargetLostExactly(s: State, q: Request, a: Answers, others: Others, earlier: Bucket)
    requires Conserved(s) && Careful(others, q.targetEnvironment) && NoMention(others, q.targetEnvironment, earlier)
    requires Copy(s, q, a, others).outcome.Completed? && q.targetEnvironment in s.store
    requires var start := s.store[q.targetEnvironment];
             Honest(q, a, start.contexts) && RetainedTarget(start.bindings, start.contexts, q.storageName) == {earlier}
    ensures !Conserved(Copy(s, q, a, others).state)
       <==> && earlier in s.live && Copy(s, q, a, others).created != Some(earlier)
            && !Elsewhere(s.store, q.targetEnvironment, earlier)
            && !InStorage(WithoutRetained(s.store[q.targetEnvironment], q, a), earlier)
  {
    var e, start, r := q.targetEnvironment, s.store[q.targetEnvironment], Copy(s, q, a, others);
    CopyConserves(s, q, a, others);
    CompletedLeaves(s, q, a, others, earlier);
    assert RetainedTarget(start.bindings, WithContext(start.contexts, q, a), q.storageName) == {earlier};
    hide Copy, InStorage, Parsed, Left, WithoutRetained, RetainedTarget, AccountedFor, Careful, NoMention, Elsewhere;
    if earlier !in s.live || r.created == Some(earlier) || Elsewhere(s.store, e, earlier)
       || InStorage(WithoutRetained(start, q, a), earlier)
    {
      RetainedStaysNamed(s, q, a, others, earlier);
    }
    if InStorage(Left(start, q, a), earlier) && r.created != Some(earlier) { LeftNamesNoMore(start, q, a, earlier); }
    if q.storageName in start.candidates && earlier == BucketOf(start.candidates[q.storageName]) {
      CandidateStaysNamed(start, q, a);
    }
    TrackedHereOrElsewhere(r.state.store, e, earlier);
    assert Conserved(r.state) <==> (earlier in r.state.live ==> IsTracked(r.state.store, earlier)) by { hide IsTracked; }
  }

  lemma RetainedStaysNamed(s: State, q: Request, a: Answers, others: Others, earlier: Bucket)
    requires Careful(others, q.targetEnvironment) && Copy(s, q, a, others).outcome.Completed?
    requires q.targetEnvironment in s.store && q.storageName in s.store[q.targetEnvironment].bindings
    requires earlier in s.live ==>
               Elsewhere(s.store, q.targetEnvironment, earlier)
               || InStorage(WithoutRetained(s.store[q.targetEnvironment], q, a), earlier)
               || Copy(s, q, a, others).created == Some(earlier)
    ensures var r := Copy(s, q, a, others); earlier in r.state.live ==> IsTracked(r.state.store, earlier)
  {
    var e, start, r := q.targetEnvironment, s.store[q.targetEnvironment], Copy(s, q, a, others);
    CompletedLeaves(s, q, a, others, earlier);
    hide Copy, InStorage, Parsed, Left, WithoutRetained, Careful, NoMention, Elsewhere;
    LeftNamesFresh(start, q, a);
    if InStorage(WithoutRetained(start, q, a), earlier) && earlier in r.state.live && r.created != Some(earlier) {
      LeftNamesTheRest(start, q, a, earlier);
    }
    TrackedHereOrElsewhere(r.state.store, e, earlier);
    hide IsTracked;
  }

  lemma CandidateStaysNamed(start: Storage, q: Request, a: Answers)
    requires q.storageName in start.candidates && q.storageName in start.bindings
    ensures InStorage(WithoutRetained(start, q, a), BucketOf(start.candidates[q.storageName]))
  {
    assert q.storageName in WithoutRetained(start, q, a).candidates;
    hide Parsed;
  }

  lemma TrackedHereOrElsewhere(store: Store, e: string, b: Bucket)
    requires e in store
    ensures IsTracked(store, b) <==> InStorage(store[e], b) || Elsewhere(store, e, b)
  {
    hide InStorage;
  }

  // ------------------------------------------------------ a newer bucket lost

  /** The worst of a change that goes unseen: the bucket of the other writer, whom the run
      completes over, is named nowhere afterwards. */
  lemma UnseenChangeIsForgotten(s: State, q: Request, a: Answers, newer: Binding, b: Bucket)
    requires WritesSomething(s, q, a) && a.context.Some? && a.bucket.Some? && a.copied
    requires newer.scope.Some? && b == Bucket(newer.provider, newer.scope.value, newer.externalId)
    requires b != Bucket(q.targetProvider, a.context.value, a.bucket.value)
    requires !InStorage(Known(s.store[q.targetEnvironment], q, a), b) && !Elsewhere(s.store, q.targetEnvironment, b)
    ensures var r := Copy(s, q, a, Storing(q.targetEnvironment, q.storageName, newer, {3}));
            r.outcome.Completed? && !IsTracked(r.state.store, b) && (b in s.live ==> !Conserved(r.state))
  {
    var e := q.targetEnvironment;
    var r, start := Copy(s, q, a, Storing(e, q.storageName, newer, {3})), s.store[e];
    CompletesOverUnseenChange(s, q, a, newer);
    if InStorage(Left(start, q, a), b) {
      LeftNamesNoMore(start, q, a, b);
      if q.storageName in start.bindings { FewerNamed(start, q, a, b); }
    }
    assert Elsewhere(r.state.store, e, b) ==> Elsewhere(s.store, e, b) by { hide InStorage, Copy, Left; }
    assert q.storageName in start.candidates ==> q.storageName in Known(start, q, a).candidates by { hide Parsed, Copy; }
    hide Elsewhere, Copy, Left, WritesSomething, Known;
    TrackedHereOrElsewhere(r.state.store, e, b);
    hide IsTracked;
  }

  lemma FewerNamed(start: Storage, q: Request, a: Answers, b: Bucket)
    requires q.storageName in start.bindings && InStorage(WithoutRetained(start, q, a), b)
    ensures InStorage(Known(start, q, a), b)
  {
    var fewer, known := WithoutRetained(start, q, a), Known(start, q, a);
    if m :| m in fewer.bindings && b in BindingBuckets(fewer.bindings[m], fewer.contexts) {
      assert b in BindingBuckets(known.bindings[m], known.contexts);
    }
    hide Parsed;
  }

  // ---------------------------------- the fresh bucket, whatever others write

  function CandidateAt(store: Store, e: string, n: string): Option<Candidate> {
    if e in store && n in store[e].candidates then Some(store[e].candidates[n]) else None
  }

  function CandidateIn(st: Storage, n: string): Option<Candidate> {
    if n in st.candidates then Some(st.candidates[n]) else None
  }

  /** Other writers leave what is recorded as candidate under `n`; they may change every
      binding, context and other candidate, of this environment too. */
  ghost predicate KeepsCandidate(others: Others, e: string, n: string) {
    forall i, store: Store :: e in store ==>
      e in others(i, store) && CandidateAt(others(i, store), e, n) == CandidateAt(store, e, n)
  }

  /** Of the unfinished buckets at most one lives: the one recorded as candidate. */
  ghost predicate Unfinished(s: State, e: string, n: string, made: set<Bucket>) {
    forall b :: b in made && b in s.live ==>
      CandidateAt(s.store, e, n).Some? && BucketOf(CandidateAt(s.store, e, n).value) == b
  }

  /** The memory of the run and the store agree on the candidate. */
  predicate Agreed(p: Progress, q: Request) {
    && q.targetEnvironment in p.state.store
    && CandidateAt(p.state.store, q.targetEnvironment, q.storageName) == CandidateIn(p.memory, q.storageName)
  }

  predicate HoldsFresh(p: Progress, q: Request) {
    && Agreed(p, q) && p.created.Some? && q.storageName in p.memory.candidates
    && p.memory.candidates[q.storageName].provider == q.targetProvider
    && BucketOf(p.memory.candidates[q.storageName]) == p.created.value
  }

  function WithMade(made: set<Bucket>, r: Progress): set<Bucket> {
    if r.created.None? then made else if r.outcome.Completed? then made - {r.created.value} else made + {r.created.value}
  }

  lemma WaitAgreed(p: Progress, q: Request, others: Others, i: nat, made: set<Bucket>)
    requires Agreed(p, q) && KeepsCandidate(others, q.targetEnvironment, q.storageName)
    requires Unfinished(p.state, q.targetEnvironment, q.storageName, made)
    ensures Agreed(Wait(p, others, i), q) && Unfinished(Wait(p, others, i).state, q.targetEnvironment, q.storageName, made)
  {
  }

  lemma ClearUnfinished(p: Progress, q: Request, a: Answers, others: Others, made: set<Bucket>)
    requires Agreed(p, q) && KeepsCandidate(others, q.targetEnvironment, q.storageName) && p.outcome.Continue?
    requires Unfinished(p.state, q.targetEnvironment, q.storageName, made)
    ensures var r := ClearLingering(p, q, a, others);
            && Agreed(r, q) && Unfinished(r.state, q.targetEnvironment, q.storageName, made) && r.created == p.created
            && r.memory.contexts == p.memory.contexts && !r.outcome.Completed?
            && (r.outcome.Continue? ==> q.storageName !in r.memory.candidates)
  {
    WaitAgreed(p, q, others, 2, made);
    hide KeepsCandidate;
  }

  lemma ProvisionUnfinished(p: Progress, q: Request, a: Answers, others: Others, made: set<Bucket>)
    requires Agreed(p, q) && KeepsCandidate(others, q.targetEnvironment, q.storageName) && p.outcome.Continue?
    requires Unfinished(p.state, q.targetEnvironment, q.storageName, made)
    requires q.storageName !in p.memory.candidates && p.created.None?
    ensures var r := ProvisionBucket(p, q, a, others);
            && Agreed(r, q) && Unfinished(r.state, q.targetEnvironment, q.storageName, WithMade(made, r))
            && !r.outcome.Completed? && (r.created.Some? ==> HoldsFresh(r, q))
  {
    WaitAgreed(p, q, others, 3, made);
    WaitAgreed(Wait(p, others, 3), q, others, 4, made);
    hide KeepsCandidate;
  }

  /** Cleaning up the fresh bucket, then storing `latest`, which records it. */
  lemma CleanedUpUnfinished(p: Progress, q: Request, a: Answers, latest: Storage, why: Why, made: set<Bucket>)
    requires p.created.Some? && Unfinished(p.state, q.targetEnvironment, q.storageName, made + {p.created.value})
    requires CandidateAt(p.state.store, q.targetEnvironment, q.storageName) == CandidateIn(latest, q.storageName)
    requires q.storageName in latest.candidates && BucketOf(latest.candidates[q.storageName]) == p.created.value
    ensures var left := if a.cleanup.Gone? then WithoutCandidate(latest, q.storageName) else latest;
            var r := Stop(Save(Asked(p, p.created.value, a.cleanup).(memory := left), q.targetEnvironment, why));
            && q.targetEnvironment in r.state.store && AccountedFor(r, q)
            && Unfinished(r.state, q.targetEnvironment, q.storageName, made + {p.created.value})
  {
  }

  lemma LastUnfinished(p: Progress, q: Request, a: Answers, others: Others, source: Binding, contexts: map<string, Scope>,
                       made: set<Bucket>)
    requires HoldsFresh(p, q) && KeepsCandidate(others, q.targetEnvironment, q.storageName)
    requires Unfinished(p.state, q.targetEnvironment, q.storageName, made + {p.created.value})
    ensures var r := CopyAndCommit(p, q, a, others, source, contexts);
            && q.targetEnvironment in r.state.store && AccountedFor(r, q) && r.created == p.created
            && Unfinished(r.state, q.targetEnvironment, q.storageName, WithMade(made, r))
  {
    var now := made + {p.created.value};
    WaitAgreed(p, q, others, 5, now);
    var copied := Wait(p, others, 5);
    WaitAgreed(copied, q, others, 6, now);
    var waited := Wait(copied, others, 6);
    CleanedUpUnfinished(waited, q, a, p.memory, Dropped, made);
    var read := copied.state.store[q.targetEnvironment];
    CleanedUpUnfinished(waited, q, a, Storage(Parsed(read), read.contexts, read.candidates), FoundStale, made);
    CommitUnfinished(copied, q, a, contexts, made);
    hide KeepsCandidate, SourceUnchanged, TargetUnchanged, Unfinished, Parsed, AccountedFor, Commit;
  }

  lemma CommitUnfinished(p: Progress, q: Request, a: Answers, contexts: map<string, Scope>, made: set<Bucket>)
    requires HoldsFresh(p, q) && Unfinished(p.state, q.targetEnvironment, q.storageName, made + {p.created.value})
    ensures var r := Commit(p, q, a, contexts);
            && r.outcome.Completed? && q.targetEnvironment in r.state.store && AccountedFor(r, q) && r.created == p.created
            && Unfinished(r.state, q.targetEnvironment, q.storageName, made - {p.created.value})
  {
    hide Replaced;
  }

  /** Whatever other writers make of the bindings meanwhile: the bucket a migration makes is
      the active one when it completes, else the recorded candidate, or gone; and nothing it
      or earlier attempts left unfinished lives but that candidate. */
  lemma FreshIsAccountedFor(s: State, q: Request, a: Answers, others: Others, made: set<Bucket>)
    requires KeepsCandidate(others, q.targetEnvironment, q.storageName) && q.targetEnvironment in s.store
    requires Unfinished(s, q.targetEnvironment, q.storageName, made)
    ensures var r := Copy(s, q, a, others);
            && q.targetEnvironment in r.state.store && AccountedFor(r, q)
            && Unfinished(r.state, q.targetEnvironment, q.storageName, WithMade(made, r))
  {
    hide AlreadyComplete, SourceReviewed, Parsed, ClearLingering, ProvisionBucket, CopyAndCommit, AccountedFor, Unfinished,
         KeepsCandidate;
    NothingCreated(q);
    var start := s.store[q.targetEnvironment];
    WaitAgreed(Reading(start, s), q, others, 0, made);
    WaitAgreed(Wait(Reading(start, s), others, 0), q, others, 1, made);
    var connected := Connected(s, q, others);
    ClearUnfinished(connected, q, a, others, made);
    var cleared := ClearLingering(connected, q, a, others);
    if cleared.outcome.Continue? && q.sourceEnvironment in s.store && q.storageName in Parsed(s.store[q.sourceEnvironment]) {
      ClearedUnfinished(cleared, q, a, others, Parsed(s.store[q.sourceEnvironment])[q.storageName], made);
    }
    if q.sourceEnvironment in s.store { ReviewedIsBound(Parsed(s.store[q.sourceEnvironment]), q); }
  }

  lemma ClearedUnfinished(p: Progress, q: Request, a: Answers, others: Others, source: Binding, made: set<Bucket>)
    requires Agreed(p, q) && KeepsCandidate(others, q.targetEnvironment, q.storageName) && p.outcome.Continue?
    requires Unfinished(p.state, q.targetEnvironment, q.storageName, made)
    requires q.storageName !in p.memory.candidates && p.created.None?
    ensures var next := ProvisionBucket(p, q, a, others);
            var r := if !next.outcome.Continue? || next.created.None? || q.storageName !in next.memory.candidates then next
                     else CopyAndCommit(next, q, a, others, source, p.memory.contexts);
            && q.targetEnvironment in r.state.store && AccountedFor(r, q)
            && Unfinished(r.state, q.targetEnvironment, q.storageName, WithMade(made, r))
  {
    NothingCreated(q);
    ProvisionUnfinished(p, q, a, others, made);
    ProvisionNeverCompletes(p, q, a, others);
    var next := ProvisionBucket(p, q, a, others);
    if next.created.Some? {
      LastUnfinished(next, q, a, others, source, p.memory.contexts, made);
    }
    hide ProvisionBucket, CopyAndCommit, AccountedFor, Unfinished, KeepsCandidate;
  }

  // ------------------------------------------------------------------ runs

  datatype Event =
    | Migration(request: Request, answers: Answers, others: Others)
    | PreviousRemoval(removal: Removal, reviewed: bool, adapter: bool, destroyed: Destroyed, others: Others)

  function Step(s: State, e: Event): State {
    match e
    case Migration(q, a, others) => Copy(s, q, a, others).state
    case PreviousRemoval(q, reviewed, adapter, d, others) => DestroyPrevious(s, q, reviewed, adapter, d, others).state
  }

  function Run(s: State, events: seq<Event>): State {
    if events == [] then s else Step(Run(s, events[..|events| - 1]), events[|events| - 1])
  }

  /** A rollback target retained at the start, and still alive, is named beside it. */
  ghost predicate RetainedNamed(s: State, q: Request, a: Answers)
    requires q.targetEnvironment in s.store
  {
    var start := s.store[q.targetEnvironment];
    q.storageName in start.bindings ==>
      forall b :: b in RetainedTarget(start.bindings, WithContext(start.contexts, q, a), q.storageName) && b in s.live ==>
        Elsewhere(s.store, q.targetEnvironment, b) || InStorage(WithoutRetained(start, q, a), b)
  }

  /** Nobody else writes the environment's storage records meanwhile, and a migration that
      completes forgets no rollback target that is named nowhere else. */
  ghost predicate Proper(s: State, e: Event) {
    match e
    case Migration(q, a, others) =>
      && Careful(others, q.targetEnvironment)
      && (q.targetEnvironment in s.store ==>
            Honest(q, a, s.store[q.targetEnvironment].contexts)
            && (Copy(s, q, a, others).outcome.Completed? ==> RetainedNamed(s, q, a)))
    case PreviousRemoval(q, _, _, _, others) => Careful(others, q.targetEnvironment)
  }

  ghost predicate ProperRun(s: State, events: seq<Event>) {
    forall i :: 0 <= i < |events| ==> Proper(Run(s, events[..i]), events[i])
  }

  /** Over any number of migrations, retries and removals, by any outcomes, every live bucket
      stays in the store: as active binding, recorded candidate or rollback target. */
  lemma {:induction false} EveryRunConserves(s: State, events: seq<Event>)
    requires Conserved(s) && ProperRun(s, events)
    ensures Conserved(Run(s, events))
  {
    hide Step, Proper, Conserved;
    if events != [] {
      var init := events[..|events| - 1];
      assert ProperRun(s, init) by {
        forall i | 0 <= i < |init| ensures Proper(Run(s, init[..i]), init[i]) { assert init[..i] == events[..i]; }
      }
      EveryRunConserves(s, init);
      StepConserves(Run(s, init), events[|events| - 1]);
    }
  }

  lemma MigrationConserves(s: State, q: Request, a: Answers, others: Others)
    requires Conserved(s) && Careful(others, q.targetEnvironment) && q.targetEnvironment in s.store
    requires Honest(q, a, s.store[q.targetEnvironment].contexts)
    requires Copy(s, q, a, others).outcome.Completed? ==> RetainedNamed(s, q, a)
    ensures Conserved(Copy(s, q, a, others).state)
  {
    CopyConserves(s, q, a, others);
    var r, start := Copy(s, q, a, others), s.store[q.targetEnvironment];
    if r.outcome.Completed? {
      var gone := RetainedTarget(start.bindings, WithContext(start.contexts, q, a), q.storageName);
      assert q.storageName !in start.bindings ==> gone == {};
      hide Copy, RetainedTarget, WithContext, IsTracked, AccountedFor, Elsewhere, InStorage, Careful, WithoutRetained;
      forall b | b in r.state.live ensures IsTracked(r.state.store, b) {
        if b in gone { RetainedStaysNamed(s, q, a, others, b); } else { assert b in Without(r.state, gone).live; }
      }
    }
  }

  lemma StepConserves(s: State, e: Event)
    requires Conserved(s) && Proper(s, e)
    ensures Conserved(Step(s, e))
  {
    hide Conserved, Careful, DestroyPrevious;
    match e
    case Migration(q, a, others) =>
      if q.targetEnvironment in s.store {
        MigrationConserves(s, q, a, others);
        hide Copy;
      }
    case PreviousRemoval(q, reviewed, adapter, d, others) => RemovalConserves(s, q, reviewed, adapter, d, others);
  }

  // ------------------------------- over runs, whatever others write to bindings

  predicate Targets(q: Request, e: string, n: string) { q.targetEnvironment == e && q.storageName == n }

  /** What the migrations of this binding made over the run and did not complete. */
  ghost function Made(s: State, events: seq<Event>, e: string, n: string): set<Bucket> {
    if events == [] then {}
    else
      var init, last := events[..|events| - 1], events[|events| - 1];
      if last.Migration? && Targets(last.request, e, n) then
        WithMade(Made(s, init, e, n), Copy(Run(s, init), last.request, last.answers, last.others))
      else Made(s, init, e, n)
  }

  /** Other writers leave the candidate alone, and other migrations do not make the same bucket. */
  ghost predicate Apart(s: State, ev: Event, e: string, n: string, made: set<Bucket>) {
    && KeepsCandidate(ev.others, e, n)
    && (ev.Migration? && !Targets(ev.request, e, n) ==>
          var created := Copy(s, ev.request, ev.answers, ev.others).created;
          created.Some? ==> created.value !in made)
  }

  /** A migration of another binding keeps the candidate of this one. */
  predicate Beside(p: Progress, q: Request, e: string, n: string, c: Option<Candidate>) {
    && e in p.state.store && CandidateAt(p.state.store, e, n) == c
    && (q.targetEnvironment == e ==> CandidateIn(p.memory, n) == c)
  }

  function Fresh(p: Progress): set<Bucket> { if p.created.Some? then {p.created.value} else {} }

  lemma ClearBeside(p: Progress, q: Request, a: Answers, others: Others, e: string, n: string, c: Option<Candidate>)
    requires KeepsCandidate(others, e, n) && !Targets(q, e, n) && Beside(p, q, e, n, c)
    ensures var r := ClearLingering(p, q, a, others);
            Beside(r, q, e, n, c) && r.created == p.created && r.state.live <= p.state.live
  {
  }

  lemma ProvisionBeside(p: Progress, q: Request, a: Answers, others: Others, e: string, n: string, c: Option<Candidate>)
    requires KeepsCandidate(others, e, n) && !Targets(q, e, n) && Beside(p, q, e, n, c) && p.created.None?
    ensures var r := ProvisionBucket(p, q, a, others); Beside(r, q, e, n, c) && r.state.live <= p.state.live + Fresh(r)
  {
    var one := others(3, p.state.store);
    assert CandidateAt(one, e, n) == c;
    var two := others(4, one);
    assert CandidateAt(two, e, n) == c;
  }

  lemma LastBeside(p: Progress, q: Request, a: Answers, others: Others, source: Binding, contexts: map<string, Scope>,
                   e: string, n: string, c: Option<Candidate>)
    requires KeepsCandidate(others, e, n) && !Targets(q, e, n) && Beside(p, q, e, n, c)
    requires p.created.Some? && q.storageName in p.memory.candidates
    ensures var r := CopyAndCommit(p, q, a, others, source, contexts);
            && e in r.state.store && CandidateAt(r.state.store, e, n) == c && r.created == p.created
            && r.state.live <= p.state.live
  {
    var one := others(5, p.state.store);
    assert CandidateAt(one, e, n) == c;
    var two := others(6, one);
    assert CandidateAt(two, e, n) == c;
    hide SourceUnchanged, TargetUnchanged, NextBinding, KeepsCandidate, Parsed;
    var copied := Wait(p, others, 5);
    FailedBeside(copied, q, a, others, e, n, c);
    StaleBeside(copied, q, a, others, e, n, c);
    hide CopyFailed, Stale, CandidateAt, CandidateIn;
    CommitBeside(copied, q, a, contexts, e, n, c);
    hide Commit;
  }

  lemma FailedBeside(p: Progress, q: Request, a: Answers, others: Others, e: string, n: string, c: Option<Candidate>)
    requires !Targets(q, e, n) && Beside(Wait(p, others, 6), q, e, n, c) && p.created.Some?
    ensures var r := CopyFailed(p, q, a, others);
            && e in r.state.store && CandidateAt(r.state.store, e, n) == c && r.created == p.created
            && r.state.live <= p.state.live
  {
  }

  lemma StaleBeside(p: Progress, q: Request, a: Answers, others: Others, e: string, n: string, c: Option<Candidate>)
    requires !Targets(q, e, n) && Beside(p, q, e, n, c) && Beside(Wait(p, others, 6), q, e, n, c) && p.created.Some?
    ensures var r := Stale(p, q, a, others);
            && e in r.state.store && CandidateAt(r.state.store, e, n) == c && r.created == p.created
            && r.state.live <= p.state.live
  {
    hide Parsed;
  }

  lemma CommitBeside(p: Progress, q: Request, a: Answers, contexts: map<string, Scope>, e: string, n: string,
                     c: Option<Candidate>)
    requires !Targets(q, e, n) && Beside(p, q, e, n, c) && q.storageName in p.memory.candidates
    ensures var r := Commit(p, q, a, contexts);
            && e in r.state.store && CandidateAt(r.state.store, e, n) == c && r.created == p.created
            && r.state.live == p.state.live
  {
    hide NextBinding;
  }

  lemma OtherCopyKeepsCandidate(s: State, q: Request, a: Answers, others: Others, e: string, n: string)
    requires KeepsCandidate(others, e, n) && !Targets(q, e, n) && e in s.store
    ensures var r := Copy(s, q, a, others);
            && e in r.state.store && CandidateAt(r.state.store, e, n) == CandidateAt(s.store, e, n)
            && r.state.live <= s.live + Fresh(r)
  {
    hide AlreadyComplete, SourceReviewed, Parsed, ClearLingering, ProvisionBucket, CopyAndCommit;
    var c := CandidateAt(s.store, e, n);
    assert CandidateAt(others(0, s.store), e, n) == c;
    assert CandidateAt(others(1, others(0, s.store)), e, n) == c;
    hide KeepsCandidate;
    if q.targetEnvironment in s.store && q.sourceEnvironment in s.store {
      var connected := Connected(s, q, others);
      ClearBeside(connected, q, a, others, e, n, c);
      var cleared := ClearLingering(connected, q, a, others);
      ProvisionBeside(cleared, q, a, others, e, n, c);
      var made := ProvisionBucket(cleared, q, a, others);
      ReviewedIsBound(Parsed(s.store[q.sourceEnvironment]), q);
      if made.created.Some? && q.storageName in made.memory.candidates && q.storageName in Parsed(s.store[q.sourceEnvironment]) {
        LastBeside(made, q, a, others, Parsed(s.store[q.sourceEnvironment])[q.storageName],
                   s.store[q.targetEnvironment].contexts, e, n, c);
      }
    }
  }

  lemma RemovalKeepsCandidate(s: State, q: Removal, reviewed: bool, adapter: bool, d: Destroyed, others: Others, e: string,
                              n: string)
    requires KeepsCandidate(others, e, n) && e in s.store
    ensures var r := DestroyPrevious(s, q, reviewed, adapter, d, others);
            && e in r.state.store && CandidateAt(r.state.store, e, n) == CandidateAt(s.store, e, n)
            && r.state.live <= s.live
  {
    var one := others(0, s.store);
    assert CandidateAt(one, e, n) == CandidateAt(s.store, e, n);
    assert CandidateAt(others(1, one), e, n) == CandidateAt(s.store, e, n);
    hide Parsed;
  }

  lemma StepUnfinished(s: State, ev: Event, e: string, n: string, made: set<Bucket>)
    requires e in s.store && Unfinished(s, e, n, made) && Apart(s, ev, e, n, made)
    ensures e in Step(s, ev).store
            && Unfinished(Step(s, ev), e, n,
                          if ev.Migration? && Targets(ev.request, e, n) then
                            WithMade(made, Copy(s, ev.request, ev.answers, ev.others))
                          else made)
  {
    hide Copy, DestroyPrevious, KeepsCandidate, AccountedFor;
    match ev
    case Migration(q, a, others) =>
      if Targets(q, e, n) { FreshIsAccountedFor(s, q, a, others, made); } else { OtherCopyKeepsCandidate(s, q, a, others, e, n); }
    case PreviousRemoval(q, reviewed, adapter, d, others) =>
      RemovalKeepsCandidate(s, q, reviewed, adapter, d, others, e, n);
  }

  /** Over any number of migrations, retries and removals, by any outcomes, and with other
      writers free to change every binding meanwhile: of all buckets made for a binding and
      not swapped in, at most one lives, and it is the recorded candidate. */
  lemma {:induction false} EveryRunTracksFresh(s: State, events: seq<Event>, e: string, n: string)
    requires e in s.store
    requires forall i :: 0 <= i < |events| ==> Apart(Run(s, events[..i]), events[i], e, n, Made(s, events[..i], e, n))
    ensures e in Run(s, events).store && Unfinished(Run(s, events), e, n, Made(s, events, e, n))
  {
    hide Step, Apart, Unfinished;
    if events == [] {
      assert Unfinished(s, e, n, {}) by { NothingUnfinished(s, e, n); }
    } else {
      var init := events[..|events| - 1];
      forall i | 0 <= i < |init| ensures Apart(Run(s, init[..i]), init[i], e, n, Made(s, init[..i], e, n)) {
        assert init[..i] == events[..i];
      }
      EveryRunTracksFresh(s, init, e, n);
      StepUnfinished(Run(s, init), events[|events| - 1], e, n, Made(s, init, e, n));
    }
  }

  lemma NothingUnfinished(s: State, e: string, n: string)
    ensures Unfinished(s, e, n, {})
  {
  }

  // ---------------------------------------- the active bucket is not removed

  function Own(b: Binding, contexts: map<string, Scope>): set<Bucket> {
    ScopedBucket(b.provider, b.scope, b.externalId, contexts)
  }

  /** The removal asks for the bucket that is active at that moment, after its first wait. */
  predicate HitsActive(s: State, q: Removal, reviewed: bool, adapter: bool, d: Destroyed, others: Others) {
    var asked, now := DestroyPrevious(s, q, reviewed, adapter, d, others).asked, others(0, s.store);
    && asked.Some? && q.targetEnvironment in now && q.storageName in now[q.targetEnvironment].bindings
    && asked.value in Own(now[q.targetEnvironment].bindings[q.storageName], now[q.targetEnvironment].contexts)
  }

  /** It does exactly when the binding goes by the retained provider and id then, in the scope
      that was retained. */
  lemma RemovesActiveExactly(s: State, q: Removal, reviewed: bool, adapter: bool, d: Destroyed, others: Others)
    requires DestroyPrevious(s, q, reviewed, adapter, d, others).asked.Some?
    ensures HitsActive(s, q, reviewed, adapter, d, others) <==>
              var was, now := s.store[q.targetEnvironment], others(0, s.store);
              && q.targetEnvironment in now && q.storageName in now[q.targetEnvironment].bindings
              && var b := now[q.targetEnvironment].bindings[q.storageName];
                 && b.provider == q.provider && Some(b.externalId) == q.previousId
                 && PreviousContext(Target(b.provider, b.externalId, b.scope, b.region), now[q.targetEnvironment].contexts)
                      == PreviousContext(was.bindings[q.storageName].previous.value, was.contexts)
  {
  }

  /** No binding retains the identity it goes by itself. */
  predicate NotSelf(b: Binding) {
    b.previous.Some? ==> !(b.previous.value.provider == b.provider && b.previous.value.externalId == b.externalId)
  }

  predicate NoneSelf(bindings: map<string, Binding>) { forall n :: n in bindings ==> NotSelf(bindings[n]) }

  ghost predicate AllNotSelf(store: Store) { forall e :: e in store ==> NoneSelf(store[e].bindings) }

  ghost predicate KeepsNotSelf(others: Others) { forall i, store :: AllNotSelf(store) ==> AllNotSelf(others(i, store)) }

  /** The provider reports an id that the binding does not go by already. */
  predicate FreshId(s: State, q: Request, a: Answers) {
    a.bucket.Some? && q.targetEnvironment in s.store && q.storageName in s.store[q.targetEnvironment].bindings ==>
      var b := s.store[q.targetEnvironment].bindings[q.storageName];
      !(b.provider == q.targetProvider && b.externalId == a.bucket.value)
  }

  lemma ParsedNotSelf(st: Storage)
    requires NoneSelf(st.bindings)
    ensures NoneSelf(Parsed(st))
  {
    forall n | n in st.bindings ensures NotSelf(Parsed(st)[n]) { assert NotSelf(st.bindings[n]); }
  }

  ghost predicate Distinct(p: Progress) { AllNotSelf(p.state.store) && NoneSelf(p.memory.bindings) }

  lemma WaitDistinct(p: Progress, others: Others, i: nat)
    requires Distinct(p) && KeepsNotSelf(others)
    ensures Distinct(Wait(p, others, i))
  {
    hide AllNotSelf;
  }

  lemma SaveDistinct(p: Progress, e: string, why: Why)
    requires Distinct(p)
    ensures Distinct(Save(p, e, why))
  {
    hide NoneSelf;
  }

  lemma ClearDistinct(p: Progress, q: Request, a: Answers, others: Others)
    requires Distinct(p) && KeepsNotSelf(others)
    ensures var r := ClearLingering(p, q, a, others); Distinct(r) && r.memory.bindings == p.memory.bindings
  {
    WaitDistinct(p, others, 2);
    if q.storageName in p.memory.candidates {
      var asked := Asked(Wait(p, others, 2), BucketOf(p.memory.candidates[q.storageName]), a.lingering);
      SaveDistinct(asked.(memory := WithoutCandidate(asked.memory, q.storageName)), q.targetEnvironment, Dropped);
    }
    hide AllNotSelf, NoneSelf, KeepsNotSelf;
  }

  lemma ProvisionDistinct(p: Progress, q: Request, a: Answers, others: Others)
    requires Distinct(p) && KeepsNotSelf(others) && p.created.None?
    ensures var r := ProvisionBucket(p, q, a, others);
            && Distinct(r) && r.memory.bindings == p.memory.bindings
            && (r.created.Some? ==> a.bucket.Some? && q.storageName in r.memory.candidates
                                    && r.memory.candidates[q.storageName].externalId == a.bucket.value)
  {
    WaitDistinct(p, others, 3);
    WaitDistinct(Wait(p, others, 3), others, 4);
    hide NoneSelf, KeepsNotSelf;
  }

  lemma LastDistinct(p: Progress, q: Request, a: Answers, others: Others, source: Binding, contexts: map<string, Scope>)
    requires Distinct(p) && KeepsNotSelf(others) && p.created.Some? && q.storageName in p.memory.candidates
    requires q.storageName in p.memory.bindings ==>
               var b := p.memory.bindings[q.storageName];
               !(b.provider == q.targetProvider && b.externalId == p.memory.candidates[q.storageName].externalId)
    ensures AllNotSelf(CopyAndCommit(p, q, a, others, source, contexts).state.store)
  {
    WaitDistinct(p, others, 5);
    var copied := Wait(p, others, 5);
    WaitDistinct(copied, others, 6);
    var waited := Wait(copied, others, 6);
    hide KeepsNotSelf, SourceUnchanged, TargetUnchanged, NoneSelf, AllNotSelf;
    FailedDistinct(copied, q, a, others);
    StaleDistinct(copied, q, a, others);
    CommitDistinct(copied, q, a, contexts);
    hide CopyFailed, Stale, Commit;
  }

  lemma FailedDistinct(p: Progress, q: Request, a: Answers, others: Others)
    requires Distinct(Wait(p, others, 6)) && p.created.Some?
    ensures AllNotSelf(CopyFailed(p, q, a, others).state.store)
  {
    var asked := Asked(Wait(p, others, 6), p.created.value, a.cleanup);
    SaveDistinct(if a.cleanup.Gone? then asked.(memory := WithoutCandidate(asked.memory, q.storageName)) else asked,
                 q.targetEnvironment, Dropped);
    hide AllNotSelf, NoneSelf;
  }

  lemma StaleDistinct(p: Progress, q: Request, a: Answers, others: Others)
    requires Distinct(p) && Distinct(Wait(p, others, 6)) && p.created.Some?
    ensures AllNotSelf(Stale(p, q, a, others).state.store)
  {
    var e, read := q.targetEnvironment, p.state.store;
    var asked := Asked(Wait(p, others, 6), p.created.value, a.cleanup);
    if e in read {
      ParsedNotSelf(read[e]);
      var latest := Storage(Parsed(read[e]), read[e].contexts, read[e].candidates);
      SaveDistinct(asked.(memory := if a.cleanup.Gone? then WithoutCandidate(latest, q.storageName) else latest), e, FoundStale);
    }
    hide NoneSelf, Parsed;
  }

  lemma CommitDistinct(p: Progress, q: Request, a: Answers, contexts: map<string, Scope>)
    requires Distinct(p) && q.storageName in p.memory.candidates
    requires q.storageName in p.memory.bindings ==>
               var b := p.memory.bindings[q.storageName];
               !(b.provider == q.targetProvider && b.externalId == p.memory.candidates[q.storageName].externalId)
    ensures AllNotSelf(Commit(p, q, a, contexts).state.store)
  {
    var next := NextBinding(q, a, p.memory.candidates[q.storageName], p.memory, contexts);
    assert NotSelf(next);
    var swapped := WithoutCandidate(p.memory.(bindings := p.memory.bindings[q.storageName := next]), q.storageName);
    assert NoneSelf(swapped.bindings);
    SaveDistinct(p.(memory := swapped), q.targetEnvironment, Committed);
    hide AllNotSelf, NoneSelf, NextBinding;
  }

  lemma CopyDistinct(s: State, q: Request, a: Answers, others: Others)
    requires AllNotSelf(s.store) && KeepsNotSelf(others) && FreshId(s, q, a)
    ensures AllNotSelf(Copy(s, q, a, others).state.store)
  {
    hide AlreadyComplete, SourceReviewed, ClearLingering, ProvisionBucket, CopyAndCommit, KeepsNotSelf, NoneSelf;
    if q.targetEnvironment in s.store && q.sourceEnvironment in s.store {
      var start := s.store[q.targetEnvironment];
      ParsedNotSelf(start);
      WaitDistinct(Reading(start, s), others, 0);
      WaitDistinct(Wait(Reading(start, s), others, 0), others, 1);
      var connected := Connected(s, q, others);
      ClearDistinct(connected, q, a, others);
      var cleared := ClearLingering(connected, q, a, others);
      CreatedStays(connected, q, a, others);
      ProvisionDistinct(cleared, q, a, others);
      var made := ProvisionBucket(cleared, q, a, others);
      ReviewedIsBound(Parsed(s.store[q.sourceEnvironment]), q);
      if made.created.Some? && q.storageName in Parsed(s.store[q.sourceEnvironment]) {
        LastDistinct(made, q, a, others, Parsed(s.store[q.sourceEnvironment])[q.storageName], start.contexts);
      }
    }
    hide AllNotSelf;
  }

  lemma CreatedStays(p: Progress, q: Request, a: Answers, others: Others)
    ensures ClearLingering(p, q, a, others).created == p.created
  {
  }

  lemma RemovalDistinct(s: State, q: Removal, reviewed: bool, adapter: bool, d: Destroyed, others: Others)
    requires AllNotSelf(s.store) && KeepsNotSelf(others)
    ensures AllNotSelf(DestroyPrevious(s, q, reviewed, adapter, d, others).state.store)
  {
    var one := others(0, s.store);
    assert AllNotSelf(one);
    assert AllNotSelf(others(1, one));
    if q.targetEnvironment in s.store {
      ParsedNotSelf(s.store[q.targetEnvironment]);
      var bindings := Parsed(s.store[q.targetEnvironment]);
      if q.storageName in bindings {
        assert NoneSelf(bindings[q.storageName := bindings[q.storageName].(previous := None)]);
      }
    }
    hide NoneSelf, KeepsNotSelf, Parsed;
  }

  /** Other writers keep rollback targets apart from active buckets, and ids are fresh. */
  ghost predicate Separate(s: State, ev: Event) {
    KeepsNotSelf(ev.others) && (ev.Migration? ==> FreshId(s, ev.request, ev.answers))
  }

  lemma {:induction false} EveryRunDistinct(s: State, events: seq<Event>)
    requires AllNotSelf(s.store) && forall i :: 0 <= i < |events| ==> Separate(Run(s, events[..i]), events[i])
    ensures AllNotSelf(Run(s, events).store)
  {
    hide AllNotSelf, Copy, DestroyPrevious, KeepsNotSelf, FreshId;
    if events != [] {
      var init, last := events[..|events| - 1], events[|events| - 1];
      forall i | 0 <= i < |init| ensures Separate(Run(s, init[..i]), init[i]) { assert init[..i] == events[..i]; }
      EveryRunDistinct(s, init);
      assert Separate(Run(s, init), last);
      match last
      case Migration(q, a, others) => CopyDistinct(Run(s, init), q, a, others);
      case PreviousRemoval(q, reviewed, adapter, d, others) => RemovalDistinct(Run(s, init), q, reviewed, adapter, d, others);
    }
  }

  /** Nobody writes the environment's records before the removal asks. */
  predicate QuietAtAsk(s: State, q: Removal, others: Others) {
    var e, now := q.targetEnvironment, others(0, s.store);
    e in s.store ==> e in now && now[e] == s.store[e]
  }

  /** No removal in such a run, whatever the other steps and their other writers do, asks for
      the bucket that is active, as long as nobody writes the records just before it asks. */
  lemma NoRunAsksForActive(s: State, events: seq<Event>, i: nat)
    requires AllNotSelf(s.store) && forall j :: 0 <= j < |events| ==> Separate(Run(s, events[..j]), events[j])
    requires i < |events| && events[i].PreviousRemoval? && QuietAtAsk(Run(s, events[..i]), events[i].removal, events[i].others)
    ensures var before, e := Run(s, events[..i]), events[i];
            !HitsActive(before, e.removal, e.reviewed, e.adapter, e.destroyed, e.others)
  {
    hide Separate, Step;
    forall j | 0 <= j < i ensures Separate(Run(s, events[..i][..j]), events[..i][j]) { assert events[..i][..j] == events[..j]; }
    EveryRunDistinct(s, events[..i]);
    var e := events[i];
    RetainedIsNotOwn(Run(s, events[..i]), e.removal, e.reviewed, e.adapter, e.destroyed, e.others);
    hide AllNotSelf, HitsActive, QuietAtAsk;
  }

  lemma RetainedIsNotOwn(s: State, q: Removal, reviewed: bool, adapter: bool, d: Destroyed, others: Others)
    requires AllNotSelf(s.store) && QuietAtAsk(s, q, others)
    ensures !HitsActive(s, q, reviewed, adapter, d, others)
  {
    if DestroyPrevious(s, q, reviewed, adapter, d, others).asked.Some? {
      assert NotSelf(s.store[q.targetEnvironment].bindings[q.storageName]);
    }
  }

  /** A removal gets as far as asking. */
  predicate Asks(s: State, q: Removal, reviewed: bool, adapter: bool) {
    && reviewed && adapter && q.targetEnvironment in s.store && q.storageName in s.store[q.targetEnvironment].bindings
    && var st := s.store[q.targetEnvironment];
       var b := st.bindings[q.storageName];
       && b.marker.Some? && b.marker.value.id == q.migrationId && b.marker.value.fromEnvironment == q.sourceEnvironment
       && b.previous.Some? && PreviousContext(b.previous.value, st.contexts).Some?
       && b.previous.value.provider == q.provider && Some(b.previous.value.externalId) == q.previousId
  }

  /** Otherwise it can happen: some other writer, who keeps rollback targets apart from active
      buckets, makes the removal ask for the active one exactly when it gets as far as asking. */
  lemma CanHitActiveExactly(s: State, q: Removal, reviewed: bool, adapter: bool, d: Destroyed)
    ensures (exists others: Others :: KeepsNotSelf(others) && HitsActive(s, q, reviewed, adapter, d, others))
       <==> Asks(s, q, reviewed, adapter)
  {
    if Asks(s, q, reviewed, adapter) {
      var e, st := q.targetEnvironment, s.store[q.targetEnvironment];
      var previous := st.bindings[q.storageName].previous.value;
      var back := Binding(previous.provider, previous.externalId, PreviousContext(previous, st.contexts), previous.region,
                          None, None, None);
      var others := Storing(e, q.storageName, back, {0});
      StoringKeepsNotSelf(e, q.storageName, back, {0});
      assert HitsActive(s, q, reviewed, adapter, d, others);
    }
    hide KeepsNotSelf;
  }

  lemma StoringKeepsNotSelf(e: string, n: string, b: Binding, when: set<nat>)
    requires NotSelf(b)
    ensures KeepsNotSelf(Storing(e, n, b, when))
  {
    forall i: nat, store: Store | AllNotSelf(store) ensures AllNotSelf(Storing(e, n, b, when)(i, store)) {
      if e in store { assert NoneSelf(store[e].bindings); }
    }
    hide NotSelf;
  }

  // -------------------------------------------- what a removal writes over

  /** What another writer stored under `n` is not there after the removal: a binding, or a
      recorded candidate. The rollback target itself does not count. */
  predicate BindingLost(found: Store, after: Store, q: Removal, n: string) {
    var e := q.targetEnvironment;
    && e in found && e in after && n in found[e].bindings
    && var b := Parsed(found[e])[n];
       n !in after[e].bindings || after[e].bindings[n] != if n == q.storageName then b.(previous := None) else b
  }

  predicate CandidateLost(found: Store, after: Store, q: Removal, n: string) {
    var e := q.targetEnvironment;
    && e in found && e in after && n in found[e].candidates
    && (n !in after[e].candidates || after[e].candidates[n] != found[e].candidates[n])
  }

  /** The store as the provider's answer finds it. */
  function FoundAfter(s: State, others: Others): Store { others(1, others(0, s.store)) }

  /** Another writer who stores everything afresh under `n`, while the provider works. */
  function Recording(e: string, n: string, c: Candidate): Others {
    (i: nat, store: Store) =>
      if i == 1 && e in store then store[e := store[e].(candidates := store[e].candidates[n := c])] else store
  }

  /** A concurrent change of any binding, and any candidate recorded meanwhile, can be lost to a
      completed removal exactly when it gets as far as asking and the bucket is gone. */
  lemma RemovalCanLoseExactly(s: State, q: Removal, reviewed: bool, adapter: bool, d: Destroyed, n: string)
    ensures (exists others: Others ::
               var r := DestroyPrevious(s, q, reviewed, adapter, d, others);
               r.outcome.Completed? && BindingLost(FoundAfter(s, others), r.state.store, q, n))
       <==> Asks(s, q, reviewed, adapter) && d.Gone?
    ensures (exists others: Others ::
               var r := DestroyPrevious(s, q, reviewed, adapter, d, others);
               r.outcome.Completed? && CandidateLost(FoundAfter(s, others), r.state.store, q, n))
       <==> Asks(s, q, reviewed, adapter) && d.Gone?
  {
    if Asks(s, q, reviewed, adapter) && d.Gone? {
      LosesBinding(s, q, reviewed, adapter, d, n);
      LosesCandidate(s, q, reviewed, adapter, d, n);
    }
    hide BindingLost, CandidateLost;
  }

  lemma LosesBinding(s: State, q: Removal, reviewed: bool, adapter: bool, d: Destroyed, n: string)
    requires Asks(s, q, reviewed, adapter) && d.Gone?
    ensures exists others: Others ::
              var r := DestroyPrevious(s, q, reviewed, adapter, d, others);
              r.outcome.Completed? && BindingLost(FoundAfter(s, others), r.state.store, q, n)
  {
    var e, st := q.targetEnvironment, s.store[q.targetEnvironment];
    var id := if n in st.bindings && st.bindings[n].externalId == "a" then "b" else "a";
    var others := Storing(e, n, Binding("", id, Some(map[]), "", None, None, None), {1});
    var r := DestroyPrevious(s, q, reviewed, adapter, d, others);
    assert r.outcome.Completed? && BindingLost(FoundAfter(s, others), r.state.store, q, n);
  }

  lemma LosesCandidate(s: State, q: Removal, reviewed: bool, adapter: bool, d: Destroyed, n: string)
    requires Asks(s, q, reviewed, adapter) && d.Gone?
    ensures exists others: Others ::
              var r := DestroyPrevious(s, q, reviewed, adapter, d, others);
              r.outcome.Completed? && CandidateLost(FoundAfter(s, others), r.state.store, q, n)
  {
    var e, st := q.targetEnvironment, s.store[q.targetEnvironment];
    var id := if n in st.candidates && st.candidates[n].externalId == "a" then "b" else "a";
    var others := Recording(e, n, Candidate("", "", id, "", map[]));
    var r := DestroyPrevious(s, q, reviewed, adapter, d, others);
    assert r.outcome.Completed? && CandidateLost(FoundAfter(s, others), r.state.store, q, n);
    hide Parsed;
  }

  /** The worst of it: the bucket of a migration that starts meanwhile, recorded as candidate
      under any name, is named nowhere after the removal. */
  lemma RemovalForgetsFresh(s: State, q: Removal, n: string, c: Candidate)
    requires Asks(s, q, true, true) && !IsTracked(s.store, BucketOf(c))
    ensures var r := DestroyPrevious(s, q, true, true, Gone, Recording(q.targetEnvironment, n, c));
            && r.outcome.Completed? && IsTracked(FoundAfter(s, Recording(q.targetEnvironment, n, c)), BucketOf(c))
            && !IsTracked(r.state.store, BucketOf(c))
            && (BucketOf(c) in s.live && r.asked != Some(BucketOf(c)) ==> !Conserved(r.state))
  {
    var e, st, b := q.targetEnvironment, s.store[q.targetEnvironment], BucketOf(c);
    var others := Recording(e, n, c);
    var r := DestroyPrevious(s, q, true, true, Gone, others);
    var found := FoundAfter(s, others);
    assert InStorage(found[e], b) by { assert found[e].candidates[n] == c; }
    var bindings := Parsed(st);
    var after := Storage(bindings[q.storageName := bindings[q.storageName].(previous := None)], st.contexts, st.candidates);
    assert r.state.store == s.store[e := after];
    if InStorage(after, b) { RemovedNamesLess(st, q.storageName, b); }
    hide Parsed, InStorage, Asks, Recording, DestroyPrevious;
    forall f | f in r.state.store ensures !InStorage(r.state.store[f], b) {
      assert f != e ==> r.state.store[f] == s.store[f];
    }
  }

  lemma RemovedNamesLess(st: Storage, name: string, b: Bucket)
    requires name in st.bindings
    requires var bindings := Parsed(st);
             InStorage(Storage(bindings[name := bindings[name].(previous := None)], st.contexts, st.candidates), b)
    ensures InStorage(st, b)
  {
    var bindings := Parsed(st);
    ParsedTracksTheSame(st);
    var parsed, after := st.(bindings := bindings), Storage(bindings[name := bindings[name].(previous := None)], st.contexts, st.candidates);
    if m :| m in after.bindings && b in BindingBuckets(after.bindings[m], after.contexts) {
      assert b in BindingBuckets(parsed.bindings[m], parsed.contexts);
      assert InStorage(parsed, b);
    } else {
      var m :| m in after.candidates && BucketOf(after.candidates[m]) == b;
      assert InStorage(parsed, b);
    }
    hide Parsed;
  }
}
