/** What a storage migration writes over, and when it loses nothing. */
module StorageMigrationSafety {
  import opened Json
  import opened StorageMigrationSteps

  // ------------------------------------------------------- what is written

  /** A write of the migration: only the target environment, and its bindings are those read
      at the start; with the swap, if the copy was verified and both reviewed bindings are
      unchanged at that moment; or, on finding them changed, those just read. */
  ghost predicate Justified(w: Write, q: Request, a: Answers, others: Others, start: map<string, Binding>,
                            source: Binding) {
    var e := q.targetEnvironment;
    && (forall f :: f != e ==> (f in w.after <==> f in w.before) && (f in w.after ==> w.after[f] == w.before[f]))
    && (e in w.after <==> e in w.before)
    && (e in w.after ==>
          match w.why
          case Recorded => w.after[e].bindings == start
          case Dropped => w.after[e].bindings == start
          case Committed =>
            && a.reviewed && a.copied && SourceUnchanged(w.before, source, q) && TargetUnchanged(w.before, start, q)
            && q.storageName in w.after[e].bindings
            && w.after[e].bindings == start[q.storageName := w.after[e].bindings[q.storageName]]
          case FoundStale => JustRead(w, e, others))
  }

  ghost predicate JustRead(w: Write, e: string, others: Others)
    requires e in w.after
  {
    exists read: Store :: e in read && w.before == others(6, read) && w.after[e].bindings == Parsed(read[e])
  }

  ghost predicate AllJustified(p: Progress, q: Request, a: Answers, others: Others, start: map<string, Binding>,
                               source: Binding) {
    forall i :: 0 <= i < |p.writes| ==> Justified(p.writes[i], q, a, others, start, source)
  }

  lemma SaveJustified(p: Progress, q: Request, a: Answers, others: Others, start: map<string, Binding>,
                      source: Binding, why: Why)
    requires AllJustified(p, q, a, others, start, source)
    requires Justified(Write(p.state.store, Persist(p.state.store, q.targetEnvironment, p.memory), why), q, a, others, start, source)
    ensures AllJustified(Save(p, q.targetEnvironment, why), q, a, others, start, source)
  {
    hide Justified;
  }

  lemma ClearJustified(p: Progress, q: Request, a: Answers, others: Others, source: Binding)
    requires AllJustified(p, q, a, others, p.memory.bindings, source) && p.outcome.Continue?
    ensures var r := ClearLingering(p, q, a, others);
            && AllJustified(r, q, a, others, p.memory.bindings, source) && r.memory.bindings == p.memory.bindings
            && (r.outcome.Continue? || r.outcome.Stopped?)
  {
    if q.storageName in p.memory.candidates {
      var asked := Asked(Wait(p, others, 2), BucketOf(p.memory.candidates[q.storageName]), a.lingering);
      SaveJustified(asked.(memory := WithoutCandidate(asked.memory, q.storageName)), q, a, others, p.memory.bindings, source, Dropped);
    }
    hide Justified;
  }

  lemma ProvisionJustified(p: Progress, q: Request, a: Answers, others: Others, source: Binding)
    requires AllJustified(p, q, a, others, p.memory.bindings, source) && p.outcome.Continue?
    ensures var r := ProvisionBucket(p, q, a, others);
            && AllJustified(r, q, a, others, p.memory.bindings, source) && r.memory.bindings == p.memory.bindings
            && (r.outcome.Stopped? || (r.outcome.Continue? && r.created.Some? && q.storageName in r.memory.candidates))
  {
    var ensured := Wait(Wait(p, others, 3), others, 4);
    if a.context.Some? && a.bucket.Some? {
      var c := Candidate(q.migrationId, q.targetProvider, a.bucket.value, q.region, a.context.value);
      var made := ensured.(created := Some(BucketOf(c)), state := ensured.state.(live := ensured.state.live + {BucketOf(c)}),
                           memory := ensured.memory.(contexts := ensured.memory.contexts[q.targetProvider := a.context.value],
                                                     candidates := ensured.memory.candidates[q.storageName := c]));
      SaveJustified(made, q, a, others, p.memory.bindings, source, Recorded);
    }
    hide Justified;
  }

  lemma FailedJustified(p: Progress, q: Request, a: Answers, others: Others, source: Binding)
    requires AllJustified(p, q, a, others, p.memory.bindings, source) && p.created.Some?
    ensures AllJustified(CopyFailed(p, q, a, others), q, a, others, p.memory.bindings, source)
  {
    var asked := Asked(Wait(p, others, 6), p.created.value, a.cleanup);
    var left := if a.cleanup.Gone? then asked.(memory := WithoutCandidate(asked.memory, q.storageName)) else asked;
    SaveJustified(left, q, a, others, p.memory.bindings, source, Dropped);
  }

  lemma StaleJustified(p: Progress, q: Request, a: Answers, others: Others, start: map<string, Binding>,
                       source: Binding)
    requires AllJustified(p, q, a, others, start, source) && p.created.Some?
    ensures AllJustified(Stale(p, q, a, others), q, a, others, start, source)
  {
    var e, read := q.targetEnvironment, p.state.store;
    if e in read {
      var asked := Asked(Wait(p, others, 6), p.created.value, a.cleanup);
      var latest := Storage(Parsed(read[e]), read[e].contexts, read[e].candidates);
      var left := if a.cleanup.Gone? then WithoutCandidate(latest, q.storageName) else latest;
      var w := Write(asked.state.store, Persist(asked.state.store, e, left), FoundStale);
      assert e in w.after ==> JustRead(w, e, others);
      SaveJustified(asked.(memory := left), q, a, others, start, source, FoundStale);
    }
  }

  lemma CommitJustified(p: Progress, q: Request, a: Answers, others: Others, source: Binding,
                        contexts: map<string, Scope>)
    requires AllJustified(p, q, a, others, p.memory.bindings, source) && q.storageName in p.memory.candidates
    requires a.reviewed && a.copied && SourceUnchanged(p.state.store, source, q) && TargetUnchanged(p.state.store, p.memory.bindings, q)
    ensures AllJustified(Commit(p, q, a, contexts), q, a, others, p.memory.bindings, source)
  {
    hide SourceUnchanged, TargetUnchanged;
    var next := NextBinding(q, a, p.memory.candidates[q.storageName], p.memory, contexts);
    var swapped := WithoutCandidate(p.memory.(bindings := p.memory.bindings[q.storageName := next]), q.storageName);
    SaveJustified(p.(memory := swapped), q, a, others, p.memory.bindings, source, Committed);
    hide NextBinding;
  }

  lemma CopyAndCommitJustified(p: Progress, q: Request, a: Answers, others: Others, source: Binding,
                               contexts: map<string, Scope>)
    requires AllJustified(p, q, a, others, p.memory.bindings, source) && p.created.Some? && q.storageName in p.memory.candidates
    requires a.reviewed
    ensures AllJustified(CopyAndCommit(p, q, a, others, source, contexts), q, a, others, p.memory.bindings, source)
  {
    var copied := Wait(p, others, 5);
    assert AllJustified(copied, q, a, others, p.memory.bindings, source);
    FailedJustified(copied, q, a, others, source);
    StaleJustified(copied, q, a, others, p.memory.bindings, source);
    if a.copied && SourceUnchanged(copied.state.store, source, q) && TargetUnchanged(copied.state.store, p.memory.bindings, q) {
      CommitJustified(copied, q, a, others, source, contexts);
    }
    hide CopyFailed, Stale, Commit, SourceUnchanged, TargetUnchanged, AllJustified;
  }

  /** Every write of a storage migration is justified, under arbitrary interference. */
  lemma EveryWriteJustified(s: State, q: Request, a: Answers, others: Others)
    requires q.targetEnvironment in s.store && q.sourceEnvironment in s.store
    requires q.storageName in Parsed(s.store[q.sourceEnvironment])
    ensures AllJustified(Copy(s, q, a, others), q, a, others, Parsed(s.store[q.targetEnvironment]),
                         Parsed(s.store[q.sourceEnvironment])[q.storageName])
  {
    hide Justified, ClearLingering, ProvisionBucket, CopyAndCommit, Parsed;
    var target, sources := s.store[q.targetEnvironment], Parsed(s.store[q.sourceEnvironment]);
    var p := Wait(Progress(s, [], target.(bindings := Parsed(target)), None, Continue), others, 0);
    var connected := Wait(p, others, 1);
    ClearJustified(connected, q, a, others, sources[q.storageName]);
    var cleared := ClearLingering(connected, q, a, others);
    if cleared.outcome.Continue? {
      ProvisionJustified(cleared, q, a, others, sources[q.storageName]);
      var provisioned := ProvisionBucket(cleared, q, a, others);
      if provisioned.outcome.Continue? && a.reviewed {
        CopyAndCommitJustified(provisioned, q, a, others, sources[q.storageName], target.contexts);
      }
    }
  }

  // ------------------------------------------------- what is written over

  /** A migration gets as far as its first write: what a caller can tell from the two
      environments it reads and the providers' answers, whatever other writers do. */
  predicate WritesSomething(s: State, q: Request, a: Answers) {
    && q.targetEnvironment in s.store && q.sourceEnvironment in s.store && a.reviewed && a.adapters
    && var target := s.store[q.targetEnvironment];
       && !AlreadyComplete(Parsed(target), q) && SourceReviewed(Parsed(s.store[q.sourceEnvironment]), q)
       && if q.storageName in target.candidates then
            var lingering := target.candidates[q.storageName];
            lingering.migrationId == q.migrationId && lingering.provider == q.targetProvider && a.lingering.Gone?
          else a.context.Some? && a.bucket.Some?
  }

  /** What another writer stored under `n` is gone after this write, which is not the swap of
      that very binding. */
  predicate Undoes(w: Write, q: Request, n: string) {
    var e := q.targetEnvironment;
    && e in w.before && e in w.after && n in w.before[e].bindings && !(w.why.Committed? && n == q.storageName)
    && (n !in w.after[e].bindings || w.after[e].bindings[n] != Parsed(w.before[e])[n])
  }

  ghost predicate UndoesSome(p: Progress, q: Request, n: string) {
    exists i :: 0 <= i < |p.writes| && Undoes(p.writes[i], q, n)
  }

  /** Another writer who stores `b` under `n`, during the waits that `when` names. */
  function Storing(e: string, n: string, b: Binding, when: set<nat>): Others {
    (i: nat, store: Store) =>
      if i in when && e in store then store[e := store[e].(bindings := store[e].bindings[n := b])] else store
  }

  lemma WritesGrow(p: Progress, q: Request, a: Answers, others: Others, source: Binding, contexts: map<string, Scope>)
    requires p.created.Some? && q.storageName in p.memory.candidates
    ensures p.writes <= CopyAndCommit(p, q, a, others, source, contexts).writes
  {
    hide SourceUnchanged, TargetUnchanged, NextBinding;
  }

  lemma NoWriteWithoutReaching(s: State, q: Request, a: Answers, others: Others)
    requires !WritesSomething(s, q, a)
    ensures Copy(s, q, a, others).writes == []
  {
    hide AlreadyComplete, SourceReviewed, Parsed, CopyAndCommit;
  }

  /** A first write over `b`, just stored under `n`, that stores the bindings in memory. */
  ghost predicate FirstOver(p: Progress, e: string, n: string, b: Binding, memory: map<string, Binding>) {
    && |p.writes| > 0 && !p.writes[0].why.Committed? && e in p.writes[0].before && e in p.writes[0].after
    && n in p.writes[0].before[e].bindings && p.writes[0].before[e].bindings[n] == b
    && p.writes[0].after[e].bindings == memory
  }

  lemma FirstOfTwo(p: Progress, q: Request, a: Answers, e: string, n: string, b: Binding)
    requires p.outcome.Continue? && p.writes == [] && e in p.state.store && e == q.targetEnvironment
    requires if q.storageName in p.memory.candidates then
               var lingering := p.memory.candidates[q.storageName];
               lingering.migrationId == q.migrationId && lingering.provider == q.targetProvider && a.lingering.Gone?
             else a.context.Some? && a.bucket.Some?
    ensures var cleared := ClearLingering(p, q, a, Storing(e, n, b, {2, 4}));
            var made := ProvisionBucket(cleared, q, a, Storing(e, n, b, {2, 4}));
            cleared.outcome.Continue? && (made.outcome.Continue? ==> made.created.Some? && q.storageName in made.memory.candidates)
            && FirstOver(made, e, n, b, p.memory.bindings)
  {
  }

  /** The first write comes right after a wait and stores the bindings read at the start. */
  lemma FirstWrite(s: State, q: Request, a: Answers, e: string, n: string, b: Binding)
    requires WritesSomething(s, q, a) && e == q.targetEnvironment
    ensures FirstOver(Copy(s, q, a, Storing(e, n, b, {2, 4})), e, n, b, Parsed(s.store[e]))
  {
    hide AlreadyComplete, SourceReviewed, Parsed, ClearLingering, ProvisionBucket, CopyAndCommit;
    var others := Storing(e, n, b, {2, 4});
    var target, sources := s.store[e], Parsed(s.store[q.sourceEnvironment]);
    var p := Progress(s, [], target.(bindings := Parsed(target)), None, Continue);
    assert Wait(Wait(p, others, 0), others, 1) == p;
    ReviewedIsBound(sources, q);
    FirstOfTwo(p, q, a, e, n, b);
    var made := ProvisionBucket(ClearLingering(p, q, a, others), q, a, others);
    if made.outcome.Continue? {
      WritesGrow(made, q, a, others, sources[q.storageName], target.contexts);
      assert made.writes[0] == CopyAndCommit(made, q, a, others, sources[q.storageName], target.contexts).writes[0];
    }
    hide Storing;
  }

  lemma ReviewedIsBound(sources: map<string, Binding>, q: Request)
    ensures SourceReviewed(sources, q) ==> q.storageName in sources
  {
  }

  /** A concurrent change of a binding, the target's or any other, can be lost exactly when
      the migration gets as far as writing. */
  lemma CanLoseBindingExactly(s: State, q: Request, a: Answers, n: string)
    ensures (exists others: Others :: UndoesSome(Copy(s, q, a, others), q, n)) <==> WritesSomething(s, q, a)
  {
    if WritesSomething(s, q, a) {
      var e := q.targetEnvironment;
      var start := Parsed(s.store[e]);
      var id := if n in start && start[n].externalId == "a" then "b" else "a";
      var b := Binding("", id, Some(map[]), "", None, None, None);
      var others := Storing(e, n, b, {2, 4});
      FirstWrite(s, q, a, e, n, b);
      var r := Copy(s, q, a, others);
      assert Undoes(r.writes[0], q, n) by { hide Copy; }
      assert UndoesSome(r, q, n);
    } else {
      forall others: Others ensures !UndoesSome(Copy(s, q, a, others), q, n) {
        NoWriteWithoutReaching(s, q, a, others);
      }
    }
    hide Copy, WritesSomething;
  }

  /** Whatever other writers did to the target binding before the candidate was recorded has
      been undone by then, so the check before the swap cannot see it. */
  lemma EarlyChangesGoUnseen(p: Progress, q: Request, a: Answers, others: Others)
    requires p.outcome.Continue?
    ensures var r := ProvisionBucket(p, q, a, others);
            r.outcome.Continue? && q.targetEnvironment in r.state.store ==>
              TargetUnchanged(r.state.store, p.memory.bindings, q)
  {
  }

  /** Two stores that differ at most in the records of `e`, which both have. */
  predicate OnlyAt(e: string, before: Store, after: Store) {
    e in before && e in after && after == before[e := after[e]]
  }

  lemma ClearedQuietly(p: Progress, q: Request, a: Answers, others: Others)
    requires p.outcome.Continue? && q.targetEnvironment in p.state.store && others(2, p.state.store) == p.state.store
    requires q.storageName in p.memory.candidates ==>
               var lingering := p.memory.candidates[q.storageName];
               lingering.migrationId == q.migrationId && lingering.provider == q.targetProvider && a.lingering.Gone?
    ensures var r := ClearLingering(p, q, a, others);
            && r.outcome.Continue? && r.memory == WithoutCandidate(p.memory, q.storageName)
            && OnlyAt(q.targetEnvironment, p.state.store, r.state.store)
            && r.state.live == if q.storageName in p.memory.candidates then
                                 p.state.live - {BucketOf(p.memory.candidates[q.storageName])}
                               else p.state.live
  {
  }

  lemma ProvisionedOver(p: Progress, q: Request, a: Answers, others: Others)
    requires p.outcome.Continue? && q.targetEnvironment in p.state.store && a.context.Some? && a.bucket.Some?
    requires OnlyAt(q.targetEnvironment, p.state.store, others(4, others(3, p.state.store)))
    ensures var r := ProvisionBucket(p, q, a, others);
            var c := Candidate(q.migrationId, q.targetProvider, a.bucket.value, q.region, a.context.value);
            && r.outcome.Continue? && r.created == Some(BucketOf(c))
            && r.memory == Storage(p.memory.bindings, p.memory.contexts[q.targetProvider := a.context.value],
                                   p.memory.candidates[q.storageName := c])
            && OnlyAt(q.targetEnvironment, p.state.store, r.state.store)
            && r.state.store[q.targetEnvironment] == r.memory
            && r.state.live == p.state.live + {BucketOf(c)}
  {
  }

  /** The whole run of a migration that another writer disturbs only while the context is
      resolved, by replacing the target binding. */
  ghost predicate Overlooked(s: State, q: Request, a: Answers, r: Progress)
    requires q.targetEnvironment in s.store && a.context.Some? && a.bucket.Some?
  {
    var e, start := q.targetEnvironment, s.store[q.targetEnvironment];
    && r.outcome.Completed? && OnlyAt(e, s.store, r.state.store)
    && r.created == Some(Bucket(q.targetProvider, a.context.value, a.bucket.value))
    && r.state.store[e] == Left(start, q, a)
    && (s.live - if q.storageName in start.candidates then {BucketOf(start.candidates[q.storageName])} else {}) <= r.state.live
  }

  /** The environment's records after a completed run, from what they were at its start. */
  function Left(start: Storage, q: Request, a: Answers): Storage
    requires a.context.Some? && a.bucket.Some?
  {
    Storage(Parsed(start)[q.storageName := Swapped(q, a, start)],
            start.contexts[q.targetProvider := a.context.value], start.candidates - {q.storageName})
  }

  /** The binding the swap stores: the fresh bucket, and the one there at the start to go back to. */
  function Swapped(q: Request, a: Answers, start: Storage): Binding
    requires a.context.Some? && a.bucket.Some?
  {
    Binding(q.targetProvider, a.bucket.value, a.context, q.region, Some(a.now),
            Some(Marker(q.migrationId, q.sourceEnvironment, true)),
            if q.storageName in start.bindings then Some(Replaced(Parsed(start)[q.storageName], start.contexts)) else None)
  }

  /** A whole run: another writer replaces the target binding while the context is resolved.
      The migration completes all the same, and retains for rollback the binding that was
      there before both. */
  lemma CompletesOverUnseenChange(s: State, q: Request, a: Answers, newer: Binding)
    requires WritesSomething(s, q, a) && a.context.Some? && a.bucket.Some? && a.copied
    ensures Overlooked(s, q, a, Copy(s, q, a, Storing(q.targetEnvironment, q.storageName, newer, {3})))
  {
    hide AlreadyComplete, SourceReviewed, SourceUnchanged, TargetUnchanged, Parsed, ClearLingering, ProvisionBucket, NextBinding;
    var e, name := q.targetEnvironment, q.storageName;
    var others := Storing(e, name, newer, {3});
    var target, sources := s.store[e], Parsed(s.store[q.sourceEnvironment]);
    var p := Progress(s, [], target.(bindings := Parsed(target)), None, Continue);
    assert Wait(Wait(p, others, 0), others, 1) == p;
    ReviewedIsBound(sources, q);
    ClearedQuietly(p, q, a, others);
    var cleared := ClearLingering(p, q, a, others);
    EarlyChangesGoUnseen(cleared, q, a, others);
    ProvisionedOver(cleared, q, a, others);
    var made := ProvisionBucket(cleared, q, a, others);
    assert Wait(made, others, 5) == made;
    SourceStillThere(s, q, made.state.store, p.memory.bindings, made.memory.contexts, sources[name]);
    CommitStores(s, made, q, a);
    hide Storing, Commit, OnlyAt;
  }

  lemma CommitStores(s: State, p: Progress, q: Request, a: Answers)
    requires q.targetEnvironment in s.store && a.context.Some? && a.bucket.Some?
    requires OnlyAt(q.targetEnvironment, s.store, p.state.store)
    requires var c := Candidate(q.migrationId, q.targetProvider, a.bucket.value, q.region, a.context.value);
             var start := s.store[q.targetEnvironment];
             && p.created == Some(BucketOf(c))
             && p.memory.bindings == Parsed(start) && p.memory.contexts == start.contexts[q.targetProvider := a.context.value]
             && p.memory.candidates == (start.candidates - {q.storageName})[q.storageName := c]
             && (s.live - if q.storageName in start.candidates then {BucketOf(start.candidates[q.storageName])} else {}) <= p.state.live
    ensures Overlooked(s, q, a, Commit(p, q, a, s.store[q.targetEnvironment].contexts))
  {
    hide Scoped, Replaced;
  }

  lemma SourceStillThere(s: State, q: Request, now: Store, start: map<string, Binding>, contexts: map<string, Scope>, source: Binding)
    requires q.sourceEnvironment in s.store && q.targetEnvironment in s.store && start == Parsed(s.store[q.targetEnvironment])
    requires SourceReviewed(Parsed(s.store[q.sourceEnvironment]), q)
    requires source == Parsed(s.store[q.sourceEnvironment])[q.storageName]
    requires q.targetEnvironment in now && now[q.targetEnvironment].bindings == start && now[q.targetEnvironment].contexts == contexts
    requires q.sourceEnvironment != q.targetEnvironment ==>
               q.sourceEnvironment in now && now[q.sourceEnvironment] == s.store[q.sourceEnvironment]
    ensures SourceUnchanged(now, source, q)
  {
  }

  /** While an earlier candidate could not be removed, no second one is made. */
  lemma NoSecondCandidate(s: State, q: Request, a: Answers, others: Others)
    requires Copy(s, q, a, others).created.Some?
    ensures q.targetEnvironment in s.store
            && (q.storageName in s.store[q.targetEnvironment].candidates ==> a.lingering.Gone?)
  {
    hide ProvisionBucket, CopyAndCommit, SourceReviewed, AlreadyComplete, Parsed;
  }

  lemma CompletedIsSkipped(s: State, q: Request, a: Answers, others: Others)
    requires q.targetEnvironment in s.store && q.sourceEnvironment in s.store && a.reviewed
    requires AlreadyComplete(Parsed(s.store[q.targetEnvironment]), q)
    ensures var r := Copy(s, q, a, others);
            r.outcome.Skipped? && r.writes == [] && r.created.None? && r.state == State(others(0, s.store), s.live)
  {
  }

  lemma CommitMarks(p: Progress, q: Request, a: Answers, contexts: map<string, Scope>)
    requires q.storageName in p.memory.candidates
    ensures var store := Commit(p, q, a, contexts).state.store;
            q.targetEnvironment in store ==> AlreadyComplete(Parsed(store[q.targetEnvironment]), q)
  {
  }

  lemma CompletedIsMarked(s: State, q: Request, a: Answers, others: Others)
    requires Copy(s, q, a, others).outcome.Completed?
    ensures var t := Copy(s, q, a, others).state;
            q.targetEnvironment in t.store ==> AlreadyComplete(Parsed(t.store[q.targetEnvironment]), q)
  {
    hide AlreadyComplete, SourceReviewed, SourceUnchanged, TargetUnchanged, Parsed, CopyFailed, Stale;
    var target, sources := s.store[q.targetEnvironment], Parsed(s.store[q.sourceEnvironment]);
    var p := Wait(Progress(s, [], target.(bindings := Parsed(target)), None, Continue), others, 0);
    var provisioned := ProvisionBucket(ClearLingering(Wait(p, others, 1), q, a, others), q, a, others);
    if provisioned.created.Some? && q.storageName in provisioned.memory.candidates {
      CommitMarks(Wait(provisioned, others, 5), q, a, target.contexts);
      OnlyCommitCompletes(Wait(provisioned, others, 5), q, a, others);
    }
    hide Commit;
  }

  lemma OnlyCommitCompletes(p: Progress, q: Request, a: Answers, others: Others)
    requires p.created.Some?
    ensures !CopyFailed(p, q, a, others).outcome.Completed? && !Stale(p, q, a, others).outcome.Completed?
  {
  }

  /** Running a completed migration again changes nothing: nothing is asked of a provider and
      nothing is written. */
  lemma RerunChangesNothing(s: State, q: Request, a: Answers, others: Others, again: Answers, later: Others)
    requires Copy(s, q, a, others).outcome.Completed? && again.reviewed
    requires var t := Copy(s, q, a, others).state; q.targetEnvironment in t.store && q.sourceEnvironment in t.store
    ensures var t := Copy(s, q, a, others).state;
            var r := Copy(t, q, again, later);
            r.outcome.Skipped? && r.writes == [] && r.created.None? && r.state == State(later(0, t.store), t.live)
  {
    CompletedIsMarked(s, q, a, others);
    hide AlreadyComplete;
    CompletedIsSkipped(Copy(s, q, a, others).state, q, again, later);
    hide Copy;
  }
}
