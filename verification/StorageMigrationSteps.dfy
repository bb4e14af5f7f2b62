/** Copying a bucket to a fresh candidate and swapping it in. Unlike the database copy, every
    write stores the bindings, contexts and candidates that were read at the very start. */
module StorageMigrationSteps {
  import opened Json

  type Scope = map<string, string>

  datatype Marker = Marker(id: string, fromEnvironment: string, completed: bool)

  datatype Target = Target(provider: string, externalId: string, scope: Option<Scope>, region: string)

  datatype Binding = Binding(
    provider: string, externalId: string, scope: Option<Scope>, region: string,
    updatedAt: Option<nat>, marker: Option<Marker>, previous: Option<Target>)

  datatype Candidate = Candidate(migrationId: string, provider: string, externalId: string, region: string, context: Scope)

  /** The storage part of one environment's bindings. */
  datatype Storage = Storage(
    bindings: map<string, Binding>, contexts: map<string, Scope>, candidates: map<string, Candidate>)

  type Store = map<string, Storage>

  datatype Bucket = Bucket(provider: string, scope: Scope, externalId: string)

  datatype State = State(store: Store, live: set<Bucket>)

  /** A stored scope is part of the identity; an older binding takes its provider's context. */
  function Scoped(b: Binding, contexts: map<string, Scope>): Binding {
    if b.scope.None? && b.provider in contexts then b.(scope := Some(contexts[b.provider])) else b
  }

  /** parseStorageBindings. */
  function Parsed(st: Storage): map<string, Binding> {
    map n | n in st.bindings :: Scoped(st.bindings[n], st.contexts)
  }

  /** persistStorageState: all three records are replaced; a removed environment stays so. */
  function Persist(store: Store, e: string, st: Storage): Store {
    if e in store then store[e := st] else store
  }

  datatype Request = Request(
    migrationId: string, sourceEnvironment: string, targetEnvironment: string, storageName: string,
    sourceProvider: string, targetProvider: string, region: string,
    sourceExternalId: string, sourceScope: Scope)

  datatype Destroyed = Gone | Refused(removed: bool)

  datatype Answers = Answers(
    reviewed: bool, adapters: bool, lingering: Destroyed, context: Option<Scope>, bucket: Option<string>,
    copied: bool, cleanup: Destroyed, now: nat)

  /** What other writers make of the store during the i-th wait. */
  type Others = (nat, Store) -> Store

  datatype Why = Recorded | Dropped | Committed | FoundStale

  datatype Write = Write(before: Store, after: Store, why: Why)

  datatype Outcome = Continue | Stopped | Skipped | Completed

  datatype Progress = Progress(
    state: State, writes: seq<Write>, memory: Storage, created: Option<Bucket>, outcome: Outcome)

  function Wait(p: Progress, others: Others, i: nat): Progress {
    p.(state := p.state.(store := others(i, p.state.store)))
  }

  function Stop(p: Progress): Progress { p.(outcome := Stopped) }

  /** Stores what is in memory. */
  function Save(p: Progress, e: string, why: Why): Progress {
    var after := Persist(p.state.store, e, p.memory);
    p.(state := p.state.(store := after), writes := p.writes + [Write(p.state.store, after, why)])
  }

  function Destroy(live: set<Bucket>, b: Bucket, d: Destroyed): set<Bucket> {
    if d.Gone? || d.removed then live - {b} else live
  }

  function Asked(p: Progress, b: Bucket, d: Destroyed): Progress {
    p.(state := p.state.(live := Destroy(p.state.live, b, d)))
  }

  predicate ExactScope(a: Scope, b: Scope) { a == b && forall k :: k in a ==> a[k] != "" }

  predicate AlreadyComplete(bindings: map<string, Binding>, q: Request) {
    q.storageName in bindings && bindings[q.storageName].marker == Some(Marker(q.migrationId, q.sourceEnvironment, true))
  }

  predicate SourceReviewed(bindings: map<string, Binding>, q: Request) {
    && q.storageName in bindings
    && var b := bindings[q.storageName];
       b.scope.Some? && b.provider == q.sourceProvider && b.externalId == q.sourceExternalId
       && ExactScope(b.scope.value, q.sourceScope)
  }

  function BucketOf(c: Candidate): Bucket { Bucket(c.provider, c.context, c.externalId) }

  function WithoutCandidate(st: Storage, name: string): Storage { st.(candidates := st.candidates - {name}) }

  function ClearLingering(p: Progress, q: Request, a: Answers, others: Others): Progress {
    if q.storageName !in p.memory.candidates then p
    else
      var lingering := p.memory.candidates[q.storageName];
      if lingering.migrationId != q.migrationId || lingering.provider != q.targetProvider then Stop(p)
      else
        var asked := Asked(Wait(p, others, 2), BucketOf(lingering), a.lingering);
        if !a.lingering.Gone? then Stop(asked)
        else Save(asked.(memory := WithoutCandidate(asked.memory, q.storageName)), q.targetEnvironment, Dropped)
  }

  /** ensureContext, ensureBucket, and recording the candidate. */
  function ProvisionBucket(p: Progress, q: Request, a: Answers, others: Others): Progress {
    var resolved := Wait(p, others, 3);
    if a.context.None? then Stop(resolved)
    else
      var ensured := Wait(resolved, others, 4);
      if a.bucket.None? then Stop(ensured)
      else
        var c := Candidate(q.migrationId, q.targetProvider, a.bucket.value, q.region, a.context.value);
        var made := ensured.(created := Some(BucketOf(c)), state := ensured.state.(live := ensured.state.live + {BucketOf(c)}),
                             memory := ensured.memory.(contexts := ensured.memory.contexts[q.targetProvider := a.context.value],
                                                       candidates := ensured.memory.candidates[q.storageName := c]));
        Save(made, q.targetEnvironment, Recorded)
  }

  /** The copy failed: clean up, and store what is in memory. */
  function CopyFailed(p: Progress, q: Request, a: Answers, others: Others): Progress
    requires p.created.Some?
  {
    var asked := Asked(Wait(p, others, 6), p.created.value, a.cleanup);
    var left := if a.cleanup.Gone? then asked.(memory := WithoutCandidate(asked.memory, q.storageName)) else asked;
    Stop(Save(left, q.targetEnvironment, Dropped))
  }

  predicate SourceUnchanged(now: Store, source: Binding, q: Request) {
    && q.sourceEnvironment in now
    && var latest := Parsed(now[q.sourceEnvironment]);
       && q.storageName in latest
       && latest[q.storageName].provider == source.provider && latest[q.storageName].externalId == source.externalId
       && latest[q.storageName].scope.Some? && source.scope.Some?
       && ExactScope(latest[q.storageName].scope.value, source.scope.value)
       && latest[q.storageName].updatedAt == source.updatedAt
  }

  predicate TargetUnchanged(now: Store, bindings: map<string, Binding>, q: Request) {
    && q.targetEnvironment in now
    && var latest := Parsed(now[q.targetEnvironment]);
       if q.storageName in bindings then
         && q.storageName in latest && latest[q.storageName].provider == bindings[q.storageName].provider
         && latest[q.storageName].externalId == bindings[q.storageName].externalId
         && latest[q.storageName].updatedAt == bindings[q.storageName].updatedAt
       else q.storageName !in latest
  }

  /** A reviewed binding changed: clean up, and store the records as they were just read. */
  function Stale(p: Progress, q: Request, a: Answers, others: Others): Progress
    requires p.created.Some?
  {
    var e, read := q.targetEnvironment, p.state.store;
    var asked := Asked(Wait(p, others, 6), p.created.value, a.cleanup);
    if e !in read then Stop(asked)
    else
      var latest := Storage(Parsed(read[e]), read[e].contexts, read[e].candidates);
      var left := if a.cleanup.Gone? then WithoutCandidate(latest, q.storageName) else latest;
      Stop(Save(asked.(memory := left), e, FoundStale))
  }

  function Replaced(b: Binding, contexts: map<string, Scope>): Target {
    Target(b.provider, b.externalId,
           if b.scope.Some? then b.scope else if b.provider in contexts then Some(contexts[b.provider]) else None, b.region)
  }

  function NextBinding(q: Request, a: Answers, c: Candidate, memory: Storage, contexts: map<string, Scope>): Binding {
    Binding(q.targetProvider, c.externalId, Some(c.context), q.region, Some(a.now),
            Some(Marker(q.migrationId, q.sourceEnvironment, true)),
            if q.storageName in memory.bindings then Some(Replaced(memory.bindings[q.storageName], contexts)) else None)
  }

  function Commit(p: Progress, q: Request, a: Answers, contexts: map<string, Scope>): Progress
    requires q.storageName in p.memory.candidates
  {
    var next := NextBinding(q, a, p.memory.candidates[q.storageName], p.memory, contexts);
    var swapped := WithoutCandidate(p.memory.(bindings := p.memory.bindings[q.storageName := next]), q.storageName);
    Save(p.(memory := swapped), q.targetEnvironment, Committed).(outcome := Completed)
  }

  function CopyAndCommit(p: Progress, q: Request, a: Answers, others: Others, source: Binding,
                         contexts: map<string, Scope>): Progress
    requires p.created.Some? && q.storageName in p.memory.candidates
  {
    var copied := Wait(p, others, 5);
    if !a.copied then CopyFailed(copied, q, a, others)
    else if !SourceUnchanged(copied.state.store, source, q) || !TargetUnchanged(copied.state.store, p.memory.bindings, q)
    then Stale(copied, q, a, others)
    else Commit(copied, q, a, contexts)
  }

  /** applyStorageMigration. Both environments are read before the first wait. */
  function Copy(s: State, q: Request, a: Answers, others: Others): Progress {
    var none := Storage(map[], map[], map[]);
    if q.targetEnvironment !in s.store || q.sourceEnvironment !in s.store then Progress(s, [], none, None, Stopped)
    else
      var target, sources := s.store[q.targetEnvironment], Parsed(s.store[q.sourceEnvironment]);
      var p := Wait(Progress(s, [], target.(bindings := Parsed(target)), None, Continue), others, 0);
      if !a.reviewed then Stop(p)
      else if AlreadyComplete(p.memory.bindings, q) then p.(outcome := Skipped)
      else if !SourceReviewed(sources, q) then Stop(p)
      else
        var connected := Wait(p, others, 1);
        if !a.adapters then Stop(connected)
        else
          var cleared := ClearLingering(connected, q, a, others);
          if !cleared.outcome.Continue? then cleared
          else
            var provisioned := ProvisionBucket(cleared, q, a, others);
            if !provisioned.outcome.Continue? || provisioned.created.None? || q.storageName !in provisioned.memory.candidates
            then provisioned
            else CopyAndCommit(provisioned, q, a, others, sources[q.storageName], target.contexts)
  }

  // ------------------------------------------------ removing the old target

  datatype Removal = Removal(
    migrationId: string, sourceEnvironment: string, targetEnvironment: string, storageName: string,
    provider: string, previousId: Option<string>)

  function PreviousContext(previous: Target, contexts: map<string, Scope>): Option<Scope> {
    if previous.scope.Some? then previous.scope
    else if previous.provider in contexts then Some(contexts[previous.provider]) else None
  }

  datatype Removed = Removed(state: State, asked: Option<Bucket>, outcome: Outcome)

  /** destroyPreviousStorageTarget. */
  function DestroyPrevious(s: State, q: Removal, reviewed: bool, adapter: bool, d: Destroyed,
                           others: Others): Removed {
    var stop := Removed(s, None, Stopped);
    if !reviewed || q.targetEnvironment !in s.store then stop
    else
      var target := s.store[q.targetEnvironment];
      var bindings := Parsed(target);
      if q.storageName !in bindings then stop
      else
        var b := bindings[q.storageName];
        if b.marker.None? || b.marker.value.id != q.migrationId || b.marker.value.fromEnvironment != q.sourceEnvironment then stop
        else if b.previous.None? then stop.(outcome := Skipped)
        else
          var context := PreviousContext(b.previous.value, target.contexts);
          if context.None? || b.previous.value.provider != q.provider || Some(b.previous.value.externalId) != q.previousId then stop
          else
            var connected := s.(store := others(0, s.store));
            if !adapter then stop.(state := connected)
            else
              var bucket := Bucket(q.provider, context.value, b.previous.value.externalId);
              var waited := State(others(1, connected.store), Destroy(connected.live, bucket, d));
              if !d.Gone? then Removed(waited, Some(bucket), Stopped)
              else
                var after := Storage(bindings[q.storageName := b.(previous := None)], target.contexts, target.candidates);
                Removed(waited.(store := Persist(waited.store, q.targetEnvironment, after)), Some(bucket), Completed)
  }
}
