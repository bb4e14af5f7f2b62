/** Copying a database to a fresh candidate and swapping it in, while other writers may
    change the component table whenever the migration waits for a provider. */
module DatabaseMigrationSteps {
  import opened Json

  datatype RowKind = Engine(name: string) | CandidateOf(migrationId: string, engine: string)

  /** One component per environment and kind. */
  datatype Slot = Slot(environment: string, kind: RowKind)

  /** None stands for an absent or empty field. */
  datatype Bindings = Bindings(
    provider: Option<string>, instanceId: Option<string>,
    marker: Option<Marker>, previous: Option<Previous>, rest: Fields)

  datatype Marker = Marker(id: string, fromEnvironment: string, completed: bool)

  /** The rollback target that a swap retains. */
  datatype Previous = Previous(provider: string, externalId: string, bindings: Bindings)

  datatype Row = Row(id: nat, version: nat, externalId: Option<string>, bindings: Bindings)

  /** `clock` is later than every version, and later than every row id, in the table. */
  datatype Table = Table(rows: map<Slot, Row>, clock: nat)

  datatype Db = Db(provider: string, id: string)

  /** An environment's topology index: its primary and its read replicas. */
  datatype Index = Index(primary: Db, replicas: map<string, Db>)

  /** `live`: the databases that exist at the providers. */
  datatype State = State(table: Table, live: set<Db>, topology: map<string, Index>)

  function EffectiveId(r: Row): Option<string> { OrElse(r.externalId, r.bindings.instanceId) }

  // ------------------------------------------------------- the repositories

  function CreateRow(t: Table, slot: Slot, externalId: Option<string>, b: Bindings): Table {
    Table(t.rows[slot := Row(t.clock, t.clock, externalId, b)], t.clock + 1)
  }

  /** Leaving out the external id keeps the one the row has. */
  function UpdateRow(t: Table, slot: Slot, externalId: Option<string>, b: Bindings): Table
    requires slot in t.rows
  {
    var r := t.rows[slot];
    Table(t.rows[slot := Row(r.id, t.clock, OrElse(externalId, r.externalId), b)], t.clock + 1)
  }

  function DeleteRow(t: Table, slot: Slot, id: nat): Table {
    if slot in t.rows && t.rows[slot].id == id then Table(t.rows - {slot}, t.clock + 1) else t
  }

  // ---------------------------------------------------------- one migration

  datatype Request = Request(
    migrationId: string, sourceEnvironment: string, targetEnvironment: string, engine: string,
    sourceProvider: string, targetProvider: string, sourceId: nat, sourceExternalId: Option<string>)

  function ActiveSlot(q: Request): Slot { Slot(q.targetEnvironment, Engine(q.engine)) }
  function SourceSlot(q: Request): Slot { Slot(q.sourceEnvironment, Engine(q.engine)) }
  function CandidateSlot(q: Request): Slot { Slot(q.targetEnvironment, CandidateOf(q.migrationId, q.engine)) }

  /** Refused may still have removed the database; without an adapter nothing is asked. */
  datatype Destroyed = Gone | Refused(removed: bool) | NoAdapter

  datatype Provision = Provision(success: bool, externalId: Option<string>, bindings: Bindings)

  function ProvisionedId(p: Provision): Option<string> { OrElse(p.externalId, p.bindings.instanceId) }

  /** What the providers answer. `reviewed`: declarations and maintenance are as planned. */
  datatype Answers = Answers(
    reviewed: bool, lingering: Destroyed, adapter: bool, provision: Provision,
    sourceAccess: bool, targetAccess: bool, copied: bool, sourceReleased: bool, targetReleased: bool,
    cleanup: Destroyed)

  /** What other writers make of the table during the i-th wait. */
  type Others = (nat, Table) -> Table

  datatype Lease = AcquiredSource | AcquiredTarget | ReleasedSource | ReleasedTarget

  /** One write of the migration itself. */
  datatype Write = Write(before: Table, after: Table)

  datatype Outcome = Continue | Stopped | Skipped | Completed

  /** `candidate`: the fresh target's row as it was created. `created`: its database. */
  datatype Progress = Progress(
    state: State, writes: seq<Write>, leases: seq<Lease>,
    candidate: Option<Row>, created: Option<Db>, outcome: Outcome)

  function Wait(s: State, others: Others, i: nat): State { s.(table := others(i, s.table)) }

  function Stop(p: Progress): Progress { p.(outcome := Stopped) }

  function Wrote(p: Progress, after: Table): Progress {
    p.(state := p.state.(table := after), writes := p.writes + [Write(p.state.table, after)])
  }

  function Destroy(live: set<Db>, db: Db, d: Destroyed): set<Db> {
    if d.Gone? || (d.Refused? && d.removed) then live - {db} else live
  }

  function DbOf(provider: string, id: Option<string>): Db {
    Db(provider, if id.Some? then id.value else "")
  }

  predicate AlreadyComplete(t: Table, q: Request) {
    && ActiveSlot(q) in t.rows
    && var marker := t.rows[ActiveSlot(q)].bindings.marker;
       marker == Some(Marker(q.migrationId, q.sourceEnvironment, true))
  }

  /** The tracked source is the planned one, and the target can be rolled back to. */
  predicate Reviewed(t: Table, q: Request) {
    && SourceSlot(q) in t.rows
    && var source := t.rows[SourceSlot(q)];
       && source.id == q.sourceId && source.externalId == q.sourceExternalId
       && source.bindings.provider == Some(q.sourceProvider)
       && (ActiveSlot(q) in t.rows ==> t.rows[ActiveSlot(q)].bindings.provider.Some?
                                       && EffectiveId(t.rows[ActiveSlot(q)]).Some?)
  }

  /** A candidate left over from an earlier attempt must be gone before a new one is made. */
  function ClearLingering(p: Progress, q: Request, a: Answers, others: Others): Progress {
    var t := p.state.table;
    if CandidateSlot(q) !in t.rows then p
    else
      var lingering := t.rows[CandidateSlot(q)];
      if lingering.bindings.provider != Some(q.targetProvider) || a.lingering.NoAdapter? then Stop(p)
      else
        var s := Wait(p.state, others, 1);
        var asked := s.(live := Destroy(s.live, DbOf(q.targetProvider, EffectiveId(lingering)), a.lingering));
        if !a.lingering.Gone? then Stop(p.(state := asked))
        else Wrote(p.(state := asked), DeleteRow(asked.table, CandidateSlot(q), lingering.id))
  }

  /** destroyDatabaseCandidate for the fresh target. */
  function Cleanup(p: Progress, q: Request, a: Answers, others: Others, candidate: Row): Progress {
    if a.cleanup.NoAdapter? then Stop(p)
    else
      var s := Wait(p.state, others, 6);
      var asked := s.(live := Destroy(s.live, DbOf(q.targetProvider, EffectiveId(candidate)), a.cleanup));
      if !a.cleanup.Gone? then Stop(p.(state := asked))
      else Stop(Wrote(p.(state := asked), DeleteRow(asked.table, CandidateSlot(q), candidate.id)))
  }

  /** Provisioning and recording the fresh target; a partial one is recorded before it is
      cleaned up. The insert is refused if the slot is taken. */
  function ProvisionCandidate(p: Progress, q: Request, a: Answers, others: Others): Progress {
    var waited := Wait(p.state, others, 2);
    if !a.adapter then Stop(p.(state := waited))
    else
      var s := Wait(waited, others, 3);
      var id := ProvisionedId(a.provision);
      if !a.provision.success && id.None? then Stop(p.(state := s))
      else
        var db := DbOf(q.targetProvider, id);
        var made := if id.None? then p.(state := s) else p.(state := s.(live := s.live + {db}), created := Some(db));
        if CandidateSlot(q) in s.table.rows then Stop(made)
        else
          var externalId := if a.provision.success then a.provision.externalId else id;
          var t := CreateRow(s.table, CandidateSlot(q), externalId, a.provision.bindings);
          var tracked := Wrote(made, t).(candidate := Some(t.rows[CandidateSlot(q)]));
          if a.provision.success then tracked
          else Cleanup(tracked, q, a, others, t.rows[CandidateSlot(q)])
  }

  /** Both leases, the copy, and both releases. */
  function CopyData(p: Progress, q: Request, a: Answers, others: Others, candidate: Row): Progress {
    var s := p.(state := Wait(p.state, others, 4));
    if !a.sourceAccess then Cleanup(s, q, a, others, candidate)
    else if !a.targetAccess then
      Cleanup(s.(leases := s.leases + [AcquiredSource, ReleasedSource]), q, a, others, candidate)
    else
      var copied := p.(state := Wait(s.state, others, 5),
                       leases := s.leases + [AcquiredSource, AcquiredTarget, ReleasedSource, ReleasedTarget]);
      if a.copied && a.sourceReleased && a.targetReleased then copied
      else Cleanup(copied, q, a, others, candidate)
  }

  /** The same row, unchanged since it was reviewed. */
  predicate SameVersion(now: Table, slot: Slot, reviewed: Option<Row>) {
    if reviewed.None? then slot !in now.rows
    else && slot in now.rows && now.rows[slot].id == reviewed.value.id
         && now.rows[slot].version == reviewed.value.version
         && now.rows[slot].externalId == reviewed.value.externalId
  }

  /** The rollback target: the reviewed id, with the provider and bindings found now. */
  function Rollback(q: Request, existing: Row, reviewedId: string): Previous {
    Previous(if existing.bindings.provider.Some? then existing.bindings.provider.value else q.targetProvider,
             reviewedId, existing.bindings)
  }

  function Swapped(t: Table, q: Request, candidate: Row, reviewedId: Option<string>): Table
    requires ActiveSlot(q) in t.rows ==> reviewedId.Some?
  {
    var slot := ActiveSlot(q);
    var next := candidate.bindings.(marker := Some(Marker(q.migrationId, q.sourceEnvironment, true)));
    if slot in t.rows then
      UpdateRow(t, slot, candidate.externalId, next.(previous := Some(Rollback(q, t.rows[slot], reviewedId.value))))
    else CreateRow(t, slot, candidate.externalId, next)
  }

  function RowAt(t: Table, slot: Slot): Option<Row> {
    if slot in t.rows then Some(t.rows[slot]) else None
  }

  function ReviewedId(reviewed: Table, q: Request): Option<string> {
    if ActiveSlot(q) in reviewed.rows then EffectiveId(reviewed.rows[ActiveSlot(q)]) else None
  }

  /** Neither the row to replace nor the source was touched since the review. */
  predicate Unchanged(now: Table, q: Request, reviewed: Table) {
    && SameVersion(now, ActiveSlot(q), RowAt(reviewed, ActiveSlot(q)))
    && SameVersion(now, SourceSlot(q), RowAt(reviewed, SourceSlot(q)))
  }

  /** The swap, unless a reviewed row changed in the meantime. */
  function Commit(p: Progress, q: Request, a: Answers, others: Others, candidate: Row, reviewed: Table): Progress
    requires Reviewed(reviewed, q)
  {
    if !Unchanged(p.state.table, q, reviewed) then Cleanup(p, q, a, others, candidate)
    else
      var swapped := Wrote(p, Swapped(p.state.table, q, candidate, ReviewedId(reviewed, q)));
      var done := Wrote(swapped, DeleteRow(swapped.state.table, CandidateSlot(q), candidate.id));
      var id := EffectiveId(candidate);
      var index := Index(DbOf(q.targetProvider, id), map[]);
      done.(outcome := Completed,
            state := if id.None? then done.state
                     else done.state.(topology := done.state.topology[q.targetEnvironment := index]))
  }

  /** applyDatabaseMigration. */
  function Copy(s: State, q: Request, a: Answers, others: Others): Progress {
    var p := Progress(Wait(s, others, 0), [], [], None, None, Continue);
    var reviewed := p.state.table;
    if !a.reviewed then Stop(p)
    else if AlreadyComplete(reviewed, q) then p.(outcome := Skipped)
    else if !Reviewed(reviewed, q) then Stop(p)
    else
      var cleared := ClearLingering(p, q, a, others);
      if !cleared.outcome.Continue? then cleared
      else
        var provisioned := ProvisionCandidate(cleared, q, a, others);
        if !provisioned.outcome.Continue? || provisioned.candidate.None? then provisioned
        else
          var copied := CopyData(provisioned, q, a, others, provisioned.candidate.value);
          if !copied.outcome.Continue? then copied
          else Commit(copied, q, a, others, provisioned.candidate.value, reviewed)
  }

  // ------------------------------------------------ removing the old target

  /** The plan's view of the retained target. */
  datatype Removal = Removal(
    migrationId: string, sourceEnvironment: string, targetEnvironment: string, engine: string,
    provider: string, previousId: Option<string>)

  predicate Migrated(b: Bindings, q: Removal) {
    b.marker.Some? && b.marker.value.id == q.migrationId && b.marker.value.fromEnvironment == q.sourceEnvironment
  }

  datatype Removed = Removed(state: State, writes: seq<Write>, asked: Option<Db>, outcome: Outcome)

  /** destroyPreviousDatabaseTarget. What it stores afterwards is what it read before it
      asked the provider, without the rollback target. */
  function DestroyPrevious(s: State, q: Removal, reviewed: bool, d: Destroyed, others: Others): Removed {
    var slot := Slot(q.targetEnvironment, Engine(q.engine));
    var row := RowAt(s.table, slot);
    var stop := Removed(s, [], None, Stopped);
    if !reviewed || row.None? || !Migrated(row.value.bindings, q) then stop
    else if row.value.bindings.previous.None? then stop.(outcome := Skipped)
    else
      var previous := row.value.bindings.previous.value;
      if previous.provider != q.provider || Some(previous.externalId) != q.previousId || previous.externalId == "" then stop
      else if d.NoAdapter? then stop.(state := Wait(s, others, 0))
      else
        var db := Db(previous.provider, previous.externalId);
        var waited := Wait(Wait(s, others, 0), others, 1);
        var asked := waited.(live := Destroy(waited.live, db, d));
        var now := RowAt(asked.table, slot);
        if !d.Gone? then Removed(asked, [], Some(db), Stopped)
        else if now.None? || now.value.id != row.value.id then Removed(asked, [], Some(db), Completed)
        else
          var after := UpdateRow(asked.table, slot, row.value.externalId, row.value.bindings.(previous := None));
          Removed(asked.(table := after), [Write(asked.table, after)], Some(db), Completed)
  }
}
