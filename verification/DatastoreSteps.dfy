/** Creating, switching, destroying and cleaning up databases and caches. A binding is
    modelled by the fields the handlers read; a field of the wrong type counts as absent. */
module DatastoreSteps {
  import opened Json

  datatype Kind = Database | Cache

  type Scope = Fields

  /** A create whose outcome is unknown: what was asked for, without an id. */
  datatype Unresolved =
    | UnresolvedResource(kind: Kind, name: string, scope: Scope)
    | UnresolvedNetwork(name: string, cacheName: string, scope: Scope, networkScope: Scope, ownership: Scope)

  datatype Replica = Replica(externalId: Option<string>, region: Option<string>, tier: Option<string>)

  datatype Bindings = Bindings(
    provider: Option<string>, instanceId: Option<string>, serviceId: Option<string>, scope: Option<Scope>,
    provisioning: bool, reconciling: bool,
    resource: Option<Unresolved>, network: Option<Unresolved>,
    previousProvider: Option<string>, previousId: Option<string>, previous: Option<Bindings>,
    replicas: map<string, Replica>, rest: Fields)

  datatype Row = Row(externalId: Option<string>, bindings: Bindings)

  datatype Key = Key(environment: string, kind: Kind)

  /** A retained cleanup target: at most one per environment and kind. */
  datatype Slot = Slot(provider: string, externalId: string, name: string, scope: Scope)

  datatype Topology = Topology(provider: string, primary: string, replicas: map<string, (string, Replica)>)

  datatype Store = Store(rows: map<Key, Row>, slots: map<Key, Slot>, topology: map<string, Topology>)

  function EffectiveId(r: Row): Option<string> {
    OrElse(r.externalId, OrElse(r.bindings.instanceId, r.bindings.serviceId))
  }

  /** The unresolved create of a binding, if it is of this kind. */
  function ResourceMarker(b: Bindings, kind: Kind): Option<Unresolved> {
    if b.resource.Some? && b.resource.value.UnresolvedResource? && b.resource.value.kind == kind then b.resource else None
  }

  function NetworkMarker(b: Bindings): Option<Unresolved> {
    if b.network.Some? && b.network.value.UnresolvedNetwork? then b.network else None
  }

  /** What a provision call returned. `local`: for this very environment. */
  datatype Made = Made(externalId: Option<string>, local: bool, bindings: Bindings)

  /** { ...before, ...after }. */
  function Spread(before: Bindings, after: Bindings): Bindings {
    Bindings(
      OrElse(after.provider, before.provider), OrElse(after.instanceId, before.instanceId),
      OrElse(after.serviceId, before.serviceId), OrElse(after.scope, before.scope),
      after.provisioning || before.provisioning, after.reconciling || before.reconciling,
      OrElse(after.resource, before.resource), OrElse(after.network, before.network),
      OrElse(after.previousProvider, before.previousProvider), OrElse(after.previousId, before.previousId),
      OrElse(after.previous, before.previous),
      if after.replicas == map[] then before.replicas else after.replicas, before.rest + after.rest)
  }

  predicate Complete(b: Bindings) { !b.provisioning && !b.reconciling }

  function Unflagged(b: Bindings): Bindings { b.(provisioning := false, reconciling := false) }

  predicate Switches(existing: Option<Row>, provider: string) {
    existing.Some? && existing.value.bindings.provider.Some? && existing.value.bindings.provider.value != provider
  }

  /** The new binding carries the old one along. */
  function Nesting(b: Bindings, existing: Row): Bindings {
    b.(previousProvider := existing.bindings.provider, previousId := existing.externalId, previous := Some(existing.bindings))
  }

  // --------------------------------------------------- failed provisions

  predicate CompleteFor(scope: Option<Scope>, required: set<string>) {
    required != {} && CompleteScope(scope) && required <= scope.value.Keys
  }

  /** The one unresolved create of a component without an id. None: there is none. */
  function UnresolvedOf(kind: Kind, made: Made): Option<Unresolved> {
    if made.externalId.Some? then None
    else OrElse(ResourceMarker(made.bindings, kind), if kind.Cache? then NetworkMarker(made.bindings) else None)
  }

  predicate Ambiguous(kind: Kind, made: Made) {
    made.externalId.None? && kind.Cache? && ResourceMarker(made.bindings, kind).Some? && NetworkMarker(made.bindings).Some?
  }

  /** The failed response names something that can be found again. */
  predicate Durable(kind: Kind, provider: string, made: Made, required: set<string>) {
    && !Ambiguous(kind, made) && made.local && made.bindings.provider == Some(provider)
    && if made.externalId.Some? then CompleteFor(made.bindings.scope, required)
       else UnresolvedOf(kind, made).Some? && made.bindings.scope == Some(UnresolvedOf(kind, made).value.scope)
  }

  predicate SameProvider(existing: Option<Row>, provider: string) {
    existing.Some? && existing.value.bindings.provider == Some(provider)
  }

  /** An update of the very cache that is bound, with an uncertain outcome. */
  predicate InPlace(existing: Option<Row>, provider: string, made: Made) {
    && SameProvider(existing, provider) && made.externalId.Some?
    && EffectiveId(existing.value) == made.externalId
    && existing.value.bindings.scope.Some? && existing.value.bindings.scope == made.bindings.scope
  }

  function BoundMarker(b: Bindings): Option<Unresolved> {
    OrElse(ResourceMarker(b, Cache), NetworkMarker(b))
  }

  /** A repetition of the very unresolved create that is recorded. */
  predicate SameMarker(existing: Option<Row>, provider: string, made: Made) {
    && SameProvider(existing, provider) && EffectiveId(existing.value).None? && made.externalId.None?
    && BoundMarker(existing.value.bindings).Some? && BoundMarker(existing.value.bindings) == UnresolvedOf(Cache, made)
    && existing.value.bindings.scope.Some? && existing.value.bindings.scope == made.bindings.scope
  }

  predicate Retainable(kind: Kind, provider: string, made: Made, existing: Option<Row>, required: set<string>) {
    && Durable(kind, provider, made, required)
    && (kind.Cache? && SameProvider(existing, provider) ==> InPlace(existing, provider, made) || SameMarker(existing, provider, made))
    && (UnresolvedOf(kind, made).Some? && SameProvider(existing, provider) ==> EffectiveId(existing.value).None?)
  }

  /** retainFailedProvisionIdentity; None: nothing is recorded. */
  function RetainFailed(kind: Kind, provider: string, made: Made, existing: Option<Row>,
                        required: set<string>): Option<Row> {
    if !Retainable(kind, provider, made, existing, required) then None
    else
      var inPlace := kind.Cache? && InPlace(existing, provider, made);
      var combined := if Switches(existing, provider) then Nesting(made.bindings, existing.value)
                      else if existing.Some? then Spread(existing.value.bindings, made.bindings) else made.bindings;
      Some(Row(made.externalId, combined.(provisioning := !inPlace, reconciling := inPlace)))
  }

  /** A successful provision; the row keeps its external id if none is returned. */
  function Recorded(provider: string, made: Made, existing: Option<Row>): Row {
    var b := Unflagged(made.bindings);
    Row(if existing.Some? then OrElse(made.externalId, existing.value.externalId) else made.externalId,
        if Switches(existing, provider) then Nesting(b, existing.value) else b)
  }

  function RowAt(s: Store, key: Key): Option<Row> {
    if key in s.rows then Some(s.rows[key]) else None
  }

  function WithRow(s: Store, key: Key, r: Row): Store { s.(rows := s.rows[key := r]) }

  /** Recording a failed or a successful provision. */
  function Provisioned(s: Store, key: Key, provider: string, success: bool, made: Made,
                       required: set<string>): Store {
    var existing := RowAt(s, key);
    if success then
      var stored := WithRow(s, key, Recorded(provider, made, existing));
      var primary := OrElse(made.externalId, made.bindings.instanceId);
      if key.kind.Database? && primary.Some?
      then stored.(topology := s.topology[key.environment := Topology(provider, primary.value, map[])]) else stored
    else
      var retained := RetainFailed(key.kind, provider, made, existing, required);
      if retained.Some? then WithRow(s, key, retained.value) else s
  }

  /** May another create be issued? For a cache, `planned` is the network marker that the
      plan recorded. */
  predicate MayCreate(s: Store, key: Key, planned: Option<Unresolved>) {
    var existing := RowAt(s, key);
    && (existing.Some? ==> ResourceMarker(existing.value.bindings, key.kind).None?)
    && (key.kind.Cache? ==> planned == if existing.Some? then NetworkMarker(existing.value.bindings) else None)
  }

  /** createDatabase and createCache; no answer: nothing was asked of the provider. */
  function Create(s: Store, key: Key, provider: string, planned: Option<Unresolved>,
                  answer: Option<(bool, Made)>, required: set<string>): Store {
    if !MayCreate(s, key, planned) || answer.None? then s
    else Provisioned(s, key, provider, answer.value.0, answer.value.1, required)
  }

  // ---------------------------------------------------- ordinary destroys

  /** `sameIdentity`: the fingerprint of the bindings is the reviewed one. */
  datatype Destruction = Destruction(
    provider: string, externalId: Option<string>, scope: Option<Scope>, sameIdentity: bool)

  datatype Target = Target(provider: string, externalId: string, scope: Scope)

  predicate Textual(scope: Option<Scope>) {
    scope.Some? && scope.value != map[] && forall k :: k in scope.value ==> scope.value[k].Str? && scope.value[k].text != ""
  }

  function PreviousId(b: Bindings): Option<string>
    requires b.previous.Some?
  {
    OrElse(b.previousId, OrElse(b.previous.value.instanceId, b.previous.value.serviceId))
  }

  predicate HitsPrevious(b: Bindings, provider: string) {
    b.provider != Some(provider) && b.previousProvider == Some(provider) && b.previous.Some?
  }

  /** What an ordinary destroy would ask the provider to delete. */
  function DestroyTarget(r: Row, a: Destruction): Option<Target> {
    var b := r.bindings;
    if b.provider != Some(a.provider) && !HitsPrevious(b, a.provider) then None
    else
      var id := if HitsPrevious(b, a.provider) then PreviousId(b) else EffectiveId(r);
      var scope := if HitsPrevious(b, a.provider) then b.previous.value.scope else b.scope;
      if a.externalId.None? || id != a.externalId || !Textual(a.scope) || scope != a.scope || !a.sameIdentity then None
      else Some(Target(a.provider, id.value, scope.value))
  }

  function WithoutPrevious(b: Bindings): Bindings { b.(previousProvider := None, previousId := None, previous := None) }

  predicate Restorable(b: Bindings) {
    b.previous.Some? && PreviousId(b).Some? && b.previous.value.scope.Some? && b.previous.value.scope != Some(map[])
  }

  /** The row after the provider confirmed: None if it is deleted. */
  function AfterDestroy(r: Row, a: Destruction): Option<Row> {
    var b := r.bindings;
    if HitsPrevious(b, a.provider) then Some(r.(bindings := WithoutPrevious(b)))
    else if b.provisioning && b.previousProvider.Some? && b.previous.Some? then
      if Restorable(b) then Some(Row(PreviousId(b), b.previous.value)) else Some(r)
    else None
  }

  datatype Effect = Effect(store: Store, asked: Option<Target>)

  /** destroyDatabase and destroyCache. */
  function Destroy(s: Store, key: Key, a: Destruction, adapter: bool, confirmed: bool): Effect {
    if key !in s.rows || DestroyTarget(s.rows[key], a).None? || !adapter then Effect(s, None)
    else
      var after := AfterDestroy(s.rows[key], a);
      Effect(if !confirmed then s
             else if after.Some? then WithRow(s, key, after.value) else s.(rows := s.rows - {key}),
             DestroyTarget(s.rows[key], a))
  }

  // ------------------------------------------------------ retained cleanup

  /** A component, of any environment, that could be the target: same kind, provider and id. */
  predicate Binds(r: Row, provider: string, externalId: string) {
    && r.bindings.provider == Some(provider)
    && Some(externalId) in {r.externalId, r.bindings.instanceId, r.bindings.serviceId}
  }

  predicate BoundSomewhere(s: Store, kind: Kind, provider: string, externalId: string) {
    exists key :: key in s.rows && key.kind == kind && Binds(s.rows[key], provider, externalId)
  }

  predicate Pending(r: Row, provider: string) {
    r.externalId.None? && r.bindings.provisioning && r.bindings.provider == Some(provider)
  }

  /** The unresolved create that a slot is about. */
  predicate Matches(r: Row, kind: Kind, slot: Slot) {
    && Pending(r, slot.provider)
    && ResourceMarker(r.bindings, kind) == Some(UnresolvedResource(kind, slot.name, slot.scope))
  }

  predicate ScopeImportable(kind: Kind, scope: Scope, required: set<string>) {
    && required != {} && required <= scope.Keys && Textual(Some(scope))
    && (kind.Cache? ==> CompleteScope(Some(scope)))
  }

  /** Importing a cleanup target. `seen`: the one candidate of a complete inventory. */
  function RetainTarget(s: Store, key: Key, seen: Slot, required: set<string>, confirm: bool): Store {
    if || key in s.slots || !ScopeImportable(key.kind, seen.scope, required)
       || BoundSomewhere(s, key.kind, seen.provider, seen.externalId)
       || (key in s.rows && Pending(s.rows[key], seen.provider) && !Matches(s.rows[key], key.kind, seen))
       || !confirm
    then s else s.(slots := s.slots[key := seen])
  }

  /** The binding to go back to when the marker is cleared. */
  predicate PreviousComplete(b: Bindings, kind: Kind) {
    && b.previous.Some? && b.previous.value.provider == b.previousProvider && PreviousId(b).Some?
    && CompleteScope(b.previous.value.scope)
    && (kind.Cache? ==>
          var nested := OrElse(b.previous.value.instanceId, b.previous.value.serviceId);
          nested.Some? ==> nested == PreviousId(b))
  }

  /** What the provider shows of a retained target. */
  datatype Observation = Absent | Present(externalId: string, name: string, scope: Option<Scope>) | Unknown

  datatype Cleanup = Cleanup(adapter: bool, before: Observation, confirmed: bool, after: Observation)

  /** The plan reviewed this very target; the database plan does not repeat the name. */
  predicate Planned(kind: Kind, slot: Slot, planned: Slot) {
    && slot.provider == planned.provider && slot.externalId == planned.externalId && slot.scope == planned.scope
    && (kind.Cache? ==> slot.name == planned.name)
  }

  predicate CleanupAuthorised(s: Store, key: Key, planned: Slot) {
    && key in s.slots && Planned(key.kind, s.slots[key], planned) && CompleteScope(Some(s.slots[key].scope))
    && !BoundSomewhere(s, key.kind, s.slots[key].provider, s.slots[key].externalId)
    && (key in s.rows && Matches(s.rows[key], key.kind, s.slots[key]) && s.rows[key].bindings.previousProvider.Some? ==>
          PreviousComplete(s.rows[key].bindings, key.kind))
  }

  predicate SeenAsRetained(kind: Kind, slot: Slot, seen: Observation) {
    match seen
    case Absent => true
    case Present(id, name, scope) => id == slot.externalId && scope == Some(slot.scope) && (kind.Cache? ==> name == slot.name)
    case Unknown => false
  }

  /** Clearing a slot: the matching marker goes too, in favour of the binding before it. */
  function Cleared(s: Store, key: Key): Store
    requires key in s.slots
  {
    var slot := s.slots[key];
    var cleared := s.(slots := s.slots - {key});
    if key in s.rows && Matches(s.rows[key], key.kind, slot) then
      var b := s.rows[key].bindings;
      if b.previousProvider.Some? && b.previous.Some? then WithRow(cleared, key, Row(PreviousId(b), b.previous.value))
      else cleared.(rows := s.rows - {key})
    else cleared
  }

  /** destroyRetainedDatabase and destroyRetainedCache. */
  function DestroyRetained(s: Store, key: Key, planned: Slot, c: Cleanup): Effect {
    if !CleanupAuthorised(s, key, planned) || !c.adapter || !SeenAsRetained(key.kind, s.slots[key], c.before) then Effect(s, None)
    else
      var slot := s.slots[key];
      var asked := Some(Target(slot.provider, slot.externalId, slot.scope));
      if c.confirmed && c.after.Absent? then Effect(Cleared(s, key), asked) else Effect(s, asked)
  }

  // -------------------------------------------------------------- replicas

  /** The topology entry of each replica that has an id. */
  function Projection(provider: string, replicas: map<string, Replica>): map<string, (string, Replica)> {
    map n | n in replicas && replicas[n].externalId.Some? :: (provider, replicas[n])
  }

  function PrimaryId(r: Row): Option<string> { OrElse(r.externalId, r.bindings.instanceId) }

  datatype ReplicaChange = Add(made: Option<Replica>) | Drop(confirmed: bool)

  /** `reviewed`: the replica id that the plan recorded. */
  predicate MayChangeReplica(s: Store, environment: string, provider: string, primary: string, name: string,
                             reviewed: Option<string>, change: ReplicaChange) {
    var key := Key(environment, Database);
    && key in s.rows && s.rows[key].bindings.provider == Some(provider) && PrimaryId(s.rows[key]) == Some(primary)
    && var replicas := s.rows[key].bindings.replicas;
       match change
       case Add(_) => name in replicas ==> replicas[name].externalId == reviewed
       case Drop(_) => name in replicas && reviewed.Some? && replicas[name].externalId == reviewed
  }

  predicate Happened(change: ReplicaChange) {
    match change
    case Add(made) => made.Some?
    case Drop(confirmed) => confirmed
  }

  /** Provisioning or removing one read replica, then persistTopology. */
  function ChangeReplica(s: Store, environment: string, provider: string, primary: string, name: string,
                         reviewed: Option<string>, change: ReplicaChange): Store {
    if !MayChangeReplica(s, environment, provider, primary, name, reviewed, change) || !Happened(change) then s
    else
      var key := Key(environment, Database);
      var r := s.rows[key];
      var next := if change.Add? then r.bindings.replicas[name := change.made.value] else r.bindings.replicas - {name};
      WithRow(s, key, r.(bindings := r.bindings.(replicas := next)))
        .(topology := s.topology[environment := Topology(provider, primary, Projection(provider, next))])
  }

  // ------------------------------------------------------------ migrations

  /** The end of a completed database migration: the candidate's bindings, marker included, are
      swapped into the row, which keeps its external id if none was reported, and the index
      starts over without replicas. A bound row without an id was refused earlier. */
  function Migrate(s: Store, environment: string, provider: string, candidate: Row): Store {
    var key := Key(environment, Database);
    var existing := RowAt(s, key);
    if existing.Some? && PrimaryId(existing.value).None? then s
    else
      var kept := if existing.Some? then OrElse(candidate.externalId, existing.value.externalId) else candidate.externalId;
      var swapped := WithRow(s, key, Row(kept, candidate.bindings));
      if PrimaryId(candidate).None? then swapped
      else swapped.(topology := s.topology[environment := Topology(provider, PrimaryId(candidate).value, map[])])
  }

  // ------------------------------------------------------------------ runs

  datatype Event =
    | Created(key: Key, provider: string, planned: Option<Unresolved>, answer: Option<(bool, Made)>, required: set<string>)
    | Destroyed(key: Key, action: Destruction, adapter: bool, confirmed: bool)
    | Imported(key: Key, seen: Slot, required: set<string>, confirm: bool)
    | CleanedUp(key: Key, slot: Slot, cleanup: Cleanup)
    | ReplicaChanged(environment: string, provider: string, primary: string, name: string,
                     reviewed: Option<string>, change: ReplicaChange)
    | Migrated(environment: string, provider: string, candidate: Row)

  function Step(s: Store, e: Event): Store {
    match e
    case Created(key, provider, planned, answer, required) => Create(s, key, provider, planned, answer, required)
    case Destroyed(key, a, adapter, confirmed) => Destroy(s, key, a, adapter, confirmed).store
    case Imported(key, seen, required, confirm) => RetainTarget(s, key, seen, required, confirm)
    case CleanedUp(key, slot, c) => DestroyRetained(s, key, slot, c).store
    case ReplicaChanged(environment, provider, primary, name, reviewed, change) =>
      ChangeReplica(s, environment, provider, primary, name, reviewed, change)
    case Migrated(environment, provider, candidate) => Migrate(s, environment, provider, candidate)
  }

  function Run(s: Store, events: seq<Event>): Store {
    if events == [] then s else Step(Run(s, events[..|events| - 1]), events[|events| - 1])
  }
}
