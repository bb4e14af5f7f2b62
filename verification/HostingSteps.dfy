/** Deleting services and whole provider boundaries, switching the hosting provider, and
    retaining an inspected one for cleanup: what each step does to the store and, through
    the provider's answer, to the provider.

    The provider is a set of live services. It may act although it reports failure. */
module HostingSteps {
  import opened Json
  import opened LocalStore
  import opened ProviderBoundary
  import opened HostingReferences

  /** What the registry declares a hosting provider's teardown to own. */
  datatype Boundary = OwnsServices | OwnsEnvironment | OwnsProject

  datatype Scope = ProjectScope(projectId: string) | EnvironmentScope(projectId: string, environmentId: string)

  /** The entry a deletion is done for; a hosting switch moves it between origins. */
  datatype Entry = Entry(environment: string, kind: Kind, name: string)

  /** `live`: services that exist at the providers. `denied`: deletions that were asked for on
      behalf of an entry and reported as failed, although the provider may have acted. */
  datatype State = State(store: Store, live: set<Resource>, denied: set<(Entry, Resource)>)

  function EntryOf(site: Site): Entry { Entry(site.environment, site.kind, site.name) }

  // ------------------------------------------------------- the provider's side

  /** A confirmed deletion left nothing of its target; a denied one may have been carried out. */
  datatype Receipt = Confirmed(alreadyAbsent: bool) | Denied(acted: bool)

  predicate InScope(r: Resource, scope: Scope) {
    r.projectId == scope.projectId
    && (scope.EnvironmentScope? ==> r.environmentId == Some(scope.environmentId))
  }

  function Targets(live: set<Resource>, provider: string, scope: Scope, serviceId: string): set<Resource> {
    set r | r in live && r.provider == provider && r.serviceId == serviceId && InScope(r, scope)
  }

  function BoundaryTargets(live: set<Resource>, target: Target): set<Resource> {
    set r | r in live && Inside(r, target)
  }

  /** Without permission to mutate, a call succeeds only if there is nothing to delete. */
  predicate Succeeds(hit: set<Resource>, allow: bool, receipt: Receipt) {
    receipt.Confirmed? && (allow || hit == {})
  }

  function Remaining(live: set<Resource>, hit: set<Resource>, allow: bool, receipt: Receipt): set<Resource> {
    if allow && (receipt.Confirmed? || receipt.acted) then live - hit else live
  }

  // ------------------------------------------------------- reviewed actions

  /** The exact deletion target recorded in a plan action, if it is complete. */
  datatype DeleteTarget = DeleteTarget(serviceId: string, scope: Scope)

  /** The identity behind a plan's binding fingerprint. */
  datatype Identity = Identity(
    provider: string, projectId: string, environmentId: Option<string>, serviceName: string, serviceId: string)

  datatype ServiceAction = ServiceAction(
    environment: string, provider: string, serviceName: string,
    target: Option<DeleteTarget>, fingerprint: Option<Identity>)

  datatype Observed = Observed(
    provider: string, complete: bool, projectId: Option<string>, environmentId: Option<string>,
    services: seq<(string, string)>)

  function DeleteScopeKind(registry: map<string, Boundary>, provider: string): Option<bool> {
    if provider in registry then Some(registry[provider] == OwnsEnvironment) else None
  }

  /** The target's scope is of the declared kind and names the given provider scope. */
  predicate ScopeMatches(registry: map<string, Boundary>, provider: string, scope: Scope,
                         projectId: Option<string>, environmentId: Option<string>) {
    && DeleteScopeKind(registry, provider) == Some(scope.EnvironmentScope?)
    && projectId == Some(scope.projectId)
    && (scope.EnvironmentScope? ==> environmentId == Some(scope.environmentId))
  }

  predicate ObservesScope(observed: Option<Observed>, provider: string, scope: Scope) {
    && observed.Some? && observed.value.provider == provider && observed.value.complete
    && observed.value.projectId == Some(scope.projectId)
    && (scope.EnvironmentScope? ==> observed.value.environmentId == Some(scope.environmentId))
  }

  function ByServiceId(services: seq<(string, string)>, id: string): seq<(string, string)> {
    if services == [] then []
    else (if services[0].1 == id then [services[0]] else []) + ByServiceId(services[1..], id)
  }

  function ByNameOrId(services: seq<(string, string)>, name: string, id: string): seq<(string, string)> {
    if services == [] then []
    else (if services[0].0 == name || services[0].1 == id then [services[0]] else [])
         + ByNameOrId(services[1..], name, id)
  }

  function IdentityFor(provider: string, scope: Scope, serviceName: string, serviceId: string): Identity {
    Identity(provider, scope.projectId,
             if scope.EnvironmentScope? then Some(scope.environmentId) else None, serviceName, serviceId)
  }

  // ------------------------------------------------------------ destroyService

  /** Everything checked before the store is searched for another user. */
  predicate ServiceDestroyAuthorised(s: Store, registry: map<string, Boundary>, a: ServiceAction,
                                     desired: bool, observed: Option<Observed>) {
    && a.environment in s.environments && !desired && a.target.Some?
    && var b := s.environments[a.environment].bindings;
       var services := Record(Get(b, "services"));
       var t := a.target.value;
       && services.Some? && a.serviceName in services.value
       && StringField(Record(services.value[a.serviceName]), "serviceId") == Some(t.serviceId)
       && StringField(Some(b), "provider") == Some(a.provider)
       && ScopeMatches(registry, a.provider, t.scope,
                       StringField(Some(b), "projectId"), StringField(Some(b), "environmentId"))
       && a.fingerprint == Some(IdentityFor(a.provider, t.scope, a.serviceName, t.serviceId))
       && ObservesScope(observed, a.provider, t.scope)
       && var seen := ByServiceId(observed.value.services, t.serviceId);
          && |seen| <= 1 && (|seen| == 1 ==> seen[0].0 == a.serviceName)
          && (|seen| == 0 ==> t.scope.EnvironmentScope?)
  }

  function ServicesOf(b: Fields): Fields {
    var services := Record(Get(b, "services"));
    if services.Some? then services.value else map[]
  }

  function WithoutService(s: Store, e: string, name: string): Store
    requires e in s.environments
  {
    PatchEnvironment(s, e, map["services" := Obj(ServicesOf(s.environments[e].bindings) - {name})])
  }

  function DestroyService(s: State, registry: map<string, Boundary>, a: ServiceAction, desired: bool,
                          observed: Option<Observed>, adapter: bool, receipt: Receipt): State {
    if !ServiceDestroyAuthorised(s.store, registry, a, desired, observed) then s
    else
      var t := a.target.value;
      var own := Site(a.environment, Current, Service, a.serviceName);
      var shared := ServiceInUse(s.store, a.provider, t.serviceId, Some(own));
      if !adapter || (shared && t.scope.ProjectScope?) then s
      else
        var present := |ByServiceId(observed.value.services, t.serviceId)| == 1;
        var allow := present && !shared;
        var hit := Targets(s.live, a.provider, t.scope, t.serviceId);
        var live := Remaining(s.live, hit, allow, receipt);
        if Succeeds(hit, allow, receipt) && (present || receipt.alreadyAbsent) then
          s.(store := WithoutService(s.store, a.environment, a.serviceName), live := live)
        else s.(live := live, denied := s.denied + Charged(EntryOf(own), s.live - live))
  }

  function Charged(entry: Entry, gone: set<Resource>): set<(Entry, Resource)> {
    set r | r in gone :: (entry, r)
  }

  // -------------------------------------------------------- destroyTaskService

  predicate TaskDestroyAuthorised(s: Store, registry: map<string, Boundary>, a: ServiceAction,
                                  observed: Option<Observed>) {
    && a.target.Some? && a.environment in s.environments
    && var b := s.environments[a.environment].bindings;
       var t := a.target.value;
       && StringField(Some(b), "provider") == Some(a.provider)
       && ScopeMatches(registry, a.provider, t.scope,
                       StringField(Some(b), "projectId"), StringField(Some(b), "environmentId"))
       && a.fingerprint == Some(IdentityFor(a.provider, t.scope, a.serviceName, t.serviceId))
       && ObservesScope(observed, a.provider, t.scope)
       && var seen := ByNameOrId(observed.value.services, a.serviceName, t.serviceId);
          && |seen| <= 1 && (|seen| == 1 ==> seen[0] == (a.serviceName, t.serviceId))
          && (|seen| == 0 ==> t.scope.EnvironmentScope?)
  }

  /** A leftover task has no local binding, so nothing may refer to it at all. */
  function DestroyTask(s: State, registry: map<string, Boundary>, a: ServiceAction,
                       observed: Option<Observed>, adapter: bool, receipt: Receipt): State {
    if !TaskDestroyAuthorised(s.store, registry, a, observed) || !adapter then s
    else
      var t := a.target.value;
      var shared := ServiceInUse(s.store, a.provider, t.serviceId, None);
      if shared && t.scope.ProjectScope? then s
      else
        var present := |ByNameOrId(observed.value.services, a.serviceName, t.serviceId)| == 1;
        var hit := Targets(s.live, a.provider, t.scope, t.serviceId);
        s.(live := Remaining(s.live, hit, present && !shared, receipt))
  }

  // ----------------------------------------------- destroyPreviousHostingService

  function BoundIn(source: Fields, name: string): Option<string> {
    var services := Record(Get(source, "services"));
    if services.Some? && name in services.value then BoundId(services.value[name]) else None
  }

  predicate PreviousServiceAuthorised(s: Store, registry: map<string, Boundary>, a: ServiceAction,
                                      boundary: Boundary) {
    && a.environment in s.environments && a.target.Some? && boundary != OwnsEnvironment
    && var stash := Source(s.environments[a.environment].bindings, Previous);
       var t := a.target.value;
       && stash.Some? && StringField(stash, "provider") == Some(a.provider)
       && BoundIn(stash.value, a.serviceName) == Some(t.serviceId)
       && ScopeMatches(registry, a.provider, t.scope,
                       StringField(stash, "projectId"), StringField(stash, "environmentId"))
  }

  /** Prune the stash; drop it with its last service unless a project delete is still to come. */
  function PrunedStash(stash: Fields, name: string, boundary: Boundary): Json
    requires Get(stash, "services").Obj?
  {
    var left := stash["services"].fields - {name};
    if left != map[] || boundary == OwnsProject then Obj(stash["services" := Obj(left)]) else Null
  }

  function DestroyPreviousService(s: State, registry: map<string, Boundary>, a: ServiceAction,
                                  boundary: Boundary, adapter: bool, receipt: Receipt): State {
    if !PreviousServiceAuthorised(s.store, registry, a, boundary) || !adapter then s
    else
      var t := a.target.value;
      var own := Site(a.environment, Previous, Service, a.serviceName);
      var stash := Source(s.store.environments[a.environment].bindings, Previous).value;
      var shared := ServiceInUse(s.store, a.provider, t.serviceId, Some(own));
      if shared && t.scope.ProjectScope? then s
      else
        var hit := Targets(s.live, a.provider, t.scope, t.serviceId);
        var live := Remaining(s.live, hit, !shared, receipt);
        if Succeeds(hit, !shared, receipt) then
          s.(store := PatchEnvironment(s.store, a.environment,
                                       map["previousHosting" := PrunedStash(stash, a.serviceName, boundary)]),
             live := live)
        else s.(live := live, denied := s.denied + Charged(EntryOf(own), s.live - live))
  }

  // ---------------------------------------------- destroyPreviousHostingBoundary

  datatype BoundaryAction = BoundaryAction(
    environment: string, provider: string, projectId: Option<string>, environmentId: Option<string>)

  predicate BoundaryDestroyAuthorised(s: Store, registry: map<string, Boundary>, a: BoundaryAction,
                                      wholeProject: bool) {
    && a.environment in s.environments
    && var stash := Source(s.environments[a.environment].bindings, Previous);
       && StringField(stash, "provider") == Some(a.provider)
       && StringField(stash, "projectId").Some? && a.projectId == StringField(stash, "projectId")
       && (!wholeProject ==> StringField(stash, "environmentId").Some?
                             && a.environmentId == StringField(stash, "environmentId"))
       && a.provider in registry && registry[a.provider] == (if wholeProject then OwnsProject else OwnsEnvironment)
  }

  function TargetOf(a: BoundaryAction, wholeProject: bool): Target
    requires a.projectId.Some? && (wholeProject || a.environmentId.Some?)
  {
    if wholeProject then ProjectBoundary(a.provider, a.projectId.value)
    else EnvironmentBoundary(a.provider, a.projectId.value, a.environmentId.value)
  }

  /** The entries of one stash. */
  function EntriesIn(e: string, stash: Fields): set<Entry> {
    var services, recoveries := Record(Get(stash, "services")), Record(Get(stash, "serviceCreateRecovery"));
    (if services.Some? then set n | n in services.value :: Entry(e, Service, n) else {})
    + (if recoveries.Some? then set n | n in recoveries.value :: Entry(e, CreateRecovery, n) else {})
  }

  function DestroyBoundary(s: State, registry: map<string, Boundary>, a: BoundaryAction, wholeProject: bool,
                           adapter: bool, receipt: Receipt): State {
    if !BoundaryDestroyAuthorised(s.store, registry, a, wholeProject) || !adapter then s
    else
      var target := TargetOf(a, wholeProject);
      if BoundaryInUse(s.store, target, a.environment) then s
      else
        var stash := Source(s.store.environments[a.environment].bindings, Previous).value;
        var hit := BoundaryTargets(s.live, target);
        var live := Remaining(s.live, hit, true, receipt);
        if receipt.Confirmed? then
          s.(store := PatchEnvironment(s.store, a.environment, map["previousHosting" := Null]), live := live)
        else
          s.(live := live,
             denied := s.denied + ChargedAll(EntriesIn(a.environment, stash), s.live - live))
  }

  function ChargedAll(entries: set<Entry>, gone: set<Resource>): set<(Entry, Resource)> {
    set n, r | n in entries && r in gone :: (n, r)
  }

  // ------------------------------------------------- switching the provider

  predicate Truthy(v: Json) {
    match v
    case Undefined => false
    case Null => false
    case Bool(b) => b
    case Number(n) => n != 0
    case Str(t) => t != ""
    case _ => true
  }

  // Parsed hosting bindings: a schema that throws, or hands on its identities trimmed.

  predicate OptionalText(m: Fields, key: string) { Get(m, key) == Undefined || Get(m, key).Str? }

  predicate AllText(v: Json) { v.Arr? && forall i :: 0 <= i < |v.items| ==> v.items[i].Str? }

  predicate ServiceParses(v: Json) {
    && v.Obj? && OptionalString(v.fields, "serviceId") && OptionalString(v.fields, "jobName")
    && OptionalString(v.fields, "schedulerJobName") && OptionalText(v.fields, "url") && OptionalText(v.fields, "imageUri")
    && OptionalText(v.fields, "workloadKind") && OptionalText(v.fields, "resourceType")
    && (Get(v.fields, "customDomains") == Undefined || AllText(Get(v.fields, "customDomains")))
    && var source := Get(v.fields, "source");
       source == Undefined || (source.Obj? && OptionalText(source.fields, "repo") && OptionalText(source.fields, "branch"))
  }

  predicate HostingParses(b: Fields) {
    var services, recoveries := Get(b, "services"), Get(b, "serviceCreateRecovery");
    && OptionalString(b, "provider") && OptionalString(b, "projectId") && OptionalString(b, "environmentId")
    && (services == Undefined
        || (services.Obj? && forall n :: n in services.fields ==> !Blank(n) && ServiceParses(services.fields[n])))
    && (recoveries == Undefined
        || (recoveries.Obj?
            && forall n :: n in recoveries.fields ==> !Blank(n) && ParseRecovery(recoveries.fields[n]).Some?))
  }

  function ParsedField(b: Fields, key: string): Option<string> { Trimmed(Get(b, key)) }

  function TrimField(m: Fields, key: string): Fields {
    if Trimmed(Get(m, key)).Some? then m[key := Str(Trimmed(Get(m, key)).value)] else m
  }

  function ParsedService(v: Json): Json {
    if v.Obj? then Obj(TrimField(TrimField(TrimField(v.fields, "serviceId"), "jobName"), "schedulerJobName")) else v
  }

  function ParsedServices(b: Fields): Fields {
    map n | n in ServicesOf(b) :: ParsedService(ServicesOf(b)[n])
  }

  /** There is something about the current provider that cleanup will need. */
  predicate WorthRetaining(b: Fields, boundary: Boundary) {
    || ServicesOf(b) != map[]
    || (boundary == OwnsEnvironment && ParsedField(b, "projectId").Some? && ParsedField(b, "environmentId").Some?)
    || (boundary == OwnsProject && ParsedField(b, "projectId").Some?)
  }

  function OptionalField(key: string, value: Option<string>): Fields {
    if value.Some? then map[key := Str(value.value)] else map[]
  }

  function StashOf(b: Fields): Fields
    requires ParsedField(b, "provider").Some?
  {
    map["provider" := Str(ParsedField(b, "provider").value), "services" := Obj(ParsedServices(b))]
    + OptionalField("projectId", ParsedField(b, "projectId"))
    + OptionalField("environmentId", ParsedField(b, "environmentId"))
  }

  /** The local part of ensureHostingProject when the bound provider changes. */
  predicate SwitchAuthorised(s: Store, registry: map<string, Boundary>, e: string, provider: string) {
    && e in s.environments
    && var b := s.environments[e].bindings;
       var bound := ParsedField(b, "provider");
       && HostingParses(b) && bound.Some? && bound.value != provider && bound.value in registry
       && StringField(Source(b, Previous), "provider").None?
  }

  function SwitchPatch(b: Fields, boundary: Boundary, provider: string): Fields
    requires ParsedField(b, "provider").Some?
  {
    (if !Truthy(Get(b, "previousHosting")) && WorthRetaining(b, boundary)
     then map["previousHosting" := Obj(StashOf(b))] else map[])
    + map["provider" := Str(provider), "projectId" := Undefined, "environmentId" := Undefined, "services" := Obj(map[])]
  }

  function SwitchHosting(s: State, registry: map<string, Boundary>, e: string, provider: string): State {
    if !SwitchAuthorised(s.store, registry, e, provider) then s
    else
      var b := s.store.environments[e].bindings;
      s.(store := PatchEnvironment(s.store, e, SwitchPatch(b, registry[ParsedField(b, "provider").value], provider)))
  }

  /** What a provider must not put among its own project bindings. */
  const RESERVED := {"provider", "projectId", "environmentId", "services", "previousHosting"}

  function BoundProject(b: Fields, receipt: Fields): Option<string> {
    OrElse(StringField(Some(receipt), "projectId"), ParsedField(b, "projectId"))
  }

  function BoundEnvironment(b: Fields, receipt: Fields): Option<string> {
    OrElse(StringField(Some(receipt), "environmentId"), ParsedField(b, "environmentId"))
  }

  predicate Created(receipt: Fields) { Get(receipt, "created") == Bool(true) }

  function ProviderBindings(receipt: Fields): Fields {
    var raw := Record(Get(receipt, "providerBindings"));
    if raw.Some? then raw.value else map[]
  }

  /** The update after a successful ensureProject. */
  function ProjectPatch(extra: Fields, provider: string, projectId: string, environmentId: Option<string>,
                        created: bool): Fields {
    extra + map["provider" := Str(provider), "projectId" := Str(projectId)]
    + OptionalField("environmentId", environmentId)
    + (if created then map["services" := Obj(map[])] else map[])
  }

  function BindProject(s: State, e: string, provider: string, receipt: Fields): State
    requires e in s.store.environments
  {
    var b := s.store.environments[e].bindings;
    var extra, projectId := ProviderBindings(receipt), BoundProject(b, receipt);
    if !HostingParses(b) || extra.Keys * RESERVED != {} || projectId.None? then s
    else s.(store := PatchEnvironment(s.store, e,
              ProjectPatch(extra, provider, projectId.value, BoundEnvironment(b, receipt), Created(receipt))))
  }

  predicate SwitchNeeded(b: Fields, provider: string) {
    ParsedField(b, "provider").Some? && ParsedField(b, "provider").value != provider
  }

  /** ensureHostingProject: the local switch happens before the provider is asked, and stays
      if the provider then fails (no receipt). */
  function EnsureHosting(s: State, registry: map<string, Boundary>, e: string, provider: string,
                         receipt: Option<Fields>): State {
    if e !in s.store.environments then s
    else
      var needed := SwitchNeeded(s.store.environments[e].bindings, provider);
      if !HostingParses(s.store.environments[e].bindings) || (needed && !SwitchAuthorised(s.store, registry, e, provider)) then s
      else
        var t := SwitchHosting(s, registry, e, provider);
        if receipt.None? then t else BindProject(t, e, provider, receipt.value)
  }

  // -------------------------------------- retaining an inspected provider

  datatype Inspected = Inspected(
    projectId: Option<string>, environmentId: Option<string>, managed: bool, services: seq<InspectedService>)

  /** `extra` holds the job and resource-type fields that are kept along with the id. */
  datatype InspectedService = InspectedService(
    name: Option<string>, id: Option<string>, managed: bool, extra: Fields)

  /** The service map that the import collects; None when one entry is refused. */
  function Collected(services: seq<InspectedService>): Option<Fields> {
    if services == [] then Some(map[])
    else
      var before, x := Collected(services[..|services| - 1]), services[|services| - 1];
      if before.None? || x.name.None? || x.id.None? || x.name.value in before.value || !x.managed then None
      else Some(before.value[x.name.value := Obj(x.extra["serviceId" := Str(x.id.value)])])
  }

  function ImportedStash(provider: string, seen: Inspected, services: Fields): Fields
    requires seen.projectId.Some?
  {
    map["provider" := Str(provider), "services" := Obj(services)]
    + OptionalField("projectId", seen.projectId) + OptionalField("environmentId", seen.environmentId)
  }

  predicate ImportAuthorised(s: Store, registry: map<string, Boundary>, e: string, provider: string,
                             seen: Inspected) {
    && e in s.environments && provider in registry
    && var b := s.environments[e].bindings;
       && StringField(Some(b), "provider").Some? && StringField(Some(b), "provider") != Some(provider)
       && Record(Get(b, "previousHosting")).None?
       && (registry[provider] == OwnsProject ==> seen.managed)
       && seen.projectId.Some? && (registry[provider] == OwnsEnvironment ==> seen.environmentId.Some?)
       && Collected(seen.services).Some?
       && (registry[provider] == OwnsServices ==> Collected(seen.services) != Some(map[]))
  }

  function RetainHosting(s: State, registry: map<string, Boundary>, e: string, provider: string,
                         seen: Inspected, confirm: bool): State {
    if !ImportAuthorised(s.store, registry, e, provider, seen) || !confirm then s
    else s.(store := PatchEnvironment(s.store, e,
              map["previousHosting" := Obj(ImportedStash(provider, seen, Collected(seen.services).value))]))
  }

  // ------------------------------------------------------------------ runs

  datatype Event =
    | ServiceDestroyed(action: ServiceAction, desired: bool, observed: Option<Observed>, adapter: bool, receipt: Receipt)
    | TaskDestroyed(action: ServiceAction, observed: Option<Observed>, adapter: bool, receipt: Receipt)
    | PreviousServiceDestroyed(action: ServiceAction, boundary: Boundary, adapter: bool, receipt: Receipt)
    | BoundaryDestroyed(boundaryAction: BoundaryAction, wholeProject: bool, adapter: bool, receipt: Receipt)
    | HostingEnsured(environment: string, provider: string, ensured: Option<Fields>)
    | HostingRetained(environment: string, provider: string, inspected: Inspected, confirm: bool)

  function Step(s: State, registry: map<string, Boundary>, event: Event): State {
    match event
    case ServiceDestroyed(a, desired, observed, adapter, receipt) =>
      DestroyService(s, registry, a, desired, observed, adapter, receipt)
    case TaskDestroyed(a, observed, adapter, receipt) => DestroyTask(s, registry, a, observed, adapter, receipt)
    case PreviousServiceDestroyed(a, boundary, adapter, receipt) =>
      DestroyPreviousService(s, registry, a, boundary, adapter, receipt)
    case BoundaryDestroyed(a, wholeProject, adapter, receipt) =>
      DestroyBoundary(s, registry, a, wholeProject, adapter, receipt)
    case HostingEnsured(e, provider, receipt) => EnsureHosting(s, registry, e, provider, receipt)
    case HostingRetained(e, provider, seen, confirm) => RetainHosting(s, registry, e, provider, seen, confirm)
  }

  function Run(s: State, registry: map<string, Boundary>, events: seq<Event>): State {
    if events == [] then s else Step(Run(s, registry, events[..|events| - 1]), registry, events[|events| - 1])
  }
}
