/** What each hosting step does to the provider and to the bindings, field by field, and exactly
    when. */
module HostingEffects {
  import opened Json
  import opened LocalStore
  import opened ProviderBoundary
  import opened HostingReferences
  import opened HostingSteps

  // ------------------------------------------------------------ vocabulary

  /** One environment's bindings read differently in these fields, and nothing else changed. */
  ghost predicate OnlyFields(s: Store, t: Store, e: string, changed: map<string, Json>) {
    && t.projects == s.projects && t.components == s.components && t.environments.Keys == s.environments.Keys
    && e in s.environments && (forall f :: f in s.environments && f != e ==> t.environments[f] == s.environments[f])
    && t.environments[e].projectId == s.environments[e].projectId && t.environments[e].name == s.environments[e].name
    && forall key :: Get(t.environments[e].bindings, key) ==
                       if key in changed then changed[key] else Get(s.environments[e].bindings, key)
  }

  lemma PatchChangesOnly(s: Store, e: string, patch: Fields)
    requires e in s.environments
    ensures OnlyFields(s, PatchEnvironment(s, e, patch), e, patch)
  {
    forall key ensures Get(Merge(s.environments[e].bindings, patch), key) ==
                       if key in patch then patch[key] else Get(s.environments[e].bindings, key)
    {
      MergedField(s.environments[e].bindings, patch, key);
    }
    hide Merge;
  }

  /** The services that a deletion of this id in this scope is about. */
  function Aimed(live: set<Resource>, provider: string, scope: Scope, id: string): set<Resource> {
    set r | r in live && r.provider == provider && r.serviceId == id && r.projectId == scope.projectId
            && (scope.EnvironmentScope? ==> r.environmentId == Some(scope.environmentId))
  }

  /** The scope is of the kind the registry declares, and it is the bound one. */
  predicate ScopeReviewed(registry: map<string, Boundary>, provider: string, scope: Scope, bound: Fields) {
    && provider in registry && (scope.EnvironmentScope? <==> registry[provider] == OwnsEnvironment)
    && StringField(Some(bound), "projectId") == Some(scope.projectId)
    && (scope.EnvironmentScope? ==> StringField(Some(bound), "environmentId") == Some(scope.environmentId))
  }

  /** The whole inventory of exactly that scope. */
  predicate InventoryOf(observed: Option<Observed>, provider: string, scope: Scope) {
    && observed.Some? && observed.value.complete && observed.value.provider == provider
    && observed.value.projectId == Some(scope.projectId)
    && (scope.EnvironmentScope? ==> observed.value.environmentId == Some(scope.environmentId))
  }

  predicate FingerprintOf(a: ServiceAction, scope: Scope, id: string) {
    && a.fingerprint.Some? && a.fingerprint.value.provider == a.provider && a.fingerprint.value.projectId == scope.projectId
    && a.fingerprint.value.environmentId == (if scope.EnvironmentScope? then Some(scope.environmentId) else None)
    && a.fingerprint.value.serviceName == a.serviceName && a.fingerprint.value.serviceId == id
  }

  lemma {:induction false} FoundById(services: seq<(string, string)>, id: string)
    ensures var found := ByServiceId(services, id);
            && (forall i :: 0 <= i < |services| && services[i].1 == id ==> services[i] in found)
            && (forall x :: x in found ==> x.1 == id && x in services)
  {
    if services != [] {
      FoundById(services[1..], id);
      assert forall i :: 0 < i < |services| ==> services[i] == services[1..][i - 1];
      assert forall x :: x in services[1..] ==> x in services;
    }
  }

  lemma {:induction false} SeenById(services: seq<(string, string)>, id: string)
    ensures |ByServiceId(services, id)| <= 1 <==>
              forall i, j :: 0 <= i < j < |services| ==> services[i].1 != id || services[j].1 != id
  {
    if services != [] {
      SeenById(services[1..], id);
      FoundById(services[1..], id);
      var rest := ByServiceId(services[1..], id);
      assert forall i :: 0 < i < |services| ==> services[i] == services[1..][i - 1];
      if services[0].1 == id && rest != [] {
        assert rest[0] in rest;
        var i :| 0 <= i < |services[1..]| && services[1..][i] == rest[0];
        assert services[i + 1].1 == id;
      }
      if services[0].1 == id && rest == [] {
        forall j | 0 < j < |services| ensures services[j].1 != id { assert services[1..][j - 1] !in rest; }
      }
    }
  }

  lemma {:induction false} FoundByNameOrId(services: seq<(string, string)>, name: string, id: string)
    ensures var found := ByNameOrId(services, name, id);
            && (forall i :: 0 <= i < |services| && (services[i].0 == name || services[i].1 == id) ==> services[i] in found)
            && (forall x :: x in found ==> (x.0 == name || x.1 == id) && x in services)
  {
    if services != [] {
      FoundByNameOrId(services[1..], name, id);
      assert forall i :: 0 < i < |services| ==> services[i] == services[1..][i - 1];
      assert forall x :: x in services[1..] ==> x in services;
    }
  }

  predicate Matching(x: (string, string), name: string, id: string) { x.0 == name || x.1 == id }

  lemma {:induction false} SeenByNameOrId(services: seq<(string, string)>, name: string, id: string)
    ensures |ByNameOrId(services, name, id)| <= 1 <==>
              forall i, j :: 0 <= i < j < |services| ==> !Matching(services[i], name, id) || !Matching(services[j], name, id)
  {
    if services != [] {
      SeenByNameOrId(services[1..], name, id);
      FoundByNameOrId(services[1..], name, id);
      var rest := ByNameOrId(services[1..], name, id);
      assert forall i :: 0 < i < |services| ==> services[i] == services[1..][i - 1];
      if Matching(services[0], name, id) && rest != [] {
        assert rest[0] in rest;
        var i :| 0 <= i < |services[1..]| && services[1..][i] == rest[0];
        assert Matching(services[i + 1], name, id);
      }
      if Matching(services[0], name, id) && rest == [] {
        forall j | 0 < j < |services| ensures !Matching(services[j], name, id) { assert services[1..][j - 1] !in rest; }
      }
    }
  }

  // --------------------------------------------------- create recoveries

  /** What a hosting adapter records of a service create whose outcome was not reconciled:
      unresolved without an id, identified if the service has the name that was asked for,
      mismatched if it has another one. */
  function Marker(provider: string, resourceName: string, scope: map<string, string>, service: Option<(string, string)>): Fields {
    map["provider" := Str(provider), "operation" := Str("create"), "resourceName" := Str(resourceName), "providerScope" := ScopeJson(scope),
        "state" := Str(if service.None? then "unresolved" else if service.value.1 == resourceName then "identified" else "mismatched")]
    + OptionalField("serviceId", if service.Some? then Some(service.value.0) else None)
    + OptionalField("returnedName", if service.Some? then Some(service.value.1) else None)
  }

  predicate Neat(s: string) { s != "" && Trim(s) == s }

  /** Such a marker is read back as what was recorded. */
  lemma MarkerIsRead(provider: string, resourceName: string, scope: map<string, string>, service: Option<(string, string)>)
    requires Neat(provider) && Neat(resourceName) && scope != map[]
    requires forall k :: k in scope ==> !Blank(k) && Neat(scope[k])
    requires service.Some? ==> Neat(service.value.0) && Neat(service.value.1)
    ensures ParseRecovery(Obj(Marker(provider, resourceName, scope, service))) ==
              Some(Recovery(provider, resourceName, scope, if service.Some? then Some(service.value.0) else None))
  {
    hide Trim;
    var m := Marker(provider, resourceName, scope, service);
    MarkerFields(provider, resourceName, scope, service);
    ScopeIsComplete(scope);
    assert (map k | k in ScopeJson(scope).fields :: Trim(ScopeJson(scope).fields[k].text)) == scope;
    hide Marker, CompleteScope, ScopeJson;
  }

  /** What is no such marker is refused: with a field too many, another operation, an id although
      unresolved, none although not, or a returned name that belies the state. */
  lemma OtherMarkersAreRefused(m: Fields)
    requires || (exists key :: key in m && key !in {"provider", "operation", "resourceName", "providerScope", "state", "serviceId", "returnedName"})
             || Get(m, "operation") != Str("create")
             || (Get(m, "state") == Str("unresolved") && Get(m, "serviceId").Str?)
             || (Get(m, "state") != Str("unresolved") && Get(m, "serviceId") == Undefined)
             || (Get(m, "state") == Str("identified") && Get(m, "returnedName") == Undefined)
             || (Get(m, "state") == Str("mismatched") && Get(m, "returnedName").Str? && Get(m, "returnedName") == Get(m, "resourceName"))
             || Get(m, "provider") == Undefined || Get(m, "resourceName") == Undefined || Get(m, "providerScope") == Obj(map[])
    ensures ParseRecovery(Obj(m)).None?
  {
    hide Trim;
  }

  lemma MarkerFields(provider: string, resourceName: string, scope: map<string, string>, service: Option<(string, string)>)
    ensures var m := Marker(provider, resourceName, scope, service);
            && m.Keys <= RECOVERY_KEYS
            && Get(m, "provider") == Str(provider) && Get(m, "resourceName") == Str(resourceName) && Get(m, "operation") == Str("create")
            && Get(m, "providerScope") == ScopeJson(scope)
            && Get(m, "state") == Str(if service.None? then "unresolved" else if service.value.1 == resourceName then "identified" else "mismatched")
            && Get(m, "serviceId") == (if service.Some? then Str(service.value.0) else Undefined)
            && Get(m, "returnedName") == (if service.Some? then Str(service.value.1) else Undefined)
  {
  }

  lemma ScopeIsComplete(scope: map<string, string>)
    requires scope != map[] && forall k :: k in scope ==> !Blank(k) && Neat(scope[k])
    ensures CompleteScope(Record(ScopeJson(scope)))
  {
    hide Trim;
    var k :| k in scope;
    assert k in ScopeJson(scope).fields;
  }

  // -------------------------------------------------------------- one service

  /** The service is in the inventory: once, and under its name. */
  predicate SeenOnce(services: seq<(string, string)>, name: string, id: string) {
    && (exists i :: 0 <= i < |services| && services[i].1 == id)
    && (forall i :: 0 <= i < |services| && services[i].1 == id ==> services[i].0 == name)
    && forall i, j :: 0 <= i < j < |services| ==> services[i].1 != id || services[j].1 != id
  }

  predicate NotSeen(services: seq<(string, string)>, id: string) { forall i :: 0 <= i < |services| ==> services[i].1 != id }

  /** The plan is about the service that is bound under this name, and no longer desired; the
      inventory shows it once under its name, or, of an environment, not at all. */
  predicate ReviewedService(s: Store, registry: map<string, Boundary>, a: ServiceAction, desired: bool, observed: Option<Observed>) {
    && !desired && a.environment in s.environments && a.target.Some?
    && var b, t := s.environments[a.environment].bindings, a.target.value;
       && StringField(Some(b), "provider") == Some(a.provider) && Get(b, "services").Obj?
       && a.serviceName in Get(b, "services").fields
       && StringField(Record(Get(b, "services").fields[a.serviceName]), "serviceId") == Some(t.serviceId)
       && ScopeReviewed(registry, a.provider, t.scope, b) && FingerprintOf(a, t.scope, t.serviceId)
       && InventoryOf(observed, a.provider, t.scope)
       && (SeenOnce(observed.value.services, a.serviceName, t.serviceId)
           || (NotSeen(observed.value.services, t.serviceId) && t.scope.EnvironmentScope?))
  }

  lemma ReviewMeans(s: Store, registry: map<string, Boundary>, a: ServiceAction, desired: bool, observed: Option<Observed>)
    ensures ServiceDestroyAuthorised(s, registry, a, desired, observed) <==> ReviewedService(s, registry, a, desired, observed)
    ensures ReviewedService(s, registry, a, desired, observed) ==>
              (|ByServiceId(observed.value.services, a.target.value.serviceId)| == 1 <==>
                 SeenOnce(observed.value.services, a.serviceName, a.target.value.serviceId))
    ensures ReviewedService(s, registry, a, desired, observed) ==>
              ServicesOf(s.environments[a.environment].bindings) == Get(s.environments[a.environment].bindings, "services").fields
  {
    if observed.Some? && a.target.Some? { SeenMeans(observed.value.services, a.serviceName, a.target.value.serviceId); }
    hide ByServiceId, SeenOnce, NotSeen, NonEmptyString;
  }

  lemma SeenMeans(services: seq<(string, string)>, name: string, id: string)
    ensures var found := ByServiceId(services, id);
            && (|found| == 0 <==> NotSeen(services, id)) && (|found| == 1 && found[0].0 == name <==> SeenOnce(services, name, id))
  {
    SeenById(services, id);
    FoundById(services, id);
    var found := ByServiceId(services, id);
    if |found| == 1 && found[0].0 == name {
      assert found[0] in services;
      forall i | 0 <= i < |services| && services[i].1 == id ensures services[i].0 == name {
        assert services[i] in found && services[i] == found[0];
      }
    }
    if SeenOnce(services, name, id) {
      assert |found| == 1 && found[0] in found;
    }
    hide ByServiceId;
  }

  /** The provider may delete what the id names in that scope if it was seen and nobody else may be
      using it. With nothing of it left, these fields change, and nothing else in the store; else
      the store stays, and what is gone is charged to the entry. */
  ghost predicate Carried(s: State, r: State, a: ServiceAction, seen: bool, free: bool, receipt: Receipt, changed: Fields)
    requires a.target.Some?
  {
    var t := a.target.value;
    var hit := Aimed(s.live, a.provider, t.scope, t.serviceId);
    var done := receipt.Confirmed? && ((seen && free) || hit == {}) && (seen || receipt.alreadyAbsent);
    && r.live == (if seen && free && (receipt.Confirmed? || receipt.acted) then s.live - hit else s.live)
    && (done ==> r.denied == s.denied && OnlyFields(s.store, r.store, a.environment, changed))
    && (!done ==> r.store == s.store
                  && r.denied == s.denied + set x | x in s.live - r.live :: (Entry(a.environment, Service, a.serviceName), x))
  }

  function WithoutEntry(b: Fields, name: string): Fields {
    map["services" := if Get(b, "services").Obj? then Obj(Get(b, "services").fields - {name}) else Undefined]
  }

  /** Destroying a service, exactly as reviewed. */
  lemma DestroysServiceExactly(s: State, registry: map<string, Boundary>, a: ServiceAction, desired: bool,
                               observed: Option<Observed>, adapter: bool, receipt: Receipt)
    ensures var r := DestroyService(s, registry, a, desired, observed, adapter, receipt);
            if !ReviewedService(s.store, registry, a, desired, observed) || !adapter then r == s
            else
              var t, own := a.target.value, Site(a.environment, Current, Service, a.serviceName);
              var free := NobodyElse(s.store, a.provider, t.serviceId, Some(own));
              if !free && t.scope.ProjectScope? then r == s
              else Carried(s, r, a, SeenOnce(observed.value.services, a.serviceName, t.serviceId), free, receipt,
                           WithoutEntry(s.store.environments[a.environment].bindings, a.serviceName))
  {
    ReviewMeans(s.store, registry, a, desired, observed);
    hide ReviewedService, NobodyElse, SeenOnce, Carried, WithoutEntry;
    if ReviewedService(s.store, registry, a, desired, observed) && adapter {
      var t, own := a.target.value, Site(a.environment, Current, Service, a.serviceName);
      NotInUseMeans(s.store, a.provider, t.serviceId, Some(own));
      if NobodyElse(s.store, a.provider, t.serviceId, Some(own)) || !t.scope.ProjectScope? {
        CarriedAsReviewed(s, registry, a, desired, observed, receipt);
      }
    }
    hide ServiceDestroyAuthorised, ServiceInUse, Targets, ByServiceId, Remaining, Succeeds, Charged, WithoutService;
  }

  lemma CarriedAsReviewed(s: State, registry: map<string, Boundary>, a: ServiceAction, desired: bool, observed: Option<Observed>,
                          receipt: Receipt)
    requires ServiceDestroyAuthorised(s.store, registry, a, desired, observed) && ReviewedService(s.store, registry, a, desired, observed)
    requires var t, own := a.target.value, Site(a.environment, Current, Service, a.serviceName);
             NobodyElse(s.store, a.provider, t.serviceId, Some(own)) || !t.scope.ProjectScope?
    ensures var t, own := a.target.value, Site(a.environment, Current, Service, a.serviceName);
            Carried(s, DestroyService(s, registry, a, desired, observed, true, receipt), a,
                    SeenOnce(observed.value.services, a.serviceName, t.serviceId),
                    NobodyElse(s.store, a.provider, t.serviceId, Some(own)), receipt,
                    WithoutEntry(s.store.environments[a.environment].bindings, a.serviceName))
  {
    var t, own, b := a.target.value, Site(a.environment, Current, Service, a.serviceName), s.store.environments[a.environment].bindings;
    ReviewMeans(s.store, registry, a, desired, observed);
    NotInUseMeans(s.store, a.provider, t.serviceId, Some(own));
    assert a.environment in s.store.environments && a.target.Some?;
    assert WithoutEntry(b, a.serviceName) == map["services" := Obj(ServicesOf(b) - {a.serviceName})];
    hide Carried;
    CarriedOut(s, DestroyService(s, registry, a, desired, observed, true, receipt), a, SeenOnce(observed.value.services, a.serviceName, t.serviceId),
               NobodyElse(s.store, a.provider, t.serviceId, Some(own)), receipt, WithoutEntry(b, a.serviceName), own);
    hide ServiceDestroyAuthorised, ReviewedService, ServiceInUse, NobodyElse, Targets, Remaining, Succeeds, Charged, Carried, PatchEnvironment,
         ByServiceId, SeenOnce, ServicesOf, WithoutEntry;
  }

  /** The provider's part of a deletion, and what is stored after it. */
  lemma CarriedOut(s: State, r: State, a: ServiceAction, seen: bool, free: bool, receipt: Receipt, changed: Fields, own: Site)
    requires a.target.Some? && a.environment in s.store.environments
    requires own.environment == a.environment && own.kind == Service && own.name == a.serviceName
    requires var hit := Targets(s.live, a.provider, a.target.value.scope, a.target.value.serviceId);
             var live := Remaining(s.live, hit, seen && free, receipt);
             r == if Succeeds(hit, seen && free, receipt) && (seen || receipt.alreadyAbsent)
                  then s.(store := PatchEnvironment(s.store, a.environment, changed), live := live)
                  else s.(live := live, denied := s.denied + Charged(EntryOf(own), s.live - live))
    ensures Carried(s, r, a, seen, free, receipt, changed)
  {
    AimedMeans(s.live, a.provider, a.target.value.scope, a.target.value.serviceId);
    PatchChangesOnly(s.store, a.environment, changed);
    hide Targets, Aimed, PatchEnvironment, OnlyFields;
  }

  lemma AimedMeans(live: set<Resource>, provider: string, scope: Scope, id: string)
    ensures Targets(live, provider, scope, id) == Aimed(live, provider, scope, id)
  {
  }

  // -------------------------------------------------------- a leftover task

  predicate TaskSeen(services: seq<(string, string)>, name: string, id: string) {
    && (exists i :: 0 <= i < |services| && services[i] == (name, id))
    && (forall i :: 0 <= i < |services| && (services[i].0 == name || services[i].1 == id) ==> services[i] == (name, id))
    && forall i, j :: 0 <= i < j < |services| ==> !Matching(services[i], name, id) || !Matching(services[j], name, id)
  }

  predicate TaskNotSeen(services: seq<(string, string)>, name: string, id: string) {
    forall i :: 0 <= i < |services| ==> services[i].0 != name && services[i].1 != id
  }

  predicate ReviewedTask(s: Store, registry: map<string, Boundary>, a: ServiceAction, observed: Option<Observed>) {
    && a.environment in s.environments && a.target.Some?
    && var b, t := s.environments[a.environment].bindings, a.target.value;
       && StringField(Some(b), "provider") == Some(a.provider)
       && ScopeReviewed(registry, a.provider, t.scope, b) && FingerprintOf(a, t.scope, t.serviceId)
       && InventoryOf(observed, a.provider, t.scope)
       && (TaskSeen(observed.value.services, a.serviceName, t.serviceId)
           || (TaskNotSeen(observed.value.services, a.serviceName, t.serviceId) && t.scope.EnvironmentScope?))
  }

  lemma TaskSeenMeans(services: seq<(string, string)>, name: string, id: string)
    ensures var found := ByNameOrId(services, name, id);
            && (|found| == 0 <==> TaskNotSeen(services, name, id))
            && (|found| == 1 && found[0] == (name, id) <==> TaskSeen(services, name, id))
  {
    SeenByNameOrId(services, name, id);
    FoundByNameOrId(services, name, id);
    var found := ByNameOrId(services, name, id);
    if |found| == 1 && found[0] == (name, id) {
      assert found[0] in services;
      forall i | 0 <= i < |services| && (services[i].0 == name || services[i].1 == id) ensures services[i] == (name, id) {
        assert services[i] in found && services[i] == found[0];
      }
    }
    if TaskSeen(services, name, id) {
      assert |found| == 1 && found[0] in found;
    }
    hide ByNameOrId;
  }

  lemma TaskReviewMeans(s: Store, registry: map<string, Boundary>, a: ServiceAction, observed: Option<Observed>)
    ensures TaskDestroyAuthorised(s, registry, a, observed) <==> ReviewedTask(s, registry, a, observed)
    ensures ReviewedTask(s, registry, a, observed) ==>
              (|ByNameOrId(observed.value.services, a.serviceName, a.target.value.serviceId)| == 1 <==>
                 TaskSeen(observed.value.services, a.serviceName, a.target.value.serviceId))
  {
    if observed.Some? && a.target.Some? { TaskSeenMeans(observed.value.services, a.serviceName, a.target.value.serviceId); }
    hide ByNameOrId, TaskSeen, TaskNotSeen, NonEmptyString;
  }

  /** Destroying a leftover task: the provider deletes what the id names in that scope, exactly if
      the inventory shows the task and nobody in the store may be using it. */
  lemma DestroysTaskExactly(s: State, registry: map<string, Boundary>, a: ServiceAction, observed: Option<Observed>, adapter: bool,
                            receipt: Receipt)
    ensures var r := DestroyTask(s, registry, a, observed, adapter, receipt);
            && r.store == s.store && r.denied == s.denied
            && r.live == if && ReviewedTask(s.store, registry, a, observed) && adapter
                            && TaskSeen(observed.value.services, a.serviceName, a.target.value.serviceId)
                            && NobodyElse(s.store, a.provider, a.target.value.serviceId, None)
                            && (receipt.Confirmed? || receipt.acted)
                         then s.live - Aimed(s.live, a.provider, a.target.value.scope, a.target.value.serviceId) else s.live
  {
    TaskReviewMeans(s.store, registry, a, observed);
    if ReviewedTask(s.store, registry, a, observed) {
      NotInUseMeans(s.store, a.provider, a.target.value.serviceId, None);
      AimedMeans(s.live, a.provider, a.target.value.scope, a.target.value.serviceId);
    }
    hide TaskDestroyAuthorised, ReviewedTask, ServiceInUse, NobodyElse, Targets, Aimed, ByNameOrId, TaskSeen;
  }

  // -------------------------------------------------- the abandoned provider

  /** The plan is about a service that the retained provider has under this name. */
  predicate ReviewedPrevious(s: Store, registry: map<string, Boundary>, a: ServiceAction, boundary: Boundary) {
    && a.environment in s.environments && a.target.Some? && boundary != OwnsEnvironment
    && Get(s.environments[a.environment].bindings, "previousHosting").Obj?
    && var stash, t := Get(s.environments[a.environment].bindings, "previousHosting").fields, a.target.value;
       && StringField(Some(stash), "provider") == Some(a.provider) && ScopeReviewed(registry, a.provider, t.scope, stash)
       && Get(stash, "services").Obj? && a.serviceName in Get(stash, "services").fields
       && var entry := Record(Get(stash, "services").fields[a.serviceName]);
          OrElse(StringField(entry, "serviceId"), StringField(entry, "jobName")) == Some(t.serviceId)
  }

  lemma PreviousReviewMeans(s: Store, registry: map<string, Boundary>, a: ServiceAction, boundary: Boundary)
    ensures PreviousServiceAuthorised(s, registry, a, boundary) <==> ReviewedPrevious(s, registry, a, boundary)
  {
    hide NonEmptyString;
  }

  function WithoutRetained(b: Fields, name: string, boundary: Boundary): Fields
    requires Get(b, "previousHosting").Obj? && Get(Get(b, "previousHosting").fields, "services").Obj?
  {
    var stash := Get(b, "previousHosting").fields;
    var left := Get(stash, "services").fields - {name};
    map["previousHosting" := if left == map[] && boundary != OwnsProject then Null else Obj(stash["services" := Obj(left)])]
  }

  /** Destroying one of its services, exactly as reviewed: the entry leaves the stash, and the last
      one takes the stash along unless a project delete is due. */
  lemma DestroysPreviousExactly(s: State, registry: map<string, Boundary>, a: ServiceAction, boundary: Boundary, adapter: bool,
                                receipt: Receipt)
    ensures var r := DestroyPreviousService(s, registry, a, boundary, adapter, receipt);
            if !ReviewedPrevious(s.store, registry, a, boundary) || !adapter then r == s
            else
              var t, own := a.target.value, Site(a.environment, Previous, Service, a.serviceName);
              var free := NobodyElse(s.store, a.provider, t.serviceId, Some(own));
              if !free && t.scope.ProjectScope? then r == s
              else Carried(s, r, a, true, free, receipt,
                           WithoutRetained(s.store.environments[a.environment].bindings, a.serviceName, boundary))
  {
    PreviousReviewMeans(s.store, registry, a, boundary);
    if ReviewedPrevious(s.store, registry, a, boundary) {
      var t, own := a.target.value, Site(a.environment, Previous, Service, a.serviceName);
      var b := s.store.environments[a.environment].bindings;
      NotInUseMeans(s.store, a.provider, t.serviceId, Some(own));
      assert WithoutRetained(b, a.serviceName, boundary) ==
             map["previousHosting" := PrunedStash(Source(b, Previous).value, a.serviceName, boundary)];
      if adapter && (NobodyElse(s.store, a.provider, t.serviceId, Some(own)) || !t.scope.ProjectScope?) {
        CarriedOut(s, DestroyPreviousService(s, registry, a, boundary, adapter, receipt), a, true,
                   NobodyElse(s.store, a.provider, t.serviceId, Some(own)), receipt, WithoutRetained(b, a.serviceName, boundary), own);
      }
    }
    hide PreviousServiceAuthorised, ReviewedPrevious, ServiceInUse, NobodyElse, Targets, Remaining, Succeeds, Charged, Carried, PatchEnvironment,
         PrunedStash, WithoutRetained;
  }

  /** The plan is about the project, or the environment, that the retained provider owns as a whole. */
  predicate ReviewedBoundary(s: Store, registry: map<string, Boundary>, a: BoundaryAction, wholeProject: bool) {
    && a.environment in s.environments && a.provider in registry
    && registry[a.provider] == (if wholeProject then OwnsProject else OwnsEnvironment)
    && Get(s.environments[a.environment].bindings, "previousHosting").Obj?
    && var stash := Get(s.environments[a.environment].bindings, "previousHosting").fields;
       && StringField(Some(stash), "provider") == Some(a.provider)
       && a.projectId.Some? && StringField(Some(stash), "projectId") == a.projectId
       && (!wholeProject ==> a.environmentId.Some? && StringField(Some(stash), "environmentId") == a.environmentId)
  }

  /** Everything of the provider in that project, or environment. */
  function Owned(live: set<Resource>, a: BoundaryAction, wholeProject: bool): set<Resource> {
    set r | r in live && r.provider == a.provider && Some(r.projectId) == a.projectId && (wholeProject || r.environmentId == a.environmentId)
  }

  /** Every service and every recovery of the stash, each with everything that is gone. */
  function ChargedToStash(e: string, stash: Fields, gone: set<Resource>): set<(Entry, Resource)> {
    (if Get(stash, "services").Obj? then set n, r | n in Get(stash, "services").fields && r in gone :: (Entry(e, Service, n), r) else {})
    + (if Get(stash, "serviceCreateRecovery").Obj?
       then set n, r | n in Get(stash, "serviceCreateRecovery").fields && r in gone :: (Entry(e, CreateRecovery, n), r) else {})
  }

  lemma ChargedMeans(e: string, stash: Fields, gone: set<Resource>)
    ensures ChargedAll(EntriesIn(e, stash), gone) == ChargedToStash(e, stash, gone)
  {
  }

  /** Deleting the boundary: the provider deletes all of it, exactly if everything else in the whole
      store lies outside; once confirmed, the stash is dropped, and nothing else changes. */
  lemma DestroysBoundaryExactly(s: State, registry: map<string, Boundary>, a: BoundaryAction, wholeProject: bool, adapter: bool,
                                receipt: Receipt)
    ensures var r := DestroyBoundary(s, registry, a, wholeProject, adapter, receipt);
            if !ReviewedBoundary(s.store, registry, a, wholeProject) || !adapter then r == s
            else
              var target := if wholeProject then ProjectBoundary(a.provider, a.projectId.value)
                            else EnvironmentBoundary(a.provider, a.projectId.value, a.environmentId.value);
              if !AllOutside(s.store, target, a.environment) then r == s
              else
                && r.live == (if receipt.Confirmed? || receipt.acted then s.live - Owned(s.live, a, wholeProject) else s.live)
                && (receipt.Confirmed? ==>
                      r.denied == s.denied && OnlyFields(s.store, r.store, a.environment, map["previousHosting" := Null]))
                && (receipt.Denied? ==> r.store == s.store
                                        && r.denied == s.denied + ChargedToStash(a.environment, Get(s.store.environments[a.environment].bindings,
                                                                                                    "previousHosting").fields, s.live - r.live))
  {
    BoundaryReviewMeans(s.store, registry, a, wholeProject);
    if ReviewedBoundary(s.store, registry, a, wholeProject) {
      UnusedMeansOutside(s.store, TargetOf(a, wholeProject), a.environment);
      assert BoundaryTargets(s.live, TargetOf(a, wholeProject)) == Owned(s.live, a, wholeProject);
      PatchChangesOnly(s.store, a.environment, map["previousHosting" := Null]);
      ChargedMeans(a.environment, Get(s.store.environments[a.environment].bindings, "previousHosting").fields,
                   s.live - DestroyBoundary(s, registry, a, wholeProject, adapter, receipt).live);
    }
    hide BoundaryDestroyAuthorised, ReviewedBoundary, BoundaryInUse, AllOutside, BoundaryTargets, Owned, PatchEnvironment, OnlyFields, EntriesIn,
         ChargedAll, ChargedToStash;
  }

  lemma BoundaryReviewMeans(s: Store, registry: map<string, Boundary>, a: BoundaryAction, wholeProject: bool)
    ensures BoundaryDestroyAuthorised(s, registry, a, wholeProject) <==> ReviewedBoundary(s, registry, a, wholeProject)
  {
    hide NonEmptyString;
  }

  // -------------------------------------------------- ensuring a project

  /** The provider's own project bindings touch none of the fields that are kept for it. */
  predicate LeavesReserved(own: Fields) {
    "provider" !in own && "projectId" !in own && "environmentId" !in own && "services" !in own && "previousHosting" !in own
  }

  /** What the provider returned wins over what is bound. */
  function ReturnedOrBound(receipt: Fields, b: Fields, key: string): Option<string> {
    OrElse(StringField(Some(receipt), key), Trimmed(Get(b, key)))
  }

  function OwnBindings(receipt: Fields): Fields {
    if Get(receipt, "providerBindings").Obj? then Get(receipt, "providerBindings").fields else map[]
  }

  /** Everything the provider returned is in the bindings: its own, and provider, project and
      environment; the services are kept, unless a project was created; and so is all else. */
  ghost predicate BoundTo(b: Fields, after: Fields, provider: string, receipt: Fields) {
    var own, projectId := OwnBindings(receipt), ReturnedOrBound(receipt, b, "projectId");
    var environmentId := ReturnedOrBound(receipt, b, "environmentId");
    && projectId.Some?
    && Get(after, "provider") == Str(provider) && Get(after, "projectId") == Str(projectId.value)
    && Get(after, "environmentId") == (if environmentId.Some? then Str(environmentId.value) else Get(b, "environmentId"))
    && Get(after, "services") == (if Get(receipt, "created") == Bool(true) then Obj(map[]) else Get(b, "services"))
    && forall key :: key !in {"provider", "projectId", "environmentId", "services"} ==>
         Get(after, key) == if key in own then own[key] else Get(b, key)
  }

  lemma PatchBinds(b: Fields, provider: string, receipt: Fields)
    requires LeavesReserved(OwnBindings(receipt)) && BoundProject(b, receipt).Some?
    ensures var patch := ProjectPatch(ProviderBindings(receipt), provider, BoundProject(b, receipt).value, BoundEnvironment(b, receipt),
                                      Created(receipt));
            BoundTo(b, Merge(b, patch), provider, receipt)
  {
    var own, projectId, environmentId := ProviderBindings(receipt), BoundProject(b, receipt), BoundEnvironment(b, receipt);
    var patch := ProjectPatch(own, provider, projectId.value, environmentId, Created(receipt));
    SameOwn(receipt);
    NotReserved(own);
    forall key ensures Get(Merge(b, patch), key) == PatchedTo(b, own, provider, projectId.value, environmentId, Created(receipt), key) {
      MergedField(b, patch, key);
      PatchField(b, own, provider, projectId.value, environmentId, Created(receipt), key);
    }
    hide Merge, ProjectPatch, NonEmptyString, Trimmed, ProviderBindings, OwnBindings, LeavesReserved, Get;
    BoundFromKeys(b, Merge(b, patch), own, provider, receipt, projectId.value, environmentId);
  }

  lemma BoundFromKeys(b: Fields, after: Fields, own: Fields, provider: string, receipt: Fields, projectId: string,
                      environmentId: Option<string>)
    requires own == OwnBindings(receipt) && BoundProject(b, receipt) == Some(projectId) && environmentId == BoundEnvironment(b, receipt)
    requires forall key :: key in {"provider", "projectId", "environmentId", "services", "previousHosting"} ==> key !in own
    requires forall key :: Get(after, key) == PatchedTo(b, own, provider, projectId, environmentId, Created(receipt), key)
    ensures BoundTo(b, after, provider, receipt)
  {
    hide Get, OwnBindings, NonEmptyString, Trimmed;
  }

  lemma SameOwn(receipt: Fields)
    ensures ProviderBindings(receipt) == OwnBindings(receipt)
  {
  }

  lemma NotReserved(own: Fields)
    requires LeavesReserved(own)
    ensures forall key :: key in {"provider", "projectId", "environmentId", "services", "previousHosting"} ==> key !in own
  {
  }

  /** What one field reads afterwards. */
  function PatchedTo(b: Fields, own: Fields, provider: string, projectId: string, environmentId: Option<string>, created: bool,
                     key: string): Json {
    if key == "services" && created then Obj(map[])
    else if key == "environmentId" && environmentId.Some? then Str(environmentId.value)
    else if key == "projectId" then Str(projectId)
    else if key == "provider" then Str(provider)
    else if key in own then own[key] else Get(b, key)
  }

  lemma PatchField(b: Fields, own: Fields, provider: string, projectId: string, environmentId: Option<string>, created: bool, key: string)
    ensures var patch := ProjectPatch(own, provider, projectId, environmentId, created);
            (if key in patch then patch[key] else Get(b, key)) == PatchedTo(b, own, provider, projectId, environmentId, created, key)
  {
    hide Get;
  }

  lemma ReservedMeans(own: Fields)
    ensures own.Keys * RESERVED == {} <==> LeavesReserved(own)
  {
    assert forall key :: key in RESERVED <==> key in {"provider", "projectId", "environmentId", "services", "previousHosting"};
    if LeavesReserved(own) {
      assert forall key :: key in own.Keys ==> key !in RESERVED;
    }
    if own.Keys * RESERVED == {} {
      assert forall key :: key in RESERVED ==> key !in own.Keys * RESERVED;
    }
  }

  /** Ensuring the project of the provider that is bound, or of the first one: what it returned is
      bound, exactly if the bindings parse, its own leave the reserved fields alone, and there is
      a project to name. */
  lemma EnsuresExactly(s: State, registry: map<string, Boundary>, e: string, provider: string, receipt: Fields)
    requires e in s.store.environments
    requires var bound := Trimmed(Get(s.store.environments[e].bindings, "provider")); bound.None? || bound == Some(provider)
    ensures var b, t := s.store.environments[e].bindings, EnsureHosting(s, registry, e, provider, Some(receipt));
            && t.live == s.live && t.denied == s.denied
            && if HostingParses(b) && LeavesReserved(OwnBindings(receipt)) && ReturnedOrBound(receipt, b, "projectId").Some? then
                 && t.store.projects == s.store.projects && t.store.components == s.store.components
                 && t.store.environments.Keys == s.store.environments.Keys
                 && (forall f :: f in s.store.environments && f != e ==> t.store.environments[f] == s.store.environments[f])
                 && BoundTo(b, t.store.environments[e].bindings, provider, receipt)
               else t == s
  {
    var b := s.store.environments[e].bindings;
    EnsureIsBind(s, registry, e, provider, receipt);
    ReservedMeans(OwnBindings(receipt));
    SameOwn(receipt);
    SameProject(b, receipt);
    hide EnsureHosting, HostingParses, Trimmed, NonEmptyString, BoundTo, ProjectPatch, Merge, LeavesReserved, ProviderBindings, OwnBindings,
         BoundProject, ReturnedOrBound, BoundEnvironment, Created;
    if LeavesReserved(OwnBindings(receipt)) && BoundProject(b, receipt).Some? { PatchBinds(b, provider, receipt); }
  }

  lemma SameProject(b: Fields, receipt: Fields)
    ensures BoundProject(b, receipt) == ReturnedOrBound(receipt, b, "projectId")
  {
  }

  lemma EnsureIsBind(s: State, registry: map<string, Boundary>, e: string, provider: string, receipt: Fields)
    requires e in s.store.environments
    requires var bound := Trimmed(Get(s.store.environments[e].bindings, "provider")); bound.None? || bound == Some(provider)
    ensures EnsureHosting(s, registry, e, provider, Some(receipt)) ==
              if HostingParses(s.store.environments[e].bindings) then BindProject(s, e, provider, receipt) else s
  {
    hide HostingParses, Trimmed, BindProject, SwitchPatch;
  }

  /** A switch: the provider that is bound is another one, whose teardown is declared, and none is
      retained yet. It happens before the provider is asked: the new one is named, with no project
      and no services, and all else but the stash is kept. Else nothing changes. */
  lemma SwitchesExactly(s: State, registry: map<string, Boundary>, e: string, provider: string)
    requires e in s.store.environments
    ensures var b, t := s.store.environments[e].bindings, EnsureHosting(s, registry, e, provider, None);
            var bound := Trimmed(Get(b, "provider"));
            && t.live == s.live && t.denied == s.denied
            && if && HostingParses(b) && bound.Some? && bound.value != provider && bound.value in registry
                  && !(Get(b, "previousHosting").Obj? && StringField(Some(Get(b, "previousHosting").fields), "provider").Some?)
               then
                 && t.store.environments.Keys == s.store.environments.Keys && t.store.components == s.store.components
                 && (forall f :: f in s.store.environments && f != e ==> t.store.environments[f] == s.store.environments[f])
                 && var after := t.store.environments[e].bindings;
                    && Get(after, "provider") == Str(provider) && Get(after, "services") == Obj(map[])
                    && Get(after, "projectId") == Undefined && Get(after, "environmentId") == Undefined
                    && (forall key :: key !in {"provider", "services", "projectId", "environmentId", "previousHosting"} ==>
                          Get(after, key) == Get(b, key))
               else t == s
  {
    var b := s.store.environments[e].bindings;
    SwitchMeans(s, registry, e, provider);
    if SwitchAuthorised(s.store, registry, e, provider) { SwitchedTo(b, registry[ParsedField(b, "provider").value], provider); }
    hide HostingParses, Trimmed, NonEmptyString, Merge, Get, SwitchPatch, SwitchAuthorised, EnsureHosting;
  }

  lemma SwitchedTo(b: Fields, boundary: Boundary, provider: string)
    requires ParsedField(b, "provider").Some?
    ensures var after := Merge(b, SwitchPatch(b, boundary, provider));
            && Get(after, "provider") == Str(provider) && Get(after, "services") == Obj(map[])
            && Get(after, "projectId") == Undefined && Get(after, "environmentId") == Undefined
            && (forall key :: key !in {"provider", "services", "projectId", "environmentId", "previousHosting"} ==>
                  Get(after, key) == Get(b, key))
  {
    var patch := SwitchPatch(b, boundary, provider);
    forall key ensures Get(Merge(b, patch), key) == if key in patch then patch[key] else Get(b, key) { MergedField(b, patch, key); }
    SwitchPatchKeys(b, boundary, provider);
    hide SwitchPatch, Merge, Get, Trimmed;
  }

  lemma SwitchMeans(s: State, registry: map<string, Boundary>, e: string, provider: string)
    requires e in s.store.environments
    ensures var b := s.store.environments[e].bindings;
            var bound := Trimmed(Get(b, "provider"));
            && (SwitchAuthorised(s.store, registry, e, provider) <==>
                  && HostingParses(b) && bound.Some? && bound.value != provider && bound.value in registry
                  && !(Get(b, "previousHosting").Obj? && StringField(Some(Get(b, "previousHosting").fields), "provider").Some?))
            && EnsureHosting(s, registry, e, provider, None) ==
                 if SwitchAuthorised(s.store, registry, e, provider) then
                   s.(store := PatchEnvironment(s.store, e, SwitchPatch(b, registry[bound.value], provider)))
                 else s
  {
    hide HostingParses, Trimmed, NonEmptyString, SwitchPatch, PatchEnvironment;
  }

  lemma SwitchPatchKeys(b: Fields, boundary: Boundary, provider: string)
    requires ParsedField(b, "provider").Some?
    ensures var patch := SwitchPatch(b, boundary, provider);
            && patch.Keys - {"previousHosting"} == {"provider", "projectId", "environmentId", "services"}
            && patch["provider"] == Str(provider) && patch["services"] == Obj(map[])
            && patch["projectId"] == Undefined && patch["environmentId"] == Undefined
  {
    hide StashOf, WorthRetaining, Truthy;
  }

  /** A field that holds nothing, as JavaScript has it. */
  predicate Nothing(v: Json) { v in {Undefined, Null, Bool(false), Number(0), Str("")} }

  /** The switch retains the provider that was bound exactly when nothing is retained and there is
      something to clean up: a service, or the environment or project that it owns as a whole. */
  lemma SwitchRetainsExactly(s: State, registry: map<string, Boundary>, e: string, provider: string)
    requires e in s.store.environments && SwitchAuthorised(s.store, registry, e, provider)
    ensures var b, t := s.store.environments[e].bindings, EnsureHosting(s, registry, e, provider, None);
            var bound, projectId, environmentId := Trimmed(Get(b, "provider")), Trimmed(Get(b, "projectId")), Trimmed(Get(b, "environmentId"));
            var kept := Get(t.store.environments[e].bindings, "previousHosting");
            && bound.Some? && bound.value in registry
            && if && Nothing(Get(b, "previousHosting"))
                  && (|| (Get(b, "services").Obj? && Get(b, "services").fields != map[])
                      || (registry[bound.value] == OwnsEnvironment && projectId.Some? && environmentId.Some?)
                      || (registry[bound.value] == OwnsProject && projectId.Some?))
               then
                 && kept.Obj? && kept.fields.Keys <= {"provider", "projectId", "environmentId", "services"}
                 && Get(kept.fields, "provider") == Str(bound.value)
                 && Get(kept.fields, "projectId") == (if projectId.Some? then Str(projectId.value) else Undefined)
                 && Get(kept.fields, "environmentId") == (if environmentId.Some? then Str(environmentId.value) else Undefined)
                 && Get(kept.fields, "services").Obj?
                 && Get(kept.fields, "services").fields.Keys == (if Get(b, "services").Obj? then Get(b, "services").fields.Keys else {})
               else kept == Get(b, "previousHosting")
  {
    var b := s.store.environments[e].bindings;
    var boundary := registry[ParsedField(b, "provider").value];
    SwitchMeans(s, registry, e, provider);
    KeptOnSwitch(b, boundary, provider);
    WorthMeans(b, boundary);
    StashKeys(b);
    hide HostingParses, Trimmed, NonEmptyString, Merge, StashOf, EnsureHosting, SwitchAuthorised, SwitchPatch, WorthRetaining, Nothing, Get;
  }

  lemma KeptOnSwitch(b: Fields, boundary: Boundary, provider: string)
    requires ParsedField(b, "provider").Some?
    ensures Get(Merge(b, SwitchPatch(b, boundary, provider)), "previousHosting") ==
              if Nothing(Get(b, "previousHosting")) && WorthRetaining(b, boundary) then Obj(StashOf(b)) else Get(b, "previousHosting")
  {
    MergedField(b, SwitchPatch(b, boundary, provider), "previousHosting");
    hide Merge, StashOf, WorthRetaining, Trimmed, Get;
  }

  lemma WorthMeans(b: Fields, boundary: Boundary)
    ensures WorthRetaining(b, boundary) <==>
              || (Get(b, "services").Obj? && Get(b, "services").fields != map[])
              || (boundary == OwnsEnvironment && Trimmed(Get(b, "projectId")).Some? && Trimmed(Get(b, "environmentId")).Some?)
              || (boundary == OwnsProject && Trimmed(Get(b, "projectId")).Some?)
  {
    hide Trimmed, Get;
  }

  lemma StashKeys(b: Fields)
    requires ParsedField(b, "provider").Some?
    ensures var stash, projectId, environmentId := StashOf(b), Trimmed(Get(b, "projectId")), Trimmed(Get(b, "environmentId"));
            && stash.Keys <= {"provider", "projectId", "environmentId", "services"}
            && Get(stash, "provider") == Str(Trimmed(Get(b, "provider")).value)
            && Get(stash, "projectId") == (if projectId.Some? then Str(projectId.value) else Undefined)
            && Get(stash, "environmentId") == (if environmentId.Some? then Str(environmentId.value) else Undefined)
            && Get(stash, "services").Obj?
            && Get(stash, "services").fields.Keys == (if Get(b, "services").Obj? then Get(b, "services").fields.Keys else {})
  {
    hide Trimmed, ParsedService;
    assert ParsedServices(b).Keys == ServicesOf(b).Keys;
    hide ParsedServices;
  }

  /** Bindings parse when provider, project, environment and service ids are strings with something in
      them, whatever the fields that are not the parser's hold; */
  lemma WellFormedParses(b: Fields)
    requires forall key :: key in {"provider", "projectId", "environmentId"} ==> Get(b, key) == Undefined || Trimmed(Get(b, key)).Some?
    requires Get(b, "serviceCreateRecovery") == Undefined && (Get(b, "services") == Undefined || Get(b, "services").Obj?)
    requires Get(b, "services").Obj? ==>
               forall n :: n in Get(b, "services").fields ==>
                 !Blank(n) && exists id :: !Blank(id) && Get(b, "services").fields[n] == Obj(map["serviceId" := Str(id)])
    ensures HostingParses(b)
  {
    hide Trim;
    if Get(b, "services").Obj? {
      var services := Get(b, "services").fields;
      forall n | n in services ensures ServiceParses(services[n]) {
        var id :| !Blank(id) && services[n] == Obj(map["serviceId" := Str(id)]);
        OneField(id);
      }
    }
    hide ServiceParses, Trimmed, Blank;
  }

  lemma OneField(id: string)
    requires !Blank(id)
    ensures ServiceParses(Obj(map["serviceId" := Str(id)]))
  {
    hide Trim;
  }

  /** and they do not when one of them is something else. */
  lemma MalformedDoesNotParse(b: Fields, n: string)
    requires || (exists key :: key in {"provider", "projectId", "environmentId"} && Get(b, key) in {Null, Str("")})
             || (Get(b, "services") != Undefined && !Get(b, "services").Obj?)
             || (Get(b, "services").Obj? && n in Get(b, "services").fields && (!Get(b, "services").fields[n].Obj? || n == ""))
    ensures !HostingParses(b)
  {
    hide ParseRecovery;
    assert Blank("");
  }

  // -------------------------------------- retaining an inspected provider

  /** An inspected provider is retained exactly when it is confirmed, another provider is bound, none
      is retained, its boundary can be named and is managed if it is a project, and its services
      can all be recorded; then the stash holds just that, and nothing else changes. */
  lemma RetainsExactly(s: State, registry: map<string, Boundary>, e: string, provider: string, seen: Inspected, confirm: bool)
    requires e in s.store.environments
    ensures var b, t, services := s.store.environments[e].bindings, RetainHosting(s, registry, e, provider, seen, confirm), Collected(seen.services);
            && t.live == s.live && t.denied == s.denied
            && if && confirm && provider in registry && StringField(Some(b), "provider").Some?
                  && StringField(Some(b), "provider") != Some(provider) && !Get(b, "previousHosting").Obj?
                  && (registry[provider] == OwnsProject ==> seen.managed) && seen.projectId.Some?
                  && (registry[provider] == OwnsEnvironment ==> seen.environmentId.Some?)
                  && services.Some? && (registry[provider] == OwnsServices ==> services.value != map[])
               then
                 && Get(t.store.environments[e].bindings, "previousHosting").Obj?
                 && var stash := Get(t.store.environments[e].bindings, "previousHosting").fields;
                    && OnlyFields(s.store, t.store, e, map["previousHosting" := Obj(stash)])
                    && Get(stash, "provider") == Str(provider) && Get(stash, "services") == Obj(services.value)
                    && Get(stash, "projectId") == Str(seen.projectId.value)
                    && Get(stash, "environmentId") == (if seen.environmentId.Some? then Str(seen.environmentId.value) else Undefined)
                    && stash.Keys <= {"provider", "services", "projectId", "environmentId"}
               else t == s
  {
    ImportMeans(s.store, registry, e, provider, seen);
    hide NonEmptyString, Collected, ImportAuthorised, ImportedStash, PatchEnvironment, Get;
    if seen.projectId.Some? && Collected(seen.services).Some? {
      var stash := ImportedStash(provider, seen, Collected(seen.services).value);
      StashStored(s.store, e, stash);
      StashHolds(provider, seen, Collected(seen.services).value);
    }
    hide OnlyFields;
  }

  lemma StashStored(s: Store, e: string, stash: Fields)
    requires e in s.environments
    ensures var t := PatchEnvironment(s, e, map["previousHosting" := Obj(stash)]);
            OnlyFields(s, t, e, map["previousHosting" := Obj(stash)]) && Get(t.environments[e].bindings, "previousHosting") == Obj(stash)
  {
    PatchChangesOnly(s, e, map["previousHosting" := Obj(stash)]);
    hide PatchEnvironment, Get;
  }

  lemma ImportMeans(s: Store, registry: map<string, Boundary>, e: string, provider: string, seen: Inspected)
    requires e in s.environments
    ensures var b, services := s.environments[e].bindings, Collected(seen.services);
            ImportAuthorised(s, registry, e, provider, seen) <==>
              && provider in registry && StringField(Some(b), "provider").Some?
              && StringField(Some(b), "provider") != Some(provider) && !Get(b, "previousHosting").Obj?
              && (registry[provider] == OwnsProject ==> seen.managed) && seen.projectId.Some?
              && (registry[provider] == OwnsEnvironment ==> seen.environmentId.Some?)
              && services.Some? && (registry[provider] == OwnsServices ==> services.value != map[])
  {
    hide Collected, NonEmptyString;
  }

  lemma StashHolds(provider: string, seen: Inspected, services: Fields)
    requires seen.projectId.Some?
    ensures var stash := ImportedStash(provider, seen, services);
            && Get(stash, "provider") == Str(provider) && Get(stash, "services") == Obj(services)
            && Get(stash, "projectId") == Str(seen.projectId.value)
            && Get(stash, "environmentId") == (if seen.environmentId.Some? then Str(seen.environmentId.value) else Undefined)
            && stash.Keys <= {"provider", "services", "projectId", "environmentId"}
  {
  }
}
