/** The hosting handlers as they run: one step at a time over the repositories, asking the
    provider in the middle. Each is proved to have exactly the effect of its step. */
module HostingHandlers {
  import opened Json
  import opened LocalStore
  import opened ProviderBoundary
  import opened HostingReferences
  import Steps = HostingSteps
  import opened HostingSteps

  class Handlers {
    const registry: map<string, Boundary>
    var store: Store
    var live: set<Resource>
    var denied: set<(Entry, Resource)>

    constructor (registry: map<string, Boundary>, s: State)
      ensures this.registry == registry && Snapshot() == s
    {
      this.registry := registry;
      store, live, denied := s.store, s.live, s.denied;
    }

    ghost function Snapshot(): State
      reads this
    {
      State(store, live, denied)
    }

    method UpdateBindings(e: string, patch: Fields)
      requires e in store.environments
      modifies this`store
      ensures store == PatchEnvironment(old(store), e, patch)
    {
      var env := store.environments[e];
      store := store.(environments := store.environments[e := env.(bindings := Merge(env.bindings, patch))]);
    }

    /** The provider's side of deleteService. `entry` is whose deletion this is, if any. */
    method DeleteService(provider: string, t: DeleteTarget, allow: bool, receipt: Receipt, entry: Option<Entry>)
      returns (success: bool)
      modifies this`live, this`denied
      ensures var hit := Targets(old(live), provider, t.scope, t.serviceId);
              && live == Remaining(old(live), hit, allow, receipt)
              && success == Succeeds(hit, allow, receipt)
              && denied == old(denied) + (if success || entry.None? then {} else Charged(entry.value, old(live) - live))
    {
      var hit := Targets(live, provider, t.scope, t.serviceId);
      var left := Remaining(live, hit, allow, receipt);
      success := Succeeds(hit, allow, receipt);
      if !success && entry.Some? {
        denied := denied + Charged(entry.value, live - left);
      }
      live := left;
    }

    /** Everything destroyService refuses before it looks for other users. */
    method ReviewServiceDestroy(a: ServiceAction, desired: bool, observed: Option<Observed>) returns (accepted: bool)
      ensures accepted <==> ServiceDestroyAuthorised(store, registry, a, desired, observed)
    {
      if a.environment !in store.environments {
        return false;
      }
      var b := store.environments[a.environment].bindings;
      var services := Record(Get(b, "services"));
      var serviceId := if services.Some? && a.serviceName in services.value
                       then StringField(Record(services.value[a.serviceName]), "serviceId") else None;
      if serviceId.None? || desired || a.target.None? {
        return false;
      }
      var t := a.target.value;
      if || !ScopeMatches(registry, a.provider, t.scope,
                          StringField(Some(b), "projectId"), StringField(Some(b), "environmentId"))
         || t.serviceId != serviceId.value
         || StringField(Some(b), "provider") != Some(a.provider)
         || a.fingerprint != Some(IdentityFor(a.provider, t.scope, a.serviceName, serviceId.value))
      {
        return false;
      }
      if !ObservesScope(observed, a.provider, t.scope) {
        return false;
      }
      var seen := ByServiceId(observed.value.services, t.serviceId);
      if |seen| > 1 || (|seen| == 1 && seen[0].0 != a.serviceName) {
        return false;
      }
      accepted := |seen| == 1 || t.scope.EnvironmentScope?;
    }

    /** destroyService. A successful run removes the local entry; no other run changes the store. */
    method DestroyService(a: ServiceAction, desired: bool, observed: Option<Observed>, adapter: bool,
                          receipt: Receipt)
      returns (success: bool)
      modifies this
      ensures Snapshot() == Steps.DestroyService(old(Snapshot()), registry, a, desired, observed, adapter, receipt)
      ensures success <==> store != old(store)
      ensures success ==> a.environment in store.environments
                          && a.serviceName !in ServicesOf(store.environments[a.environment].bindings)
    {
      success := false;
      var accepted := ReviewServiceDestroy(a, desired, observed);
      if !accepted {
        return;
      }
      assert a.target.Some? && observed.Some? && a.environment in store.environments;
      hide ServiceDestroyAuthorised, NonEmptyString, NobodyElse, HostingReferences.SourceShows;
      var t := a.target.value;
      var own := Site(a.environment, Current, Service, a.serviceName);
      var use := LocalServiceBindingUse(store, a.provider, t.scope.projectId, t.serviceId, Some(own));
      if (t.scope.ProjectScope? && use.Some?) || !adapter {
        return;
      }
      var present := |ByServiceId(observed.value.services, t.serviceId)| == 1;
      var b := store.environments[a.environment].bindings;
      ServiceGone(b, a.serviceName);
      hide ServiceInUse, NobodyElse, Targets, ByServiceId, Merge, ServicesOf, Charged, Succeeds, Remaining;
      var deleted := DeleteService(a.provider, t, present && use.None?, receipt, Some(EntryOf(own)));
      if !deleted || (!present && !receipt.alreadyAbsent) {
        NothingCharged(EntryOf(own));
        return;
      }
      UpdateBindings(a.environment, map["services" := Obj(ServicesOf(b) - {a.serviceName})]);
      success := true;
    }

    method ReviewTaskDestroy(a: ServiceAction, observed: Option<Observed>) returns (accepted: bool)
      ensures accepted <==> TaskDestroyAuthorised(store, registry, a, observed)
    {
      if a.target.None? || a.environment !in store.environments {
        return false;
      }
      var t := a.target.value;
      var b := store.environments[a.environment].bindings;
      if || StringField(Some(b), "provider") != Some(a.provider)
         || !ScopeMatches(registry, a.provider, t.scope,
                          StringField(Some(b), "projectId"), StringField(Some(b), "environmentId"))
         || a.fingerprint != Some(IdentityFor(a.provider, t.scope, a.serviceName, t.serviceId))
         || !ObservesScope(observed, a.provider, t.scope)
      {
        return false;
      }
      var seen := ByNameOrId(observed.value.services, a.serviceName, t.serviceId);
      if |seen| > 1 || (|seen| == 1 && seen[0] != (a.serviceName, t.serviceId)) {
        return false;
      }
      accepted := |seen| == 1 || t.scope.EnvironmentScope?;
    }

    /** destroyTaskService: never touches the store. */
    method DestroyTaskService(a: ServiceAction, observed: Option<Observed>, adapter: bool, receipt: Receipt)
      returns (success: bool)
      modifies this
      ensures Snapshot() == Steps.DestroyTask(old(Snapshot()), registry, a, observed, adapter, receipt)
      ensures success <==>
                && TaskDestroyAuthorised(store, registry, a, observed) && adapter
                && var t := a.target.value;
                   var shared := ServiceInUse(store, a.provider, t.serviceId, None);
                   var present := |ByNameOrId(observed.value.services, a.serviceName, t.serviceId)| == 1;
                   && !(shared && t.scope.ProjectScope?) && (present || (receipt.Confirmed? && receipt.alreadyAbsent))
                   && Succeeds(Targets(old(live), a.provider, t.scope, t.serviceId), present && !shared, receipt)
      ensures success ==> a.target.Some? && Targets(live, a.provider, a.target.value.scope, a.target.value.serviceId) == {}
    {
      success := false;
      var accepted := ReviewTaskDestroy(a, observed);
      if !accepted || !adapter {
        return;
      }
      var t := a.target.value;
      var use := LocalServiceBindingUse(store, a.provider, t.scope.projectId, t.serviceId, None);
      if t.scope.ProjectScope? && use.Some? {
        return;
      }
      var present := |ByNameOrId(observed.value.services, a.serviceName, t.serviceId)| == 1;
      ConfirmedIsGone(live, a.provider, t.scope, t.serviceId, present && use.None?, receipt);
      hide TaskDestroyAuthorised, ServiceInUse, Targets, ByNameOrId, Remaining, Succeeds;
      var deleted := DeleteService(a.provider, t, present && use.None?, receipt, None);
      success := deleted && (present || receipt.alreadyAbsent);
    }

    method ReviewPreviousService(a: ServiceAction, boundary: Boundary) returns (accepted: bool)
      ensures accepted <==> PreviousServiceAuthorised(store, registry, a, boundary)
    {
      if a.environment !in store.environments {
        return false;
      }
      var stash := Source(store.environments[a.environment].bindings, Previous);
      if stash.None? || a.target.None? || boundary == OwnsEnvironment {
        return false;
      }
      var t := a.target.value;
      accepted := && StringField(stash, "provider") == Some(a.provider)
                  && BoundIn(stash.value, a.serviceName) == Some(t.serviceId)
                  && ScopeMatches(registry, a.provider, t.scope,
                                  StringField(stash, "projectId"), StringField(stash, "environmentId"));
    }

    /** destroyPreviousHostingService. */
    method DestroyPreviousHostingService(a: ServiceAction, boundary: Boundary, adapter: bool, receipt: Receipt)
      returns (success: bool)
      modifies this
      ensures Snapshot() == Steps.DestroyPreviousService(old(Snapshot()), registry, a, boundary, adapter, receipt)
      ensures success <==> store != old(store)
    {
      success := false;
      var accepted := ReviewPreviousService(a, boundary);
      if !accepted || !adapter {
        return;
      }
      var t := a.target.value;
      var own := Site(a.environment, Previous, Service, a.serviceName);
      var stash := Source(store.environments[a.environment].bindings, Previous).value;
      var use := LocalServiceBindingUse(store, a.provider, t.scope.projectId, t.serviceId, Some(own));
      if t.scope.ProjectScope? && use.Some? {
        return;
      }
      assert Get(stash, "services").Obj?;
      hide PreviousServiceAuthorised, ServiceInUse, NobodyElse, HostingReferences.SourceShows, Targets, Merge, Charged, Remaining, Succeeds, BoundIn;
      var deleted := DeleteService(a.provider, t, use.None?, receipt, Some(EntryOf(own)));
      if !deleted {
        return;
      }
      var left := stash["services"].fields - {a.serviceName};
      var next := if left != map[] || boundary == OwnsProject then Obj(stash["services" := Obj(left)]) else Null;
      MergedField(store.environments[a.environment].bindings, map["previousHosting" := next], "previousHosting");
      UpdateBindings(a.environment, map["previousHosting" := next]);
      success := true;
    }

    method ReviewBoundary(a: BoundaryAction, wholeProject: bool) returns (accepted: bool)
      ensures accepted <==> BoundaryDestroyAuthorised(store, registry, a, wholeProject)
    {
      if a.environment !in store.environments {
        return false;
      }
      var stash := Source(store.environments[a.environment].bindings, Previous);
      var projectId, environmentId := StringField(stash, "projectId"), StringField(stash, "environmentId");
      if || StringField(stash, "provider") != Some(a.provider)
         || projectId.None? || (!wholeProject && environmentId.None?)
         || a.projectId != projectId || (!wholeProject && a.environmentId != environmentId)
      {
        return false;
      }
      accepted := a.provider in registry
                  && registry[a.provider] == (if wholeProject then OwnsProject else OwnsEnvironment);
    }

    /** The provider's side of deleteEnvironment and deleteProject. */
    method DeleteBoundary(target: Target, receipt: Receipt, entries: set<Entry>) returns (success: bool)
      modifies this`live, this`denied
      ensures live == Remaining(old(live), BoundaryTargets(old(live), target), true, receipt)
      ensures success == receipt.Confirmed?
      ensures denied == old(denied) + (if success then {} else ChargedAll(entries, old(live) - live))
    {
      var left := Remaining(live, BoundaryTargets(live, target), true, receipt);
      success := receipt.Confirmed?;
      if !success {
        denied := denied + ChargedAll(entries, live - left);
      }
      live := left;
    }

    /** destroyPreviousHostingBoundary, for an environment or a whole project. */
    method DestroyPreviousHostingBoundary(a: BoundaryAction, wholeProject: bool, adapter: bool, receipt: Receipt)
      returns (success: bool)
      requires ForeignKeys(store)
      modifies this
      ensures Snapshot() == Steps.DestroyBoundary(old(Snapshot()), registry, a, wholeProject, adapter, receipt)
      ensures success <==> store != old(store)
      ensures success ==> a.environment in store.environments
                          && Source(store.environments[a.environment].bindings, Previous).None?
    {
      success := false;
      var accepted := ReviewBoundary(a, wholeProject);
      if !accepted {
        return;
      }
      var target := TargetOf(a, wholeProject);
      hide BoundaryDestroyAuthorised, BoundaryInUse, NonEmptyString, EnvironmentUses;
      var use := FindLocalProviderBoundaryUse(store, target, a.environment);
      if use.Some? || !adapter {
        return;
      }
      var b := store.environments[a.environment].bindings;
      var stash := Source(b, Previous).value;
      MergedField(b, map["previousHosting" := Null], "previousHosting");
      hide BoundaryTargets, EntriesIn, Remaining, TargetOf, Merge, ChargedAll;
      var entries := EntriesIn(a.environment, stash);
      var deleted := DeleteBoundary(target, receipt, entries);
      if !deleted {
        return;
      }
      UpdateBindings(a.environment, map["previousHosting" := Null]);
      success := true;
    }

    /** ensureHostingProject. The binding is switched before the provider is asked. */
    method EnsureHostingProject(e: string, provider: string, receipt: Option<Fields>) returns (success: bool)
      modifies this`store
      ensures Snapshot() == Steps.EnsureHosting(old(Snapshot()), registry, e, provider, receipt)
      ensures success <==>
                && e in old(store).environments && receipt.Some? && HostingParses(old(store).environments[e].bindings)
                && (SwitchNeeded(old(store).environments[e].bindings, provider) ==> SwitchAuthorised(old(store), registry, e, provider))
                && var now := SwitchHosting(old(Snapshot()), registry, e, provider).store.environments[e].bindings;
                   HostingParses(now) && ProviderBindings(receipt.value).Keys * RESERVED == {} && BoundProject(now, receipt.value).Some?
    {
      hide SwitchPatch, ProjectPatch, Merge, NonEmptyString, ProviderBindings, BoundProject, BoundEnvironment, Created,
           HostingParses, ParsedField;
      success := false;
      if e !in store.environments {
        return;
      }
      var b := store.environments[e].bindings;
      if !HostingParses(b) {
        return;
      }
      var bound := ParsedField(b, "provider");
      if bound.Some? && bound.value != provider {
        if StringField(Source(b, Previous), "provider").Some? || bound.value !in registry {
          return;
        }
        UpdateBindings(e, SwitchPatch(b, registry[bound.value], provider));
      }
      if receipt.None? {
        return;
      }
      var now := store.environments[e].bindings;
      if !HostingParses(now) {
        return;
      }
      var extra, projectId := ProviderBindings(receipt.value), BoundProject(now, receipt.value);
      if extra.Keys * RESERVED != {} || projectId.None? {
        return;
      }
      UpdateBindings(e, ProjectPatch(extra, provider, projectId.value, BoundEnvironment(now, receipt.value),
                                     Created(receipt.value)));
      success := true;
    }

    /** retainHostingCleanup: collects the inspected services one by one. */
    method RetainHostingCleanup(e: string, provider: string, seen: Inspected, confirm: bool) returns (success: bool)
      modifies this`store
      ensures Snapshot() == Steps.RetainHosting(old(Snapshot()), registry, e, provider, seen, confirm)
      ensures success <==> ImportAuthorised(old(store), registry, e, provider, seen) && confirm
    {
      success := false;
      if e !in store.environments {
        return;
      }
      var b := store.environments[e].bindings;
      var bound := StringField(Some(b), "provider");
      if bound.None? || bound.value == provider || Record(Get(b, "previousHosting")).Some? || provider !in registry {
        return;
      }
      if || (registry[provider] == OwnsProject && !seen.managed)
         || seen.projectId.None? || (registry[provider] == OwnsEnvironment && seen.environmentId.None?)
      {
        return;
      }
      var services: Fields := map[];
      var refused := false;
      for i := 0 to |seen.services|
        invariant Collected(seen.services[..i]) == if refused then None else Some(services)
      {
        assert seen.services[..i + 1][..i] == seen.services[..i];
        var x := seen.services[i];
        if refused || x.name.None? || x.id.None? || x.name.value in services || !x.managed {
          refused := true;
        } else {
          services := services[x.name.value := Obj(x.extra["serviceId" := Str(x.id.value)])];
        }
      }
      assert seen.services[..|seen.services|] == seen.services;
      if refused || (registry[provider] == OwnsServices && services == map[]) || !confirm {
        return;
      }
      UpdateBindings(e, map["previousHosting" := Obj(ImportedStash(provider, seen, services))]);
      success := true;
    }
  }

  /** A deletion reported as done left nothing of its target. */
  lemma ConfirmedIsGone(live: set<Resource>, provider: string, scope: Scope, serviceId: string, allow: bool,
                        receipt: Receipt)
    ensures var hit := Targets(live, provider, scope, serviceId);
            Succeeds(hit, allow, receipt) ==> Targets(Remaining(live, hit, allow, receipt), provider, scope, serviceId) == {}
  {
  }

  lemma NothingCharged(entry: Entry)
    ensures forall gone: set<Resource> :: gone == {} ==> Charged(entry, gone) == {}
  {
  }

  lemma ServiceGone(b: Fields, name: string)
    ensures name !in ServicesOf(Merge(b, map["services" := Obj(ServicesOf(b) - {name})]))
  {
    MergedField(b, map["services" := Obj(ServicesOf(b) - {name})], "services");
  }
}
