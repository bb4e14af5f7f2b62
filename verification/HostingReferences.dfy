/** References from the local store to provider services, and the search for another user of
    one provider service. */
module HostingReferences {
  import opened Json
  import opened LocalStore
  import opened ProviderBoundary

  /** A service as the hosting provider knows it. */
  datatype Resource = Resource(
    provider: string, projectId: string, environmentId: Option<string>, serviceId: string)

  datatype Origin = Current | Previous

  datatype Kind = Service | CreateRecovery

  /** Where in the store a reference is written down. */
  datatype Site = Site(environment: string, origin: Origin, kind: Kind, name: string)

  function Source(b: Fields, origin: Origin): Option<Fields> {
    match origin
    case Current => Some(b)
    case Previous => Record(Get(b, "previousHosting"))
  }

  function BoundId(binding: Json): Option<string> {
    OrElse(StringField(Record(binding), "serviceId"), StringField(Record(binding), "jobName"))
  }

  predicate ServiceRef(provider: Option<string>, projectId: Option<string>, environmentId: Option<string>,
                       services: Option<Fields>, name: string, r: Resource) {
    && provider == Some(r.provider) && projectId == Some(r.projectId) && environmentId == r.environmentId
    && services.Some? && name in services.value && BoundId(services.value[name]) == Some(r.serviceId)
  }

  /** The scope a recovery refers to. */
  predicate ScopeNames(scope: map<string, string>, r: Resource) {
    && "projectId" in scope && r.projectId == scope["projectId"]
    && r.environmentId == if "environmentId" in scope then Some(scope["environmentId"]) else None
  }

  predicate RecoveryRef(recoveries: Option<Fields>, name: string, r: Resource) {
    && recoveries.Some? && name in recoveries.value
    && StringField(Record(recoveries.value[name]), "provider") == Some(r.provider)
    && var recovery := ParseRecovery(recoveries.value[name]);
       recovery.Some? && recovery.value.serviceId == Some(r.serviceId) && ScopeNames(recovery.value.providerScope, r)
  }

  predicate SourceRef(source: Fields, kind: Kind, name: string, r: Resource) {
    match kind
    case Service =>
      ServiceRef(StringField(Some(source), "provider"), StringField(Some(source), "projectId"),
                 StringField(Some(source), "environmentId"), Record(Get(source, "services")), name, r)
    case CreateRecovery => RecoveryRef(Record(Get(source, "serviceCreateRecovery")), name, r)
  }

  predicate BindingsRefer(b: Fields, origin: Origin, kind: Kind, name: string, r: Resource) {
    var source := Source(b, origin);
    source.Some? && SourceRef(source.value, kind, name, r)
  }

  /** The store holds a reference to `r` at `site`. */
  predicate Refers(s: Store, site: Site, r: Resource) {
    site.environment in s.environments
    && BindingsRefer(s.environments[site.environment].bindings, site.origin, site.kind, site.name, r)
  }

  // --------------------------------------- is another binding using a service?

  datatype Bound = Bound(environment: string, certain: bool)

  /** A binding that names the service, or one that cannot be read. */
  predicate BindingBlocks(name: string, binding: Json, serviceId: string) {
    Blank(name) || !binding.Obj? || BoundId(binding).None? || BoundId(binding) == Some(serviceId)
  }

  predicate RecoveryBlocks(name: string, raw: Json, provider: string, serviceId: string) {
    var rawProvider := StringField(Record(raw), "provider");
    || Blank(name) || rawProvider.None?
    || (rawProvider == Some(provider)
        && var recovery := ParseRecovery(raw);
           recovery.None? || "projectId" !in recovery.value.providerScope
           || recovery.value.serviceId == Some(serviceId))
  }

  predicate ServicesBlock(raw: Json, serviceId: string, skip: Option<string>) {
    raw != Undefined
    && (raw.Obj? ==> exists n :: n in raw.fields && skip != Some(n) && BindingBlocks(n, raw.fields[n], serviceId))
  }

  predicate RecoveriesBlock(raw: Json, provider: string, serviceId: string) {
    raw != Undefined
    && (raw.Obj? ==> exists n :: n in raw.fields && RecoveryBlocks(n, raw.fields[n], provider, serviceId))
  }

  predicate SourceBlocks(source: Option<Fields>, provider: string, serviceId: string, skip: Option<string>) {
    if source.None? then false
    else
      var services, recoveries := Get(source.value, "services"), Get(source.value, "serviceCreateRecovery");
      var owner := StringField(source, "provider");
      if owner.None? then services != Undefined || recoveries != Undefined
      else
        || (owner.value == provider
            && (StringField(source, "projectId").None? || ServicesBlock(services, serviceId, skip)))
        || RecoveriesBlock(recoveries, provider, serviceId)
  }

  /** An entry for which the service counts as certainly bound, or else as possibly. */
  predicate ServicesShow(raw: Json, ownerProject: string, projectId: string, serviceId: string, skip: Option<string>,
                         certain: bool) {
    raw != Undefined
    && if !raw.Obj? then !certain
       else exists n :: n in raw.fields && skip != Some(n) && BindingBlocks(n, raw.fields[n], serviceId)
                        && (certain <==> !Blank(n) && raw.fields[n].Obj? && BoundId(raw.fields[n]) == Some(serviceId)
                                         && ownerProject == projectId)
  }

  predicate RecoveriesShow(raw: Json, provider: string, projectId: string, serviceId: string, certain: bool) {
    raw != Undefined
    && if !raw.Obj? then !certain
       else exists n :: n in raw.fields && RecoveryBlocks(n, raw.fields[n], provider, serviceId)
                        && (certain <==> RecoveryCertain(n, raw.fields[n], provider, projectId, serviceId))
  }

  predicate RecoveryCertain(name: string, raw: Json, provider: string, projectId: string, serviceId: string) {
    var recovery := ParseRecovery(raw);
    && !Blank(name) && StringField(Record(raw), "provider") == Some(provider) && recovery.Some?
    && "projectId" in recovery.value.providerScope && recovery.value.providerScope["projectId"] == projectId
    && recovery.value.serviceId == Some(serviceId)
  }

  predicate SourceShows(source: Option<Fields>, provider: string, projectId: string, serviceId: string,
                        skip: Option<string>, certain: bool) {
    if source.None? then false
    else
      var services, recoveries := Get(source.value, "services"), Get(source.value, "serviceCreateRecovery");
      var owner, ownerProject := StringField(source, "provider"), StringField(source, "projectId");
      if owner.None? then !certain && (services != Undefined || recoveries != Undefined)
      else
        || (owner.value == provider
            && if ownerProject.None? then !certain
               else ServicesShow(services, ownerProject.value, projectId, serviceId, skip, certain))
        || RecoveriesShow(recoveries, provider, projectId, serviceId, certain)
  }

  /** A certain find is a real reference to that service in that project. */
  lemma CertainMeansReferred(source: Fields, provider: string, projectId: string, serviceId: string, skip: Option<string>)
    requires SourceShows(Some(source), provider, projectId, serviceId, skip, true)
    ensures exists kind, n, environmentId :: SourceRef(source, kind, n, Resource(provider, projectId, environmentId, serviceId))
  {
    hide Blank, ParseRecovery;
    var services, recoveries := Get(source, "services"), Get(source, "serviceCreateRecovery");
    var owner, ownerProject := StringField(Some(source), "provider"), StringField(Some(source), "projectId");
    if owner.value == provider && ownerProject.Some?
       && ServicesShow(services, ownerProject.value, projectId, serviceId, skip, true)
    {
      var n :| n in services.fields && BoundId(services.fields[n]) == Some(serviceId) && ownerProject.value == projectId;
      hide ServicesShow, RecoveriesShow, RecoveryRef;
      assert SourceRef(source, Service, n, Resource(provider, projectId, StringField(Some(source), "environmentId"), serviceId));
    } else {
      assert RecoveriesShow(recoveries, provider, projectId, serviceId, true) by { hide ServicesShow, RecoveriesShow; }
      RecoveryMeansReferred(source, provider, projectId, serviceId);
    }
    hide SourceRef;
  }

  lemma RecoveryMeansReferred(source: Fields, provider: string, projectId: string, serviceId: string)
    requires RecoveriesShow(Get(source, "serviceCreateRecovery"), provider, projectId, serviceId, true)
    ensures exists n, environmentId ::
              SourceRef(source, CreateRecovery, n, Resource(provider, projectId, environmentId, serviceId))
  {
    hide Blank, ParseRecovery, RecoveryBlocks, RecoveryCertain;
    var raw := Get(source, "serviceCreateRecovery");
    var n :| n in raw.fields && RecoveryCertain(n, raw.fields[n], provider, projectId, serviceId);
    var r := CertainResource(n, raw.fields[n], provider, projectId, serviceId);
    assert SourceRef(source, CreateRecovery, n, Resource(provider, projectId, r.environmentId, serviceId));
  }

  function CertainResource(name: string, raw: Json, provider: string, projectId: string, serviceId: string): (r: Resource)
    requires RecoveryCertain(name, raw, provider, projectId, serviceId)
    ensures r.provider == provider && r.projectId == projectId && r.serviceId == serviceId
    ensures RecoveryRef(Some(map[name := raw]), name, r)
  {
    hide Blank, ParseRecovery;
    var scope := ParseRecovery(raw).value.providerScope;
    Resource(provider, projectId, if "environmentId" in scope then Some(scope["environmentId"]) else None, serviceId)
  }

  /** The name to pass over in one source: only the excluded site's own. */
  function Skipped(exclude: Option<Site>, e: string, origin: Origin): Option<string> {
    if exclude.Some? && exclude.value.environment == e && exclude.value.origin == origin
    then Some(exclude.value.name) else None
  }

  predicate ServiceInUse(s: Store, provider: string, serviceId: string, exclude: Option<Site>) {
    exists e, origin :: e in s.environments
      && SourceBlocks(Source(s.environments[e].bindings, origin), provider, serviceId, Skipped(exclude, e, origin))
  }

  /** No user found means no reference of that provider to that id anywhere else, in any
      project scope. */
  lemma NotInUseMeansNoReference(s: Store, provider: string, serviceId: string, exclude: Option<Site>, site: Site,
                                 r: Resource)
    requires !ServiceInUse(s, provider, serviceId, exclude)
    requires exclude.Some? ==> exclude.value.kind == Service
    requires Refers(s, site, r) && r.provider == provider && r.serviceId == serviceId
    ensures exclude == Some(site)
  {
    var source := Source(s.environments[site.environment].bindings, site.origin);
    var skip := Skipped(exclude, site.environment, site.origin);
    match site.kind
    case Service =>
      var raw := Get(source.value, "services");
      assert BindingBlocks(site.name, raw.fields[site.name], serviceId);
      assert skip != Some(site.name) ==> ServicesBlock(raw, serviceId, skip);
      assert !SourceBlocks(source, provider, serviceId, skip);
    case CreateRecovery =>
      var raw := Get(source.value, "serviceCreateRecovery");
      assert RecoveryBlocks(site.name, raw.fields[site.name], provider, serviceId);
      assert SourceBlocks(source, provider, serviceId, skip);
      assert false;
  }

  /** What an empty search for another user means, entry by entry. Every binding of the provider
      has a readable id, and it is another one; every recovery can be read, and if it is the
      provider's it names its project, and no such service. */
  predicate ServicesFree(services: Json, serviceId: string, skip: Option<string>) {
    || services == Undefined
    || (services.Obj?
        && forall n :: n in services.fields && skip != Some(n) ==>
             var entry := Record(services.fields[n]);
             var id := OrElse(StringField(entry, "serviceId"), StringField(entry, "jobName"));
             !Blank(n) && id.Some? && id.value != serviceId)
  }

  predicate RecoveriesFree(recoveries: Json, provider: string, serviceId: string) {
    || recoveries == Undefined
    || (recoveries.Obj?
        && forall n :: n in recoveries.fields ==>
             var owner := StringField(Record(recoveries.fields[n]), "provider");
             && !Blank(n) && owner.Some?
             && (owner.value == provider ==>
                   var recovery := ParseRecovery(recoveries.fields[n]);
                   recovery.Some? && "projectId" in recovery.value.providerScope && recovery.value.serviceId != Some(serviceId)))
  }

  /** One hosting source. What has no readable owner must have nothing to own. */
  predicate SourceFree(source: Fields, provider: string, serviceId: string, skip: Option<string>) {
    var owner := StringField(Some(source), "provider");
    var services, recoveries := Get(source, "services"), Get(source, "serviceCreateRecovery");
    if owner.None? then services == Undefined && recoveries == Undefined
    else
      && (owner.value == provider ==> StringField(Some(source), "projectId").Some? && ServicesFree(services, serviceId, skip))
      && RecoveriesFree(recoveries, provider, serviceId)
  }

  /** No hosting source of any environment may be using the service, but for the entry named. */
  ghost predicate NobodyElse(s: Store, provider: string, serviceId: string, exclude: Option<Site>) {
    forall e :: e in s.environments ==>
      var b := s.environments[e].bindings;
      && SourceFree(b, provider, serviceId,
                    if exclude.Some? && exclude.value.environment == e && exclude.value.origin == Current then Some(exclude.value.name) else None)
      && (Get(b, "previousHosting").Obj? ==>
            SourceFree(Get(b, "previousHosting").fields, provider, serviceId,
                       if exclude.Some? && exclude.value.environment == e && exclude.value.origin == Previous
                       then Some(exclude.value.name) else None))
  }

  lemma SourceBlocksMeans(source: Fields, provider: string, serviceId: string, skip: Option<string>)
    ensures SourceBlocks(Some(source), provider, serviceId, skip) <==> !SourceFree(source, provider, serviceId, skip)
  {
    hide ParseRecovery, NonEmptyString, Blank;
    var services, recoveries := Get(source, "services"), Get(source, "serviceCreateRecovery");
    assert ServicesBlock(services, serviceId, skip) <==> !ServicesFree(services, serviceId, skip);
    assert RecoveriesBlock(recoveries, provider, serviceId) <==> !RecoveriesFree(recoveries, provider, serviceId);
    hide ServicesBlock, ServicesFree, RecoveriesBlock, RecoveriesFree;
  }

  /** The search comes back empty exactly then. */
  lemma NotInUseMeans(s: Store, provider: string, serviceId: string, exclude: Option<Site>)
    ensures !ServiceInUse(s, provider, serviceId, exclude) <==> NobodyElse(s, provider, serviceId, exclude)
  {
    forall e, origin | e in s.environments && Source(s.environments[e].bindings, origin).Some?
      ensures SourceBlocks(Source(s.environments[e].bindings, origin), provider, serviceId, Skipped(exclude, e, origin)) <==>
                !SourceFree(Source(s.environments[e].bindings, origin).value, provider, serviceId, Skipped(exclude, e, origin))
    {
      SourceBlocksMeans(Source(s.environments[e].bindings, origin).value, provider, serviceId, Skipped(exclude, e, origin));
    }
    hide SourceFree, NonEmptyString, ServicesBlock, RecoveriesBlock;
    if NobodyElse(s, provider, serviceId, exclude) {
      forall e, origin | e in s.environments
        ensures !SourceBlocks(Source(s.environments[e].bindings, origin), provider, serviceId, Skipped(exclude, e, origin))
      {
        match origin { case Current => case Previous => }
      }
    } else {
      var e :| e in s.environments
               && (SourceBlocks(Source(s.environments[e].bindings, Current), provider, serviceId, Skipped(exclude, e, Current))
                   || SourceBlocks(Source(s.environments[e].bindings, Previous), provider, serviceId, Skipped(exclude, e, Previous)));
    }
  }

  method SearchServices(raw: Json, ownerProject: string, projectId: string, serviceId: string, skip: Option<string>)
    returns (found: Option<bool>)
    ensures found.Some? <==> ServicesBlock(raw, serviceId, skip)
    ensures found.Some? ==> ServicesShow(raw, ownerProject, projectId, serviceId, skip, found.value)
  {
    if raw == Undefined {
      return None;
    }
    if !raw.Obj? {
      return Some(false);
    }
    var names := raw.fields.Keys;
    while names != {}
      invariant names <= raw.fields.Keys
      invariant forall n :: n in raw.fields && n !in names ==>
                  skip == Some(n) || !BindingBlocks(n, raw.fields[n], serviceId)
      decreases |names|
    {
      var name :| name in names;
      names := names - {name};
      if skip == Some(name) {
        continue;
      }
      var boundId := BoundId(raw.fields[name]);
      if Blank(name) || !raw.fields[name].Obj? || boundId.None? {
        return Some(false);
      }
      if boundId.value == serviceId {
        return Some(ownerProject == projectId);
      }
    }
    return None;
  }

  method SearchRecoveries(raw: Json, provider: string, projectId: string, serviceId: string)
    returns (found: Option<bool>)
    ensures found.Some? <==> RecoveriesBlock(raw, provider, serviceId)
    ensures found.Some? ==> RecoveriesShow(raw, provider, projectId, serviceId, found.value)
  {
    if raw == Undefined {
      return None;
    }
    if !raw.Obj? {
      return Some(false);
    }
    var names := raw.fields.Keys;
    while names != {}
      invariant names <= raw.fields.Keys
      invariant forall n :: n in raw.fields && n !in names ==> !RecoveryBlocks(n, raw.fields[n], provider, serviceId)
      decreases |names|
    {
      var name :| name in names;
      names := names - {name};
      var rawProvider := StringField(Record(raw.fields[name]), "provider");
      if Blank(name) || rawProvider.None? {
        return Some(false);
      }
      if rawProvider.value != provider {
        continue;
      }
      var recovery := ParseRecovery(raw.fields[name]);
      if recovery.None? || "projectId" !in recovery.value.providerScope {
        return Some(false);
      }
      if recovery.value.serviceId == Some(serviceId) {
        return Some(recovery.value.providerScope["projectId"] == projectId);
      }
    }
    return None;
  }

  method SearchSourceForService(source: Option<Fields>, provider: string, projectId: string, serviceId: string,
                                skip: Option<string>) returns (found: Option<bool>)
    ensures found.Some? <==> SourceBlocks(source, provider, serviceId, skip)
    ensures found.Some? ==> SourceShows(source, provider, projectId, serviceId, skip, found.value)
  {
    if source.None? {
      return None;
    }
    var services, recoveries := Get(source.value, "services"), Get(source.value, "serviceCreateRecovery");
    var owner := StringField(source, "provider");
    if owner.None? {
      return if services != Undefined || recoveries != Undefined then Some(false) else None;
    }
    if owner.value == provider {
      var ownerProject := StringField(source, "projectId");
      if ownerProject.None? {
        return Some(false);
      }
      found := SearchServices(services, ownerProject.value, projectId, serviceId, skip);
      if found.Some? {
        return;
      }
    }
    found := SearchRecoveries(recoveries, provider, projectId, serviceId);
  }

  /** localServiceBindingUse: nothing found exactly when no source blocks. */
  method LocalServiceBindingUse(s: Store, provider: string, projectId: string, serviceId: string,
                                exclude: Option<Site>) returns (use: Option<Bound>)
    ensures use.None? <==> NobodyElse(s, provider, serviceId, exclude)
    ensures use.None? <==> !ServiceInUse(s, provider, serviceId, exclude)
    ensures use.Some? ==>
              && use.value.environment in s.environments
              && exists origin :: SourceShows(Source(s.environments[use.value.environment].bindings, origin), provider, projectId,
                                              serviceId, Skipped(exclude, use.value.environment, origin), use.value.certain)
  {
    NotInUseMeans(s, provider, serviceId, exclude);
    hide NobodyElse;
    var environments := s.environments.Keys;
    while environments != {}
      invariant environments <= s.environments.Keys
      invariant forall e, origin :: e in s.environments && e !in environments ==>
                  !SourceBlocks(Source(s.environments[e].bindings, origin), provider, serviceId,
                                Skipped(exclude, e, origin))
      decreases |environments|
    {
      var e :| e in environments;
      environments := environments - {e};
      var b := s.environments[e].bindings;
      var current := SearchSourceForService(
        Source(b, Current), provider, projectId, serviceId, Skipped(exclude, e, Current));
      if current.Some? {
        return Some(Bound(e, current.value));
      }
      var previous := SearchSourceForService(
        Source(b, Previous), provider, projectId, serviceId, Skipped(exclude, e, Previous));
      if previous.Some? {
        return Some(Bound(e, previous.value));
      }
    }
    use := None;
  }

  // -------------------------------------- what an unused boundary may contain

  predicate Inside(r: Resource, target: Target) {
    && r.provider == target.provider && r.projectId == target.projectId
    && (target.EnvironmentBoundary? ==> r.environmentId == Some(target.environmentId))
  }

  /** A field of a parsed scope reads as it stands. */
  lemma ScopeFieldReads(scope: map<string, string>, key: string)
    ensures var v := StringField(Record(ScopeJson(scope)), key);
            v.Some? ==> key in scope && v.value == scope[key]
  {
    hide Blank;
  }

  lemma ScopeOutside(scope: map<string, string>, target: Target, r: Resource)
    requires MatchingScope(ScopeJson(scope), target).None? && ScopeNames(scope, r)
    ensures !Inside(r, target)
  {
    ScopeFieldReads(scope, "projectId");
    ScopeFieldReads(scope, "environmentId");
    hide ScopeJson, StringField;
  }

  lemma RecoveryOutside(raw: Json, target: Target, r: Resource)
    requires RecoveryState(raw, target).None? && r.provider == target.provider
    requires StringField(Record(raw), "provider") == Some(r.provider)
    requires ParseRecovery(raw).Some? && ScopeNames(ParseRecovery(raw).value.providerScope, r)
    ensures !Inside(r, target)
  {
    hide ParseRecovery, MatchingScope, ScopeNames, StringField, Inside;
    ScopeOutside(ParseRecovery(raw).value.providerScope, target, r);
  }

  lemma SourceOutside(source: Fields, target: Target, kind: Kind, name: string, r: Resource)
    requires !SourceUses(source, target) && SourceRef(source, kind, name, r)
    ensures !Inside(r, target)
  {
    if kind == CreateRecovery && r.provider == target.provider {
      var raw := Get(source, "serviceCreateRecovery");
      assert !RecoveriesUse(raw, target);
      RecoveryOutside(raw.fields[name], target, r);
    }
  }

  /** Only the excluded stash can still refer into a boundary found unused. */
  lemma UnusedBoundaryHoldsOnlyTheStash(s: Store, target: Target, excluded: string)
    requires !BoundaryInUse(s, target, excluded)
    ensures forall site, r :: Refers(s, site, r) && Inside(r, target) ==>
              site.environment == excluded && site.origin == Previous
  {
    forall site, r | Refers(s, site, r) && !(site.environment == excluded && site.origin == Previous)
      ensures !Inside(r, target)
    {
      assert !EnvironmentUses(s, site.environment, target, excluded);
      var source := Source(s.environments[site.environment].bindings, site.origin);
      SourceOutside(source.value, target, site.kind, site.name, r);
    }
  }
}
