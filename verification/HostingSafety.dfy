/** No run of hosting steps leaves a dangling reference. */
module HostingSafety {
  import opened Json
  import opened LocalStore
  import opened ProviderBoundary
  import opened HostingReferences
  import opened HostingSteps

  /** A reference points at a live service, or its own entry asked for the deletion and the
      provider denied it. */
  ghost predicate NoDangling(s: State) {
    forall site, r :: Refers(s.store, site, r) ==> r in s.live || (EntryOf(site), r) in s.denied
  }

  /** Every reference in `after` was in `before`, and none of the dropped ones is left. */
  ghost predicate Narrows(before: Fields, after: Fields, dropped: (Origin, Kind, string) -> bool) {
    forall origin, kind, name, r :: BindingsRefer(after, origin, kind, name, r) ==>
      BindingsRefer(before, origin, kind, name, r) && !dropped(origin, kind, name)
  }

  lemma PatchNarrows(s: Store, e: string, patch: Fields, dropped: (Origin, Kind, string) -> bool)
    requires e in s.environments
    requires Narrows(s.environments[e].bindings, Merge(s.environments[e].bindings, patch), dropped)
    ensures forall site, r :: Refers(PatchEnvironment(s, e, patch), site, r) ==>
              Refers(s, site, r) && !(site.environment == e && dropped(site.origin, site.kind, site.name))
  {
    var after := PatchEnvironment(s, e, patch);
    forall site, r | Refers(after, site, r)
      ensures Refers(s, site, r) && !(site.environment == e && dropped(site.origin, site.kind, site.name))
    {
      assert site.environment == e ==> after.environments[e].bindings == Merge(s.environments[e].bindings, patch);
    }
  }

  /** Resources that only `own` refers to may go. */
  lemma OnlyOwnEntryLost(s: State, live: set<Resource>, own: Site)
    requires NoDangling(s)
    requires forall site, r :: Refers(s.store, site, r) && r in s.live && r !in live ==> site == own
    ensures NoDangling(s.(live := live, denied := s.denied + Charged(EntryOf(own), s.live - live)))
    ensures forall site, r :: Refers(s.store, site, r) && site != own ==>
              r in live || (EntryOf(site), r) in s.denied
  {
    var t := s.(live := live, denied := s.denied + Charged(EntryOf(own), s.live - live));
    forall site, r | Refers(t.store, site, r) ensures r in t.live || (EntryOf(site), r) in t.denied {
      if r in s.live && r !in live {
        assert r in s.live - live && site == own;
      }
    }
  }

  /** What an unshared deletion can hit is referred to by the excluded site at most. */
  lemma UnsharedHit(s: State, provider: string, scope: Scope, serviceId: string, own: Option<Site>, allow: bool,
                    receipt: Receipt)
    requires own.Some? ==> own.value.kind == Service
    requires allow ==> !ServiceInUse(s.store, provider, serviceId, own)
    ensures var live := Remaining(s.live, Targets(s.live, provider, scope, serviceId), allow, receipt);
            forall site, r :: Refers(s.store, site, r) && r in s.live && r !in live ==> own == Some(site)
  {
    var live := Remaining(s.live, Targets(s.live, provider, scope, serviceId), allow, receipt);
    forall site, r | Refers(s.store, site, r) && r in s.live && r !in live ensures own == Some(site) {
      NotInUseMeansNoReference(s.store, provider, serviceId, own, site, r);
    }
  }

  /** Fields that a patch does not mention read the same afterwards. */
  lemma UnpatchedSource(b: Fields, patch: Fields, kind: Kind, name: string, r: Resource)
    requires SourceRef(Merge(b, patch), kind, name, r)
    requires "provider" !in patch && "projectId" !in patch && "environmentId" !in patch
    requires kind == Service ==> "services" !in patch
    requires kind == CreateRecovery ==> "serviceCreateRecovery" !in patch
    ensures SourceRef(b, kind, name, r)
  {
    MergedField(b, patch, "provider"); MergedField(b, patch, "projectId"); MergedField(b, patch, "environmentId");
    MergedField(b, patch, "services"); MergedField(b, patch, "serviceCreateRecovery");
  }

  /** `left` is part of the services bound now. */
  predicate PartOfServices(b: Fields, left: Fields) {
    left.Keys <= ServicesOf(b).Keys && forall n :: n in left ==> left[n] == ServicesOf(b)[n]
  }

  lemma FewerServices(b: Fields, left: Fields, name: string, r: Resource)
    requires SourceRef(Merge(b, map["services" := Obj(left)]), Service, name, r) && PartOfServices(b, left)
    ensures SourceRef(b, Service, name, r) && name in left
  {
    var patch := map["services" := Obj(left)];
    MergedField(b, patch, "provider"); MergedField(b, patch, "projectId"); MergedField(b, patch, "environmentId");
    MergedField(b, patch, "services");
  }

  /** A patch that leaves the stash alone. */
  lemma SameStash(b: Fields, patch: Fields)
    requires "previousHosting" !in patch
    ensures Source(Merge(b, patch), Previous) == Source(b, Previous)
  {
    MergedField(b, patch, "previousHosting");
  }

  lemma WithoutServiceOne(b: Fields, left: Fields, kind: Kind, n: string, r: Resource)
    requires SourceRef(Merge(b, map["services" := Obj(left)]), kind, n, r) && PartOfServices(b, left)
    ensures SourceRef(b, kind, n, r) && (kind == Service ==> n in left)
  {
    match kind
    case Service => FewerServices(b, left, n, r);
    case CreateRecovery => UnpatchedSource(b, map["services" := Obj(left)], kind, n, r);
  }

  lemma WithoutServiceNarrows(b: Fields, name: string)
    ensures Narrows(b, Merge(b, map["services" := Obj(ServicesOf(b) - {name})]),
                    (o, k, n) => o == Current && k == Service && n == name)
  {
    var left := ServicesOf(b) - {name};
    forall origin, kind, n, r | BindingsRefer(Merge(b, map["services" := Obj(left)]), origin, kind, n, r)
      ensures BindingsRefer(b, origin, kind, n, r) && (origin == Current && kind == Service ==> n in left)
    {
      match origin
      case Current => WithoutServiceOne(b, left, kind, n, r);
      case Previous => SameStash(b, map["services" := Obj(left)]);
    }
  }

  lemma DestroyServiceSafe(s: State, registry: map<string, Boundary>, a: ServiceAction, desired: bool,
                           observed: Option<Observed>, adapter: bool, receipt: Receipt)
    requires NoDangling(s)
    ensures NoDangling(DestroyService(s, registry, a, desired, observed, adapter, receipt))
  {
    if ServiceDestroyAuthorised(s.store, registry, a, desired, observed) {
      var t := a.target.value;
      var own := Site(a.environment, Current, Service, a.serviceName);
      var shared := ServiceInUse(s.store, a.provider, t.serviceId, Some(own));
      var allow := |ByServiceId(observed.value.services, t.serviceId)| == 1 && !shared;
      var live := Remaining(s.live, Targets(s.live, a.provider, t.scope, t.serviceId), allow, receipt);
      UnsharedHit(s, a.provider, t.scope, t.serviceId, Some(own), allow, receipt);
      OnlyOwnEntryLost(s, live, own);
      var b := s.store.environments[a.environment].bindings;
      WithoutServiceNarrows(b, a.serviceName);
      PatchNarrows(s.store, a.environment, map["services" := Obj(ServicesOf(b) - {a.serviceName})],
                   (o, k, n) => o == Current && k == Service && n == a.serviceName);
    }
  }

  lemma DestroyTaskSafe(s: State, registry: map<string, Boundary>, a: ServiceAction,
                        observed: Option<Observed>, adapter: bool, receipt: Receipt)
    requires NoDangling(s)
    ensures NoDangling(DestroyTask(s, registry, a, observed, adapter, receipt))
  {
    if TaskDestroyAuthorised(s.store, registry, a, observed) {
      var t := a.target.value;
      var shared := ServiceInUse(s.store, a.provider, t.serviceId, None);
      var present := |ByNameOrId(observed.value.services, a.serviceName, t.serviceId)| == 1;
      UnsharedHit(s, a.provider, t.scope, t.serviceId, None, present && !shared, receipt);
    }
  }

  /** What a replaced stash can still refer to. */
  lemma ReplacedStashOne(b: Fields, stash: Json, origin: Origin, kind: Kind, n: string, r: Resource)
    requires BindingsRefer(Merge(b, map["previousHosting" := stash]), origin, kind, n, r)
    ensures origin == Current ==> BindingsRefer(b, origin, kind, n, r)
    ensures origin == Previous ==> stash.Obj? && SourceRef(stash.fields, kind, n, r)
  {
    match origin
    case Current => UnpatchedSource(b, map["previousHosting" := stash], kind, n, r);
    case Previous => MergedField(b, map["previousHosting" := stash], "previousHosting");
  }

  lemma PrunedOne(stash: Fields, left: Fields, kind: Kind, n: string, r: Resource)
    requires Get(stash, "services").Obj? && left.Keys <= stash["services"].fields.Keys
    requires forall n :: n in left ==> left[n] == stash["services"].fields[n]
    requires SourceRef(stash["services" := Obj(left)], kind, n, r)
    ensures SourceRef(stash, kind, n, r) && (kind == Service ==> n in left)
  {
    var pruned := stash["services" := Obj(left)];
    assert Get(pruned, "provider") == Get(stash, "provider") && Get(pruned, "projectId") == Get(stash, "projectId");
    assert Get(pruned, "environmentId") == Get(stash, "environmentId");
    assert Get(pruned, "serviceCreateRecovery") == Get(stash, "serviceCreateRecovery");
  }

  lemma PrunedNarrows(b: Fields, name: string, boundary: Boundary)
    requires Source(b, Previous).Some? && Get(Source(b, Previous).value, "services").Obj?
    ensures var pruned := PrunedStash(Source(b, Previous).value, name, boundary);
            Narrows(b, Merge(b, map["previousHosting" := pruned]), (o, k, n) => o == Previous && k == Service && n == name)
  {
    var stash := Source(b, Previous).value;
    var pruned := PrunedStash(stash, name, boundary);
    forall origin, kind, n, r | BindingsRefer(Merge(b, map["previousHosting" := pruned]), origin, kind, n, r)
      ensures BindingsRefer(b, origin, kind, n, r) && !(origin == Previous && kind == Service && n == name)
    {
      ReplacedStashOne(b, pruned, origin, kind, n, r);
      if origin == Previous {
        PrunedOne(stash, stash["services"].fields - {name}, kind, n, r);
      }
    }
  }

  lemma DestroyPreviousServiceSafe(s: State, registry: map<string, Boundary>, a: ServiceAction,
                                   boundary: Boundary, adapter: bool, receipt: Receipt)
    requires NoDangling(s)
    ensures NoDangling(DestroyPreviousService(s, registry, a, boundary, adapter, receipt))
  {
    if PreviousServiceAuthorised(s.store, registry, a, boundary) {
      var t := a.target.value;
      var own := Site(a.environment, Previous, Service, a.serviceName);
      var stash := Source(s.store.environments[a.environment].bindings, Previous).value;
      var shared := ServiceInUse(s.store, a.provider, t.serviceId, Some(own));
      var live := Remaining(s.live, Targets(s.live, a.provider, t.scope, t.serviceId), !shared, receipt);
      UnsharedHit(s, a.provider, t.scope, t.serviceId, Some(own), !shared, receipt);
      OnlyOwnEntryLost(s, live, own);
      PrunedNarrows(s.store.environments[a.environment].bindings, a.serviceName, boundary);
      PatchNarrows(s.store, a.environment, map["previousHosting" := PrunedStash(stash, a.serviceName, boundary)],
                   (o, k, n) => o == Previous && k == Service && n == a.serviceName);
    }
  }

  lemma DroppedStashNarrows(b: Fields)
    ensures Narrows(b, Merge(b, map["previousHosting" := Null]), (o, k, n) => o == Previous)
  {
    forall origin, kind, n, r | BindingsRefer(Merge(b, map["previousHosting" := Null]), origin, kind, n, r)
      ensures BindingsRefer(b, origin, kind, n, r) && origin != Previous
    {
      ReplacedStashOne(b, Null, origin, kind, n, r);
    }
  }

  lemma StashEntries(e: string, stash: Fields, kind: Kind, name: string, r: Resource)
    requires SourceRef(stash, kind, name, r)
    ensures Entry(e, kind, name) in EntriesIn(e, stash)
  {
  }

  /** A denied boundary deletion is charged to every entry of the stash. */
  lemma BoundaryCharged(s: State, e: string, live: set<Resource>)
    requires NoDangling(s) && e in s.store.environments && Source(s.store.environments[e].bindings, Previous).Some?
    requires forall site, r :: Refers(s.store, site, r) && r in s.live && r !in live ==>
               site.environment == e && site.origin == Previous
    ensures var stash := Source(s.store.environments[e].bindings, Previous).value;
            NoDangling(s.(live := live,
                          denied := s.denied + ChargedAll(EntriesIn(e, stash), s.live - live)))
  {
    var stash := Source(s.store.environments[e].bindings, Previous).value;
    forall site, r | Refers(s.store, site, r) && r in s.live && r !in live
      ensures EntryOf(site) in EntriesIn(e, stash) && r in s.live - live
    {
      StashEntries(e, stash, site.kind, site.name, r);
    }
  }

  lemma DestroyBoundarySafe(s: State, registry: map<string, Boundary>, a: BoundaryAction, wholeProject: bool,
                            adapter: bool, receipt: Receipt)
    requires NoDangling(s)
    ensures NoDangling(DestroyBoundary(s, registry, a, wholeProject, adapter, receipt))
  {
    if BoundaryDestroyAuthorised(s.store, registry, a, wholeProject) {
      var target := TargetOf(a, wholeProject);
      if !BoundaryInUse(s.store, target, a.environment) {
        var live := Remaining(s.live, BoundaryTargets(s.live, target), true, receipt);
        UnusedBoundaryHoldsOnlyTheStash(s.store, target, a.environment);
        BoundaryCharged(s, a.environment, live);
        DroppedStashNarrows(s.store.environments[a.environment].bindings);
        PatchNarrows(s.store, a.environment, map["previousHosting" := Null], (o, k, n) => o == Previous);
      }
    }
  }

  // ----------------------------------------------- the switch and what it keeps

  lemma OptionalFieldReads(m: Fields, key: string, value: Option<string>, other: string)
    requires value.Some? ==> !Blank(value.value)
    ensures Get(m + OptionalField(key, value), other) ==
            if other == key && value.Some? then Str(value.value) else Get(m, other)
  {
  }

  lemma StringFieldReads(m: Fields, key: string)
    ensures var v := StringField(Some(m), key);
            v.Some? ==> Get(m, key) == Str(v.value) && !Blank(v.value)
  {
  }

  /** The four fields a stash records, whoever wrote it. */
  lemma StashFields(provider: string, services: Fields, projectId: Option<string>, environmentId: Option<string>)
    requires projectId.Some? ==> !Blank(projectId.value)
    requires environmentId.Some? ==> !Blank(environmentId.value)
    ensures var stash := map["provider" := Str(provider), "services" := Obj(services)]
                         + OptionalField("projectId", projectId) + OptionalField("environmentId", environmentId);
            && Get(stash, "provider") == Str(provider) && Get(stash, "services") == Obj(services)
            && StringField(Some(stash), "projectId") == projectId
            && StringField(Some(stash), "environmentId") == environmentId
            && Get(stash, "serviceCreateRecovery") == Undefined
  {
    hide Blank;
    var basis := map["provider" := Str(provider), "services" := Obj(services)];
    OptionalPairReads(basis, projectId, environmentId, "provider");
    OptionalPairReads(basis, projectId, environmentId, "services");
    OptionalPairReads(basis, projectId, environmentId, "projectId");
    OptionalPairReads(basis, projectId, environmentId, "environmentId");
    OptionalPairReads(basis, projectId, environmentId, "serviceCreateRecovery");
    hide OptionalField;
  }

  lemma OptionalPairReads(basis: Fields, projectId: Option<string>, environmentId: Option<string>, key: string)
    requires projectId.Some? ==> !Blank(projectId.value)
    requires environmentId.Some? ==> !Blank(environmentId.value)
    ensures Get(basis + OptionalField("projectId", projectId) + OptionalField("environmentId", environmentId), key) ==
            if key == "environmentId" && environmentId.Some? then Str(environmentId.value)
            else if key == "projectId" && projectId.Some? then Str(projectId.value) else Get(basis, key)
  {
    OptionalFieldReads(basis, "projectId", projectId, key);
    OptionalFieldReads(basis + OptionalField("projectId", projectId), "environmentId", environmentId, key);
    hide OptionalField, Blank, Get;
  }

  // A parsed identity is trimmed already, and what has nothing to trim is handed on as it is.

  lemma {:induction false} TrimStartStops(t: string)
    ensures var u := TrimStart(t); u != "" ==> !IsSpace(u[0]) && TrimStart(u) == u
  {
    if t != "" && IsSpace(t[0]) { TrimStartStops(t[1..]); }
  }

  lemma {:induction false} TrimEndStops(t: string)
    ensures var u := TrimEnd(t); u != "" ==> u[0] == t[0] && !IsSpace(u[|u| - 1]) && TrimEnd(u) == u
  {
    if t != "" && IsSpace(t[|t| - 1]) { TrimEndStops(t[..|t| - 1]); }
  }

  lemma TrimmedIsNotBlank(v: Json)
    ensures Trimmed(v).Some? ==> !Blank(Trimmed(v).value)
  {
    if v.Str? {
      TrimStartStops(v.text);
      TrimEndStops(TrimStart(v.text));
      assert Trimmed(v).Some? ==> TrimStart(Trim(v.text)) == Trim(v.text);
    }
  }

  /** Nothing to trim in this field. */
  predicate Neat(m: Fields, key: string) { ParsedField(m, key).Some? ==> Get(m, key) == Str(ParsedField(m, key).value) }

  predicate NeatService(v: Json) {
    v.Obj? ==> Neat(v.fields, "serviceId") && Neat(v.fields, "jobName") && Neat(v.fields, "schedulerJobName")
  }

  predicate NeatServices(b: Fields) { forall n :: n in ServicesOf(b) ==> NeatService(ServicesOf(b)[n]) }

  predicate NeatBindings(b: Fields) {
    Neat(b, "provider") && Neat(b, "projectId") && Neat(b, "environmentId") && NeatServices(b)
  }

  lemma TrimFieldIsNeat(m: Fields, key: string)
    ensures TrimField(m, key) == m <==> Neat(m, key)
    ensures forall other :: other != key ==> Get(TrimField(m, key), other) == Get(m, other)
  {
  }

  lemma ParsedServiceIsNeat(v: Json)
    ensures ParsedService(v) == v <==> NeatService(v)
  {
    if v.Obj? {
      var one := TrimField(v.fields, "serviceId");
      var two := TrimField(one, "jobName");
      TrimFieldIsNeat(v.fields, "serviceId"); TrimFieldIsNeat(one, "jobName"); TrimFieldIsNeat(two, "schedulerJobName");
      hide TrimField;
      var three := TrimField(two, "schedulerJobName");
      assert Get(three, "serviceId") == Get(one, "serviceId") && Get(three, "jobName") == Get(two, "jobName");
      assert Get(one, "jobName") == Get(v.fields, "jobName") && Get(two, "schedulerJobName") == Get(v.fields, "schedulerJobName");
      if three == v.fields {
        TrimmedKept(v.fields, "serviceId"); TrimmedKept(one, "jobName"); TrimmedKept(two, "schedulerJobName");
      }
    }
  }

  lemma TrimmedKept(m: Fields, key: string)
    ensures Get(TrimField(m, key), key) == Get(m, key) ==> Neat(m, key)
  {
  }

  lemma ParsedServicesAreNeat(b: Fields)
    ensures ParsedServices(b) == ServicesOf(b) <==> NeatServices(b)
    ensures ParsedServices(b) == map[] <==> ServicesOf(b) == map[]
  {
    forall n | n in ServicesOf(b) ensures ParsedService(ServicesOf(b)[n]) == ServicesOf(b)[n] <==> NeatService(ServicesOf(b)[n]) {
      ParsedServiceIsNeat(ServicesOf(b)[n]);
    }
    hide ParsedService, NeatService;
    assert ParsedServices(b).Keys == ServicesOf(b).Keys;
  }

  lemma NeatReads(b: Fields, key: string)
    ensures ParsedField(b, key).Some? <==> StringField(Some(b), key).Some?
    ensures Neat(b, key) <==> ParsedField(b, key) == StringField(Some(b), key)
  {
  }

  lemma StashReads(b: Fields)
    requires ParsedField(b, "provider").Some?
    ensures var stash := StashOf(b);
            && StringField(Some(stash), "provider") == ParsedField(b, "provider")
            && StringField(Some(stash), "projectId") == ParsedField(b, "projectId")
            && StringField(Some(stash), "environmentId") == ParsedField(b, "environmentId")
            && Get(stash, "services") == Obj(ParsedServices(b)) && Get(stash, "serviceCreateRecovery") == Undefined
  {
    hide Blank;
    TrimmedIsNotBlank(Get(b, "provider")); TrimmedIsNotBlank(Get(b, "projectId")); TrimmedIsNotBlank(Get(b, "environmentId"));
    StashFields(ParsedField(b, "provider").value, ParsedServices(b), ParsedField(b, "projectId"),
                ParsedField(b, "environmentId"));
    hide OptionalField, Trimmed;
  }

  lemma SwitchedFields(b: Fields, boundary: Boundary, provider: string)
    requires ParsedField(b, "provider").Some?
    ensures var after := Merge(b, SwitchPatch(b, boundary, provider));
            && Get(after, "provider") == Str(provider)
            && Get(after, "services") == Obj(map[])
            && Get(after, "projectId") == Undefined && Get(after, "environmentId") == Undefined
            && Get(after, "serviceCreateRecovery") == Get(b, "serviceCreateRecovery")
            && Get(after, "previousHosting") ==
                 if !Truthy(Get(b, "previousHosting")) && WorthRetaining(b, boundary)
                 then Obj(StashOf(b)) else Get(b, "previousHosting")
  {
    var patch := SwitchPatch(b, boundary, provider);
    MergedField(b, patch, "provider"); MergedField(b, patch, "services"); MergedField(b, patch, "projectId");
    MergedField(b, patch, "environmentId"); MergedField(b, patch, "serviceCreateRecovery");
    MergedField(b, patch, "previousHosting");
    hide Merge, StashOf, WorthRetaining, Truthy, ParsedField;
  }

  /** A switch moves every service entry, with its provider scope, unchanged into the stash:
      exactly when no unreadable stash is in the way and no identity has white space around
      it, which the parser would trim. */
  lemma SwitchKeepsServicesExactly(s: State, registry: map<string, Boundary>, e: string, provider: string)
    requires SwitchAuthorised(s.store, registry, e, provider) && !Blank(provider)
    requires ServicesOf(s.store.environments[e].bindings) != map[]
    ensures var b := s.store.environments[e].bindings;
            var after := SwitchHosting(s, registry, e, provider).store.environments[e].bindings;
            && ServicesOf(after) == map[] && StringField(Some(after), "provider") == Some(provider)
            && (!Truthy(Get(b, "previousHosting")) && NeatBindings(b) <==>
                  Source(after, Previous).Some?
                  && ServicesOf(Source(after, Previous).value) == ServicesOf(b)
                  && StringField(Source(after, Previous), "provider") == StringField(Some(b), "provider")
                  && StringField(Source(after, Previous), "projectId") == StringField(Some(b), "projectId")
                  && StringField(Source(after, Previous), "environmentId") == StringField(Some(b), "environmentId"))
  {
    var b := s.store.environments[e].bindings;
    SwitchedFields(b, registry[ParsedField(b, "provider").value], provider);
    StashReads(b);
    ParsedServicesAreNeat(b);
    NeatReads(b, "provider"); NeatReads(b, "projectId"); NeatReads(b, "environmentId");
    hide Merge, StashOf, SwitchPatch, Blank, HostingParses, ParsedServices, NeatServices, Neat, Trimmed;
  }

  /** What a reference depends on. */
  lemma SameReads(a: Fields, b: Fields, kind: Kind, n: string, r: Resource)
    requires SourceRef(a, kind, n, r)
    requires kind == CreateRecovery ==> Get(a, "serviceCreateRecovery") == Get(b, "serviceCreateRecovery")
    requires kind == Service ==> && StringField(Some(a), "provider") == StringField(Some(b), "provider")
                                 && StringField(Some(a), "projectId") == StringField(Some(b), "projectId")
                                 && StringField(Some(a), "environmentId") == StringField(Some(b), "environmentId")
                                 && Record(Get(a, "services")) == Record(Get(b, "services"))
    ensures SourceRef(b, kind, n, r)
  {
  }

  lemma NoServicesNoReference(b: Fields, n: string, r: Resource)
    requires SourceRef(b, Service, n, r)
    ensures ServicesOf(b) != map[]
  {
  }

  lemma SwitchOne(b: Fields, boundary: Boundary, provider: string, origin: Origin, kind: Kind, n: string, r: Resource)
    requires ParsedField(b, "provider").Some? && NeatBindings(b)
    requires BindingsRefer(Merge(b, SwitchPatch(b, boundary, provider)), origin, kind, n, r)
    ensures BindingsRefer(b, Current, kind, n, r) || BindingsRefer(b, Previous, kind, n, r)
  {
    var after := Merge(b, SwitchPatch(b, boundary, provider));
    SwitchedFields(b, boundary, provider);
    StashReads(b);
    hide Merge, SwitchPatch, WorthRetaining, Truthy, StashOf, RecoveryRef;
    match origin
    case Current =>
      match kind {
        case Service => NoServicesNoReference(after, n, r); assert false;
        case CreateRecovery => SameReads(after, b, kind, n, r);
      }
    case Previous =>
      if Get(after, "previousHosting") == Get(b, "previousHosting") {
        assert Source(after, Previous) == Source(b, Previous);
      } else {
        StashOne(b, kind, n, r);
      }
  }

  lemma StashOne(b: Fields, kind: Kind, n: string, r: Resource)
    requires ParsedField(b, "provider").Some? && NeatBindings(b) && SourceRef(StashOf(b), kind, n, r)
    ensures SourceRef(b, kind, n, r)
  {
    StashReads(b);
    ParsedServicesAreNeat(b);
    NeatReads(b, "provider"); NeatReads(b, "projectId"); NeatReads(b, "environmentId");
    hide ParsedServices, NeatServices, Neat, Trimmed;
    var stash := StashOf(b);
    hide StashOf;
    match kind {
      case Service =>
        NoServicesNoReference(stash, n, r);
        SameReads(stash, b, kind, n, r);
      case CreateRecovery => RecoveryNeedsRecord(stash, n, r);
    }
  }

  /** One environment gets a patch that adds no reference for any entry. */
  lemma PatchedSafely(s: State, e: string, patch: Fields)
    requires NoDangling(s) && e in s.store.environments
    requires forall origin, kind, n, r ::
               BindingsRefer(Merge(s.store.environments[e].bindings, patch), origin, kind, n, r) ==>
               r in s.live || BindingsRefer(s.store.environments[e].bindings, Current, kind, n, r)
               || BindingsRefer(s.store.environments[e].bindings, Previous, kind, n, r)
    ensures NoDangling(s.(store := PatchEnvironment(s.store, e, patch)))
  {
    var t := s.(store := PatchEnvironment(s.store, e, patch));
    var b := s.store.environments[e].bindings;
    forall site, r | Refers(t.store, site, r) ensures r in t.live || (EntryOf(site), r) in t.denied {
      if site.environment == e {
        assert BindingsRefer(Merge(b, patch), site.origin, site.kind, site.name, r);
        assert r in s.live || Refers(s.store, site.(origin := Current), r) || Refers(s.store, site.(origin := Previous), r)
          by { hide BindingsRefer; }
      } else {
        assert Refers(s.store, site, r);
      }
    }
  }

  lemma SwitchSafe(s: State, registry: map<string, Boundary>, e: string, provider: string)
    requires NoDangling(s) && (e in s.store.environments ==> NeatBindings(s.store.environments[e].bindings))
    ensures NoDangling(SwitchHosting(s, registry, e, provider))
  {
    hide BindingsRefer, SwitchPatch, NoDangling;
    if SwitchAuthorised(s.store, registry, e, provider) {
      var b := s.store.environments[e].bindings;
      var boundary := registry[ParsedField(b, "provider").value];
      forall origin, kind, n, r | BindingsRefer(Merge(b, SwitchPatch(b, boundary, provider)), origin, kind, n, r)
        ensures BindingsRefer(b, Current, kind, n, r) || BindingsRefer(b, Previous, kind, n, r)
      {
        SwitchOne(b, boundary, provider, origin, kind, n, r);
      }
      PatchedSafely(s, e, SwitchPatch(b, boundary, provider));
    }
  }

  // ------------------------------------------------- binding and retaining

  /** ensureProject verifies the project that is bound, or creates one; and the provider's
      own bindings do not pose as a create recovery. */
  predicate VerifiesBoundProject(b: Fields, provider: string, receipt: Fields) {
    && "serviceCreateRecovery" !in ProviderBindings(receipt)
    && (|| Created(receipt) || ServicesOf(b) == map[]
        || (&& StringField(Some(b), "provider") == Some(provider)
            && StringField(Some(b), "projectId") == BoundProject(b, receipt)
            && StringField(Some(b), "environmentId") == BoundEnvironment(b, receipt)))
  }

  lemma ProjectPatchFields(extra: Fields, provider: string, projectId: string, environmentId: Option<string>,
                           created: bool, key: string)
    requires extra.Keys * RESERVED == {} && "serviceCreateRecovery" !in extra
    requires key in RESERVED || key == "serviceCreateRecovery"
    ensures var patch := ProjectPatch(extra, provider, projectId, environmentId, created);
            && (key in patch <==> key == "provider" || key == "projectId"
                                  || (key == "environmentId" && environmentId.Some?) || (key == "services" && created))
            && (key == "provider" ==> patch[key] == Str(provider)) && (key == "projectId" ==> patch[key] == Str(projectId))
            && (key == "environmentId" && environmentId.Some? ==> patch[key] == Str(environmentId.value))
            && (key == "services" && created ==> patch[key] == Obj(map[]))
  {
  }

  lemma BoundFields(b: Fields, provider: string, receipt: Fields, projectId: string)
    requires !Blank(provider) && BoundProject(b, receipt) == Some(projectId)
    requires VerifiesBoundProject(b, provider, receipt) && ProviderBindings(receipt).Keys * RESERVED == {}
    ensures var after := Merge(b, ProjectPatch(ProviderBindings(receipt), provider, projectId,
                                               BoundEnvironment(b, receipt), Created(receipt)));
            && Get(after, "previousHosting") == Get(b, "previousHosting")
            && Get(after, "serviceCreateRecovery") == Get(b, "serviceCreateRecovery")
            && Get(after, "services") == (if Created(receipt) then Obj(map[]) else Get(b, "services"))
            && StringField(Some(after), "provider") == Some(provider)
            && StringField(Some(after), "projectId") == Some(projectId)
            && StringField(Some(after), "environmentId") == BoundEnvironment(b, receipt)
  {
    var extra, environmentId, created := ProviderBindings(receipt), BoundEnvironment(b, receipt), Created(receipt);
    var patch := ProjectPatch(extra, provider, projectId, environmentId, created);
    ProjectPatchFields(extra, provider, projectId, environmentId, created, "provider");
    ProjectPatchFields(extra, provider, projectId, environmentId, created, "projectId");
    ProjectPatchFields(extra, provider, projectId, environmentId, created, "environmentId");
    ProjectPatchFields(extra, provider, projectId, environmentId, created, "services");
    ProjectPatchFields(extra, provider, projectId, environmentId, created, "previousHosting");
    ProjectPatchFields(extra, provider, projectId, environmentId, created, "serviceCreateRecovery");
    MergedField(b, patch, "provider"); MergedField(b, patch, "projectId"); MergedField(b, patch, "environmentId");
    MergedField(b, patch, "services"); MergedField(b, patch, "previousHosting");
    MergedField(b, patch, "serviceCreateRecovery");
    TrimmedIsNotBlank(Get(b, "projectId")); TrimmedIsNotBlank(Get(b, "environmentId"));
    NeatReads(b, "environmentId");
    StringFieldReads(receipt, "projectId"); StringFieldReads(receipt, "environmentId");
    hide Merge, ProjectPatch, Created, ProviderBindings, Blank, VerifiesBoundProject, Trimmed;
  }

  lemma BindOne(b: Fields, provider: string, receipt: Fields, projectId: string,
                origin: Origin, kind: Kind, n: string, r: Resource)
    requires !Blank(provider) && BoundProject(b, receipt) == Some(projectId)
    requires VerifiesBoundProject(b, provider, receipt) && ProviderBindings(receipt).Keys * RESERVED == {}
    requires BindingsRefer(Merge(b, ProjectPatch(ProviderBindings(receipt), provider, projectId,
                                                 BoundEnvironment(b, receipt), Created(receipt))), origin, kind, n, r)
    ensures BindingsRefer(b, origin, kind, n, r)
  {
    BoundFields(b, provider, receipt, projectId);
    var after := Merge(b, ProjectPatch(ProviderBindings(receipt), provider, projectId,
                                       BoundEnvironment(b, receipt), Created(receipt)));
    hide Merge, ProjectPatch, Created, ProviderBindings, Blank, RecoveryRef, BoundProject, BoundEnvironment;
    match origin
    case Previous => assert Source(after, Previous) == Source(b, Previous);
    case Current =>
      if kind == Service {
        NoServicesNoReference(after, n, r);
        assert ServicesOf(after) == ServicesOf(b) != map[];
      }
      SameReads(after, b, kind, n, r);
  }

  lemma BindSafe(s: State, e: string, provider: string, receipt: Fields)
    requires NoDangling(s) && e in s.store.environments && !Blank(provider)
    requires VerifiesBoundProject(s.store.environments[e].bindings, provider, receipt)
    ensures NoDangling(BindProject(s, e, provider, receipt))
  {
    hide BindingsRefer, NoDangling, ProjectPatch, VerifiesBoundProject, ProviderBindings, BoundProject, BoundEnvironment;
    var b := s.store.environments[e].bindings;
    if ProviderBindings(receipt).Keys * RESERVED == {} && BoundProject(b, receipt).Some? {
      var projectId := BoundProject(b, receipt).value;
      var patch := ProjectPatch(ProviderBindings(receipt), provider, projectId, BoundEnvironment(b, receipt), Created(receipt));
      forall origin, kind, n, r | BindingsRefer(Merge(b, patch), origin, kind, n, r)
        ensures BindingsRefer(b, Current, kind, n, r) || BindingsRefer(b, Previous, kind, n, r)
      {
        BindOne(b, provider, receipt, projectId, origin, kind, n, r);
        assert origin == Current || origin == Previous;
      }
      PatchedSafely(s, e, patch);
    }
  }

  lemma EnsureSafe(s: State, registry: map<string, Boundary>, e: string, provider: string, receipt: Option<Fields>)
    requires NoDangling(s) && !Blank(provider)
    requires e in s.store.environments ==> NeatBindings(s.store.environments[e].bindings)
    requires e in s.store.environments && receipt.Some? ==>
               VerifiesBoundProject(SwitchHosting(s, registry, e, provider).store.environments[e].bindings, provider, receipt.value)
    ensures NoDangling(EnsureHosting(s, registry, e, provider, receipt))
  {
    SwitchSafe(s, registry, e, provider);
    if e in s.store.environments && receipt.Some? {
      BindSafe(SwitchHosting(s, registry, e, provider), e, provider, receipt.value);
    }
    hide NoDangling, SwitchHosting, BindProject, VerifiesBoundProject;
  }

  /** Every inspected service exists where the inspection says. */
  ghost predicate Inspects(live: set<Resource>, provider: string, seen: Inspected) {
    && (seen.projectId.Some? ==> !Blank(seen.projectId.value))
    && (seen.environmentId.Some? ==> !Blank(seen.environmentId.value))
    && forall x :: x in seen.services && seen.projectId.Some? && x.id.Some? ==>
         !Blank(x.id.value) && Resource(provider, seen.projectId.value, seen.environmentId, x.id.value) in live
  }

  lemma {:induction false} CollectedOnlySeen(services: seq<InspectedService>, name: string, id: string)
    requires var found := Collected(services); found.Some? && name in found.value && BoundId(found.value[name]) == Some(id)
    requires forall x :: x in services && x.id.Some? ==> !Blank(x.id.value)
    ensures exists x :: x in services && x.id == Some(id)
  {
    var init, last := services[..|services| - 1], services[|services| - 1];
    assert services == init + [last];
    if last.name == Some(name) {
      assert StringField(Some(last.extra["serviceId" := Str(last.id.value)]), "serviceId") == last.id;
      assert last in services;
    } else {
      CollectedOnlySeen(init, name, id);
    }
  }

  lemma ImportOne(b: Fields, provider: string, seen: Inspected, live: set<Resource>,
                  origin: Origin, kind: Kind, n: string, r: Resource)
    requires Inspects(live, provider, seen) && seen.projectId.Some? && Collected(seen.services).Some?
    requires BindingsRefer(Merge(b, map["previousHosting" := Obj(ImportedStash(provider, seen, Collected(seen.services).value))]),
                           origin, kind, n, r)
    ensures r in live || BindingsRefer(b, Current, kind, n, r)
  {
    var services := Collected(seen.services).value;
    var stash := ImportedStash(provider, seen, services);
    ReplacedStashOne(b, Obj(stash), origin, kind, n, r);
    StashFields(provider, services, seen.projectId, seen.environmentId);
    if origin == Previous {
      hide Merge, ImportedStash, Collected, RecoveryRef, BindingsRefer, Blank;
      if kind == Service {
        CollectedOnlySeen(seen.services, n, r.serviceId);
        var x :| x in seen.services && x.id == Some(r.serviceId);
        assert r == Resource(provider, seen.projectId.value, seen.environmentId, x.id.value);
      } else {
        RecoveryNeedsRecord(stash, n, r);
      }
    }
  }

  lemma RecoveryNeedsRecord(source: Fields, n: string, r: Resource)
    requires SourceRef(source, CreateRecovery, n, r)
    ensures Record(Get(source, "serviceCreateRecovery")).Some?
  {
  }

  lemma ImportSafe(s: State, registry: map<string, Boundary>, e: string, provider: string, seen: Inspected,
                   confirm: bool)
    requires NoDangling(s) && Inspects(s.live, provider, seen)
    ensures NoDangling(RetainHosting(s, registry, e, provider, seen, confirm))
  {
    hide BindingsRefer, NoDangling, ImportedStash, Collected, Inspects;
    if ImportAuthorised(s.store, registry, e, provider, seen) {
      var b := s.store.environments[e].bindings;
      var patch := map["previousHosting" := Obj(ImportedStash(provider, seen, Collected(seen.services).value))];
      forall origin, kind, n, r | BindingsRefer(Merge(b, patch), origin, kind, n, r)
        ensures r in s.live || BindingsRefer(b, Current, kind, n, r)
      {
        ImportOne(b, provider, seen, s.live, origin, kind, n, r);
      }
      PatchedSafely(s, e, patch);
    }
  }

  // ------------------------------------------------------------- every run

  /** What the steps rely on: ensureProject verifies what is bound, an inspection reports
      what exists, and bound identities have no white space around them. */
  ghost predicate Honest(s: State, registry: map<string, Boundary>, event: Event) {
    match event
    case HostingEnsured(e, provider, receipt) =>
      && !Blank(provider) && (e in s.store.environments ==> NeatBindings(s.store.environments[e].bindings))
      && (e in s.store.environments && receipt.Some? ==>
            VerifiesBoundProject(SwitchHosting(s, registry, e, provider).store.environments[e].bindings, provider, receipt.value))
    case HostingRetained(e, provider, seen, confirm) =>
      Inspects(s.live, provider, seen)
    case _ => true
  }

  lemma StepSafe(s: State, registry: map<string, Boundary>, event: Event)
    requires NoDangling(s) && Honest(s, registry, event)
    ensures NoDangling(Step(s, registry, event))
  {
    hide DestroyService, DestroyTask, DestroyPreviousService, DestroyBoundary, EnsureHosting, RetainHosting;
    hide NoDangling, VerifiesBoundProject, Inspects, SwitchHosting;
    match event
    case ServiceDestroyed(a, desired, observed, adapter, receipt) =>
      DestroyServiceSafe(s, registry, a, desired, observed, adapter, receipt);
    case TaskDestroyed(a, observed, adapter, receipt) => DestroyTaskSafe(s, registry, a, observed, adapter, receipt);
    case PreviousServiceDestroyed(a, boundary, adapter, receipt) =>
      DestroyPreviousServiceSafe(s, registry, a, boundary, adapter, receipt);
    case BoundaryDestroyed(a, wholeProject, adapter, receipt) =>
      DestroyBoundarySafe(s, registry, a, wholeProject, adapter, receipt);
    case HostingEnsured(e, provider, receipt) => EnsureSafe(s, registry, e, provider, receipt);
    case HostingRetained(e, provider, seen, confirm) => ImportSafe(s, registry, e, provider, seen, confirm);
  }

  ghost predicate HonestRun(s: State, registry: map<string, Boundary>, events: seq<Event>) {
    forall i :: 0 <= i < |events| ==> Honest(Run(s, registry, events[..i]), registry, events[i])
  }

  /** No run of these steps, over all projects and environments and all provider outcomes,
      leaves a dangling reference other than an entry whose own deletion was denied. */
  lemma {:induction false} NoRunLeavesDangling(s: State, registry: map<string, Boundary>, events: seq<Event>)
    requires NoDangling(s) && HonestRun(s, registry, events)
    ensures NoDangling(Run(s, registry, events))
  {
    hide Step, NoDangling, Honest;
    if events != [] {
      var init := events[..|events| - 1];
      assert HonestRun(s, registry, init) by {
        forall i | 0 <= i < |init| ensures Honest(Run(s, registry, init[..i]), registry, init[i]) {
          assert init[..i] == events[..i];
        }
      }
      NoRunLeavesDangling(s, registry, init);
      StepSafe(Run(s, registry, init), registry, events[|events| - 1]);
    }
  }

  /** A provider whose failures change nothing. */
  ghost predicate Atomic(event: Event) {
    match event
    case ServiceDestroyed(_, _, _, _, receipt) => receipt.Denied? ==> !receipt.acted
    case TaskDestroyed(_, _, _, receipt) => receipt.Denied? ==> !receipt.acted
    case PreviousServiceDestroyed(_, _, _, receipt) => receipt.Denied? ==> !receipt.acted
    case BoundaryDestroyed(_, _, _, receipt) => receipt.Denied? ==> !receipt.acted
    case _ => true
  }

  lemma AtomicStepChargesNothing(s: State, registry: map<string, Boundary>, event: Event)
    requires Atomic(event)
    ensures Step(s, registry, event).denied == s.denied
  {
    hide ServiceDestroyAuthorised, TaskDestroyAuthorised, PreviousServiceAuthorised, BoundaryDestroyAuthorised;
    hide ServiceInUse, BoundaryInUse, PatchEnvironment, Targets, BoundaryTargets, WithoutService, PrunedStash;
    hide SwitchAuthorised, SwitchPatch, ImportAuthorised, ProjectPatch, Collected;
  }

  /** With such a provider every reference stays live through every run. */
  lemma {:induction false} AllReferencesStayLive(s: State, registry: map<string, Boundary>, events: seq<Event>)
    requires NoDangling(s) && s.denied == {} && HonestRun(s, registry, events)
    requires forall i :: 0 <= i < |events| ==> Atomic(events[i])
    ensures var t := Run(s, registry, events);
            t.denied == {} && forall site, r :: Refers(t.store, site, r) ==> r in t.live
  {
    NoRunLeavesDangling(s, registry, events);
    NothingCharged(s, registry, events);
    hide Run, Refers;
  }

  lemma {:induction false} NothingCharged(s: State, registry: map<string, Boundary>, events: seq<Event>)
    requires s.denied == {} && forall i :: 0 <= i < |events| ==> Atomic(events[i])
    ensures Run(s, registry, events).denied == {}
  {
    hide Step, Atomic;
    if events != [] {
      NothingCharged(s, registry, events[..|events| - 1]);
      AtomicStepChargesNothing(Run(s, registry, events[..|events| - 1]), registry, events[|events| - 1]);
    }
  }

  // ------------------------------------------------- what a step may delete

  /** destroyService deletes nothing but the reviewed service: bound under that very name,
      no longer desired, and seen exactly once, under that name, in a complete inventory. */
  lemma ServiceDeletionReviewed(s: State, registry: map<string, Boundary>, a: ServiceAction, desired: bool,
                                observed: Option<Observed>, adapter: bool, receipt: Receipt, r: Resource)
    requires r in s.live && r !in DestroyService(s, registry, a, desired, observed, adapter, receipt).live
    ensures a.environment in s.store.environments && !desired && r.provider == a.provider
    ensures var b := s.store.environments[a.environment].bindings;
            && StringField(Some(b), "provider") == Some(r.provider) && StringField(Some(b), "projectId") == Some(r.projectId)
            && a.serviceName in ServicesOf(b) && BoundId(ServicesOf(b)[a.serviceName]) == Some(r.serviceId)
    ensures observed.Some? && observed.value.complete && observed.value.projectId == Some(r.projectId)
            && ByServiceId(observed.value.services, r.serviceId) == [(a.serviceName, r.serviceId)]
    ensures !ServiceInUse(s.store, r.provider, r.serviceId, Some(Site(a.environment, Current, Service, a.serviceName)))
  {
    hide ServiceInUse, Merge;
    var seen := ByServiceId(observed.value.services, r.serviceId);
    ByServiceIdHasId(observed.value.services, r.serviceId);
    assert |seen| == 1 && seen[0] == (a.serviceName, r.serviceId);
  }

  lemma {:induction false} ByServiceIdHasId(services: seq<(string, string)>, id: string)
    ensures forall i :: 0 <= i < |ByServiceId(services, id)| ==> ByServiceId(services, id)[i].1 == id
  {
    if services != [] { ByServiceIdHasId(services[1..], id); }
  }

  /** A boundary deletion stays inside the stash's own project, and for an environment
      boundary inside its environment. */
  lemma BoundaryDeletionReviewed(s: State, registry: map<string, Boundary>, a: BoundaryAction, wholeProject: bool,
                                 adapter: bool, receipt: Receipt, r: Resource)
    requires r in s.live && r !in DestroyBoundary(s, registry, a, wholeProject, adapter, receipt).live
    ensures a.environment in s.store.environments
    ensures var stash := Source(s.store.environments[a.environment].bindings, Previous);
            && StringField(stash, "provider") == Some(r.provider) && StringField(stash, "projectId") == Some(r.projectId)
            && (!wholeProject ==> r.environmentId.Some? && StringField(stash, "environmentId") == r.environmentId)
            && r.provider in registry && registry[r.provider] == (if wholeProject then OwnsProject else OwnsEnvironment)
  {
    hide BoundaryInUse, Merge, EntriesIn;
  }

  // ------------------------------------------------ what an import collects

  predicate Collectable(services: seq<InspectedService>) {
    && (forall i :: 0 <= i < |services| ==> services[i].name.Some? && services[i].id.Some? && services[i].managed)
    && (forall i, j :: 0 <= i < j < |services| ==> services[i].name != services[j].name)
  }

  /** The service stands under its name, with its id. */
  predicate RecordedIn(found: Fields, x: InspectedService) {
    && x.name.Some? && x.id.Some? && x.name.value in found && found[x.name.value].Obj?
    && Get(found[x.name.value].fields, "serviceId") == Str(x.id.value)
  }

  ghost predicate HoldsExactly(found: Fields, services: seq<InspectedService>) {
    && (forall i :: 0 <= i < |services| ==> RecordedIn(found, services[i]))
    && (forall n :: n in found ==> exists i :: 0 <= i < |services| && services[i].name == Some(n))
  }

  /** An inspected provider is retained only if every service has a name of its own, an id,
      and is managed; then each is recorded under its name with its id, and nothing else. */
  lemma {:induction false} CollectedExactly(services: seq<InspectedService>)
    ensures Collected(services).Some? <==> Collectable(services)
    ensures Collected(services).Some? ==> HoldsExactly(Collected(services).value, services)
  {
    if services != [] {
      var init, x := services[..|services| - 1], services[|services| - 1];
      assert services == init + [x];
      CollectedExactly(init);
      CollectableAppend(init, x);
      if Collected(init).Some? && x.name.Some? && x.id.Some? && x.name.value !in Collected(init).value {
        HoldsAppend(Collected(init).value, init, x);
      }
      hide Collectable, HoldsExactly;
    }
  }

  lemma CollectableAppend(init: seq<InspectedService>, x: InspectedService)
    requires Collected(init).Some? <==> Collectable(init)
    requires Collected(init).Some? ==> HoldsExactly(Collected(init).value, init)
    ensures Collectable(init + [x]) <==>
              Collectable(init) && x.name.Some? && x.id.Some? && x.managed && x.name.value !in Collected(init).value
  {
    var all := init + [x];
    assert forall i :: 0 <= i < |init| ==> all[i] == init[i];
    assert all[|init|] == x;
    hide Collected;
    if Collectable(all) {
      assert Collectable(init);
    }
  }

  lemma HoldsAppend(found: Fields, init: seq<InspectedService>, x: InspectedService)
    requires HoldsExactly(found, init) && x.name.Some? && x.id.Some? && x.name.value !in found
    ensures HoldsExactly(found[x.name.value := Obj(x.extra["serviceId" := Str(x.id.value)])], init + [x])
  {
    var all, after := init + [x], found[x.name.value := Obj(x.extra["serviceId" := Str(x.id.value)])];
    assert RecordedIn(after, x);
    forall i | 0 <= i < |all| ensures RecordedIn(after, all[i]) {
      assert i < |init| ==> RecordedIn(found, init[i]);
    }
    forall n | n in after ensures exists i :: 0 <= i < |all| && all[i].name == Some(n) {
      if n == x.name.value {
        assert all[|init|].name == Some(n);
      } else {
        var i :| 0 <= i < |init| && init[i].name == Some(n);
        assert all[i].name == Some(n);
      }
    }
  }

  // ----------------------------------------------------------- cleanup ends

  /** The abandoned provider's bindings retained for cleanup. */
  function StashAt(s: State, e: string): Option<Fields> {
    if e in s.store.environments then Source(s.store.environments[e].bindings, Previous) else None
  }

  function EntriesLeft(s: State, e: string): nat {
    if StashAt(s, e).None? then 0 else |ServicesOf(StashAt(s, e).value)|
  }

  /** A deletion of a retained service that was carried out and stored. */
  predicate Deletes(s: State, registry: map<string, Boundary>, event: Event, e: string) {
    event.PreviousServiceDestroyed? && event.action.environment == e && Step(s, registry, event).store != s.store
  }

  function Deletions(s: State, registry: map<string, Boundary>, events: seq<Event>, e: string): nat {
    if events == [] then 0
    else
      var init, last := events[..|events| - 1], events[|events| - 1];
      Deletions(s, registry, init, e) + if Deletes(Run(s, registry, init), registry, last, e) then 1 else 0
  }

  /** A patch that does not mention the stash, or one for another environment, keeps it. */
  lemma PatchKeepsStash(s: State, e: string, patched: string, patch: Fields)
    requires patched in s.store.environments && (patched == e ==> "previousHosting" !in patch)
    ensures StashAt(s.(store := PatchEnvironment(s.store, patched, patch)), e) == StashAt(s, e)
  {
    if patched == e { SameStash(s.store.environments[e].bindings, patch); }
    hide Merge;
  }

  lemma DeletionCounts(s: State, registry: map<string, Boundary>, a: ServiceAction, boundary: Boundary, adapter: bool,
                       receipt: Receipt, e: string)
    ensures var t := DestroyPreviousService(s, registry, a, boundary, adapter, receipt);
            if t.store == s.store || a.environment != e then StashAt(t, e) == StashAt(s, e)
            else
              && StashAt(s, e).Some? && a.serviceName in ServicesOf(StashAt(s, e).value)
              && var left := ServicesOf(StashAt(s, e).value) - {a.serviceName};
                 && |left| == EntriesLeft(s, e) - 1
                 && StashAt(t, e) == if left != map[] || boundary == OwnsProject
                                     then Some(StashAt(s, e).value["services" := Obj(left)]) else None
  {
    var t := DestroyPreviousService(s, registry, a, boundary, adapter, receipt);
    if t.store != s.store {
      AuthorisedPrune(s, registry, a, boundary);
      PrunedAt(s, a.environment, a.serviceName, boundary, e);
    }
    hide PreviousServiceAuthorised, StashAt, EntriesLeft, ServicesOf, PrunedStash, PatchEnvironment, ServiceInUse, Targets, Remaining;
  }

  lemma AuthorisedPrune(s: State, registry: map<string, Boundary>, a: ServiceAction, boundary: Boundary)
    requires PreviousServiceAuthorised(s.store, registry, a, boundary)
    ensures var stash := StashAt(s, a.environment);
            stash.Some? && Get(stash.value, "services").Obj? && a.serviceName in ServicesOf(stash.value)
  {
    hide ScopeMatches;
  }

  lemma PrunedAt(s: State, at: string, name: string, boundary: Boundary, e: string)
    requires StashAt(s, at).Some? && Get(StashAt(s, at).value, "services").Obj? && name in ServicesOf(StashAt(s, at).value)
    ensures var pruned := PrunedStash(StashAt(s, at).value, name, boundary);
            var t := s.(store := PatchEnvironment(s.store, at, map["previousHosting" := pruned]));
            if at != e then StashAt(t, e) == StashAt(s, e)
            else
              var left := ServicesOf(StashAt(s, e).value) - {name};
              && |left| == EntriesLeft(s, e) - 1
              && StashAt(t, e) == if left != map[] || boundary == OwnsProject
                                  then Some(StashAt(s, e).value["services" := Obj(left)]) else None
  {
    var b := s.store.environments[at].bindings;
    var pruned := PrunedStash(StashAt(s, at).value, name, boundary);
    MergedField(b, map["previousHosting" := pruned], "previousHosting");
    OneNameLess(ServicesOf(StashAt(s, at).value), name);
    hide Merge;
  }

  lemma OneNameLess(services: Fields, name: string)
    requires name in services
    ensures |services - {name}| == |services| - 1
  {
    assert (services - {name}).Keys == services.Keys - {name};
    assert |services.Keys| == |services| && |(services - {name}).Keys| == |services - {name}|;
  }

  lemma BoundaryDropsStash(s: State, registry: map<string, Boundary>, a: BoundaryAction, wholeProject: bool, adapter: bool,
                           receipt: Receipt, e: string)
    ensures var t := DestroyBoundary(s, registry, a, wholeProject, adapter, receipt);
            StashAt(t, e) == StashAt(s, e) || (StashAt(t, e).None? && a.environment == e && receipt.Confirmed?)
  {
    if BoundaryDestroyAuthorised(s.store, registry, a, wholeProject) && a.environment == e {
      MergedField(s.store.environments[e].bindings, map["previousHosting" := Null], "previousHosting");
    }
    hide Merge, BoundaryInUse, BoundaryTargets, EntriesIn;
  }

  lemma EnsureKeepsStash(s: State, registry: map<string, Boundary>, at: string, provider: string, receipt: Option<Fields>,
                         e: string)
    requires StringField(StashAt(s, e), "provider").Some?
    ensures StashAt(EnsureHosting(s, registry, at, provider, receipt), e) == StashAt(s, e)
  {
    if at in s.store.environments {
      if SwitchAuthorised(s.store, registry, at, provider) {
        var b := s.store.environments[at].bindings;
        PatchKeepsStash(s, e, at, SwitchPatch(b, registry[ParsedField(b, "provider").value], provider));
      }
      var t := SwitchHosting(s, registry, at, provider);
      assert StashAt(t, e) == StashAt(s, e);
      if receipt.Some? { BindKeepsStash(t, at, provider, receipt.value, e); }
    }
    hide BindProject, PatchEnvironment, SwitchPatch;
  }

  lemma Reserved(extra: Fields, key: string)
    requires extra.Keys * RESERVED == {} && key in RESERVED
    ensures key !in extra
  {
    assert key in extra.Keys ==> key in extra.Keys * RESERVED;
  }

  lemma BindKeepsStash(s: State, at: string, provider: string, receipt: Fields, e: string)
    requires at in s.store.environments
    ensures StashAt(BindProject(s, at, provider, receipt), e) == StashAt(s, e)
  {
    var b := s.store.environments[at].bindings;
    var extra, projectId := ProviderBindings(receipt), BoundProject(b, receipt);
    if extra.Keys * RESERVED == {} && projectId.Some? {
      var patch := ProjectPatch(extra, provider, projectId.value, BoundEnvironment(b, receipt), Created(receipt));
      Reserved(extra, "previousHosting");
      PatchKeepsStash(s, e, at, patch);
    }
    hide PatchEnvironment;
  }

  lemma RetainKeepsStash(s: State, registry: map<string, Boundary>, at: string, provider: string, seen: Inspected,
                         confirm: bool, e: string)
    requires StashAt(s, e).Some?
    ensures StashAt(RetainHosting(s, registry, at, provider, seen, confirm), e) == StashAt(s, e)
  {
    if ImportAuthorised(s.store, registry, at, provider, seen) {
      PatchKeepsStash(s, e, at, map["previousHosting" := Obj(ImportedStash(provider, seen, Collected(seen.services).value))]);
    }
    hide Merge, ImportedStash, Collected;
  }

  /** While a provider is retained, a step leaves the stash alone, or removes one entry that a
      carried-out deletion names, or drops it: with the deletion of the last entry, unless a
      project delete is still due, or with the boundary itself. */
  lemma StepOnStash(s: State, registry: map<string, Boundary>, event: Event, e: string)
    requires StringField(StashAt(s, e), "provider").Some?
    ensures var t := Step(s, registry, event);
            if Deletes(s, registry, event, e) then
              && EntriesLeft(s, e) > 0 && event.action.serviceName in ServicesOf(StashAt(s, e).value)
              && var left := ServicesOf(StashAt(s, e).value) - {event.action.serviceName};
                 && |left| == EntriesLeft(s, e) - 1
                 && StashAt(t, e) == if left != map[] || event.boundary == OwnsProject
                                     then Some(StashAt(s, e).value["services" := Obj(left)]) else None
            else StashAt(t, e) == StashAt(s, e)
                 || (StashAt(t, e).None? && event.BoundaryDestroyed? && event.boundaryAction.environment == e
                     && event.receipt.Confirmed?)
  {
    hide DestroyService, DestroyTask, DestroyPreviousService, DestroyBoundary, EnsureHosting, RetainHosting, Source;
    match event
    case ServiceDestroyed(a, desired, observed, adapter, receipt) =>
      ServiceKeepsStash(s, registry, a, desired, observed, adapter, receipt, e);
    case TaskDestroyed(a, observed, adapter, receipt) => TaskKeepsStore(s, registry, a, observed, adapter, receipt);
    case PreviousServiceDestroyed(a, boundary, adapter, receipt) => DeletionCounts(s, registry, a, boundary, adapter, receipt, e);
    case BoundaryDestroyed(a, wholeProject, adapter, receipt) =>
      BoundaryDropsStash(s, registry, a, wholeProject, adapter, receipt, e);
    case HostingEnsured(at, provider, receipt) => EnsureKeepsStash(s, registry, at, provider, receipt, e);
    case HostingRetained(at, provider, seen, confirm) => RetainKeepsStash(s, registry, at, provider, seen, confirm, e);
  }

  lemma ServiceKeepsStash(s: State, registry: map<string, Boundary>, a: ServiceAction, desired: bool,
                          observed: Option<Observed>, adapter: bool, receipt: Receipt, e: string)
    ensures StashAt(DestroyService(s, registry, a, desired, observed, adapter, receipt), e) == StashAt(s, e)
  {
    if ServiceDestroyAuthorised(s.store, registry, a, desired, observed) {
      PatchKeepsStash(s, e, a.environment,
                      map["services" := Obj(ServicesOf(s.store.environments[a.environment].bindings) - {a.serviceName})]);
    }
    hide PatchEnvironment, ServiceInUse, Targets, Remaining, ByServiceId;
  }

  lemma TaskKeepsStore(s: State, registry: map<string, Boundary>, a: ServiceAction, observed: Option<Observed>,
                       adapter: bool, receipt: Receipt)
    ensures DestroyTask(s, registry, a, observed, adapter, receipt).store == s.store
  {
    hide TaskDestroyAuthorised, ServiceInUse, Targets, Remaining, ByNameOrId;
  }

  /** The stash is there after every prefix of the run. */
  ghost predicate RetainedThroughout(s: State, registry: map<string, Boundary>, events: seq<Event>, e: string) {
    forall i :: 0 <= i <= |events| ==> StashAt(Run(s, registry, events[..i]), e).Some?
  }

  lemma RetainedBefore(s: State, registry: map<string, Boundary>, events: seq<Event>, e: string, n: nat)
    requires n <= |events| && forall i :: 0 <= i <= n ==> StashAt(Run(s, registry, events[..i]), e).Some?
    ensures RetainedThroughout(s, registry, events[..n], e)
  {
    hide StashAt, Run;
    forall i | 0 <= i <= n ensures StashAt(Run(s, registry, events[..n][..i]), e).Some? {
      assert events[..n][..i] == events[..i];
    }
  }

  /** The same retained provider, in its own project and environment, with no new entry. */
  ghost predicate SameProvider(before: Fields, after: Fields) {
    && (forall key :: key != "services" ==> Get(after, key) == Get(before, key))
    && forall n :: n in ServicesOf(after) ==> n in ServicesOf(before) && ServicesOf(after)[n] == ServicesOf(before)[n]
  }

  /** Through any run a retained provider stays the one that is retained until it is dropped;
      and each carried-out deletion takes exactly one of its entries away, and nothing else
      takes any. */
  lemma {:induction false} OneProviderRetained(s: State, registry: map<string, Boundary>, events: seq<Event>, e: string)
    requires StringField(StashAt(s, e), "provider").Some? && RetainedThroughout(s, registry, events, e)
    ensures var t := Run(s, registry, events);
            && StashAt(t, e).Some? && SameProvider(StashAt(s, e).value, StashAt(t, e).value)
            && EntriesLeft(t, e) + Deletions(s, registry, events, e) == EntriesLeft(s, e)
  {
    hide Step, StashAt, Deletes, EntriesLeft;
    assert events[..|events|] == events;
    if events != [] {
      var init, last := events[..|events| - 1], events[|events| - 1];
      RetainedBefore(s, registry, events, e, |init|);
      OneProviderRetained(s, registry, init, e);
      var before := Run(s, registry, init);
      assert Get(StashAt(before, e).value, "provider") == Get(StashAt(s, e).value, "provider");
      StepOnStash(before, registry, last, e);
      OneStepSameProvider(before, registry, last, e);
    }
  }

  lemma OneStepSameProvider(s: State, registry: map<string, Boundary>, event: Event, e: string)
    requires StringField(StashAt(s, e), "provider").Some? && StashAt(Step(s, registry, event), e).Some?
    ensures SameProvider(StashAt(s, e).value, StashAt(Step(s, registry, event), e).value)
    ensures EntriesLeft(s, e) ==
            EntriesLeft(Step(s, registry, event), e) + if Deletes(s, registry, event, e) then 1 else 0
  {
    StepOnStash(s, registry, event, e);
    hide Step, StashAt, Deletes, SameProvider, Get;
    var before := StashAt(s, e).value;
    FewerSameProvider(before, ServicesOf(before));
    if Deletes(s, registry, event, e) { FewerSameProvider(before, ServicesOf(before) - {event.action.serviceName}); }
    hide ServicesOf;
  }

  lemma FewerSameProvider(stash: Fields, left: Fields)
    requires PartOfServices(stash, left)
    ensures SameProvider(stash, stash) && SameProvider(stash, stash["services" := Obj(left)])
    ensures ServicesOf(stash["services" := Obj(left)]) == left
  {
  }

  /** Cleaning up a retained provider service by service takes exactly as many carried-out
      deletions as it has entries: a deletion drops the stash when it is the one after which
      they are that many, unless a project delete is still due; and but for the deletions only
      a confirmed boundary delete drops it. */
  lemma CleanupEndsExactly(s: State, registry: map<string, Boundary>, events: seq<Event>, e: string)
    requires StringField(StashAt(s, e), "provider").Some? && events != []
    requires forall i :: 0 <= i < |events| ==> StashAt(Run(s, registry, events[..i]), e).Some?
    ensures var before, last := Run(s, registry, events[..|events| - 1]), events[|events| - 1];
            if Deletes(before, registry, last, e) then
              StashAt(Run(s, registry, events), e).None? <==>
                last.boundary != OwnsProject && Deletions(s, registry, events, e) == EntriesLeft(s, e)
            else StashAt(Run(s, registry, events), e).None? ==> last.BoundaryDestroyed? && last.receipt.Confirmed?
  {
    hide Step, StashAt, Deletes;
    var init, last := events[..|events| - 1], events[|events| - 1];
    RetainedBefore(s, registry, events, e, |init|);
    OneProviderRetained(s, registry, init, e);
    var before := Run(s, registry, init);
    assert Get(StashAt(before, e).value, "provider") == Get(StashAt(s, e).value, "provider");
    StepOnStash(before, registry, last, e);
    hide RetainedThroughout, SameProvider;
  }
}
