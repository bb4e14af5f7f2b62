/** The search that must come back empty before a whole provider environment or project is
    deleted: does any other local record still use, or possibly use, that boundary? */
module ProviderBoundary {
  import opened Json
  import opened LocalStore

  datatype Target =
    | ProjectBoundary(provider: string, projectId: string)
    | EnvironmentBoundary(provider: string, projectId: string, environmentId: string)

  datatype ScopeState = Exact | Unknown

  datatype Use = Use(environment: string, source: string, scopeState: ScopeState)

  /** None: certainly elsewhere. */
  function MatchingScope(value: Json, target: Target): Option<ScopeState> {
    var scope := Record(value);
    var projectId := StringField(scope, "projectId");
    if projectId.None? then Some(Unknown)
    else if projectId.value != target.projectId then None
    else match target
      case ProjectBoundary(_, _) => Some(Exact)
      case EnvironmentBoundary(_, _, wanted) =>
        var environmentId := StringField(scope, "environmentId");
        if environmentId.None? then Some(Unknown)
        else if environmentId.value == wanted then Some(Exact) else None
  }

  // ------------------------------------------------ service-create recoveries

  datatype Recovery = Recovery(
    provider: string, resourceName: string, providerScope: map<string, string>, serviceId: Option<string>)

  const RECOVERY_KEYS :=
    {"provider", "operation", "resourceName", "providerScope", "state", "serviceId", "returnedName"}

  function Trimmed(v: Json): Option<string> {
    if v.Str? && Trim(v.text) != "" then Some(Trim(v.text)) else None
  }

  /** Absent, or a string that is not blank. */
  predicate OptionalString(m: Fields, key: string) {
    Get(m, key) == Undefined || Trimmed(m[key]).Some?
  }

  /** The strict schema of a recovery marker; anything else is no marker. */
  function ParseRecovery(v: Json): Option<Recovery> {
    if !v.Obj? then None else
      var m := v.fields;
      var provider, resource := Trimmed(Get(m, "provider")), Trimmed(Get(m, "resourceName"));
      var scope := Record(Get(m, "providerScope"));
      var state := Get(m, "state");
      var serviceId, returned := Trimmed(Get(m, "serviceId")), Trimmed(Get(m, "returnedName"));
      if && m.Keys <= RECOVERY_KEYS
         && provider.Some? && resource.Some? && Get(m, "operation") == Str("create")
         && CompleteScope(scope)
         && state in {Str("unresolved"), Str("identified"), Str("mismatched")}
         && OptionalString(m, "serviceId") && OptionalString(m, "returnedName")
         && (state == Str("unresolved") <==> serviceId.None?)
         && (state == Str("identified") ==> returned == resource)
         && (state == Str("mismatched") ==> returned != resource)
      then Some(Recovery(provider.value, resource.value,
                         map k | k in scope.value :: Trim(scope.value[k].text), serviceId))
      else None
  }

  function ScopeJson(scope: map<string, string>): Json {
    Obj(map k | k in scope :: Str(scope[k]))
  }

  // -------------------------------------------------- which records use a target

  /** A recovery recorded under `raw` may still claim something inside the target. */
  function RecoveryState(raw: Json, target: Target): Option<ScopeState> {
    if StringField(Record(raw), "provider") != Some(target.provider) then None
    else
      var recovery := ParseRecovery(raw);
      if recovery.None? then Some(Unknown)
      else MatchingScope(ScopeJson(recovery.value.providerScope), target)
  }

  predicate SourceUses(source: Fields, target: Target) {
    (StringField(Some(source), "provider") == Some(target.provider) && MatchingScope(Obj(source), target).Some?)
    || RecoveriesUse(Get(source, "serviceCreateRecovery"), target)
  }

  predicate RecoveriesUse(raw: Json, target: Target) {
    raw != Undefined
    && (raw.Obj? ==> exists name :: name in raw.fields && RecoveryState(raw.fields[name], target).Some?)
  }

  /** A source that shows this state, and whether in its own scope or in a recovery. */
  predicate SourceShows(source: Fields, target: Target, tag: string, state: ScopeState) {
    var raw := Get(source, "serviceCreateRecovery");
    || (tag == "" && StringField(Some(source), "provider") == Some(target.provider)
        && MatchingScope(Obj(source), target) == Some(state))
    || (tag == " service recovery" && raw != Undefined
        && if raw.Obj? then exists name :: name in raw.fields && RecoveryState(raw.fields[name], target) == Some(state)
           else state == Unknown)
  }

  predicate ComponentUses(bindings: Fields, target: Target) {
    StringField(Some(bindings), "provider") == Some(target.provider)
    && MatchingScope(Get(bindings, "providerScope"), target).Some?
  }

  /** The binding a component keeps from before a provider switch. Both provider names must
      agree before its scope is believed. */
  function PreviousState(bindings: Fields, target: Target): Option<ScopeState> {
    var outer := StringField(Some(bindings), "previousProvider");
    var nested := Record(Get(bindings, "previousBindings"));
    var inner := StringField(nested, "provider");
    if outer != Some(target.provider) && inner != Some(target.provider) then None
    else if outer == Some(target.provider) && inner == Some(target.provider)
      then MatchingScope(Get(nested.value, "providerScope"), target)
    else Some(Unknown)
  }

  predicate ComponentShows(c: Component, target: Target, tag: string, state: ScopeState) {
    || (tag == c.kind + " component" && StringField(Some(c.bindings), "provider") == Some(target.provider)
        && MatchingScope(Get(c.bindings, "providerScope"), target) == Some(state))
    || (tag == "previous " + c.kind + " component" && PreviousState(c.bindings, target) == Some(state))
  }

  const RETAINED_SLOTS := ["previousDatabase", "previousCache", "previousResource"]
  const SLOT_LABELS := ["previous database", "previous cache", "previous provider resource"]

  predicate SlotUses(bindings: Fields, slot: string, target: Target) {
    var retained := Record(Get(bindings, slot));
    StringField(retained, "provider") == Some(target.provider)
    && MatchingScope(Get(retained.value, "providerScope"), target).Some?
  }

  /** Some record of one environment other than the excluded stash uses, or may use, the target. */
  predicate EnvironmentUses(s: Store, e: string, target: Target, excluded: string)
    requires e in s.environments
  {
    var b := s.environments[e].bindings;
    var previous := Record(Get(b, "previousHosting"));
    || SourceUses(b, target)
    || (e != excluded && previous.Some? && SourceUses(previous.value, target))
    || (exists c :: c in ComponentsOf(s, e) && (ComponentUses(s.components[c].bindings, target)
                                               || PreviousState(s.components[c].bindings, target).Some?))
    || (exists i :: 0 <= i < |RETAINED_SLOTS| && SlotUses(b, RETAINED_SLOTS[i], target))
  }

  /** A record of the environment that a find names, and the state in which it uses the target. */
  predicate EnvironmentShows(s: Store, e: string, target: Target, excluded: string, tag: string, state: ScopeState)
    requires e in s.environments
  {
    var b := s.environments[e].bindings;
    var previous := Record(Get(b, "previousHosting"));
    || (exists suffix :: suffix in {"", " service recovery"} && tag == "current hosting" + suffix
                         && SourceShows(b, target, suffix, state))
    || (e != excluded && previous.Some?
        && exists suffix :: suffix in {"", " service recovery"} && tag == "previous hosting" + suffix
                            && SourceShows(previous.value, target, suffix, state))
    || (exists c :: c in ComponentsOf(s, e) && ComponentShows(s.components[c], target, tag, state))
    || (exists i :: 0 <= i < |RETAINED_SLOTS| && tag == SLOT_LABELS[i] && SlotUses(b, RETAINED_SLOTS[i], target)
                    && MatchingScope(Get(Record(Get(b, RETAINED_SLOTS[i])).value, "providerScope"), target) == Some(state))
  }

  predicate BoundaryInUse(s: Store, target: Target, excluded: string) {
    exists e :: e in s.environments && EnvironmentUses(s, e, target, excluded)
  }

  // ------------------------------------------------- what an empty search means

  /** A scope that certainly lies outside: it names another project, or, where only one
      environment is to go, the same project and another environment. */
  predicate Outside(scope: Json, target: Target) {
    var fields := Record(scope);
    var projectId, environmentId := StringField(fields, "projectId"), StringField(fields, "environmentId");
    && projectId.Some?
    && (|| projectId.value != target.projectId
        || (target.EnvironmentBoundary? && environmentId.Some? && environmentId.value != target.environmentId))
  }

  /** A hosting source: its own scope if it is the provider's, and that of each of its recoveries. */
  predicate SourceIsOutside(source: Fields, target: Target) {
    var recoveries := Get(source, "serviceCreateRecovery");
    && (StringField(Some(source), "provider") == Some(target.provider) ==> Outside(Obj(source), target))
    && (recoveries == Undefined
        || (recoveries.Obj?
            && forall name :: name in recoveries.fields
                              && StringField(Record(recoveries.fields[name]), "provider") == Some(target.provider) ==>
                 var recovery := ParseRecovery(recoveries.fields[name]);
                 recovery.Some? && Outside(ScopeJson(recovery.value.providerScope), target)))
  }

  /** A component: its binding if it is the provider's; and the binding it keeps from before a
      switch, if that is the provider's by both accounts of it. */
  predicate ComponentIsOutside(b: Fields, target: Target) {
    var nested := Record(Get(b, "previousBindings"));
    var outer, inner := StringField(Some(b), "previousProvider"), StringField(nested, "provider");
    && (StringField(Some(b), "provider") == Some(target.provider) ==> Outside(Get(b, "providerScope"), target))
    && (Some(target.provider) in {outer, inner} ==>
          outer == inner && nested.Some? && Outside(Get(nested.value, "providerScope"), target))
  }

  predicate SlotIsOutside(b: Fields, slot: string, target: Target) {
    var retained := Record(Get(b, slot));
    retained.Some? && StringField(retained, "provider") == Some(target.provider) ==> Outside(Get(retained.value, "providerScope"), target)
  }

  /** Everything in the store but the excluded stash lies outside the boundary. */
  ghost predicate AllOutside(s: Store, target: Target, excluded: string) {
    && (forall e :: e in s.environments ==>
          var b := s.environments[e].bindings;
          && SourceIsOutside(b, target)
          && (e != excluded && Get(b, "previousHosting").Obj? ==> SourceIsOutside(Get(b, "previousHosting").fields, target))
          && SlotIsOutside(b, "previousDatabase", target) && SlotIsOutside(b, "previousCache", target)
          && SlotIsOutside(b, "previousResource", target))
    && (forall c :: c in s.components && s.components[c].environmentId in s.environments ==>
          ComponentIsOutside(s.components[c].bindings, target))
  }

  /** A scope that is certainly the boundary's own. */
  predicate Within(scope: Json, target: Target) {
    var fields := Record(scope);
    && StringField(fields, "projectId") == Some(target.projectId)
    && (target.EnvironmentBoundary? ==> StringField(fields, "environmentId") == Some(target.environmentId))
  }

  lemma OutsideMeans(scope: Json, target: Target)
    ensures MatchingScope(scope, target).None? <==> Outside(scope, target)
    ensures MatchingScope(scope, target) == Some(Exact) <==> Within(scope, target)
  {
  }

  lemma SourceMeans(source: Fields, target: Target)
    ensures SourceUses(source, target) <==> !SourceIsOutside(source, target)
  {
    hide ParseRecovery, NonEmptyString, ScopeJson;
    OutsideMeans(Obj(source), target);
    var raw := Get(source, "serviceCreateRecovery");
    if raw.Obj? {
      forall name | name in raw.fields
        ensures RecoveryState(raw.fields[name], target).None? <==>
                  (StringField(Record(raw.fields[name]), "provider") == Some(target.provider) ==>
                     var recovery := ParseRecovery(raw.fields[name]);
                     recovery.Some? && Outside(ScopeJson(recovery.value.providerScope), target))
      {
        var recovery := ParseRecovery(raw.fields[name]);
        if recovery.Some? { OutsideMeans(ScopeJson(recovery.value.providerScope), target); }
      }
    }
    hide MatchingScope, Outside, Within, RecoveryState;
  }

  lemma ComponentMeans(b: Fields, target: Target)
    ensures ComponentUses(b, target) || PreviousState(b, target).Some? <==> !ComponentIsOutside(b, target)
    ensures var nested := Record(Get(b, "previousBindings"));
            PreviousState(b, target) == Some(Exact) <==>
              && StringField(Some(b), "previousProvider") == Some(target.provider)
              && StringField(nested, "provider") == Some(target.provider) && Within(Get(nested.value, "providerScope"), target)
  {
    OutsideMeans(Get(b, "providerScope"), target);
    var nested := Record(Get(b, "previousBindings"));
    if nested.Some? { OutsideMeans(Get(nested.value, "providerScope"), target); }
    hide MatchingScope, Outside, Within, NonEmptyString;
  }

  lemma SlotMeans(b: Fields, slot: string, target: Target)
    ensures SlotUses(b, slot, target) <==> !SlotIsOutside(b, slot, target)
  {
    var retained := Record(Get(b, slot));
    if retained.Some? { OutsideMeans(Get(retained.value, "providerScope"), target); }
    hide MatchingScope, Outside, Within, NonEmptyString;
  }

  lemma EnvironmentMeans(s: Store, e: string, target: Target, excluded: string)
    requires e in s.environments
    ensures var b := s.environments[e].bindings;
            !EnvironmentUses(s, e, target, excluded) <==>
              && SourceIsOutside(b, target)
              && (e != excluded && Get(b, "previousHosting").Obj? ==> SourceIsOutside(Get(b, "previousHosting").fields, target))
              && SlotIsOutside(b, "previousDatabase", target) && SlotIsOutside(b, "previousCache", target)
              && SlotIsOutside(b, "previousResource", target)
              && forall c :: c in s.components && s.components[c].environmentId == e ==> ComponentIsOutside(s.components[c].bindings, target)
  {
    var b := s.environments[e].bindings;
    SourceMeans(b, target);
    if Get(b, "previousHosting").Obj? { SourceMeans(Get(b, "previousHosting").fields, target); }
    forall i | 0 <= i < |RETAINED_SLOTS| ensures SlotUses(b, RETAINED_SLOTS[i], target) <==> !SlotIsOutside(b, RETAINED_SLOTS[i], target) {
      SlotMeans(b, RETAINED_SLOTS[i], target);
    }
    assert RETAINED_SLOTS[0] == "previousDatabase" && RETAINED_SLOTS[1] == "previousCache" && RETAINED_SLOTS[2] == "previousResource";
    forall c | c in ComponentsOf(s, e)
      ensures ComponentUses(s.components[c].bindings, target) || PreviousState(s.components[c].bindings, target).Some? <==>
                !ComponentIsOutside(s.components[c].bindings, target)
    {
      ComponentMeans(s.components[c].bindings, target);
    }
    hide SourceUses, SourceIsOutside, SlotUses, SlotIsOutside, ComponentUses, PreviousState, ComponentIsOutside;
  }

  lemma UnusedMeansOutside(s: Store, target: Target, excluded: string)
    ensures !BoundaryInUse(s, target, excluded) <==> AllOutside(s, target, excluded)
  {
    forall e | e in s.environments
      ensures var b := s.environments[e].bindings;
              !EnvironmentUses(s, e, target, excluded) <==>
                && SourceIsOutside(b, target)
                && (e != excluded && Get(b, "previousHosting").Obj? ==> SourceIsOutside(Get(b, "previousHosting").fields, target))
                && SlotIsOutside(b, "previousDatabase", target) && SlotIsOutside(b, "previousCache", target)
                && SlotIsOutside(b, "previousResource", target)
                && forall c :: c in s.components && s.components[c].environmentId == e ==> ComponentIsOutside(s.components[c].bindings, target)
    {
      EnvironmentMeans(s, e, target, excluded);
    }
    hide EnvironmentUses, SourceIsOutside, SlotIsOutside, ComponentIsOutside;
  }

  // ------------------------------------------------------------- the search

  method SearchSource(source: Fields, target: Target) returns (found: Option<(string, ScopeState)>)
    ensures found.Some? <==> SourceUses(source, target)
    ensures found.Some? ==> SourceShows(source, target, found.value.0, found.value.1)
    ensures found.Some? ==> found.value.0 in {"", " service recovery"}
  {
    if StringField(Some(source), "provider") == Some(target.provider) {
      var state := MatchingScope(Obj(source), target);
      if state.Some? {
        return Some(("", state.value));
      }
    }
    var raw := Get(source, "serviceCreateRecovery");
    if raw == Undefined {
      return None;
    }
    if !raw.Obj? {
      return Some((" service recovery", Unknown));
    }
    var names := raw.fields.Keys;
    while names != {}
      invariant names <= raw.fields.Keys
      invariant forall n :: n in raw.fields && n !in names ==> RecoveryState(raw.fields[n], target).None?
      decreases |names|
    {
      var name :| name in names;
      names := names - {name};
      var state := RecoveryState(raw.fields[name], target);
      if state.Some? {
        return Some((" service recovery", state.value));
      }
    }
    return None;
  }

  method SearchComponents(s: Store, e: string, target: Target) returns (found: Option<(string, ScopeState)>)
    requires e in s.environments
    ensures found.Some? <==>
              exists c :: c in ComponentsOf(s, e) && (ComponentUses(s.components[c].bindings, target)
                                                     || PreviousState(s.components[c].bindings, target).Some?)
    ensures found.Some? ==>
              exists c :: c in ComponentsOf(s, e) && ComponentShows(s.components[c], target, found.value.0, found.value.1)
  {
    var ids := ComponentsOf(s, e);
    while ids != {}
      invariant ids <= ComponentsOf(s, e)
      invariant forall c :: c in ComponentsOf(s, e) && c !in ids ==>
                  !ComponentUses(s.components[c].bindings, target)
                  && PreviousState(s.components[c].bindings, target).None?
      decreases |ids|
    {
      var c :| c in ids;
      ids := ids - {c};
      var component := s.components[c];
      if StringField(Some(component.bindings), "provider") == Some(target.provider) {
        var state := MatchingScope(Get(component.bindings, "providerScope"), target);
        if state.Some? {
          return Some((component.kind + " component", state.value));
        }
      }
      var previous := PreviousState(component.bindings, target);
      if previous.Some? {
        return Some(("previous " + component.kind + " component", previous.value));
      }
    }
    return None;
  }

  method SearchEnvironment(s: Store, e: string, target: Target, excluded: string) returns (use: Option<Use>)
    requires e in s.environments
    ensures use.Some? <==> EnvironmentUses(s, e, target, excluded)
    ensures use.Some? ==> use.value.environment == e
                          && EnvironmentShows(s, e, target, excluded, use.value.source, use.value.scopeState)
  {
    var b := s.environments[e].bindings;
    var current := SearchSource(b, target);
    if current.Some? {
      return Some(Use(e, "current hosting" + current.value.0, current.value.1));
    }
    var stash := Record(Get(b, "previousHosting"));
    if stash.Some? && e != excluded {
      var previous := SearchSource(stash.value, target);
      if previous.Some? {
        return Some(Use(e, "previous hosting" + previous.value.0, previous.value.1));
      }
    }
    var component := SearchComponents(s, e, target);
    if component.Some? {
      return Some(Use(e, component.value.0, component.value.1));
    }
    for i := 0 to |RETAINED_SLOTS|
      invariant forall j :: 0 <= j < i ==> !SlotUses(b, RETAINED_SLOTS[j], target)
    {
      var retained := Record(Get(b, RETAINED_SLOTS[i]));
      if StringField(retained, "provider") == Some(target.provider) {
        var state := MatchingScope(Get(retained.value, "providerScope"), target);
        if state.Some? {
          return Some(Use(e, SLOT_LABELS[i], state.value));
        }
      }
    }
    return None;
  }

  /** Finds nothing exactly when everything else in the whole store lies outside the boundary. */
  method FindLocalProviderBoundaryUse(s: Store, target: Target, excluded: string) returns (use: Option<Use>)
    requires ForeignKeys(s)
    ensures use.None? <==> AllOutside(s, target, excluded)
    ensures use.None? <==> !BoundaryInUse(s, target, excluded)
    ensures use.Some? ==> use.value.environment in s.environments
                          && EnvironmentUses(s, use.value.environment, target, excluded)
                          && EnvironmentShows(s, use.value.environment, target, excluded, use.value.source,
                                              use.value.scopeState)
  {
    UnusedMeansOutside(s, target, excluded);
    hide AllOutside;
    var projects := s.projects.Keys;
    while projects != {}
      invariant projects <= s.projects.Keys
      invariant forall e :: e in s.environments && s.environments[e].projectId !in projects ==>
                  !EnvironmentUses(s, e, target, excluded)
      decreases |projects|
    {
      var project :| project in projects;
      projects := projects - {project};
      var environments := EnvironmentsOf(s, project);
      while environments != {}
        invariant environments <= EnvironmentsOf(s, project)
        invariant forall e :: e in EnvironmentsOf(s, project) && e !in environments ==>
                    !EnvironmentUses(s, e, target, excluded)
        decreases |environments|
      {
        var e :| e in environments;
        environments := environments - {e};
        use := SearchEnvironment(s, e, target, excluded);
        if use.Some? {
          return;
        }
      }
    }
    use := None;
  }
}
