/** Round trips of provider switches, unresolved creates, stable identities, and retained
    cleanup. */
module DatastoreSafety {
  import opened Json
  import opened DatastoreSteps

  // --------------------------------------------------------- round trips

  /** A failed switch that left an identity, cleaned up by an ordinary destroy: the old
      binding is back, with its effective id, exactly when it had an id and a scope. */
  lemma FailedSwitchRoundTrip(kind: Kind, provider: string, made: Made, was: Row, required: set<string>,
                              a: Destruction)
    requires Switches(Some(was), provider) && made.externalId.Some?
    requires RetainFailed(kind, provider, made, Some(was), required).Some? && a.provider == provider
    requires DestroyTarget(RetainFailed(kind, provider, made, Some(was), required).value, a).Some?
    ensures var failed := RetainFailed(kind, provider, made, Some(was), required).value;
            && (AfterDestroy(failed, a) == Some(Row(EffectiveId(was), was.bindings)) <==>
                  EffectiveId(was).Some? && was.bindings.scope.Some? && was.bindings.scope != Some(map[]))
            && EffectiveId(Row(EffectiveId(was), was.bindings)) == EffectiveId(was)
            && DestroyTarget(failed, a).value == Target(provider, made.externalId.value, made.bindings.scope.value)
  {
    var failed := RetainFailed(kind, provider, made, Some(was), required).value;
    hide CompleteFor, Textual;
    assert failed.bindings.provider == Some(provider);
    assert PreviousId(failed.bindings) == EffectiveId(was);
    assert was.bindings != failed.bindings by { assert was.bindings.provider != failed.bindings.provider; }
  }

  /** A failed switch that left only a marker: retained cleanup of that very create restores
      the old binding and empties the slot. It is authorised exactly when the target is bound
      nowhere and the old binding is complete. */
  lemma MarkerRoundTrip(s: Store, key: Key, provider: string, made: Made, was: Row, required: set<string>,
                        slot: Slot, c: Cleanup)
    requires Switches(Some(was), provider) && made.externalId.None?
    requires RetainFailed(key.kind, provider, made, Some(was), required).Some?
    requires RowAt(s, key) == RetainFailed(key.kind, provider, made, Some(was), required)
    requires ResourceMarker(made.bindings, key.kind) == Some(UnresolvedResource(key.kind, slot.name, slot.scope))
    requires slot.provider == provider && key in s.slots && s.slots[key] == slot && CompleteScope(Some(slot.scope))
    requires c.adapter && SeenAsRetained(key.kind, slot, c.before) && c.confirmed && c.after.Absent?
    ensures CleanupAuthorised(s, key, slot) <==>
              !BoundSomewhere(s, key.kind, provider, slot.externalId) && EffectiveId(was).Some? && CompleteScope(was.bindings.scope)
              && (key.kind.Cache? ==>
                    var nested := OrElse(was.bindings.instanceId, was.bindings.serviceId);
                    nested.Some? ==> nested == EffectiveId(was))
    ensures CleanupAuthorised(s, key, slot) ==>
              var t := DestroyRetained(s, key, slot, c).store;
              RowAt(t, key) == Some(Row(EffectiveId(was), was.bindings)) && key !in t.slots
  {
    hide CompleteScope, BoundSomewhere;
    var b := s.rows[key].bindings;
    assert PreviousId(b) == EffectiveId(was);
    assert Matches(s.rows[key], key.kind, slot);
    assert PreviousComplete(b, key.kind) <==>
           EffectiveId(was).Some? && CompleteScope(was.bindings.scope)
           && (key.kind.Cache? ==> var nested := OrElse(was.bindings.instanceId, was.bindings.serviceId);
                                   nested.Some? ==> nested == EffectiveId(was));
  }

  /** A successful switch, then removal of the previous provider's resource: the old one is
      asked for, never the new one, and the new binding stays, without any previous field. */
  lemma SuccessfulSwitchKeepsOnlyNew(provider: string, made: Made, was: Row, a: Destruction)
    requires Switches(Some(was), provider) && made.bindings.provider == Some(provider)
    requires a.provider != provider && DestroyTarget(Recorded(provider, made, Some(was)), a).Some?
    ensures var r := Recorded(provider, made, Some(was));
            && AfterDestroy(r, a) == Some(Row(OrElse(made.externalId, was.externalId), WithoutPrevious(Unflagged(made.bindings))))
            && was.bindings.scope.Some? && EffectiveId(was).Some?
            && DestroyTarget(r, a).value == Target(was.bindings.provider.value, EffectiveId(was).value, was.bindings.scope.value)
            && DestroyTarget(r, a).value.provider != provider
  {
    var r := Recorded(provider, made, Some(was));
    assert PreviousId(r.bindings) == EffectiveId(was);
  }

  /** The new binding goes by the identity the provider returned exactly when that includes
      an external id, or the old binding had none to keep. */
  lemma SwitchIdentityExactly(provider: string, made: Made, was: Row)
    ensures EffectiveId(Recorded(provider, made, Some(was)))
              == OrElse(made.externalId, OrElse(made.bindings.instanceId, made.bindings.serviceId))
       <==> made.externalId.Some? || was.externalId.None?
            || was.externalId == OrElse(made.bindings.instanceId, made.bindings.serviceId)
  {
  }

  /** A destroy of the current provider's resource forgets a stashed previous one, unless the
      current one is incomplete. */
  lemma StashForgottenExactly(r: Row, a: Destruction)
    requires DestroyTarget(r, a).Some? && r.bindings.provider == Some(a.provider)
    requires r.bindings.previousProvider.Some? && r.bindings.previous.Some?
    ensures AfterDestroy(r, a).None? <==> !r.bindings.provisioning
  {
  }

  /** Whatever a failed provision leaves in the store can be found again: an identity by the
      ordinary destroy of exactly that id and scope, a marker by cleanup of its exact name
      and scope, and by nothing else. */
  lemma RetainedCanBeCleanedUp(kind: Kind, provider: string, made: Made, existing: Option<Row>, required: set<string>)
    requires RetainFailed(kind, provider, made, existing, required).Some?
    ensures var r := RetainFailed(kind, provider, made, existing, required).value;
            if made.externalId.Some? then
              DestroyTarget(r, Destruction(provider, made.externalId, made.bindings.scope, true))
                == Some(Target(provider, made.externalId.value, made.bindings.scope.value))
            else
              && (ResourceMarker(made.bindings, kind).Some? ==>
                    var m := ResourceMarker(made.bindings, kind).value;
                    forall slot: Slot ::
                      Matches(r, kind, slot) <==> slot.provider == provider && slot.name == m.name && slot.scope == m.scope)
              && (ResourceMarker(made.bindings, kind).None? ==>
                    kind.Cache? && NetworkMarker(made.bindings).Some? && NetworkMarker(r.bindings) == NetworkMarker(made.bindings))
  {
    var r := RetainFailed(kind, provider, made, existing, required).value;
    assert r.bindings.provider == Some(provider) && r.bindings.scope == made.bindings.scope;
    if made.externalId.Some? {
      CompleteIsTextual(made.bindings.scope);
    }
  }

  lemma CompleteIsTextual(scope: Option<Scope>)
    requires CompleteScope(scope)
    ensures Textual(scope)
  {
    forall k | k in scope.value ensures scope.value[k].Str? && scope.value[k].text != "" {
      assert Blank("");
    }
  }

  // --------------------------------------------------- unresolved creates

  /** A create that is recorded without any id of its own. */
  predicate Marked(r: Row, kind: Kind, m: Unresolved) {
    && ResourceMarker(r.bindings, kind) == Some(m) && EffectiveId(r).None? && r.bindings.provider.Some?
    && r.bindings.scope == Some(m.scope)
  }

  /** No other create is issued for it, and no ordinary destroy of it is authorised. */
  lemma MarkedIsLeftAlone(s: Store, key: Key, m: Unresolved, provider: string, planned: Option<Unresolved>,
                          answer: Option<(bool, Made)>, required: set<string>, a: Destruction)
    requires key in s.rows && Marked(s.rows[key], key.kind, m)
    ensures !MayCreate(s, key, planned) && Create(s, key, provider, planned, answer, required) == s
    ensures s.rows[key].bindings.provider == Some(a.provider) ==> DestroyTarget(s.rows[key], a).None?
  {
  }

  /** The one step that may remove a marker: cleanup of a slot with its exact name and scope,
      after the provider showed the target absent. */
  predicate Resolves(s: Store, e: Event, key: Key, m: Unresolved) {
    && e.CleanedUp? && e.key == key && key in s.slots && key in s.rows
    && s.slots[key].name == m.name && s.slots[key].scope == m.scope && s.rows[key].bindings.provider == Some(s.slots[key].provider)
    && e.cleanup.confirmed && e.cleanup.after.Absent?
  }

  lemma MarkedNotDestroyed(s: Store, key: Key, m: Unresolved, a: Destruction, adapter: bool, confirmed: bool)
    requires key in s.rows && Marked(s.rows[key], key.kind, m)
    ensures var t := Destroy(s, key, a, adapter, confirmed).store; key in t.rows && Marked(t.rows[key], key.kind, m)
  {
    hide Textual;
  }

  lemma MarkedNotCleared(s: Store, key: Key, m: Unresolved, slot: Slot, c: Cleanup)
    requires key in s.rows && Marked(s.rows[key], key.kind, m) && !Resolves(s, CleanedUp(key, slot, c), key, m)
    ensures var t := DestroyRetained(s, key, slot, c).store; key in t.rows && Marked(t.rows[key], key.kind, m)
  {
    hide SeenAsRetained, CompleteScope, BoundSomewhere, PreviousComplete;
  }

  lemma CreateElsewhere(s: Store, k: Key, provider: string, planned: Option<Unresolved>, answer: Option<(bool, Made)>,
                        required: set<string>, key: Key)
    requires k != key
    ensures RowAt(Create(s, k, provider, planned, answer, required), key) == RowAt(s, key)
  {
    hide Recorded, RetainFailed, MayCreate;
  }

  lemma MarkerStepKept(s: Store, e: Event, key: Key, m: Unresolved)
    requires key in s.rows && Marked(s.rows[key], key.kind, m) && !Resolves(s, e, key, m)
    ensures key in Step(s, e).rows && Marked(Step(s, e).rows[key], key.kind, m)
  {
    match e
    case Created(k, provider, planned, answer, required) =>
      if k == key {
        MarkedIsLeftAlone(s, key, m, provider, planned, answer, required, Destruction("", None, None, false));
      } else {
        CreateElsewhere(s, k, provider, planned, answer, required, key);
      }
      hide Create, Marked;
    case Destroyed(k, a, adapter, confirmed) =>
      MarkedNotDestroyed(s, key, m, a, adapter, confirmed);
      hide DestroyTarget, AfterDestroy, Marked;
    case Imported(k, seen, required, confirm) => hide ScopeImportable, BoundSomewhere, Marked;
    case CleanedUp(k, slot, c) =>
      if k == key {
        MarkedNotCleared(s, key, m, slot, c);
        hide DestroyRetained, Marked;
      } else {
        hide CleanupAuthorised, SeenAsRetained, Matches, Marked;
      }
    case ReplicaChanged(environment, provider, primary, name, reviewed, change) => hide Projection;
    case Migrated(environment, provider, candidate) =>
  }

  ghost predicate NeverResolved(s: Store, events: seq<Event>, key: Key, m: Unresolved) {
    forall i :: 0 <= i < |events| ==> !Resolves(Run(s, events[..i]), events[i], key, m)
  }

  /** Over any run without such a cleanup the marker stays, so nothing is created twice. */
  lemma {:induction false} MarkerSurvivesRuns(s: Store, events: seq<Event>, key: Key, m: Unresolved)
    requires key in s.rows && Marked(s.rows[key], key.kind, m) && NeverResolved(s, events, key, m)
    ensures key in Run(s, events).rows && Marked(Run(s, events).rows[key], key.kind, m)
  {
    hide Step, Resolves;
    if events != [] {
      var init := events[..|events| - 1];
      assert NeverResolved(s, init, key, m) by {
        forall i | 0 <= i < |init| ensures !Resolves(Run(s, init[..i]), init[i], key, m) { assert init[..i] == events[..i]; }
      }
      MarkerSurvivesRuns(s, init, key, m);
      MarkerStepKept(Run(s, init), events[|events| - 1], key, m);
    }
  }

  /** A cache whose private network was asked for, with an unknown outcome. */
  predicate NetworkMarked(r: Row, m: Unresolved) {
    && NetworkMarker(r.bindings) == Some(m) && ResourceMarker(r.bindings, Cache).None? && EffectiveId(r).None?
    && r.bindings.provider.Some?
  }

  /** A create that was planned with this very marker, and that the provider answered. */
  predicate Retries(e: Event, key: Key, m: Unresolved) {
    e.Created? && e.key == key && e.planned == Some(m) && e.answer.Some?
  }

  lemma NetworkMarkerStepKept(s: Store, e: Event, key: Key, m: Unresolved)
    requires key.kind.Cache? && key in s.rows && NetworkMarked(s.rows[key], m) && !Retries(e, key, m)
    ensures key in Step(s, e).rows && NetworkMarked(Step(s, e).rows[key], m)
  {
    match e
    case Created(k, provider, planned, answer, required) => hide Recorded, RetainFailed;
    case Destroyed(k, a, adapter, confirmed) => hide Textual, Restorable;
    case Imported(k, seen, required, confirm) => hide ScopeImportable, BoundSomewhere;
    case CleanedUp(k, slot, c) => hide CleanupAuthorised, SeenAsRetained;
    case ReplicaChanged(environment, provider, primary, name, reviewed, change) => hide Projection;
    case Migrated(environment, provider, candidate) =>
  }

  /** Over any run the marker stays until a create planned with that very marker is answered,
      and until then no create planned otherwise is issued: no second network is made. */
  lemma {:induction false} NetworkMarkerSurvivesRuns(s: Store, events: seq<Event>, key: Key, m: Unresolved)
    requires key.kind.Cache? && key in s.rows && NetworkMarked(s.rows[key], m)
    requires forall i :: 0 <= i < |events| ==> !Retries(events[i], key, m)
    ensures key in Run(s, events).rows && NetworkMarked(Run(s, events).rows[key], m)
    ensures forall planned :: MayCreate(Run(s, events), key, planned) <==> planned == Some(m)
  {
    hide Step, Retries;
    if events != [] {
      NetworkMarkerSurvivesRuns(s, events[..|events| - 1], key, m);
      NetworkMarkerStepKept(Run(s, events[..|events| - 1]), events[|events| - 1], key, m);
    }
  }

  // ---------------------------------------------------- cache identities

  /** A failed provision of the bound cache leaves its provider, id and scope as they are. */
  lemma FailedProvisionKeepsCache(provider: string, made: Made, was: Row, required: set<string>)
    requires was.bindings.provider == Some(provider) && EffectiveId(was).Some?
    requires RetainFailed(Cache, provider, made, Some(was), required).Some?
    ensures var r := RetainFailed(Cache, provider, made, Some(was), required).value;
            && r.bindings.provider == was.bindings.provider && EffectiveId(r) == EffectiveId(was)
            && r.bindings.scope == was.bindings.scope && r.bindings.reconciling && !r.bindings.provisioning
  {
    hide CompleteFor;
  }

  datatype Identity = Identity(provider: Option<string>, id: Option<string>, scope: Option<Scope>)

  function IdentityOf(r: Row): Identity { Identity(r.bindings.provider, EffectiveId(r), r.bindings.scope) }

  predicate FailsOn(e: Event, key: Key, provider: string) {
    e.Created? && e.key == key && e.provider == provider && (e.answer.Some? ==> !e.answer.value.0)
  }

  /** So does any number of them. */
  lemma {:induction false} FailuresKeepCache(s: Store, events: seq<Event>, key: Key, provider: string)
    requires key.kind.Cache? && key in s.rows && s.rows[key].bindings.provider == Some(provider) && EffectiveId(s.rows[key]).Some?
    requires forall i :: 0 <= i < |events| ==> FailsOn(events[i], key, provider)
    ensures key in Run(s, events).rows && IdentityOf(Run(s, events).rows[key]) == IdentityOf(s.rows[key])
  {
    if events != [] {
      var init, e := events[..|events| - 1], events[|events| - 1];
      FailuresKeepCache(s, init, key, provider);
      assert FailsOn(e, key, provider);
      FailureKeepsCache(Run(s, init), e, key, provider);
      hide Step, EffectiveId;
    }
  }

  lemma FailureKeepsCache(s: Store, e: Event, key: Key, provider: string)
    requires key.kind.Cache? && key in s.rows && s.rows[key].bindings.provider == Some(provider) && EffectiveId(s.rows[key]).Some?
    requires FailsOn(e, key, provider)
    ensures key in Step(s, e).rows && IdentityOf(Step(s, e).rows[key]) == IdentityOf(s.rows[key])
  {
    if e.answer.Some? && RetainFailed(Cache, provider, e.answer.value.1, Some(s.rows[key]), e.required).Some? {
      FailedProvisionKeepsCache(provider, e.answer.value.1, s.rows[key], e.required);
    }
    hide RetainFailed, MayCreate, Recorded, EffectiveId;
  }

  /** The guard is for caches only: a failed provision that reports another id renames the bound
      database, while for a cache the same answer leaves the binding alone. */
  lemma FailedProvisionMovesDatabase(provider: string, made: Made, was: Row, required: set<string>)
    requires Durable(Database, provider, made, required) && made.externalId.Some? && was.bindings.provider == Some(provider)
    requires EffectiveId(was) != made.externalId
    ensures RetainFailed(Database, provider, made, Some(was), required).Some?
    ensures EffectiveId(RetainFailed(Database, provider, made, Some(was), required).value) != EffectiveId(was)
    ensures RetainFailed(Cache, provider, made, Some(was), required).None?
  {
    hide CompleteFor;
  }

  // ------------------------------------------------------------- the flags

  /** At no depth are both flags set. */
  predicate OneFlag(b: Bindings) {
    !(b.provisioning && b.reconciling) && (b.previous.Some? ==> OneFlag(b.previous.value))
  }

  ghost predicate AllOneFlag(s: Store) { forall key :: key in s.rows ==> OneFlag(s.rows[key].bindings) }

  /** A provider hands out no stash of an earlier provider; nor is a migrated one half made. */
  predicate PlainAnswer(e: Event) {
    && (e.Created? && e.answer.Some? ==> e.answer.value.1.bindings.previous.None?)
    && (e.Migrated? ==> OneFlag(e.candidate.bindings))
  }

  lemma RetainFailedOneFlag(kind: Kind, provider: string, made: Made, existing: Option<Row>, required: set<string>)
    requires made.bindings.previous.None? && (existing.Some? ==> OneFlag(existing.value.bindings))
    ensures var r := RetainFailed(kind, provider, made, existing, required); r.Some? ==> OneFlag(r.value.bindings)
  {
    hide Durable, Retainable, InPlace;
  }

  lemma RecordedOneFlag(provider: string, made: Made, existing: Option<Row>)
    requires made.bindings.previous.None? && (existing.Some? ==> OneFlag(existing.value.bindings))
    ensures OneFlag(Recorded(provider, made, existing).bindings)
  {
  }

  lemma CreatedOneFlag(s: Store, key: Key, provider: string, planned: Option<Unresolved>,
                       answer: Option<(bool, Made)>, required: set<string>)
    requires AllOneFlag(s) && (answer.Some? ==> answer.value.1.bindings.previous.None?)
    ensures AllOneFlag(Create(s, key, provider, planned, answer, required))
  {
    if answer.Some? {
      RetainFailedOneFlag(key.kind, provider, answer.value.1, RowAt(s, key), required);
      RecordedOneFlag(provider, answer.value.1, RowAt(s, key));
    }
    hide RetainFailed, MayCreate, Recorded, OneFlag;
  }

  lemma DestroyedOneFlag(s: Store, key: Key, a: Destruction, adapter: bool, confirmed: bool)
    requires AllOneFlag(s)
    ensures AllOneFlag(Destroy(s, key, a, adapter, confirmed).store)
  {
    if key in s.rows {
      var after := AfterDestroy(s.rows[key], a);
      assert after.Some? ==> OneFlag(after.value.bindings);
    }
    hide DestroyTarget, AfterDestroy, OneFlag;
  }

  lemma CleanedUpOneFlag(s: Store, key: Key, slot: Slot, c: Cleanup)
    requires AllOneFlag(s)
    ensures AllOneFlag(DestroyRetained(s, key, slot, c).store)
  {
    if key in s.rows && s.rows[key].bindings.previous.Some? {
      assert OneFlag(s.rows[key].bindings.previous.value);
    }
    hide CleanupAuthorised, Matches, SeenAsRetained, OneFlag;
  }

  lemma FlagStep(s: Store, e: Event)
    requires AllOneFlag(s) && PlainAnswer(e)
    ensures AllOneFlag(Step(s, e))
  {
    match e
    case Created(key, provider, planned, answer, required) =>
      CreatedOneFlag(s, key, provider, planned, answer, required);
      hide Create, AllOneFlag;
    case Destroyed(key, a, adapter, confirmed) =>
      DestroyedOneFlag(s, key, a, adapter, confirmed);
      hide Destroy, AllOneFlag;
    case Imported(key, seen, required, confirm) => hide ScopeImportable, BoundSomewhere, Matches, OneFlag;
    case CleanedUp(key, slot, c) =>
      CleanedUpOneFlag(s, key, slot, c);
      hide DestroyRetained, AllOneFlag;
    case ReplicaChanged(environment, provider, primary, name, reviewed, change) => hide MayChangeReplica, Projection;
    case Migrated(environment, provider, candidate) => hide OneFlag;
  }

  /** Through any run of creates, destroys, cleanups and restores, no binding at any depth is
      both incompletely provisioned and incompletely reconciled. */
  lemma {:induction false} EveryRunOneFlag(s: Store, events: seq<Event>)
    requires AllOneFlag(s) && forall i :: 0 <= i < |events| ==> PlainAnswer(events[i])
    ensures AllOneFlag(Run(s, events))
  {
    hide Step, AllOneFlag, PlainAnswer;
    if events != [] {
      EveryRunOneFlag(s, events[..|events| - 1]);
      FlagStep(Run(s, events[..|events| - 1]), events[|events| - 1]);
    }
  }

  // ------------------------------------------------------ retained cleanup

  /** The provider is asked for exactly the slot's id and full scope, after seeing nothing or
      that very target, and only while no component anywhere binds that provider and id; the
      slot goes only after an observation of absence that followed the deletion. */
  lemma CleanupAsksOnlyTheSlot(s: Store, key: Key, planned: Slot, c: Cleanup)
    ensures var r := DestroyRetained(s, key, planned, c);
            && (r.asked.Some? ==>
                  && key in s.slots && r.asked == Some(Target(s.slots[key].provider, s.slots[key].externalId, s.slots[key].scope))
                  && Planned(key.kind, s.slots[key], planned) && SeenAsRetained(key.kind, s.slots[key], c.before)
                  && forall k :: k in s.rows && k.kind == key.kind ==> !Binds(s.rows[k], s.slots[key].provider, s.slots[key].externalId))
            && (r.store != s ==> r.asked.Some? && c.confirmed && c.after.Absent?)
            && (r.store != s ==> r.store.slots == s.slots - {key})
            && (forall k :: k != key ==> RowAt(r.store, k) == RowAt(s, k))
  {
    hide PreviousComplete, CompleteScope;
  }

  /** An import takes a free slot for a target bound nowhere, and touches nothing else. */
  lemma ImportTakesFreeSlot(s: Store, key: Key, seen: Slot, required: set<string>, confirm: bool)
    ensures var t := RetainTarget(s, key, seen, required, confirm);
            t != s ==> key !in s.slots && t == s.(slots := s.slots[key := seen])
                       && !BoundSomewhere(s, key.kind, seen.provider, seen.externalId)
                       && (key in s.rows && Pending(s.rows[key], seen.provider) ==>
                             ResourceMarker(s.rows[key].bindings, key.kind) == Some(UnresolvedResource(key.kind, seen.name, seen.scope)))
  {
    hide BoundSomewhere, ScopeImportable;
  }

  /** The j-th event put this target into its slot: a confirmed import into a slot that was
      free, of a target that no component anywhere was bound to. */
  ghost predicate ImportedAt(s: Store, events: seq<Event>, j: nat, key: Key, slot: Slot)
    requires j < |events|
  {
    var before := Run(s, events[..j]);
    && events[j].Imported? && events[j].key == key && events[j].seen == slot && events[j].confirm
    && key !in before.slots && !BoundSomewhere(before, key.kind, slot.provider, slot.externalId)
  }

  lemma SlotsStep(s: Store, e: Event, key: Key)
    requires key in Step(s, e).slots
    ensures (key in s.slots && Step(s, e).slots[key] == s.slots[key])
            || (e.Imported? && e.key == key && e.seen == Step(s, e).slots[key] && e.confirm && key !in s.slots
                && !BoundSomewhere(s, key.kind, e.seen.provider, e.seen.externalId))
  {
    match e
    case Created(k, provider, planned, answer, required) => hide Recorded, RetainFailed, MayCreate;
    case Destroyed(k, a, adapter, confirmed) => hide DestroyTarget, AfterDestroy;
    case Imported(k, seen, required, confirm) => hide ScopeImportable, BoundSomewhere, Matches, Pending;
    case CleanedUp(k, slot, c) => hide CleanupAuthorised, SeenAsRetained, Matches;
    case ReplicaChanged(environment, provider, primary, name, reviewed, change) => hide Projection, MayChangeReplica;
    case Migrated(environment, provider, candidate) =>
  }

  lemma {:induction false} EverySlotWasImported(s: Store, events: seq<Event>, key: Key)
    requires s.slots == map[] && key in Run(s, events).slots
    ensures exists j: nat :: j < |events| && ImportedAt(s, events, j, key, Run(s, events).slots[key])
  {
    hide Step, BoundSomewhere, ImportedAt;
    var init, last := events[..|events| - 1], events[|events| - 1];
    SlotsStep(Run(s, init), last, key);
    var slot := Run(s, events).slots[key];
    if key in Run(s, init).slots && Run(s, init).slots[key] == slot {
      EverySlotWasImported(s, init, key);
      var j: nat :| j < |init| && ImportedAt(s, init, j, key, slot);
      assert ImportedAt(s, events, j, key, slot) by { SameImportEarlier(s, events, |init|, j, key, slot); }
    } else {
      assert ImportedAt(s, events, |init|, key, slot) by { JustImported(s, events, key, slot); }
    }
  }

  lemma SameImportEarlier(s: Store, events: seq<Event>, n: nat, j: nat, key: Key, slot: Slot)
    requires j < n <= |events| && ImportedAt(s, events[..n], j, key, slot)
    ensures ImportedAt(s, events, j, key, slot)
  {
    assert events[..n][..j] == events[..j];
    hide BoundSomewhere, Run;
  }

  lemma AskedIsUnboundSlot(s: Store, key: Key, planned: Slot, c: Cleanup)
    ensures var asked := DestroyRetained(s, key, planned, c).asked;
            asked.Some? ==>
              && key in s.slots && asked == Some(Target(s.slots[key].provider, s.slots[key].externalId, s.slots[key].scope))
              && !BoundSomewhere(s, key.kind, asked.value.provider, asked.value.externalId)
  {
    hide SeenAsRetained, CompleteScope, PreviousComplete, Cleared, BoundSomewhere;
  }

  lemma JustImported(s: Store, events: seq<Event>, key: Key, slot: Slot)
    requires events != []
    requires var before, e := Run(s, events[..|events| - 1]), events[|events| - 1];
             && e.Imported? && e.key == key && e.seen == slot && e.confirm && key !in before.slots
             && !BoundSomewhere(before, key.kind, slot.provider, slot.externalId)
    ensures ImportedAt(s, events, |events| - 1, key, slot)
  {
  }

  /** In any run from a store without slots, whatever retained cleanup asks a provider to
      delete was confirmed into that very slot by an earlier import, which saw no component
      bound to it; and no component is bound to it when it is asked for. */
  lemma RetainedCleanupWasConfirmed(s: Store, events: seq<Event>, i: nat)
    requires s.slots == map[] && i < |events| && events[i].CleanedUp?
    ensures var e, now := events[i], Run(s, events[..i]);
            var asked := DestroyRetained(now, e.key, e.slot, e.cleanup).asked;
            asked.Some? ==>
              && !BoundSomewhere(now, e.key.kind, asked.value.provider, asked.value.externalId)
              && exists j: nat, name: string :: j < i
                   && ImportedAt(s, events, j, e.key, Slot(asked.value.provider, asked.value.externalId, name, asked.value.scope))
  {
    var e, now := events[i], Run(s, events[..i]);
    AskedIsUnboundSlot(now, e.key, e.slot, e.cleanup);
    hide DestroyRetained, ImportedAt, BoundSomewhere, Run;
    if DestroyRetained(now, e.key, e.slot, e.cleanup).asked.Some? {
      var slot := now.slots[e.key];
      EverySlotWasImported(s, events[..i], e.key);
      var j: nat :| j < |events[..i]| && ImportedAt(s, events[..i], j, e.key, slot);
      SameImportEarlier(s, events, i, j, e.key, slot);
      assert ImportedAt(s, events, j, e.key, Slot(slot.provider, slot.externalId, slot.name, slot.scope));
    }
  }
}
