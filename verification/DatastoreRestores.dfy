/** Failed creates and their cleanups, over whole runs, give the original binding back. */
module DatastoreRestores {
  import opened Json
  import opened DatastoreSteps
  import opened DatastoreSafety
  import opened DatastoreTopology

  /** Peeling off the incomplete layers leads to the original binding, with its effective id. */
  predicate LeadsBackTo(r: Row, was: Row) {
    Owner(r).Some? && Owner(r).value.bindings == was.bindings && EffectiveId(Owner(r).value) == EffectiveId(was)
  }

  /** Every incomplete layer is one that a destroy undoes. */
  predicate Provisional(b: Bindings) {
    Complete(b) || (b.provisioning && b.previous.Some? && Provisional(b.previous.value))
  }

  /** How many incomplete layers there are. */
  function Layers(b: Bindings): nat {
    if Complete(b) || b.previous.None? then 0 else 1 + Layers(b.previous.value)
  }

  predicate Kept(s: Store, key: Key, was: Row) {
    key in s.rows && LeadsBackTo(s.rows[key], was) && Provisional(s.rows[key].bindings)
  }

  /** Failed creates and cleanups: a create of this key fails, is of another provider while the
      original is bound, and is no in-place update of a cache; a destroy is of the incomplete
      binding, not of the original; and nothing else replaces the binding. */
  predicate Tentative(s: Store, e: Event, key: Key)
    requires key in s.rows
  {
    var b := s.rows[key].bindings;
    match e
    case Created(k, provider, _, answer, required) =>
      k == key && answer.Some? ==>
        var made := answer.value.1;
        && !answer.value.0 && made.bindings.previous.None? && made.bindings.previousProvider.None? && made.bindings.previousId.None?
        && (Complete(b) ==> Switches(Some(s.rows[key]), provider))
        && !(key.kind.Cache? && InPlace(Some(s.rows[key]), provider, made))
    case Destroyed(k, a, _, _) => k == key ==> !Complete(b) && !HitsPrevious(b, a.provider)
    case ReplicaChanged(environment, _, _, _, _, _) => Key(environment, Database) == key ==> !Complete(b)
    case Migrated(environment, _, _) => Key(environment, Database) != key
    case _ => true
  }

  /** A failed switch was recorded. */
  predicate Deepens(s: Store, e: Event, key: Key) {
    e.Created? && e.key == key && Switches(RowAt(s, key), e.provider) && RowAt(Step(s, e), key) != RowAt(s, key)
  }

  /** A cleanup was carried out and stored. */
  predicate Restores(s: Store, e: Event, key: Key) {
    (e.Destroyed? || e.CleanedUp?) && e.key == key && RowAt(Step(s, e), key) != RowAt(s, key)
  }

  lemma FailedLayer(kind: Kind, provider: string, made: Made, r: Row, was: Row, required: set<string>)
    requires LeadsBackTo(r, was) && Provisional(r.bindings)
    requires RetainFailed(kind, provider, made, Some(r), required).Some?
    requires made.bindings.previous.None? && made.bindings.previousProvider.None? && made.bindings.previousId.None?
    requires Complete(r.bindings) ==> Switches(Some(r), provider)
    requires !(kind.Cache? && InPlace(Some(r), provider, made))
    ensures var failed := RetainFailed(kind, provider, made, Some(r), required).value;
            && LeadsBackTo(failed, was) && Provisional(failed.bindings)
            && Layers(failed.bindings) == Layers(r.bindings) + if Switches(Some(r), provider) then 1 else 0
  {
    var failed := RetainFailed(kind, provider, made, Some(r), required).value;
    hide Retainable, InPlace;
    if Switches(Some(r), provider) {
      NestedOwner(failed.bindings, r);
      SameOwnerById(r);
    } else {
      MergedOwner(r, failed);
    }
    hide RetainFailed, Owner, EffectiveId;
  }

  /** The effective id written into the external id leads to the same owner. */
  lemma SameOwnerById(r: Row)
    ensures var o := Owner(Row(EffectiveId(r), r.bindings));
            && (o.Some? <==> Owner(r).Some?)
            && (o.Some? ==> o.value.bindings == Owner(r).value.bindings && EffectiveId(o.value) == EffectiveId(Owner(r).value))
  {
  }

  /** An incomplete layer off: the one beneath it. */
  lemma PeeledLayer(r: Row, was: Row)
    requires LeadsBackTo(r, was) && Provisional(r.bindings) && !Complete(r.bindings)
    ensures r.bindings.previousProvider.Some? && r.bindings.previous.Some?
    ensures var beneath := Row(PreviousId(r.bindings), r.bindings.previous.value);
            && LeadsBackTo(beneath, was) && Provisional(beneath.bindings) && beneath != r
            && Layers(beneath.bindings) + 1 == Layers(r.bindings)
  {
    hide EffectiveId;
    assert Owner(r) == Owner(Row(PreviousId(r.bindings), r.bindings.previous.value));
    assert Layers(r.bindings.previous.value) != Layers(r.bindings);
  }

  lemma UndoneLayer(r: Row, was: Row, a: Destruction)
    requires LeadsBackTo(r, was) && Provisional(r.bindings) && !Complete(r.bindings) && !HitsPrevious(r.bindings, a.provider)
    ensures AfterDestroy(r, a).Some?
    ensures var after := AfterDestroy(r, a).value;
            && LeadsBackTo(after, was) && Provisional(after.bindings)
            && (after != r ==> Layers(after.bindings) + 1 == Layers(r.bindings))
  {
    PeeledLayer(r, was);
    hide Restorable, LeadsBackTo, Layers, PreviousId;
  }

  lemma CreatedKept(s: Store, e: Event, key: Key, was: Row)
    requires Kept(s, key, was) && Tentative(s, e, key) && e.Created?
    ensures Kept(Step(s, e), key, was)
    ensures Layers(Step(s, e).rows[key].bindings) == Layers(s.rows[key].bindings) + if Deepens(s, e, key) then 1 else 0
  {
    if e.key == key && e.answer.Some? && RetainFailed(key.kind, e.provider, e.answer.value.1, Some(s.rows[key]), e.required).Some? {
      FailedLayer(key.kind, e.provider, e.answer.value.1, s.rows[key], was, e.required);
    }
    hide RetainFailed, Recorded, MayCreate, LeadsBackTo, Provisional, Layers, InPlace;
  }

  lemma DestroyedKept(s: Store, e: Event, key: Key, was: Row)
    requires Kept(s, key, was) && Tentative(s, e, key) && e.Destroyed?
    ensures Kept(Step(s, e), key, was)
    ensures Layers(Step(s, e).rows[key].bindings) + (if Restores(s, e, key) then 1 else 0) == Layers(s.rows[key].bindings)
  {
    if e.key == key { UndoneLayer(s.rows[key], was, e.action); }
    hide DestroyTarget, AfterDestroy, LeadsBackTo, Provisional, Layers;
  }

  /** Retained cleanup leaves a row alone, or takes an incomplete layer off. */
  lemma CleanedUpRow(s: Store, k: Key, slot: Slot, c: Cleanup, key: Key)
    requires key in s.rows
    ensures var b, after := s.rows[key].bindings, RowAt(DestroyRetained(s, k, slot, c).store, key);
            after == RowAt(s, key)
            || (k == key && !Complete(b)
                && (b.previousProvider.Some? && b.previous.Some? ==> after == Some(Row(PreviousId(b), b.previous.value))))
  {
    hide CleanupAuthorised, SeenAsRetained, ResourceMarker;
  }

  lemma CleanedUpKept(s: Store, e: Event, key: Key, was: Row)
    requires Kept(s, key, was) && e.CleanedUp?
    ensures Kept(Step(s, e), key, was)
    ensures Layers(Step(s, e).rows[key].bindings) + (if Restores(s, e, key) then 1 else 0) == Layers(s.rows[key].bindings)
  {
    CleanedUpRow(s, e.key, e.slot, e.cleanup, key);
    if !Complete(s.rows[key].bindings) { PeeledLayer(s.rows[key], was); }
    hide DestroyRetained, LeadsBackTo, Provisional, Layers, PreviousId;
  }

  lemma ReplicaKept(s: Store, e: Event, key: Key, was: Row)
    requires Kept(s, key, was) && Tentative(s, e, key) && e.ReplicaChanged?
    ensures Kept(Step(s, e), key, was)
    ensures Layers(Step(s, e).rows[key].bindings) == Layers(s.rows[key].bindings)
  {
    hide Projection, EffectiveId, MayChangeReplica;
  }

  lemma StepKept(s: Store, e: Event, key: Key, was: Row)
    requires Kept(s, key, was) && Tentative(s, e, key)
    ensures Kept(Step(s, e), key, was)
    ensures Layers(Step(s, e).rows[key].bindings) + (if Restores(s, e, key) then 1 else 0)
              == Layers(s.rows[key].bindings) + if Deepens(s, e, key) then 1 else 0
  {
    match e {
      case Created(_, _, _, _, _) => CreatedKept(s, e, key, was);
      case Destroyed(_, _, _, _) => DestroyedKept(s, e, key, was);
      case Imported(_, _, _, _) => hide ScopeImportable, BoundSomewhere, Matches, Pending;
      case CleanedUp(_, _, _) => CleanedUpKept(s, e, key, was);
      case ReplicaChanged(_, _, _, _, _, _) => ReplicaKept(s, e, key, was);
      case Migrated(_, _, _) =>
    }
    hide LeadsBackTo, Provisional, Layers, Create, Destroy, DestroyRetained, ChangeReplica;
  }

  ghost predicate TentativeRun(s: Store, events: seq<Event>, key: Key) {
    forall i :: 0 <= i < |events| ==> key in Run(s, events[..i]).rows && Tentative(Run(s, events[..i]), events[i], key)
  }

  function Deepened(s: Store, events: seq<Event>, key: Key): nat {
    if events == [] then 0
    else
      var init, last := events[..|events| - 1], events[|events| - 1];
      Deepened(s, init, key) + if Deepens(Run(s, init), last, key) then 1 else 0
  }

  function Restored(s: Store, events: seq<Event>, key: Key): nat {
    if events == [] then 0
    else
      var init, last := events[..|events| - 1], events[|events| - 1];
      Restored(s, init, key) + if Restores(Run(s, init), last, key) then 1 else 0
  }

  /** Over any run of failed creates, to any number of providers, and of cleanups, ordinary and
      retained: the binding leads back to the original, and once as many cleanups were carried
      out as switches were recorded, and only then, it is the original again, with its id. */
  lemma {:induction false} EveryRunRestores(s: Store, events: seq<Event>, key: Key)
    requires key in s.rows && Complete(s.rows[key].bindings) && TentativeRun(s, events, key)
    ensures var t, was := Run(s, events), s.rows[key];
            && Kept(t, key, was)
            && (Restored(s, events, key) == Deepened(s, events, key) <==> Complete(t.rows[key].bindings))
            && (Complete(t.rows[key].bindings) ==> t.rows[key].bindings == was.bindings && EffectiveId(t.rows[key]) == EffectiveId(was))
  {
    LayersLeft(s, events, key);
    OriginalAgain(Run(s, events).rows[key], s.rows[key]);
    hide Run, LeadsBackTo, Provisional, Layers, EffectiveId;
  }

  lemma OriginalAgain(r: Row, was: Row)
    requires LeadsBackTo(r, was) && Provisional(r.bindings)
    ensures Complete(r.bindings) <==> Layers(r.bindings) == 0
    ensures Complete(r.bindings) ==> r.bindings == was.bindings && EffectiveId(r) == EffectiveId(was)
  {
  }

  lemma {:induction false} LayersLeft(s: Store, events: seq<Event>, key: Key)
    requires key in s.rows && Complete(s.rows[key].bindings) && TentativeRun(s, events, key)
    ensures var t := Run(s, events);
            Kept(t, key, s.rows[key])
            && Layers(t.rows[key].bindings) + Restored(s, events, key) == Deepened(s, events, key)
  {
    hide Step, Tentative, LeadsBackTo, Deepens, Restores;
    if events == [] {
      assert LeadsBackTo(s.rows[key], s.rows[key]) by { ItselfNow(s.rows[key]); }
    } else {
      var init, last := events[..|events| - 1], events[|events| - 1];
      assert TentativeRun(s, init, key) by {
        forall i | 0 <= i < |init|
          ensures key in Run(s, init[..i]).rows && Tentative(Run(s, init[..i]), init[i], key)
        {
          assert init[..i] == events[..i];
        }
      }
      hide Provisional, Layers;
      LayersLeft(s, init, key);
      StepKept(Run(s, init), last, key, s.rows[key]);
    }
  }

  lemma ItselfNow(r: Row)
    requires Complete(r.bindings)
    ensures LeadsBackTo(r, r)
  {
  }

  // ------------------------------------------------------- where it fails

  /** A failed retry keeps the layers ones that a destroy undoes, exactly when it is no in-place
      update of the cache: that one is marked as incompletely reconciled only. */
  lemma RetryStaysProvisionalExactly(kind: Kind, provider: string, made: Made, r: Row, required: set<string>)
    requires RetainFailed(kind, provider, made, Some(r), required).Some? && Provisional(r.bindings) && !Complete(r.bindings)
    requires made.bindings.previous.None? && SameProvider(Some(r), provider)
    ensures Provisional(RetainFailed(kind, provider, made, Some(r), required).value.bindings) <==>
              !(kind.Cache? && InPlace(Some(r), provider, made))
  {
    hide Retainable, InPlace;
  }

  /** A whole run: a cache is bound at `a`; a switch to `b` fails and leaves an identity; a retry
      fails in place; and `b` is destroyed. The binding to `a` is gone, while without the retry
      it is back. */
  lemma RetriedCacheForgetsOriginal(s: Store, e: string, a: string, b: string, scope: Scope, required: set<string>)
    requires RowAt(s, Key(e, Cache)) == Some(Row(Some("1"), AtProvider(a, scope))) && a != b && CompleteFor(Some(scope), required)
    ensures var key, answer := Key(e, Cache), Some((false, Made(Some("2"), true, AtProvider(b, scope))));
            var cleanup := Destruction(b, Some("2"), Some(scope), true);
            var two := Create(s, key, b, None, answer, required);
            var three := Create(two, key, b, None, answer, required);
            && RowAt(Destroy(two, key, cleanup, true, true).store, key) == RowAt(s, key)
            && RowAt(Destroy(three, key, cleanup, true, true).store, key) == None
  {
    hide CompleteScope;
    assert CompleteScope(Some(scope));
    hide CompleteFor, Create, Destroy;
    var key, answer := Key(e, Cache), Some((false, Made(Some("2"), true, AtProvider(b, scope))));
    var half := HalfSwitched(a, b, scope);
    var two := Create(s, key, b, None, answer, required);
    var three := Create(two, key, b, None, answer, required);
    HalfwayThere(s, e, a, b, scope, required);
    RetriedInPlace(two, e, a, b, scope, required);
    HalfDestroyed(two, e, a, b, scope, half);
    HalfDestroyed(three, e, a, b, scope, half.(provisioning := false, reconciling := true));
    hide RowAt, HalfSwitched, AtProvider;
  }

  lemma HalfwayThere(s: Store, e: string, a: string, b: string, scope: Scope, required: set<string>)
    requires RowAt(s, Key(e, Cache)) == Some(Row(Some("1"), AtProvider(a, scope))) && a != b && CompleteFor(Some(scope), required)
    ensures var two := Create(s, Key(e, Cache), b, None, Some((false, Made(Some("2"), true, AtProvider(b, scope)))), required);
            RowAt(two, Key(e, Cache)) == Some(Row(Some("2"), HalfSwitched(a, b, scope)))
  {
    hide CompleteFor;
  }

  lemma RetriedInPlace(two: Store, e: string, a: string, b: string, scope: Scope, required: set<string>)
    requires RowAt(two, Key(e, Cache)) == Some(Row(Some("2"), HalfSwitched(a, b, scope))) && CompleteFor(Some(scope), required)
    ensures var three := Create(two, Key(e, Cache), b, None, Some((false, Made(Some("2"), true, AtProvider(b, scope)))), required);
            RowAt(three, Key(e, Cache)) ==
              Some(Row(Some("2"), HalfSwitched(a, b, scope).(provisioning := false, reconciling := true)))
  {
    hide CompleteFor;
  }

  lemma HalfDestroyed(s: Store, e: string, a: string, b: string, scope: Scope, half: Bindings)
    requires a != b && CompleteScope(Some(scope)) && RowAt(s, Key(e, Cache)) == Some(Row(Some("2"), half))
    requires half == HalfSwitched(a, b, scope).(provisioning := half.provisioning, reconciling := half.reconciling)
    ensures RowAt(Destroy(s, Key(e, Cache), Destruction(b, Some("2"), Some(scope), true), true, true).store, Key(e, Cache)) ==
              if half.provisioning then Some(Row(Some("1"), AtProvider(a, scope))) else None
  {
    CompleteIsTextual(Some(scope));
    ScopeNotEmpty(scope);
    hide Textual, CompleteScope;
  }
}
