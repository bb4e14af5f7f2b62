/** What runs of maintenance steps keep. */
module MaintenanceSafety {
  import opened Json
  import opened MaintenanceSteps

  /** While the database is fenced, or a workload that was running is suspended, visitors of
      `host` see the maintenance page. `origin`: the services suspended before maintenance
      began. */
  ghost predicate Safe(s: State, origin: set<string>, host: string) {
    s.world.fenced || s.world.suspended - origin != {} ==> host in s.world.pages
  }

  /** The step is run for this host name, or for none. */
  predicate OnHost(e: Event, host: string) { e.spec.domain.None? || e.spec.domain == Some(host) }

  function SnapshotIds(b: Binding): set<string> { set n | n in b.workloads :: b.workloads[n].serviceId }

  /** A snapshot records a workload that was running before maintenance. */
  ghost predicate Truthful(s: State, origin: set<string>) {
    && origin <= s.world.suspended
    && forall n :: n in Current(s).workloads ==>
         Current(s).workloads[n].wasRunning && Current(s).workloads[n].serviceId !in origin
  }

  predicate ExitFinished(s: State, e: Event) {
    e.op.Verify? && !e.op.entering && ExitVerified(s, e, e.op.view)
  }

  lemma OnlySuspensionAddsSnapshots(s: State, e: Event)
    requires !e.op.Suspend?
    ensures Current(Step(s, e)).workloads == if ExitFinished(s, e) then map[] else Current(s).workloads
  {
    hide Restored, AllSuspended, ObservedActive, ObservedInactive;
  }

  lemma TruthfulStep(s: State, e: Event, origin: set<string>)
    requires Truthful(s, origin)
    ensures Truthful(Step(s, e), origin)
  {
    hide Restored, AllSuspended, EarlierSuspended, ObservedActive, ObservedInactive;
    match e.op
    case Suspend(service, serviceId, kind, view, call) =>
    case Resume(service, serviceId, kind, view, call) =>
      OnlySuspensionAddsSnapshots(s, e);
      assert ResumeAccepted(s, e, service, serviceId, kind, view) ==> serviceId !in origin;
    case _ =>
      OnlySuspensionAddsSnapshots(s, e);
      hide Current;
  }

  /** Snapshots are written once: a step keeps every one of them, unless it finishes the exit. */
  lemma SnapshotsWrittenOnce(s: State, e: Event, n: string)
    requires n in Current(s).workloads && !ExitFinished(s, e)
    ensures n in Current(Step(s, e)).workloads && Current(Step(s, e)).workloads[n] == Current(s).workloads[n]
  {
    if !e.op.Suspend? {
      OnlySuspensionAddsSnapshots(s, e);
    }
  }

  /** A step that suspends anything does so behind the page, after every earlier stage, and
      with the snapshot of every desired workload already in the store. */
  lemma SuspensionGuarded(s: State, e: Event)
    requires Step(s, e).world.suspended - s.world.suspended != {}
    ensures e.op.Suspend? && e.spec.domain.Some? && e.spec.domain.value in s.world.pages
    ensures e.op.service in e.spec.services
    ensures forall n :: n in e.spec.services ==>
              n in Current(Step(s, e)).workloads && n in e.bound
              && (n != e.op.service && GoesBefore(e.spec.services[n], e.spec.services[e.op.service]) ==>
                    e.bound[n] in s.world.suspended)
  {
    hide Restored, AllSuspended, ObservedActive, ObservedInactive;
  }

  /** A running service is suspended as reviewed exactly when no snapshot of an earlier
      identity is stored under its name: the provider is handed the stored snapshot. */
  lemma SuspendsReviewedExactly(s: State, e: Event)
    requires e.op.Suspend? && SuspendAccepted(s, e, e.op.service, e.op.serviceId, e.op.kind, e.op.view)
    requires Acted(e.op.call) && e.op.serviceId !in s.world.suspended
    ensures e.op.serviceId in Step(s, e).world.suspended <==>
              (e.op.service in Current(s).workloads ==> Current(s).workloads[e.op.service].serviceId == e.op.serviceId)
    ensures |Step(s, e).world.suspended - s.world.suspended| <= 1
  {
    var gone := Step(s, e).world.suspended - s.world.suspended;
    var target := Current(Step(s, e)).workloads[e.op.service].serviceId;
    assert gone <= {target};
    Few(gone, target);
  }

  lemma Few(a: set<string>, x: string)
    requires a <= {x}
    ensures |a| <= 1
  {
    assert a == {} || a == {x};
  }

  // ------------------------------------------------ the page comes down last

  /** Everything maintenance touched is still desired: no workload and no database has been
      dropped from the desired state or rebound since. */
  ghost predicate StillDesired(w: World, e: Event, origin: set<string>) {
    && (forall id :: id in w.suspended - origin ==> exists n :: n in e.spec.services && n in e.bound && e.bound[n] == id)
    && (w.fenced ==> e.spec.database != NoDatabase)
  }

  lemma RestoredMeansRunning(s: State, e: Event, view: View, origin: set<string>)
    requires Truthful(s, origin) && Restored(s.world, e.spec, e.bound, view, Current(s).workloads)
    ensures forall n :: n in e.spec.services ==> n in e.bound && e.bound[n] !in s.world.suspended
  {
  }

  /** Only behind the page is anything suspended or fenced. */
  lemma PageStaysUp(s: State, e: Event, host: string)
    requires !e.op.DisableEdge? && OnHost(e, host) && host !in s.world.pages
    ensures Step(s, e).world.suspended <= s.world.suspended && (Step(s, e).world.fenced ==> s.world.fenced)
  {
    hide Restored, AllSuspended, EarlierSuspended, ObservedActive, ObservedInactive, Snapshottable, Snapshots;
  }

  /** One step keeps the guarantee, except a removal of the page while something maintenance
      touched is no longer desired: then, and only then, it is lost. */
  lemma SafeStepExactly(s: State, e: Event, origin: set<string>, host: string)
    requires Truthful(s, origin) && Safe(s, origin, host) && OnHost(e, host)
    ensures Safe(Step(s, e), origin, host) <==>
              (host in s.world.pages && host !in Step(s, e).world.pages ==> StillDesired(s.world, e, origin))
  {
    var t := Step(s, e);
    match e.op
    case DisableEdge(hostname, view, call) =>
      if DisableAccepted(s, e, hostname, view) {
        RestoredMeansRunning(s, e, view, origin);
        hide Restored, Truthful;
        if s.world.suspended - origin != {} {
          var id :| id in s.world.suspended - origin;
          assert StillDesired(s.world, e, origin) ==> id !in s.world.suspended;
        }
      }
    case _ =>
      assert s.world.pages <= t.world.pages;
      if host !in s.world.pages {
        PageStaysUp(s, e, host);
      }
  }

  // ------------------------------------------------------------- whole runs

  /** Every stored snapshot is of a workload that is desired and bound to that service. */
  predicate SnapshotsMatch(s: State, services: map<string, Kind>, bound: map<string, string>) {
    forall n :: n in Current(s).workloads ==>
      n in services && n in bound && bound[n] == Current(s).workloads[n].serviceId
  }

  /** What a caller can check before a step: no workload with a stored snapshot has been
      dropped from the desired state or bound to another service. */
  predicate KeepsTargets(s: State, e: Event) { SnapshotsMatch(s, e.spec.services, e.bound) }

  /** Either every step is run with a database desired, or no step fences one. */
  predicate KeepsDatabase(e: Event, desired: bool) {
    if desired then e.spec.database != NoDatabase else !(e.op.SetFence? && e.op.enabling)
  }

  /** The host name stays put, and the edge provider records the one it was asked for. */
  predicate KeepsHost(e: Event, host: string) {
    && OnHost(e, host)
    && (e.op.EnableEdge? && e.op.returned.Some? ==> e.op.returned.value.hostname == e.op.hostname)
  }

  predicate CarefulStep(s: State, e: Event, desired: bool, host: string) {
    KeepsTargets(s, e) && KeepsDatabase(e, desired) && KeepsHost(e, host)
  }

  ghost predicate Careful(s: State, events: seq<Event>, desired: bool, host: string) {
    forall i :: 0 <= i < |events| ==> CarefulStep(Run(s, events[..i]), events[i], desired, host)
  }

  /** Whatever maintenance suspended can be found again in the stored snapshots. */
  ghost predicate Recorded(s: State, origin: set<string>) {
    s.world.suspended - origin <= SnapshotIds(Current(s))
  }

  lemma RecordedMeansDesired(s: State, e: Event, origin: set<string>)
    requires Recorded(s, origin) && KeepsTargets(s, e)
    ensures forall id :: id in s.world.suspended - origin ==> exists n :: n in e.spec.services && n in e.bound && e.bound[n] == id
  {
    forall id | id in s.world.suspended - origin ensures exists n :: n in e.spec.services && n in e.bound && e.bound[n] == id {
      assert id in SnapshotIds(Current(s));
    }
  }

  lemma ExitLeavesNothing(s: State, e: Event, origin: set<string>)
    requires Truthful(s, origin) && Recorded(s, origin) && KeepsTargets(s, e) && ExitFinished(s, e)
    ensures s.world.suspended == origin
  {
    RestoredMeansRunning(s, e, e.op.view, origin);
    RecordedMeansDesired(s, e, origin);
    hide ExitFinished, KeepsTargets, Recorded;
    var desired := set n | n in e.spec.services && n in e.bound :: e.bound[n];
    assert s.world.suspended - origin <= desired;
    assert desired !! s.world.suspended;
  }

  lemma SuspensionRecorded(s: State, e: Event, origin: set<string>)
    requires Recorded(s, origin) && e.op.Suspend?
    ensures Recorded(Step(s, e), origin)
  {
    var t := Step(s, e);
    forall id | id in t.world.suspended - origin ensures id in SnapshotIds(Current(t)) {
      if id in s.world.suspended {
        var n :| n in Current(s).workloads && Current(s).workloads[n].serviceId == id;
        SnapshotsWrittenOnce(s, e, n);
      } else {
        SuspensionGuarded(s, e);
        assert Current(t).workloads[e.op.service].serviceId == id;
      }
    }
  }

  lemma OnlySuspensionSuspends(s: State, e: Event)
    requires !e.op.Suspend?
    ensures Step(s, e).world.suspended <= s.world.suspended
  {
    hide Restored, AllSuspended, ObservedActive, ObservedInactive;
  }

  lemma RecordedStep(s: State, e: Event, origin: set<string>)
    requires Truthful(s, origin) && Recorded(s, origin) && KeepsTargets(s, e)
    ensures Recorded(Step(s, e), origin)
  {
    if e.op.Suspend? {
      SuspensionRecorded(s, e, origin);
    } else {
      OnlySuspensionAddsSnapshots(s, e);
      OnlySuspensionSuspends(s, e);
      if ExitFinished(s, e) {
        ExitLeavesNothing(s, e, origin);
      }
      hide Step, Truthful, KeepsTargets, ExitFinished;
    }
  }

  lemma NeverFenced(s: State, e: Event)
    requires !s.world.fenced && KeepsDatabase(e, false)
    ensures !Step(s, e).world.fenced
  {
    hide Restored, AllSuspended, EarlierSuspended, ObservedActive, ObservedInactive, Snapshottable, Snapshots;
  }

  /** The recorded edge is the host's, and no other host's page was touched. */
  predicate OnlyThisPage(s: State, start: World, host: string) {
    && (Current(s).edge.Some? ==> Current(s).edge.value.hostname == host)
    && s.world.pages - {host} == start.pages - {host}
  }

  lemma OnlyThisPageStep(s: State, e: Event, start: World, host: string)
    requires OnlyThisPage(s, start, host) && KeepsHost(e, host)
    ensures OnlyThisPage(Step(s, e), start, host)
  {
    hide Restored, AllSuspended, EarlierSuspended, ObservedActive, ObservedInactive, Snapshottable, Snapshots;
  }

  ghost predicate Kept(s: State, start: World, desired: bool, host: string) {
    && Safe(s, start.suspended, host) && Truthful(s, start.suspended) && Recorded(s, start.suspended)
    && (!desired ==> !s.world.fenced) && OnlyThisPage(s, start, host)
  }

  lemma KeptStep(s: State, e: Event, start: World, desired: bool, host: string)
    requires Kept(s, start, desired, host) && CarefulStep(s, e, desired, host)
    ensures Kept(Step(s, e), start, desired, host)
  {
    SafeStepExactly(s, e, start.suspended, host);
    RecordedMeansDesired(s, e, start.suspended);
    TruthfulStep(s, e, start.suspended);
    RecordedStep(s, e, start.suspended);
    OnlyThisPageStep(s, e, start, host);
    if !desired {
      NeverFenced(s, e);
    }
    hide Step, Safe, Truthful, Recorded, KeepsTargets, OnlyThisPage;
  }

  /** Before maintenance: nothing recorded, nothing fenced. */
  predicate Untouched(s: State) { s.binding.None? && !s.world.fenced }

  /** In every reachable state a fenced database or a workload suspended by maintenance
      means that the host serves the page. */
  lemma {:induction false} EveryRunSafe(s: State, events: seq<Event>, desired: bool, host: string)
    requires Untouched(s) && Careful(s, events, desired, host)
    ensures Kept(Run(s, events), s.world, desired, host)
  {
    hide Step, CarefulStep;
    if events != [] {
      CarefulSoFar(s, events, desired, host);
      EveryRunSafe(s, events[..|events| - 1], desired, host);
      hide Kept;
      KeptStep(Run(s, events[..|events| - 1]), events[|events| - 1], s.world, desired, host);
    }
  }

  lemma CarefulSoFar(s: State, events: seq<Event>, desired: bool, host: string)
    requires Careful(s, events, desired, host) && events != []
    ensures Careful(s, events[..|events| - 1], desired, host)
  {
    hide CarefulStep, Run;
    var init := events[..|events| - 1];
    forall i | 0 <= i < |init| ensures CarefulStep(Run(s, init[..i]), init[i], desired, host) {
      assert init[..i] == events[..i];
    }
  }

  /** A run that ends with a verified exit leaves everything as it was: exactly the services
      that were suspended before are suspended, no page is left on the host, every other
      host serves what it did, and nothing is fenced or recorded. */
  lemma RoundTrip(s: State, events: seq<Event>, desired: bool, host: string)
    requires Untouched(s) && Careful(s, events, desired, host) && events != []
    requires ExitFinished(Run(s, events[..|events| - 1]), events[|events| - 1])
    ensures Run(s, events) == State(None, World(s.world.pages - {host}, s.world.suspended, false))
  {
    hide CarefulStep, Kept, Step, ExitFinished;
    var before, e := Run(s, events[..|events| - 1]), events[|events| - 1];
    CarefulSoFar(s, events, desired, host);
    EveryRunSafe(s, events[..|events| - 1], desired, host);
    ExitRestores(before, e, s.world, desired, host);
  }

  lemma ExitRestores(s: State, e: Event, start: World, desired: bool, host: string)
    requires Kept(s, start, desired, host) && CarefulStep(s, e, desired, host) && ExitFinished(s, e)
    ensures Step(s, e) == State(None, World(start.pages - {host}, start.suspended, false))
  {
    ExitLeavesNothing(s, e, start.suspended);
    hide Safe, Truthful, Recorded, KeepsTargets, Restored;
  }

  // -------------------------------------------------- fixed desired state

  ghost predicate Fixed(events: seq<Event>, spec: Spec, bound: map<string, string>) {
    forall i :: 0 <= i < |events| ==> events[i].spec == spec && events[i].bound == bound
  }

  lemma SnapshotsMatchStep(s: State, e: Event)
    requires SnapshotsMatch(s, e.spec.services, e.bound)
    ensures SnapshotsMatch(Step(s, e), e.spec.services, e.bound)
  {
    if !e.op.Suspend? {
      OnlySuspensionAddsSnapshots(s, e);
    }
    hide AllSuspended, EarlierSuspended, Restored;
  }

  lemma {:induction false} FixedSnapshotsMatch(s: State, events: seq<Event>, spec: Spec, bound: map<string, string>)
    requires s.binding.None? && Fixed(events, spec, bound)
    ensures SnapshotsMatch(Run(s, events), spec.services, bound)
  {
    if events != [] {
      FixedSnapshotsMatch(s, events[..|events| - 1], spec, bound);
      SnapshotsMatchStep(Run(s, events[..|events| - 1]), events[|events| - 1]);
    }
  }

  /** While the desired state and the bindings stay put, and a database is only fenced if one
      is desired, every run is safe and every finished exit is a round trip. */
  lemma FixedTargetsAreCareful(s: State, events: seq<Event>, spec: Spec, bound: map<string, string>, host: string)
    requires Untouched(s) && Fixed(events, spec, bound) && spec.domain == Some(host)
    requires spec.database == NoDatabase ==>
               forall i :: 0 <= i < |events| ==> !(events[i].op.SetFence? && events[i].op.enabling)
    requires forall i :: 0 <= i < |events| ==> KeepsHost(events[i], host)
    ensures Careful(s, events, spec.database != NoDatabase, host)
    ensures Safe(Run(s, events), s.world.suspended, host)
  {
    forall i | 0 <= i < |events| ensures CarefulStep(Run(s, events[..i]), events[i], spec.database != NoDatabase, host) {
      FixedSnapshotsMatch(s, events[..i], spec, bound);
    }
    EveryRunSafe(s, events, spec.database != NoDatabase, host);
    hide Run, CarefulStep;
  }

  // ------------------------------------------------------- where it fails

  /** Dropping a suspended workload from the desired state: the page comes down, the exit is
      verified, its snapshot is discarded, and it stays suspended. */
  lemma DroppedWorkloadStaysDown(edge: Edge)
    requires Complete(edge)
    ensures var full := Spec(Some(edge.hostname), map["web" := Web], NoDatabase);
            var none := full.(services := map[]);
            var bound, view := map["web" := "id"], View(true, map["web" := Web], true);
            var start := State(None, World({}, {}, false));
            var a := Step(start, Event(full, bound, true, EnableEdge(edge.hostname, true, Done, Some(edge), true)));
            var b := Step(a, Event(full, bound, true, Suspend("web", "id", Web, view, Done)));
            var c := Step(b, Event(none, bound, true, DisableEdge(edge.hostname, view, Done)));
            var d := Step(c, Event(none, bound, true, Verify(false, view)));
            && b.world == World({edge.hostname}, {"id"}, false) && c.world == World({}, {"id"}, false)
            && d == State(None, World({}, {"id"}, false))
  {
  }

  /** Enabling the page again records the new identity: the page recorded before stays up
      and is recorded no longer exactly when the host name has changed. */
  lemma PageForgottenExactly(s: State, e: Event)
    requires Current(s).edge.Some? && Current(s).edge.value.hostname in s.world.pages
    requires e.op.EnableEdge? && e.op.hostname != "" && e.spec.domain == Some(e.op.hostname) && e.op.hash
    requires e.op.call.Done? && e.op.returned.Some? && Complete(e.op.returned.value)
    requires e.op.returned.value.hostname == e.op.hostname
    ensures var t, was := Step(s, e), Current(s).edge.value.hostname;
            was in t.world.pages && Current(t).edge.Some?
            && (Current(t).edge.value.hostname != was <==> e.op.hostname != was)
  {
  }

  /** So a change of host name between entering and leaving leaves the first page up after
      an exit that is verified. */
  lemma HostChangeLeaksPage(first: Edge, second: Edge)
    requires Complete(first) && Complete(second) && first.hostname != second.hostname
    ensures var one := Spec(Some(first.hostname), map[], NoDatabase);
            var two := one.(domain := Some(second.hostname));
            var view, start := View(true, map[], true), State(None, World({}, {}, false));
            var a := Step(start, Event(one, map[], true, EnableEdge(first.hostname, true, Done, Some(first), true)));
            var b := Step(a, Event(two, map[], true, EnableEdge(second.hostname, true, Done, Some(second), true)));
            var c := Step(b, Event(two, map[], true, DisableEdge(second.hostname, view, Done)));
            var d := Event(two, map[], true, Verify(false, view));
            ExitFinished(c, d) && Step(c, d) == State(None, World({first.hostname}, {}, false))
  {
  }

  // ------------------------------------------------- what "active" is worth

  /** Failed calls changed nothing. */
  predicate Atomic(e: Event) {
    match e.op
    case EnableEdge(_, _, call, _, _) => call.Failed? ==> !call.carriedOut
    case DisableEdge(_, _, call) => call.Failed? ==> !call.carriedOut
    case Suspend(_, _, _, _, call) => call.Failed? ==> !call.carriedOut
    case Resume(_, _, _, _, call) => call.Failed? ==> !call.carriedOut
    case SetFence(_, _, _, carriedOut, verified) => carriedOut ==> verified
    case Verify(_, _) => true
  }

  /** The whole boundary stands. */
  predicate BoundaryUp(w: World, spec: Spec, bound: map<string, string>) {
    && spec.domain.Some? && spec.domain.value in w.pages && (spec.database == Postgres ==> w.fenced)
    && forall n :: n in spec.services ==> n in bound && bound[n] in w.suspended
  }

  /** What makes a false active record: an accepted call that was carried out without being
      confirmed, and that takes part of the boundary down. */
  predicate Ambiguous(s: State, e: Event) {
    match e.op
    case DisableEdge(hostname, view, call) =>
      DisableAccepted(s, e, hostname, view) && call == Failed(true) && Current(s).edge.value.hostname == hostname
    case Resume(service, serviceId, kind, view, call) =>
      && ResumeAccepted(s, e, service, serviceId, kind, view) && call == Failed(true) && Current(s).workloads[service].wasRunning
      && exists n :: n in e.spec.services && n in e.bound && e.bound[n] == serviceId
    case SetFence(enabling, view, access, carriedOut, verified) =>
      && e.adapter && access && EdgeSeen(s, e.spec, view) == Up && AllSuspended(s.world, e.spec, e.bound, view)
      && !enabling && carriedOut && !verified && e.spec.database == Postgres
    case _ => false
  }

  predicate RecordedActive(s: State) { Current(s).phase == Some(Active) }

  /** A step keeps the meaning of an active record exactly when it is no such call. */
  lemma ActiveStepExactly(s: State, e: Event)
    requires RecordedActive(s) ==> BoundaryUp(s.world, e.spec, e.bound)
    ensures (RecordedActive(Step(s, e)) ==> BoundaryUp(Step(s, e).world, e.spec, e.bound)) <==>
              !(RecordedActive(s) && Ambiguous(s, e))
  {
    hide Restored, EarlierSuspended, ObservedInactive, Snapshottable, Snapshots;
  }

  /** With fixed targets, an environment recorded as active really is behind the page, suspended
      and fenced, at every point of the run, exactly when no call of the run is one of those. */
  lemma {:induction false} ActiveMeansDownExactly(s: State, events: seq<Event>, spec: Spec, bound: map<string, string>)
    requires s.binding.None? && Fixed(events, spec, bound)
    ensures (forall i :: 0 <= i <= |events| && RecordedActive(Run(s, events[..i])) ==>
               BoundaryUp(Run(s, events[..i]).world, spec, bound))
       <==> (forall i :: 0 <= i < |events| && RecordedActive(Run(s, events[..i])) ==> !Ambiguous(Run(s, events[..i]), events[i]))
  {
    hide Step, BoundaryUp, Ambiguous, RecordedActive;
    if events == [] {
      assert !RecordedActive(s) by { NothingRecorded(s); }
    } else {
      var init, last := events[..|events| - 1], events[|events| - 1];
      assert events[..|events|] == events;
      assert forall i :: 0 <= i <= |init| ==> init[..i] == events[..i];
      ActiveMeansDownExactly(s, init, spec, bound);
      var before := Run(s, init);
      assert Run(s, events) == Step(before, last);
      if RecordedActive(before) ==> BoundaryUp(before.world, spec, bound) { ActiveStepExactly(before, last); }
    }
  }

  lemma NothingRecorded(s: State)
    requires s.binding.None?
    ensures !RecordedActive(s)
  {
  }

  /** Providers whose failed calls change nothing make none of them. */
  lemma AtomicIsNotAmbiguous(s: State, e: Event)
    requires Atomic(e)
    ensures !Ambiguous(s, e)
  {
  }

  /** So with such providers an active record can be believed. */
  lemma ActiveMeansDown(s: State, events: seq<Event>, spec: Spec, bound: map<string, string>)
    requires s.binding.None? && Fixed(events, spec, bound) && forall i :: 0 <= i < |events| ==> Atomic(events[i])
    ensures RecordedActive(Run(s, events)) ==> BoundaryUp(Run(s, events).world, spec, bound)
  {
    hide BoundaryUp, Ambiguous, RecordedActive, Run;
    ActiveMeansDownExactly(s, events, spec, bound);
    forall i | 0 <= i < |events| ensures !Ambiguous(Run(s, events[..i]), events[i]) {
      AtomicIsNotAmbiguous(Run(s, events[..i]), events[i]);
    }
    assert events[..|events|] == events;
  }

  /** Each of those calls leaves the record active over a boundary that no longer stands. */
  lemma AmbiguousCallLeavesActive(s: State, e: Event)
    requires RecordedActive(s) && BoundaryUp(s.world, e.spec, e.bound) && Ambiguous(s, e)
    ensures RecordedActive(Step(s, e)) && !BoundaryUp(Step(s, e).world, e.spec, e.bound)
  {
    ActiveStepExactly(s, e);
    hide Step, BoundaryUp, Ambiguous;
  }

  /** The page that was put up can be removed again exactly when the provider returned all
      six identity fields, though three are enough to store it. */
  lemma RemovalNeedsEveryField(s: State, put: Event, e: Event)
    requires put.op.EnableEdge? && put.op.call.Done? && DurableIdentity(put.op.returned)
    requires put.op.hostname != "" && put.spec.domain == Some(put.op.hostname) && put.op.hash
    requires e.op.DisableEdge? && e.adapter && e.op.hostname != "" && e.spec.domain == Some(e.op.hostname)
    requires Restored(s.world, e.spec, e.bound, e.op.view, Current(s).workloads)
    requires DatabaseSeen(s.world, e.spec, e.op.view) in {Unfenced, NotApplicable}
    ensures DisableAccepted(Step(s, put), e, e.op.hostname, e.op.view) <==> Complete(put.op.returned.value)
  {
    assert Current(Step(s, put)).workloads == Current(s).workloads;
  }
}
