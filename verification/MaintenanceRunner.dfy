/** applyMaintenanceAction as it runs: read the binding, observe, check, store, call the
    provider, store again. */
module MaintenanceRunner {
  import opened Json
  import opened MaintenanceSteps

  class Runner {
    var binding: Option<Binding>
    var world: World

    constructor (s: State)
      ensures Now() == s
    {
      binding, world := s.binding, s.world;
    }

    ghost function Now(): State
      reads this
    {
      State(binding, world)
    }

    /** Every desired workload is in the state its snapshot asks for. */
    method WorkloadsRestored(spec: Spec, bound: map<string, string>, view: View, workloads: map<string, Snapshot>)
      returns (restored: bool)
      ensures restored <==> Restored(world, spec, bound, view, workloads)
    {
      var names := spec.services.Keys;
      while names != {}
        invariant names <= spec.services.Keys
        invariant forall n :: n in spec.services && n !in names ==>
                    var seen := WorkloadSeen(world, bound, view, n);
                    if n in workloads && !workloads[n].wasRunning then seen.Suspended? else seen.Running?
        decreases |names|
      {
        var n :| n in names;
        names := names - {n};
        var seen := WorkloadSeen(world, bound, view, n);
        var expected := if n in workloads && !workloads[n].wasRunning then seen.Suspended? else seen.Running?;
        if !expected {
          return false;
        }
      }
      restored := true;
    }

    /** The stored snapshot of one workload, or a new one; None when its state cannot be
        proved or it is suspended already. */
    method OneSnapshot(spec: Spec, bound: map<string, string>, view: View, known: map<string, Snapshot>, n: string)
      returns (snapshot: Option<Snapshot>)
      requires n in spec.services
      ensures snapshot.Some? <==> SnapshottableOne(world, spec, bound, view, known, n)
      ensures snapshot.Some? ==> snapshot.value == SnapshotOf(world, spec, bound, view, known, n)
    {
      var seen := WorkloadSeen(world, bound, view, n);
      if seen.Unseen? || seen.kind != spec.services[n] {
        return None;
      }
      if n in known {
        return Some(known[n]);
      }
      if seen.Suspended? {
        return None;
      }
      snapshot := Some(Snapshot(seen.serviceId, spec.services[n], seen.Running?));
    }

    /** Collects a snapshot of every desired workload. */
    method CollectSnapshots(spec: Spec, bound: map<string, string>, view: View, known: map<string, Snapshot>)
      returns (snapshots: Option<map<string, Snapshot>>)
      ensures snapshots.Some? <==> Snapshottable(world, spec, bound, view, known)
      ensures snapshots.Some? ==> snapshots.value == Snapshots(world, spec, bound, view, known)
    {
      hide WorkloadSeen, SnapshottableOne, SnapshotOf;
      KnownAreKept(world, spec, bound, view, known);
      hide Snapshots;
      var collected := known;
      var names := spec.services.Keys;
      while names != {}
        invariant names <= spec.services.Keys
        invariant forall n :: n in spec.services && n !in names ==> SnapshottableOne(world, spec, bound, view, known, n)
        invariant forall n :: n in collected <==> n in known || (n in spec.services && n !in names)
        invariant forall n :: n in collected ==> collected[n] == SnapshotOf(world, spec, bound, view, known, n)
        decreases |names|
      {
        var n :| n in names;
        var snapshot := OneSnapshot(spec, bound, view, known, n);
        if snapshot.None? {
          return None;
        }
        collected := collected[n := snapshot.value];
        names := names - {n};
      }
      SnapshotsAre(world, spec, bound, view, known, collected);
      snapshots := Some(collected);
    }

    method EarlierStagesSuspended(spec: Spec, bound: map<string, string>, view: View, service: string, kind: Kind)
      returns (suspended: bool)
      ensures suspended <==> EarlierSuspended(world, spec, bound, view, service, kind)
      ensures suspended <==>
                forall n :: n in spec.services && n != service && GoesBefore(spec.services[n], kind) ==>
                  WorkloadSeen(world, bound, view, n).Suspended?
    {
      var names := spec.services.Keys;
      while names != {}
        invariant names <= spec.services.Keys
        invariant forall n :: n in spec.services && n !in names && n != service && Rank(spec.services[n]) < Rank(kind) ==>
                    WorkloadSeen(world, bound, view, n).Suspended?
        decreases |names|
      {
        var n :| n in names;
        names := names - {n};
        if n != service && Rank(spec.services[n]) < Rank(kind) && !WorkloadSeen(world, bound, view, n).Suspended? {
          return false;
        }
      }
      suspended := true;
    }

    /** The provider's side of suspendMaintenanceWorkload. A snapshot of every desired
        workload must be in the store before the first one is touched. */
    method SuspendWorkload(spec: Spec, snapshot: Snapshot, call: Call) returns (success: bool)
      requires binding.Some? && spec.services.Keys <= binding.value.workloads.Keys
      requires exists n :: n in binding.value.workloads && binding.value.workloads[n] == snapshot
      modifies this`world
      ensures success == call.Done?
      ensures world == if Acted(call) then old(world).(suspended := old(world).suspended + {snapshot.serviceId}) else old(world)
    {
      if Acted(call) {
        world := world.(suspended := world.suspended + {snapshot.serviceId});
      }
      success := call.Done?;
    }

    method EnableEdgeAction(e: Event) returns (success: bool)
      requires e.op.EnableEdge?
      modifies this
      ensures Now() == Step(old(Now()), e)
      ensures success <==> && e.op.hostname != "" && e.spec.domain == Some(e.op.hostname) && e.op.hash && e.op.call.Done?
                           && DurableIdentity(e.op.returned) && e.op.marker
      ensures success ==> e.op.hostname in world.pages && binding.Some? && DurableIdentity(binding.value.edge)
    {
      success := false;
      var op := e.op;
      if op.hostname == "" || e.spec.domain != Some(op.hostname) || !op.hash {
        return;
      }
      var current := Current(State(binding, world));
      if Acted(op.call) {
        world := world.(pages := world.pages + {op.hostname});
      }
      if op.call.Failed? || !DurableIdentity(op.returned) {
        return;
      }
      binding := Some(current.(phase := Some(Entering), edge := op.returned));
      success := op.marker;
    }

    method DisableEdgeAction(e: Event) returns (success: bool)
      requires e.op.DisableEdge?
      modifies this
      ensures Now() == Step(old(Now()), e)
      ensures success <==> DisableAccepted(old(Now()), e, e.op.hostname, e.op.view) && e.op.call.Done?
      ensures success ==> Current(old(Now())).edge.Some? && Current(old(Now())).edge.value.hostname !in world.pages
    {
      success := false;
      var op := e.op;
      var current := Current(State(binding, world));
      if op.hostname == "" || e.spec.domain != Some(op.hostname) || current.edge.None? || !e.adapter {
        return;
      }
      var restored := WorkloadsRestored(e.spec, e.bound, op.view, current.workloads);
      hide Restored;
      if !restored || DatabaseSeen(world, e.spec, op.view) !in {Unfenced, NotApplicable} {
        return;
      }
      if Acted(op.call) {
        world := world.(pages := world.pages - {current.edge.value.hostname});
      }
      if op.call.Failed? {
        return;
      }
      binding := Some(current.(phase := Some(Exiting), edge := None));
      success := true;
    }

    method SuspendAction(e: Event) returns (success: bool)
      requires e.op.Suspend?
      modifies this
      ensures Now() == Step(old(Now()), e)
      ensures success <==> SuspendAccepted(old(Now()), e, e.op.service, e.op.serviceId, e.op.kind, e.op.view) && e.op.call.Done?
      ensures success ==> exists n :: n in Current(Now()).workloads
                                      && Current(Now()).workloads[n].serviceId in world.suspended
    {
      success := false;
      var op := e.op;
      var current := Current(State(binding, world));
      if !e.adapter || op.service !in e.spec.services || op.serviceId == "" || e.spec.services[op.service] != op.kind {
        return;
      }
      if EdgeSeen(State(binding, world), e.spec, op.view) != Up {
        return;
      }
      var snapshots := CollectSnapshots(e.spec, e.bound, op.view, current.workloads);
      if snapshots.None? {
        return;
      }
      if WorkloadSeen(world, e.bound, op.view, op.service).serviceId != op.serviceId {
        return;
      }
      var earlier := EarlierStagesSuspended(e.spec, e.bound, op.view, op.service, op.kind);
      hide EarlierSuspended;
      if !earlier {
        return;
      }
      var snapshot := snapshots.value[op.service];
      binding := Some(current.(phase := Some(Entering), workloads := snapshots.value));
      success := SuspendWorkload(e.spec, snapshot, op.call);
      assert Current(Now()).workloads[op.service] == snapshot;
    }

    method ResumeAction(e: Event) returns (success: bool)
      requires e.op.Resume?
      modifies this
      ensures Now() == Step(old(Now()), e)
      ensures success <==> ResumeAccepted(old(Now()), e, e.op.service, e.op.serviceId, e.op.kind, e.op.view) && e.op.call.Done?
      ensures success ==> (e.op.service in Current(old(Now())).workloads
                           && (Current(old(Now())).workloads[e.op.service].wasRunning ==> e.op.serviceId !in world.suspended))
    {
      success := false;
      var op := e.op;
      var current := Current(State(binding, world));
      if !e.adapter || op.service !in e.spec.services || op.serviceId == "" || e.spec.services[op.service] != op.kind {
        return;
      }
      if op.service !in current.workloads {
        return;
      }
      var snapshot := current.workloads[op.service];
      if snapshot.serviceId != op.serviceId || snapshot.kind != op.kind || EdgeSeen(State(binding, world), e.spec, op.view) != Up {
        return;
      }
      if Acted(op.call) && snapshot.wasRunning {
        world := world.(suspended := world.suspended - {op.serviceId});
      }
      if op.call.Failed? {
        return;
      }
      binding := Some(current.(phase := Some(Exiting)));
      success := true;
    }

    method FenceAction(e: Event) returns (success: bool)
      requires e.op.SetFence?
      modifies this
      ensures Now() == Step(old(Now()), e)
      ensures success <==> && e.adapter && e.op.access && EdgeSeen(old(Now()), e.spec, e.op.view) == Up
                           && AllSuspended(old(world), e.spec, e.bound, e.op.view) && e.op.verified && world.fenced == e.op.enabling
    {
      success := false;
      var op := e.op;
      if !e.adapter || EdgeSeen(State(binding, world), e.spec, op.view) != Up {
        return;
      }
      var names := e.spec.services.Keys;
      while names != {}
        invariant names <= e.spec.services.Keys
        invariant forall n :: n in e.spec.services && n !in names ==> WorkloadSeen(world, e.bound, op.view, n).Suspended?
        invariant Now() == old(Now()) && !success
        decreases |names|
      {
        var n :| n in names;
        names := names - {n};
        if !WorkloadSeen(world, e.bound, op.view, n).Suspended? {
          return;
        }
      }
      assert AllSuspended(world, e.spec, e.bound, op.view);
      hide AllSuspended, EdgeSeen;
      if !op.access {
        return;
      }
      var current := Current(State(binding, world));
      world := world.(fenced := if op.carriedOut then op.enabling else world.fenced);
      if !op.verified || world.fenced != op.enabling {
        return;
      }
      binding := Some(current.(phase := Some(if op.enabling then Entering else Exiting), fenced := Some(op.enabling)));
      success := true;
    }

    method VerifyAction(e: Event) returns (success: bool)
      requires e.op.Verify?
      modifies this
      ensures Now() == Step(old(Now()), e)
      ensures success <==> if e.op.entering then EnterVerified(old(Now()), e, e.op.view) else ExitVerified(old(Now()), e, e.op.view)
      ensures success && !e.op.entering ==> binding.None?
      ensures success && e.op.entering ==> Current(Now()).phase == Some(Active)
    {
      success := false;
      var op := e.op;
      if !e.adapter {
        return;
      }
      var current := Current(State(binding, world));
      if op.entering {
        if ObservedActive(State(binding, world), e.spec, e.bound, op.view) {
          binding := Some(current.(phase := Some(Active)));
          success := true;
        }
      } else {
        var restored := WorkloadsRestored(e.spec, e.bound, op.view, current.workloads);
        hide Restored;
        var unfenced := DatabaseSeen(world, e.spec, op.view) in {Unfenced, NotApplicable};
        if restored && unfenced && EdgeSeen(State(binding, world), e.spec, op.view) == Down {
          binding := None;
          success := true;
        }
      }
    }
  }

  lemma KnownAreKept(w: World, spec: Spec, bound: map<string, string>, view: View, known: map<string, Snapshot>)
    ensures forall n :: n in known ==> SnapshotOf(w, spec, bound, view, known, n) == known[n]
  {
  }

  lemma SnapshotsAre(w: World, spec: Spec, bound: map<string, string>, view: View, known: map<string, Snapshot>,
                     collected: map<string, Snapshot>)
    requires Snapshottable(w, spec, bound, view, known)
    requires forall n :: n in collected <==> n in known || n in spec.services
    requires forall n :: n in collected ==> collected[n] == SnapshotOf(w, spec, bound, view, known, n)
    ensures collected == Snapshots(w, spec, bound, view, known)
  {
  }
}
