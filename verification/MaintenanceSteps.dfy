/** Entering and leaving maintenance: put up the edge, suspend cron jobs, workers and web
    services, fence the database, and back. Each step may be retried and may be carried out
    by a provider that then reports failure. The desired state and the local service bindings
    may be different at every step. */
module MaintenanceSteps {
  import opened Json

  datatype Kind = Cron | Worker | Web

  function Rank(k: Kind): nat {
    match k
    case Cron => 0
    case Worker => 1
    case Web => 2
  }

  /** Cron jobs go down first, then workers, then web services. */
  predicate GoesBefore(a: Kind, b: Kind) {
    match b
    case Cron => false
    case Worker => a == Cron
    case Web => a == Cron || a == Worker
  }

  lemma RankMeans(a: Kind, b: Kind)
    ensures Rank(a) < Rank(b) <==> GoesBefore(a, b)
  {
  }

  datatype Database = NoDatabase | Postgres | OtherEngine

  /** The desired state a step is run with. */
  datatype Spec = Spec(domain: Option<string>, services: map<string, Kind>, database: Database)

  datatype Edge = Edge(
    hostname: string, accountId: string, zoneId: string, routeId: string, scriptName: string, contentHash: string)

  datatype Snapshot = Snapshot(serviceId: string, kind: Kind, wasRunning: bool)

  datatype Phase = Entering | Active | Exiting

  datatype Binding = Binding(
    phase: Option<Phase>, edge: Option<Edge>, workloads: map<string, Snapshot>, fenced: Option<bool>)

  const UNBOUND := Binding(None, None, map[], None)

  /** The providers: the host names that serve the maintenance page, the suspended services,
      and whether the database is fenced. */
  datatype World = World(pages: set<string>, suspended: set<string>, fenced: bool)

  datatype State = State(binding: Option<Binding>, world: World)

  predicate Complete(e: Edge) {
    e.hostname != "" && e.accountId != "" && e.zoneId != "" && e.routeId != "" && e.scriptName != "" && e.contentHash != ""
  }

  /** Reading the binding drops an edge that lacks any of its six fields. */
  function Current(s: State): Binding {
    if s.binding.None? then UNBOUND
    else
      var b := s.binding.value;
      if b.edge.Some? && !Complete(b.edge.value) then b.(edge := None) else b
  }

  // ------------------------------------------------------------ observations

  /** What an observation gets to see; anything else comes back unknown. A service is seen
      with the kind the provider reports for it. */
  datatype View = View(edge: bool, workloads: map<string, Kind>, database: bool)

  datatype EdgeState = Up | Down | EdgeUnknown

  datatype Seen = Running(serviceId: string, kind: Kind) | Suspended(serviceId: string, kind: Kind) | Unseen

  datatype Fencing = Fenced | Unfenced | NotApplicable | FencingUnknown

  /** A page counts as up only for the recorded identity: one that is not recorded, or
      recorded for another host, comes back unknown. */
  function EdgeSeen(s: State, spec: Spec, view: View): EdgeState {
    var edge := Current(s).edge;
    if spec.domain.None? || !view.edge then EdgeUnknown
    else if edge.None? then if spec.domain.value in s.world.pages then EdgeUnknown else Down
    else if edge.value.hostname != spec.domain.value then EdgeUnknown
    else if spec.domain.value in s.world.pages then Up else Down
  }

  function WorkloadSeen(w: World, bound: map<string, string>, view: View, name: string): Seen {
    if name !in bound || bound[name] == "" || name !in view.workloads then Unseen
    else if bound[name] in w.suspended then Suspended(bound[name], view.workloads[name])
    else Running(bound[name], view.workloads[name])
  }

  function DatabaseSeen(w: World, spec: Spec, view: View): Fencing {
    match spec.database
    case NoDatabase => NotApplicable
    case OtherEngine => FencingUnknown
    case Postgres => if !view.database then FencingUnknown else if w.fenced then Fenced else Unfenced
  }

  /** maintenanceWorkloadsRestored. */
  predicate Restored(w: World, spec: Spec, bound: map<string, string>, view: View, workloads: map<string, Snapshot>) {
    forall n :: n in spec.services ==>
      var seen := WorkloadSeen(w, bound, view, n);
      if n in workloads && !workloads[n].wasRunning then seen.Suspended? else seen.Running?
  }

  predicate AllSuspended(w: World, spec: Spec, bound: map<string, string>, view: View) {
    forall n :: n in spec.services ==> WorkloadSeen(w, bound, view, n).Suspended?
  }

  predicate ObservedActive(s: State, spec: Spec, bound: map<string, string>, view: View) {
    && EdgeSeen(s, spec, view) == Up && AllSuspended(s.world, spec, bound, view)
    && DatabaseSeen(s.world, spec, view) in {Fenced, NotApplicable}
  }

  predicate ObservedInactive(s: State, spec: Spec, bound: map<string, string>, view: View) {
    && EdgeSeen(s, spec, view) == Down && Restored(s.world, spec, bound, view, Current(s).workloads)
    && DatabaseSeen(s.world, spec, view) in {Unfenced, NotApplicable}
  }

  // ------------------------------------------------------------------ steps

  /** A provider call: done, or reported as failed and perhaps carried out all the same. */
  datatype Call = Done | Failed(carriedOut: bool)

  predicate Acted(c: Call) { c.Done? || c.carriedOut }

  datatype Operation =
    | EnableEdge(hostname: string, hash: bool, call: Call, returned: Option<Edge>, marker: bool)
    | DisableEdge(hostname: string, view: View, call: Call)
    | Suspend(service: string, serviceId: string, kind: Kind, view: View, call: Call)
    | Resume(service: string, serviceId: string, kind: Kind, view: View, call: Call)
    | SetFence(enabling: bool, view: View, access: bool, carriedOut: bool, verified: bool)
    | Verify(entering: bool, view: View)

  /** `adapter`: the hosting adapter is connected and supports the operation. */
  datatype Event = Event(spec: Spec, bound: map<string, string>, adapter: bool, op: Operation)

  predicate DurableIdentity(e: Option<Edge>) {
    e.Some? && e.value.routeId != "" && e.value.scriptName != "" && e.value.contentHash != ""
  }

  function EnableEdgeStep(s: State, spec: Spec, hostname: string, hash: bool, call: Call,
                          returned: Option<Edge>): State {
    if hostname == "" || spec.domain != Some(hostname) || !hash then s
    else
      var t := if Acted(call) then s.(world := s.world.(pages := s.world.pages + {hostname})) else s;
      if call.Failed? || !DurableIdentity(returned) then t
      else t.(binding := Some(Current(s).(phase := Some(Entering), edge := returned)))
  }

  predicate DisableAccepted(s: State, e: Event, hostname: string, view: View) {
    && hostname != "" && e.spec.domain == Some(hostname)
    && Current(s).edge.Some? && e.adapter
    && Restored(s.world, e.spec, e.bound, view, Current(s).workloads)
    && DatabaseSeen(s.world, e.spec, view) in {Unfenced, NotApplicable}
  }

  /** What comes down is the page of the recorded identity. */
  function DisableEdgeStep(s: State, e: Event, hostname: string, view: View, call: Call): State {
    if !DisableAccepted(s, e, hostname, view) then s
    else
      var recorded := Current(s).edge.value.hostname;
      var t := if Acted(call) then s.(world := s.world.(pages := s.world.pages - {recorded})) else s;
      if call.Failed? then t else t.(binding := Some(Current(s).(phase := Some(Exiting), edge := None)))
  }

  /** A desired workload is seen, with its kind, and is running unless it already has a
      snapshot. */
  predicate SnapshottableOne(w: World, spec: Spec, bound: map<string, string>, view: View,
                             known: map<string, Snapshot>, n: string)
    requires n in spec.services
  {
    var seen := WorkloadSeen(w, bound, view, n);
    !seen.Unseen? && seen.kind == spec.services[n] && (n in known || seen.Running?)
  }

  predicate Snapshottable(w: World, spec: Spec, bound: map<string, string>, view: View,
                          known: map<string, Snapshot>) {
    forall n :: n in spec.services ==> SnapshottableOne(w, spec, bound, view, known, n)
  }

  function SnapshotOf(w: World, spec: Spec, bound: map<string, string>, view: View, known: map<string, Snapshot>,
                      n: string): Snapshot
    requires n in known || (n in spec.services && SnapshottableOne(w, spec, bound, view, known, n))
  {
    if n in known then known[n] else Snapshot(bound[n], spec.services[n], WorkloadSeen(w, bound, view, n).Running?)
  }

  /** Existing snapshots are never overwritten. */
  function Snapshots(w: World, spec: Spec, bound: map<string, string>, view: View,
                     known: map<string, Snapshot>): map<string, Snapshot>
    requires Snapshottable(w, spec, bound, view, known)
  {
    map n | n in known.Keys + spec.services.Keys :: SnapshotOf(w, spec, bound, view, known, n)
  }

  predicate EarlierSuspended(w: World, spec: Spec, bound: map<string, string>, view: View, service: string,
                             kind: Kind) {
    forall n :: n in spec.services && n != service && Rank(spec.services[n]) < Rank(kind) ==>
      WorkloadSeen(w, bound, view, n).Suspended?
  }

  predicate SuspendAccepted(s: State, e: Event, service: string, serviceId: string, kind: Kind, view: View) {
    && e.adapter && service in e.spec.services && e.spec.services[service] == kind && serviceId != ""
    && EdgeSeen(s, e.spec, view) == Up
    && Snapshottable(s.world, e.spec, e.bound, view, Current(s).workloads)
    && e.bound[service] == serviceId
    && EarlierSuspended(s.world, e.spec, e.bound, view, service, kind)
  }

  /** The snapshots are stored before the provider is asked, and the provider is given the
      stored snapshot. */
  function SuspendStep(s: State, e: Event, service: string, serviceId: string, kind: Kind, view: View,
                       call: Call): State {
    if !SuspendAccepted(s, e, service, serviceId, kind, view) then s
    else
      var saved := Snapshots(s.world, e.spec, e.bound, view, Current(s).workloads);
      State(Some(Current(s).(phase := Some(Entering), workloads := saved)),
            if Acted(call) then s.world.(suspended := s.world.suspended + {saved[service].serviceId}) else s.world)
  }

  predicate ResumeAccepted(s: State, e: Event, service: string, serviceId: string, kind: Kind, view: View) {
    && e.adapter && service in e.spec.services && e.spec.services[service] == kind && serviceId != ""
    && service in Current(s).workloads
    && Current(s).workloads[service].serviceId == serviceId && Current(s).workloads[service].kind == kind
    && EdgeSeen(s, e.spec, view) == Up
  }

  /** Restoring brings a workload back to what its snapshot recorded. */
  function ResumeStep(s: State, e: Event, service: string, serviceId: string, kind: Kind, view: View,
                      call: Call): State {
    if !ResumeAccepted(s, e, service, serviceId, kind, view) then s
    else
      var snapshot := Current(s).workloads[service];
      var t := if Acted(call) && snapshot.wasRunning
               then s.(world := s.world.(suspended := s.world.suspended - {serviceId})) else s;
      if call.Failed? then t else t.(binding := Some(Current(s).(phase := Some(Exiting))))
  }

  function FenceStep(s: State, e: Event, enabling: bool, view: View, access: bool, carriedOut: bool,
                     verified: bool): State {
    if || !e.adapter || !access
       || EdgeSeen(s, e.spec, view) != Up || !AllSuspended(s.world, e.spec, e.bound, view)
    then s
    else
      var fenced := if carriedOut then enabling else s.world.fenced;
      var t := s.(world := s.world.(fenced := fenced));
      if !verified || fenced != enabling then t
      else t.(binding := Some(Current(s).(phase := Some(if enabling then Entering else Exiting), fenced := Some(enabling))))
  }

  predicate EnterVerified(s: State, e: Event, view: View) {
    e.adapter && ObservedActive(s, e.spec, e.bound, view)
  }

  predicate ExitVerified(s: State, e: Event, view: View) {
    e.adapter && ObservedInactive(s, e.spec, e.bound, view)
  }

  function VerifyStep(s: State, e: Event, entering: bool, view: View): State {
    if entering then
      if EnterVerified(s, e, view) then s.(binding := Some(Current(s).(phase := Some(Active)))) else s
    else if ExitVerified(s, e, view) then s.(binding := None) else s
  }

  function Step(s: State, e: Event): State {
    match e.op
    case EnableEdge(hostname, hash, call, returned, _) => EnableEdgeStep(s, e.spec, hostname, hash, call, returned)
    case DisableEdge(hostname, view, call) => DisableEdgeStep(s, e, hostname, view, call)
    case Suspend(service, serviceId, kind, view, call) => SuspendStep(s, e, service, serviceId, kind, view, call)
    case Resume(service, serviceId, kind, view, call) => ResumeStep(s, e, service, serviceId, kind, view, call)
    case SetFence(enabling, view, access, carriedOut, verified) =>
      FenceStep(s, e, enabling, view, access, carriedOut, verified)
    case Verify(entering, view) => VerifyStep(s, e, entering, view)
  }

  function Run(s: State, events: seq<Event>): State {
    if events == [] then s else Step(Run(s, events[..|events| - 1]), events[|events| - 1])
  }
}
