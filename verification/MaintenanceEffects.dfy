/** What maintenance steps do when nothing stands in their way: the stages of a suspension, and
    the whole cycle of entering and leaving. */
module MaintenanceEffects {
  import opened Json
  import opened MaintenanceSteps
  import opened MaintenanceSafety

  /** Whatever is newly suspended goes down after every other desired workload of an earlier
      stage: a web service after all cron jobs and workers, a worker after all cron jobs. */
  lemma SuspendsInStages(s: State, e: Event, n: string)
    requires Step(s, e).world.suspended - s.world.suspended != {}
    requires n in e.spec.services && e.op.Suspend? ==> n != e.op.service
    requires n in e.spec.services && e.op.Suspend? ==>
               (e.spec.services[n] == Cron && e.op.kind in {Worker, Web}) || (e.spec.services[n] == Worker && e.op.kind == Web)
    ensures e.op.Suspend? && e.op.service in e.spec.services && e.op.kind == e.spec.services[e.op.service]
    ensures n in e.spec.services ==> n in e.bound && e.bound[n] in s.world.suspended
  {
    SuspensionGuarded(s, e);
    hide Restored, ObservedActive, ObservedInactive;
  }

  // ----------------------------------------------- nothing in the way

  /** The page is up for the desired host, as recorded. */
  predicate PageUp(s: State, spec: Spec) {
    && spec.domain.Some? && Current(s).edge.Some? && Current(s).edge.value.hostname == spec.domain.value
    && spec.domain.value in s.world.pages
  }

  /** An observation that sees everything. */
  predicate SeesAll(view: View, spec: Spec, bound: map<string, string>) {
    && view.edge && view.database
    && forall n :: n in spec.services ==> n in view.workloads && view.workloads[n] == spec.services[n] && n in bound && bound[n] != ""
  }

  /** Whatever is suspended has a snapshot to return to. */
  predicate Accounted(s: State, spec: Spec, bound: map<string, string>) {
    forall n :: n in spec.services && n in bound && bound[n] in s.world.suspended ==> n in Current(s).workloads
  }

  /** Behind the page, with everything visible and accounted for, suspending a desired workload
      is accepted exactly when those of the earlier stages are down; and then what its snapshot
      names goes down, and nothing else. */
  lemma SuspendsExactly(s: State, e: Event)
    requires e.op.Suspend? && e.adapter && PageUp(s, e.spec) && SeesAll(e.op.view, e.spec, e.bound) && Accounted(s, e.spec, e.bound)
    requires e.op.service in e.spec.services && e.op.kind == e.spec.services[e.op.service]
    requires e.op.serviceId == e.bound[e.op.service]
    ensures var accepted :=
              forall n :: n in e.spec.services && n != e.op.service && GoesBefore(e.spec.services[n], e.op.kind) ==>
                e.bound[n] in s.world.suspended;
            var t, known := Step(s, e), Current(s).workloads;
            var id := if e.op.service in known then known[e.op.service].serviceId else e.op.serviceId;
            && (!accepted ==> t == s)
            && (accepted ==>
                  && t.world == s.world.(suspended := if Acted(e.op.call) then s.world.suspended + {id} else s.world.suspended)
                  && t.binding.Some? && t.binding.value.phase == Some(Entering) && Current(t).edge == Current(s).edge
                  && Current(t).fenced == Current(s).fenced
                  && Current(t).workloads.Keys == known.Keys + e.spec.services.Keys
                  && (forall n :: n in known ==> Current(t).workloads[n] == known[n])
                  && forall n :: n in e.spec.services && n !in known ==>
                       Current(t).workloads[n] == Snapshot(e.bound[n], e.spec.services[n], true))
  {
    assert EdgeSeen(s, e.spec, e.op.view) == Up;
    assert Snapshottable(s.world, e.spec, e.bound, e.op.view, Current(s).workloads);
    assert EarlierSuspended(s.world, e.spec, e.bound, e.op.view, e.op.service, e.op.kind) <==>
           forall n :: n in e.spec.services && n != e.op.service && GoesBefore(e.spec.services[n], e.op.kind) ==>
             e.bound[n] in s.world.suspended;
    hide EarlierSuspended, Snapshottable, EdgeSeen;
  }

  /** So a cron job is never refused because of another workload. */
  lemma CronIsNeverRefused(s: State, e: Event)
    requires e.op.Suspend? && e.adapter && PageUp(s, e.spec) && SeesAll(e.op.view, e.spec, e.bound) && Accounted(s, e.spec, e.bound)
    requires e.op.service in e.spec.services && e.op.kind == Cron && e.spec.services[e.op.service] == Cron
    requires e.op.serviceId == e.bound[e.op.service] && e.op.service !in Current(s).workloads && Acted(e.op.call)
    ensures Step(s, e).world == s.world.(suspended := s.world.suspended + {e.op.serviceId})
  {
    SuspendsExactly(s, e);
    hide Step, PageUp, SeesAll, Accounted;
  }

  /** Behind the page, restoring a desired workload with an exact snapshot is accepted; it brings
      that service back if it was running, and nothing else. */
  lemma ResumesExactly(s: State, e: Event)
    requires e.op.Resume? && e.adapter && PageUp(s, e.spec) && SeesAll(e.op.view, e.spec, e.bound)
    requires e.op.service in e.spec.services && e.op.kind == e.spec.services[e.op.service] && e.op.serviceId != ""
    ensures var known, t := Current(s).workloads, Step(s, e);
            var accepted := && e.op.service in known && known[e.op.service].serviceId == e.op.serviceId
                            && known[e.op.service].kind == e.op.kind;
            && (!accepted ==> t == s)
            && (accepted ==>
                  && t.world == (if Acted(e.op.call) && known[e.op.service].wasRunning
                                 then s.world.(suspended := s.world.suspended - {e.op.serviceId}) else s.world)
                  && t.binding == if e.op.call.Done? then Some(Current(s).(phase := Some(Exiting))) else s.binding)
  {
    assert EdgeSeen(s, e.spec, e.op.view) == Up;
    hide EdgeSeen;
  }

  /** Behind the page, the fence is set or lifted exactly when every desired workload is down, and
      recorded exactly when the outcome was verified. */
  lemma FencesExactly(s: State, e: Event)
    requires e.op.SetFence? && e.adapter && e.op.access && PageUp(s, e.spec) && SeesAll(e.op.view, e.spec, e.bound)
    ensures var down, t := forall n :: n in e.spec.services ==> e.bound[n] in s.world.suspended, Step(s, e);
            && (!down ==> t == s)
            && (down ==>
                  && t.world == (if e.op.carriedOut then s.world.(fenced := e.op.enabling) else s.world)
                  && t.binding == if e.op.verified && t.world.fenced == e.op.enabling
                                  then Some(Current(s).(phase := Some(if e.op.enabling then Entering else Exiting), fenced := Some(e.op.enabling)))
                                  else s.binding)
  {
    assert EdgeSeen(s, e.spec, e.op.view) == Up;
    assert AllSuspended(s.world, e.spec, e.bound, e.op.view) <==> forall n :: n in e.spec.services ==> e.bound[n] in s.world.suspended;
    hide EdgeSeen, AllSuspended;
  }

  /** Putting up the page for the desired host shows it if the call was carried out, and records
      what the provider returned if it succeeded. */
  lemma EnablesExactly(s: State, e: Event)
    requires e.op.EnableEdge? && e.op.hash && e.op.hostname != "" && e.op.returned.Some? && Complete(e.op.returned.value)
    ensures Step(s, e) ==
              if e.spec.domain == Some(e.op.hostname) then
                State(if e.op.call.Done? then Some(Current(s).(phase := Some(Entering), edge := e.op.returned)) else s.binding,
                      if e.op.call.Done? || e.op.call.carriedOut then s.world.(pages := s.world.pages + {e.op.hostname}) else s.world)
              else s
  {
  }

  /** Everything that was running runs again, and nothing is fenced. */
  predicate BackUp(s: State, spec: Spec, bound: map<string, string>) {
    && (forall n :: n in spec.services ==>
          n in bound
          && (bound[n] in s.world.suspended <==> n in Current(s).workloads && !Current(s).workloads[n].wasRunning))
    && match spec.database { case NoDatabase => true case Postgres => !s.world.fenced case OtherEngine => false }
  }

  /** With everything visible, the recorded page comes down exactly when all is back up. */
  lemma DisablesExactly(s: State, e: Event)
    requires e.op.DisableEdge? && e.adapter && SeesAll(e.op.view, e.spec, e.bound)
    requires Current(s).edge.Some? && e.op.hostname != "" && e.spec.domain == Some(e.op.hostname)
    ensures var t := Step(s, e);
            if BackUp(s, e.spec, e.bound) then
              t == State(if e.op.call.Done? then Some(Current(s).(phase := Some(Exiting), edge := None)) else s.binding,
                         if e.op.call.Done? || e.op.call.carriedOut
                         then s.world.(pages := s.world.pages - {Current(s).edge.value.hostname}) else s.world)
            else t == s
  {
    SeenBackUp(s, e.spec, e.bound, e.op.view);
    hide Restored, DatabaseSeen, BackUp;
  }

  lemma SeenBackUp(s: State, spec: Spec, bound: map<string, string>, view: View)
    requires SeesAll(view, spec, bound)
    ensures BackUp(s, spec, bound) <==>
              Restored(s.world, spec, bound, view, Current(s).workloads) && DatabaseSeen(s.world, spec, view) in {Unfenced, NotApplicable}
  {
  }

  /** With everything visible, entering is verified exactly when page, suspensions and fence are
      in place, and leaving exactly when they all are gone. */
  lemma VerifiesExactly(s: State, e: Event)
    requires e.op.Verify? && e.adapter && SeesAll(e.op.view, e.spec, e.bound)
    ensures var t := Step(s, e);
            if e.op.entering then
              t == if && PageUp(s, e.spec) && (forall n :: n in e.spec.services ==> e.bound[n] in s.world.suspended)
                      && match e.spec.database { case NoDatabase => true case Postgres => s.world.fenced case OtherEngine => false }
                   then s.(binding := Some(Current(s).(phase := Some(Active)))) else s
            else
              t == if && e.spec.domain.Some? && e.spec.domain.value !in s.world.pages && BackUp(s, e.spec, e.bound)
                      && (Current(s).edge.Some? ==> Current(s).edge.value.hostname == e.spec.domain.value)
                   then s.(binding := None) else s
  {
    SeenBackUp(s, e.spec, e.bound, e.op.view);
    assert AllSuspended(s.world, e.spec, e.bound, e.op.view) <==> forall n :: n in e.spec.services ==> e.bound[n] in s.world.suspended;
    hide Restored, BackUp, AllSuspended;
  }

  // ------------------------------------------------------- the whole cycle

  /** The desired state of a cycle, and the order in which its workloads go down: each once, no
      one before another of an earlier stage. */
  datatype Plan = Plan(spec: Spec, bound: map<string, string>, edge: Edge, view: View, order: seq<string>)

  ghost predicate Workable(p: Plan) {
    && p.spec.domain == Some(p.edge.hostname) && Complete(p.edge) && p.spec.database != OtherEngine
    && SeesAll(p.view, p.spec, p.bound)
    && (forall n, m :: n in p.spec.services && m in p.spec.services && p.bound[n] == p.bound[m] ==> n == m)
    && (forall n :: n in p.spec.services <==> n in p.order)
    && (forall i, j :: 0 <= i < j < |p.order| ==>
          p.order[i] != p.order[j] && !GoesBefore(p.spec.services[p.order[j]], p.spec.services[p.order[i]]))
  }

  /** Before maintenance: nothing recorded, no page, no desired workload down, nothing fenced. */
  ghost predicate Normal(s: State, p: Plan) {
    && s.binding.None? && p.edge.hostname !in s.world.pages && !s.world.fenced
    && forall n :: n in p.spec.services && n in p.bound ==> p.bound[n] !in s.world.suspended
  }

  function Ev(p: Plan, op: Operation): Event { Event(p.spec, p.bound, true, op) }

  function SuspendEvent(p: Plan, n: string): Event
    requires n in p.spec.services && n in p.bound
  {
    Ev(p, Suspend(n, p.bound[n], p.spec.services[n], p.view, Done))
  }

  function ResumeEvent(p: Plan, n: string): Event
    requires n in p.spec.services && n in p.bound
  {
    Ev(p, Resume(n, p.bound[n], p.spec.services[n], p.view, Done))
  }

  ghost function Suspensions(p: Plan, k: nat): (r: seq<Event>)
    requires Workable(p) && k <= |p.order|
    ensures |r| == k
  {
    if k == 0 then [] else Suspensions(p, k - 1) + [SuspendEvent(p, p.order[k - 1])]
  }

  ghost function Resumptions(p: Plan, k: nat): (r: seq<Event>)
    requires Workable(p) && k <= |p.order|
    ensures |r| == k
  {
    if k == 0 then [] else Resumptions(p, k - 1) + [ResumeEvent(p, p.order[k - 1])]
  }

  function Fence(p: Plan, enabling: bool): seq<Event> {
    if p.spec.database == Postgres then [Ev(p, SetFence(enabling, p.view, true, true, true))] else []
  }

  ghost function EnterEvents(p: Plan): seq<Event>
    requires Workable(p)
  {
    [Ev(p, EnableEdge(p.edge.hostname, true, Done, Some(p.edge), true))] + Suspensions(p, |p.order|)
    + Fence(p, true) + [Ev(p, Verify(true, p.view))]
  }

  ghost function LeaveEvents(p: Plan): seq<Event>
    requires Workable(p)
  {
    Fence(p, false) + Resumptions(p, |p.order|)
    + [Ev(p, DisableEdge(p.edge.hostname, p.view, Done)), Ev(p, Verify(false, p.view))]
  }

  lemma {:induction false} RunOn(s: State, a: seq<Event>, b: seq<Event>)
    ensures Run(s, a + b) == Run(Run(s, a), b)
  {
    hide Step;
    if b == [] {
      assert a + b == a;
    } else {
      var init := b[..|b| - 1];
      assert (a + b)[..|a + b| - 1] == a + init;
      RunOn(s, a, init);
    }
  }

  function Ids(p: Plan, from: nat, to: nat): set<string>
    requires from <= to <= |p.order| && forall i :: from <= i < to ==> p.order[i] in p.bound
  {
    set i | from <= i < to :: p.bound[p.order[i]]
  }

  function AllSnapshots(p: Plan): map<string, Snapshot>
    requires forall n :: n in p.spec.services ==> n in p.bound
  {
    map n | n in p.spec.services :: Snapshot(p.bound[n], p.spec.services[n], true)
  }

  /** Behind the recorded page, with these suspended besides those that were before. */
  ghost predicate Behind(s: State, start: State, p: Plan, from: nat, to: nat, fenced: bool)
    requires Workable(p) && from <= to <= |p.order|
  {
    && s.binding.Some? && s.binding.value.edge == Some(p.edge)
    && s.world == World(start.world.pages + {p.edge.hostname}, start.world.suspended + Ids(p, from, to), fenced)
  }

  lemma {:induction false} AllGoDown(s: State, start: State, p: Plan, k: nat)
    requires Workable(p) && Normal(start, p) && k <= |p.order|
    requires Behind(s, start, p, 0, 0, false) && s.binding.value.workloads == map[]
    ensures var t := Run(s, Suspensions(p, k));
            && Behind(t, start, p, 0, k, false) && (k > 0 ==> t.binding.value.workloads == AllSnapshots(p))
            && (k == 0 ==> t == s)
  {
    if k > 0 {
      hide Step;
      AllGoDown(s, start, p, k - 1);
      var before, e := Run(s, Suspensions(p, k - 1)), SuspendEvent(p, p.order[k - 1]);
      assert Suspensions(p, k)[..k - 1] == Suspensions(p, k - 1);
      assert Run(s, Suspensions(p, k)) == Step(before, e);
      hide Run, Suspensions;
      NextGoesDown(before, start, p, k);
    }
  }

  lemma NextGoesDown(s: State, start: State, p: Plan, k: nat)
    requires Workable(p) && Normal(start, p) && 0 < k <= |p.order| && Behind(s, start, p, 0, k - 1, false)
    requires s.binding.value.workloads == if k == 1 then map[] else AllSnapshots(p)
    ensures var t := Step(s, SuspendEvent(p, p.order[k - 1]));
            Behind(t, start, p, 0, k, false) && t.binding.value.workloads == AllSnapshots(p)
  {
    var e := SuspendEvent(p, p.order[k - 1]);
    AccountedOnTheWay(s, start, p, k - 1);
    EarlierAreDown(s, start, p, k);
    IdsGrow(p, k);
    PlannedIsDesired(p, k - 1);
    hide Step, Accounted, GoesBefore, Ids, Workable, Normal;
    BehindThePage(s, start, p, k - 1);
    SuspendsExactly(s, e);
    hide SeesAll, PageUp;
    var t := Step(s, e);
    StillComplete(t);
    SnapshotsAre(s.binding.value.workloads, Current(t).workloads, p);
    SuspendedNow(s, start, p, k);
  }

  lemma BehindThePage(s: State, start: State, p: Plan, k: nat)
    requires Workable(p) && k <= |p.order| && Behind(s, start, p, 0, k, false)
    ensures PageUp(s, p.spec) && Current(s) == s.binding.value
  {
    hide SeesAll, GoesBefore, Ids;
  }

  lemma StillComplete(t: State)
    ensures t.binding.Some? ==> Current(t).workloads == t.binding.value.workloads
    ensures t.binding.Some? && Current(t).edge.Some? ==> Current(t) == t.binding.value
  {
  }

  lemma SuspendedNow(s: State, start: State, p: Plan, k: nat)
    requires Workable(p) && 0 < k <= |p.order| && Behind(s, start, p, 0, k - 1, false) && p.order[k - 1] in p.bound
    requires Ids(p, 0, k) == Ids(p, 0, k - 1) + {p.bound[p.order[k - 1]]}
    ensures s.world.(suspended := s.world.suspended + {p.bound[p.order[k - 1]]}) ==
              World(start.world.pages + {p.edge.hostname}, start.world.suspended + Ids(p, 0, k), false)
  {
    hide Ids, GoesBefore, SeesAll;
  }

  lemma SnapshotsAre(known: map<string, Snapshot>, after: map<string, Snapshot>, p: Plan)
    requires forall n :: n in p.spec.services ==> n in p.bound
    requires known == map[] || known == AllSnapshots(p)
    requires after.Keys == known.Keys + p.spec.services.Keys && forall n :: n in known ==> after[n] == known[n]
    requires forall n :: n in p.spec.services && n !in known ==> after[n] == Snapshot(p.bound[n], p.spec.services[n], true)
    ensures after == AllSnapshots(p)
  {
  }

  lemma PlannedIsDesired(p: Plan, i: nat)
    requires Workable(p) && i < |p.order|
    ensures p.order[i] in p.spec.services && SeesAll(p.view, p.spec, p.bound) && p.spec.domain == Some(p.edge.hostname)
    ensures Complete(p.edge) && forall n :: n in p.spec.services ==> n in p.bound
  {
    hide GoesBefore;
  }

  lemma IdsGrow(p: Plan, k: nat)
    requires Workable(p) && 0 < k <= |p.order|
    ensures Ids(p, 0, k) == Ids(p, 0, k - 1) + {p.bound[p.order[k - 1]]}
  {
    hide GoesBefore, SeesAll;
  }

  lemma AccountedOnTheWay(s: State, start: State, p: Plan, k: nat)
    requires Workable(p) && Normal(start, p) && k < |p.order| && Behind(s, start, p, 0, k, false)
    requires s.binding.value.workloads == if k == 0 then map[] else AllSnapshots(p)
    ensures Accounted(s, p.spec, p.bound)
  {
    hide SeesAll, GoesBefore;
  }

  /** The stages before the k-th workload's come before it in the order. */
  lemma EarlierAreDown(s: State, start: State, p: Plan, k: nat)
    requires Workable(p) && 0 < k <= |p.order| && Behind(s, start, p, 0, k - 1, false)
    ensures var last := p.order[k - 1];
            forall n :: n in p.spec.services && n != last && GoesBefore(p.spec.services[n], p.spec.services[last]) ==>
              n in p.bound && p.bound[n] in s.world.suspended
  {
    hide GoesBefore;
    forall n | n in p.spec.services && n != p.order[k - 1] && GoesBefore(p.spec.services[n], p.spec.services[p.order[k - 1]])
      ensures p.bound[n] in s.world.suspended
    {
      var i :| 0 <= i < |p.order| && p.order[i] == n;
      assert i < k - 1;
      assert p.bound[p.order[i]] in Ids(p, 0, k - 1);
    }
  }

  lemma {:induction false} AllComeBack(s: State, start: State, p: Plan, k: nat)
    requires Workable(p) && Normal(start, p) && k <= |p.order| && Behind(s, start, p, 0, |p.order|, false)
    requires |p.order| > 0 ==> s.binding.value.workloads == AllSnapshots(p)
    ensures var t := Run(s, Resumptions(p, k));
            Behind(t, start, p, k, |p.order|, false) && t.binding.value.workloads == s.binding.value.workloads
  {
    if k > 0 {
      hide Step;
      AllComeBack(s, start, p, k - 1);
      var before, e := Run(s, Resumptions(p, k - 1)), ResumeEvent(p, p.order[k - 1]);
      assert Resumptions(p, k)[..k - 1] == Resumptions(p, k - 1);
      assert Run(s, Resumptions(p, k)) == Step(before, e);
      hide Run, Resumptions;
      NextComesBack(before, start, p, k);
    }
  }

  lemma NextComesBack(s: State, start: State, p: Plan, k: nat)
    requires Workable(p) && Normal(start, p) && 0 < k <= |p.order| && Behind(s, start, p, k - 1, |p.order|, false)
    requires s.binding.value.workloads == AllSnapshots(p)
    ensures var t := Step(s, ResumeEvent(p, p.order[k - 1]));
            Behind(t, start, p, k, |p.order|, false) && t.binding.value.workloads == AllSnapshots(p)
  {
    var e := ResumeEvent(p, p.order[k - 1]);
    ResumesExactly(s, e);
    hide Step, SeesAll, GoesBefore;
    OneBack(p, k, start.world.suspended);
  }

  lemma OneBack(p: Plan, k: nat, before: set<string>)
    requires Workable(p) && 0 < k <= |p.order|
    requires forall n :: n in p.spec.services && n in p.bound ==> p.bound[n] !in before
    ensures before + Ids(p, k - 1, |p.order|) - {p.bound[p.order[k - 1]]} == before + Ids(p, k, |p.order|)
  {
    hide GoesBefore;
    var id := p.bound[p.order[k - 1]];
    assert Ids(p, k - 1, |p.order|) == Ids(p, k, |p.order|) + {id};
    assert id !in Ids(p, k, |p.order|);
  }

  /** Entering with providers that do as they are told: every desired workload goes down in its
      stage behind the page, the database is fenced, and the record says active. */
  lemma EnteringWorks(s: State, p: Plan)
    requires Workable(p) && Normal(s, p)
    ensures var t := Run(s, EnterEvents(p));
            && RecordedActive(t) && BoundaryUp(t.world, p.spec, p.bound)
            && Behind(t, s, p, 0, |p.order|, p.spec.database == Postgres)
            && (|p.order| > 0 ==> t.binding.value.workloads == AllSnapshots(p))
  {
    var enable := Ev(p, EnableEdge(p.edge.hostname, true, Done, Some(p.edge), true));
    var one := Step(s, enable);
    OneEvent(s, enable);
    EnablesExactly(s, enable);
    assert Behind(one, s, p, 0, 0, false) && one.binding.value.workloads == map[];
    AllGoDown(one, s, p, |p.order|);
    var down := Run(one, Suspensions(p, |p.order|));
    var fenced := Run(down, Fence(p, true));
    FenceWorks(down, s, p, true);
    OneEvent(fenced, Ev(p, Verify(true, p.view)));
    VerifyEnters(fenced, s, p);
    RunOn(s, [enable], Suspensions(p, |p.order|));
    RunOn(s, [enable] + Suspensions(p, |p.order|), Fence(p, true));
    RunOn(s, [enable] + Suspensions(p, |p.order|) + Fence(p, true), [Ev(p, Verify(true, p.view))]);
    hide Step, Run, Suspensions, Fence, Behind, Workable, Normal;
  }

  lemma OneEvent(s: State, e: Event)
    ensures Run(s, [e]) == Step(s, e)
  {
    assert [e][..0] == [];
    hide Step;
  }

  lemma AllDown(s: State, start: State, p: Plan, fenced: bool)
    requires Workable(p) && Behind(s, start, p, 0, |p.order|, fenced)
    ensures forall n :: n in p.spec.services ==> p.bound[n] in s.world.suspended
  {
    forall n | n in p.spec.services ensures p.bound[n] in s.world.suspended {
      var i :| 0 <= i < |p.order| && p.order[i] == n;
      assert p.bound[p.order[i]] in Ids(p, 0, |p.order|);
    }
    hide GoesBefore, SeesAll;
  }

  lemma FenceWorks(s: State, start: State, p: Plan, enabling: bool)
    requires Workable(p) && Behind(s, start, p, 0, |p.order|, !enabling && p.spec.database == Postgres)
    ensures var t := Run(s, Fence(p, enabling));
            && Behind(t, start, p, 0, |p.order|, enabling && p.spec.database == Postgres)
            && t.binding.value.workloads == s.binding.value.workloads
  {
    if p.spec.database == Postgres {
      var e := Ev(p, SetFence(enabling, p.view, true, true, true));
      OneEvent(s, e);
      AllDown(s, start, p, !enabling);
      FencesExactly(s, e);
    }
    hide Step, GoesBefore, Ids;
  }

  lemma VerifyEnters(s: State, start: State, p: Plan)
    requires Workable(p) && Behind(s, start, p, 0, |p.order|, p.spec.database == Postgres)
    ensures var t := Step(s, Ev(p, Verify(true, p.view)));
            && RecordedActive(t) && BoundaryUp(t.world, p.spec, p.bound) && t.binding.value.workloads == s.binding.value.workloads
            && Behind(t, start, p, 0, |p.order|, p.spec.database == Postgres)
  {
    AllDown(s, start, p, p.spec.database == Postgres);
    VerifiesExactly(s, Ev(p, Verify(true, p.view)));
    hide Step, GoesBefore, Ids;
  }

  /** And leaving again gives back exactly the state before. */
  lemma CycleComesBack(s: State, p: Plan)
    requires Workable(p) && Normal(s, p)
    ensures Run(s, EnterEvents(p) + LeaveEvents(p)) == s
  {
    EnteringWorks(s, p);
    var active := Run(s, EnterEvents(p));
    RunOn(s, EnterEvents(p), LeaveEvents(p));
    FenceWorks(active, s, p, false);
    var unfenced := Run(active, Fence(p, false));
    AllComeBack(unfenced, s, p, |p.order|);
    var back := Run(unfenced, Resumptions(p, |p.order|));
    var disable, verify := Ev(p, DisableEdge(p.edge.hostname, p.view, Done)), Ev(p, Verify(false, p.view));
    LastTwo(back, s, p);
    assert [disable, verify][..1] == [disable];
    OneEvent(back, disable);
    assert Run(back, [disable, verify]) == Step(Step(back, disable), verify);
    RunOn(active, Fence(p, false), Resumptions(p, |p.order|));
    RunOn(active, Fence(p, false) + Resumptions(p, |p.order|), [disable, verify]);
    hide Step, EnterEvents, Resumptions, Fence, Behind, Workable, Normal;
  }

  lemma LastTwo(s: State, start: State, p: Plan)
    requires Workable(p) && Normal(start, p) && Behind(s, start, p, |p.order|, |p.order|, false)
    requires |p.order| > 0 ==> s.binding.value.workloads == AllSnapshots(p)
    ensures Step(Step(s, Ev(p, DisableEdge(p.edge.hostname, p.view, Done))), Ev(p, Verify(false, p.view))) == start
  {
    var disable, verify := Ev(p, DisableEdge(p.edge.hostname, p.view, Done)), Ev(p, Verify(false, p.view));
    assert p.order == [] ==> p.spec.services == map[];
    assert Ids(p, |p.order|, |p.order|) == {};
    assert BackUp(s, p.spec, p.bound) by { hide GoesBefore; }
    DisablesExactly(s, disable);
    var down := Step(s, disable);
    assert start.world.pages + {p.edge.hostname} - {p.edge.hostname} == start.world.pages;
    assert BackUp(down, p.spec, p.bound) by { hide GoesBefore; }
    VerifiesExactly(down, verify);
    hide Step, GoesBefore;
  }
}
