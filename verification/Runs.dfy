/**
  Whole runs: reconciles interleaved with everything the cluster and its users may do in between.
*/
module Runs {
  import opened Replies
  import opened Cluster
  import opened Reconcile
  import opened Safety
  import opened Pods

  // ---- the environment

  /** What may happen to one pod: it gets a node and addresses once, readiness comes and goes, and a
      deletion mark stays. */
  predicate Evolved(p: Pod, q: Pod) {
    && q.name == p.name && q.created == p.created && q.affinity == p.affinity && q.migratePort == p.migratePort
    && (p.node != "" ==> q.node == p.node)
    && (p.hostIP != "" ==> q.hostIP == p.hostIP)
    && (p.podIP != "" ==> q.podIP == p.podIP)
    && (q.ready ==> q.node != "" && q.hostIP != "" && q.podIP != "")
    && (p.deleting ==> q.deleting)
  }

  /** Pods change, vanish and are listed in any order; none appears. */
  ghost predicate PodsEvolved(pods: seq<Pod>, pods': seq<Pod>) {
    && UniqueNames(pods')
    && forall q :: q in pods' ==> exists p :: p in pods && Evolved(p, q)
  }

  predicate JobEvolved(job: Option<Job>, job': Option<Job>) {
    || job'.None?
    || (&& job.Some?
        && job'.value == job.value.(succeeded := job'.value.succeeded, deleting := job'.value.deleting)
        && (job.value.deleting ==> job'.value.deleting))
  }

  predicate PresenceEvolved(p: Presence, p': Presence) {
    p' == p || (p.Going? && p'.Absent?)
  }

  /** Users change the spec, but not the volume, or ask for deletion; without finalizers that is immediate. */
  predicate RecordEdited(vm: Option<VM>, vm': Option<VM>) {
    || vm' == vm
    || (&& vm.Some? && vm'.Some?
        && vm'.value == vm.value.(spec := vm'.value.spec, deleting := vm'.value.deleting, version := vm'.value.version)
        && vm'.value.version > vm.value.version
        && vm'.value.spec.longhorn == vm.value.spec.longhorn
        && (vm.value.deleting ==> vm'.value.deleting)
        && (vm'.value.deleting ==> vm'.value.finalizers != []))
    || (vm.Some? && vm.value.finalizers == [] && vm'.None?)
  }

  ghost predicate Environment(w: World, w': World) {
    && RecordEdited(w.vm, w'.vm)
    && PodsEvolved(w.pods, w'.pods)
    && JobEvolved(w.job, w'.job)
    && (w.console.Absent? ==> w'.console.Absent?)
    && (w.service.None? ==> w'.service.None?)
    && PresenceEvolved(w.volume, w'.volume) && PresenceEvolved(w.pv, w'.pv) && PresenceEvolved(w.pvc, w'.pvc)
  }

  datatype Step = Reconciled(vm: VM, input: Input) | Elsewhere

  /** A reconcile may start from a stale copy of the record; its pod and job listings are current. */
  ghost predicate Next(w: World, s: Step, w': World) {
    match s
    case Reconciled(vm, input) => Snapshot(w, vm) && w' == Process(w, vm, input).w
    case Elsewhere => Environment(w, w')
  }

  ghost predicate Run(ws: seq<World>, steps: seq<Step>) {
    && |ws| == |steps| + 1
    && forall i :: 0 <= i < |steps| ==> Next(ws[i], steps[i], ws[i + 1])
  }

  // ---- at most two pods

  predicate AtMostTwo(w: World) {
    UniqueNames(w.pods) && |AliveNames(w.pods)| <= 2
  }

  lemma SubsetSize(a: set<string>, b: set<string>)
    requires a <= b
    ensures |a| <= |b| && (|a| == |b| ==> a == b)
  {
    assert b == a + (b - a);
  }

  lemma {:induction false} EvolvedNames(pods: seq<Pod>, pods': seq<Pod>)
    requires forall q :: q in pods' ==> exists p :: p in pods && Evolved(p, q)
    ensures AliveNames(pods') <= AliveNames(pods)
  {
    if pods' != [] {
      var n := |pods'| - 1;
      forall q | q in pods'[..n] ensures exists p :: p in pods && Evolved(p, q) {
        assert q in pods';
      }
      EvolvedNames(pods, pods'[..n]);
      assert pods'[n] in pods';
      var p :| p in pods && Evolved(p, pods'[n]);
      AliveMembers(pods, p);
    }
  }

  /** Pods vanish, and none appears. */
  lemma {:induction false} EvolvedWithin(pods: seq<Pod>, pods': seq<Pod>)
    requires forall q :: q in pods' ==> exists p :: p in pods && Evolved(p, q)
    ensures Names(pods') <= Names(pods)
  {
    if pods' != [] {
      var n := |pods'| - 1;
      forall q | q in pods'[..n] ensures exists p :: p in pods && Evolved(p, q) {
        assert q in pods';
      }
      EvolvedWithin(pods, pods'[..n]);
      assert pods'[n] in pods';
      var p :| p in pods && Evolved(p, pods'[n]);
      AliveMembers(pods, p);
    }
  }

  lemma NoMorePods(pods: seq<Pod>, pods': seq<Pod>)
    requires UniqueNames(pods) && PodsEvolved(pods, pods')
    ensures |pods'| <= |pods|
  {
    PodCount(pods);
    PodCount(pods');
    EvolvedWithin(pods, pods');
    SubsetSize(Names(pods'), Names(pods));
  }

  lemma EnvironmentKeepsTwo(w: World, w': World)
    requires AtMostTwo(w) && Environment(w, w')
    ensures AtMostTwo(w')
  {
    EvolvedNames(w.pods, w'.pods);
    SubsetSize(AliveNames(w'.pods), AliveNames(w.pods));
  }

  /** Stopping and deleting either leave the pods alone or mark them all. */
  lemma StopEffect(w: World, vm: VM, input: Input)
    ensures var r := StopVM(w, vm, input).w; r.pods == w.pods || r.pods == MarkAll(w.pods)
  {
    hide UpdateStatus, MarkAll;
    var r1 := DeleteLabelledPods(w, input.Fate(PodsDelete));
    var r2 := DeleteJob(r1.w, input.Fate(JobDelete));
    assert r2.w.pods == r1.w.pods;
    var r3 := DeleteConsole(r2.w, input.Fate(ConsoleDelete));
    assert r3.w.pods == r1.w.pods;
    var stopped := vm.(status := vm.status.(nodeName := if r1.err == NotFound then "" else vm.status.nodeName,
                                            state := StopState(r1.err, r2.err, r3.err)));
    StatusFrame(r3.w, vm, stopped, input.Fate(StopUpdate));
  }

  lemma TerminateEffect(w: World, vm: VM, input: Input)
    ensures var r := Terminate(w, vm, input).w; r.pods == w.pods || r.pods == MarkAll(w.pods)
  {
    hide UpdateStatus, MarkAll, DeleteLonghorn;
    if vm.status.state != Terminating {
      StatusFrame(w, vm, WithState(vm, Terminating), input.Fate(TerminatingUpdate));
    } else {
      var r1 := DeleteLabelledPods(w, input.Fate(PodsDelete));
      var r2 := DeleteConsole(r1.w, input.Fate(ConsoleDelete));
      assert r2.w.pods == r1.w.pods;
      var r3 := DeleteService(r2.w, input.Fate(ServiceDelete));
      assert r3.w.pods == r1.w.pods;
      DeleteLonghornFrame(r3.w, input);
      var w4 := if vm.spec.longhorn then DeleteLonghorn(r3.w, input).w else r3.w;
      StatusFrame(w4, vm, vm.(finalizers := []), input.Fate(FinalizerUpdate));
    }
  }

  /** What the pods look like after any reconcile. */
  lemma ReconcileEffect(w: World, vm: VM, input: Input)
    requires Snapshot(w, vm)
    ensures var r := Process(w, vm, input).w;
      && FreshlyNamed(w, r)
      && (|| r.pods == w.pods
          || (r.pods == MarkAll(w.pods) && (vm.deleting || vm.spec.action == Stop))
          || (StartEffect(w, r, vm, input) && !vm.deleting && vm.spec.action == Start && !Unprepared(vm)))
  {
    hide StartVM, StopVM, Terminate, CreateLonghorn, StartEffect, MarkAll;
    AliveMarkAll(w.pods);
    StopEffect(w, vm, input);
    TerminateEffect(w, vm, input);
    if !vm.deleting && !Unprepared(vm) && vm.spec.action == Start {
      CreateLonghornFrame(w, input);
      var w1 := if vm.spec.longhorn then CreateLonghorn(w, input).w else w;
      StartEffectHolds(w1, vm, input);
      SameStart(w, w1, StartVM(w1, vm, input).w, vm, input);
    }
  }

  /** Creating the volume first makes no difference to what a start does with pods. */
  lemma SameStart(w: World, w1: World, r: World, vm: VM, input: Input)
    requires w1.pods == w.pods && w1.vm == w.vm && w1.job == w.job && StartEffect(w1, r, vm, input)
    ensures StartEffect(w, r, vm, input)
  {
  }

  /** A set of alive names after one pod was marked or added. */
  lemma StartKeepsTwo(w: World, r: World, vm: VM, input: Input)
    requires AtMostTwo(w) && StartEffect(w, r, vm, input) && UniqueNames(r.pods)
    ensures AtMostTwo(r)
  {
    hide Mark, Committed, Moved, Migrated, Cancelled, BootPod, TargetPod;
    var alive := Alive(w.pods);
    AliveCount(w.pods);
    AliveCount(r.pods);
    if |r.pods| > |w.pods| {
      AliveAppend(w.pods, BootPod(vm, input));
      AliveAppend(w.pods, TargetPod(vm, input));
      AliveAppend(w.pods + [BootPod(vm, input)], TargetPod(vm, input));
    } else {
      forall name ensures AliveNames(Mark(w.pods, name)) <= AliveNames(w.pods) {
        AliveMark(w.pods, name);
      }
      SubsetSize(AliveNames(r.pods), AliveNames(w.pods));
    }
  }

  lemma CountTwo(w: World)
    requires AtMostTwo(w)
    ensures |Alive(w.pods)| <= 2
  {
    AliveCount(w.pods);
  }

  lemma ReconcileKeepsTwo(w: World, vm: VM, input: Input)
    requires AtMostTwo(w) && Snapshot(w, vm)
    ensures AtMostTwo(Process(w, vm, input).w)
  {
    hide Process, StartEffect, MarkAll;
    ReconcileEffect(w, vm, input);
    AliveMarkAll(w.pods);
    var r := Process(w, vm, input).w;
    if StartEffect(w, r, vm, input) {
      StartKeepsTwo(w, r, vm, input);
    }
  }

  lemma NextKeepsTwo(w: World, s: Step, w': World)
    requires AtMostTwo(w) && Next(w, s, w')
    ensures AtMostTwo(w')
  {
    hide Process, AtMostTwo, Environment;
    match s
    case Reconciled(vm, input) => ReconcileKeepsTwo(w, vm, input);
    case Elsewhere => EnvironmentKeepsTwo(w, w');
  }

  /**
    In every run with stale record copies, failing and lost calls, user edits, pod deaths and pods
    listed in any order, never more than two machine pods are alive.
  */
  lemma {:induction false} NeverThreePods(ws: seq<World>, steps: seq<Step>, i: nat)
    requires Run(ws, steps) && AtMostTwo(ws[0]) && i < |ws|
    ensures AtMostTwo(ws[i]) && |Alive(ws[i].pods)| <= 2
  {
    hide Next, AtMostTwo, Alive;
    if i > 0 {
      NeverThreePods(ws, steps, i - 1);
      NextKeepsTwo(ws[i - 1], steps[i - 1], ws[i]);
    }
    CountTwo(ws[i]);
  }

  // ---- why a pod is taken away

  /**
    A reconcile that starts the machine takes an alive pod away for one of three reasons only. It is the
    only pod, cannot be scheduled, and the user asked for another node. Or the user cancelled a migration
    and it is the newer pod. Or it is the older pod, both were ready, the job had succeeded, and the
    newer pod's status is already committed.
  */
  lemma WhyAPodGoes(w: World, vm: VM, input: Input, name: string)
    requires Snapshot(w, vm) && UniqueNames(w.pods) && !vm.deleting && vm.spec.action == Start
    ensures var alive := Alive(w.pods); var r := Process(w, vm, input).w;
      name in AliveNames(w.pods) && name !in AliveNames(r.pods) ==>
        || (&& |alive| == 1 && name == alive[0].name && vm.status.state == Pending && alive[0].unschedulable
            && alive[0].affinity.Some? && alive[0].affinity.value != vm.spec.nodeName)
        || (Cancelled(w, vm) && name == Newer(alive).name)
        || (&& Migrated(w, vm) && name == Older(alive).name
            && w.vm == Some(vm) && r.vm == Committed(Moved(vm, Newer(alive))))
  {
    hide Process, Mark, Committed, Moved;
    ReconcileEffect(w, vm, input);
    var alive := Alive(w.pods);
    AliveAppend(w.pods, BootPod(vm, input));
    AliveAppend(w.pods, TargetPod(vm, input));
    AliveAppend(w.pods + [BootPod(vm, input)], TargetPod(vm, input));
    if |alive| == 1 {
      AliveMark(w.pods, alive[0].name);
    } else if |alive| == 2 {
      AliveMark(w.pods, Older(alive).name);
      AliveMark(w.pods, Newer(alive).name);
    }
  }

  /** With two pods alive the older and the newer are different pods. */
  lemma TwoNames(pods: seq<Pod>)
    requires UniqueNames(pods) && |Alive(pods)| == 2
    ensures Older(Alive(pods)).name != Newer(Alive(pods)).name
    ensures AliveNames(pods) == {Older(Alive(pods)).name, Newer(Alive(pods)).name}
  {
    AliveCount(pods);
    var a := Alive(pods);
    assert a[..1] == [a[0]];
    assert Names(a) == Names(a[..1]) + {a[1].name};
  }

  /** The last alive pod is taken away only when it is unschedulable and pinned to another node. */
  lemma LastPodStays(w: World, vm: VM, input: Input)
    requires Snapshot(w, vm) && UniqueNames(w.pods) && !vm.deleting && vm.spec.action == Start
    requires AliveNames(w.pods) != {}
    ensures var alive := Alive(w.pods);
      AliveNames(Process(w, vm, input).w.pods) == {} ==>
        && |alive| == 1 && vm.status.state == Pending && alive[0].unschedulable
        && alive[0].affinity.Some? && alive[0].affinity.value != vm.spec.nodeName
  {
    hide Process, Mark, Misplaced;
    var r := Process(w, vm, input).w;
    AliveCount(w.pods);
    if AliveNames(r.pods) == {} {
      var name :| name in AliveNames(w.pods);
      WhyAPodGoes(w, vm, input, name);
      if |Alive(w.pods)| == 2 {
        TwoLeaveOne(w, vm, input);
      }
    }
  }

  /** Of two alive pods a start leaves at least one. */
  lemma TwoLeaveOne(w: World, vm: VM, input: Input)
    requires Snapshot(w, vm) && UniqueNames(w.pods) && !vm.deleting && vm.spec.action == Start && |Alive(w.pods)| == 2
    ensures AliveNames(Process(w, vm, input).w.pods) != {}
  {
    hide Process, Mark, Misplaced, Committed, Moved;
    var alive := Alive(w.pods);
    TwoNames(w.pods);
    ReconcileEffect(w, vm, input);
    AliveMark(w.pods, Older(alive).name);
    AliveMark(w.pods, Newer(alive).name);
    assert Newer(alive).name in AliveNames(w.pods) - {Older(alive).name};
    assert Older(alive).name in AliveNames(w.pods) - {Newer(alive).name};
  }
}
