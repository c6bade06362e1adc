/**
  Which job a migration ends with. Deleting the migration job in the foreground leaves it listed until
  its pod is gone, and `runMigrationJob` looks only at the job's name and success count.
*/
module StaleJob {
  import opened Replies
  import opened Cluster
  import opened Reconcile
  import opened Safety
  import opened Pods
  import opened Runs
  import opened Ownership
  import opened Protocol

  /** A step that adds the second pod, and one that takes the older of two away and leaves the newer. */
  predicate Starts(w: World, w': World) {
    |Alive(w.pods)| == 1 && |Alive(w'.pods)| == 2
  }

  predicate Finishes(w: World, w': World) {
    |Alive(w.pods)| == 2 && Alive(w'.pods) == [Newer(Alive(w.pods))]
  }

  /** While two pods are alive, no job that was told to go is listed. */
  ghost predicate OwnJob(w: World) {
    InProtocol(w) && (|Alive(w.pods)| == 2 && w.job.Some? ==> !w.job.value.deleting)
  }

  /** Only the controller tells a job to go. */
  predicate JobLeftAlone(w: World, w': World) {
    w'.job.Some? && w'.job.value.deleting ==> w.job.Some? && w.job.value.deleting
  }

  /** A calm step in which a migration starts only when no job is listed. */
  ghost predicate CleanNext(w: World, s: Step, w': World) {
    && CalmNext(w, s, w')
    && (s.Elsewhere? ==> JobLeftAlone(w, w'))
    && (s.Reconciled? && Starts(w, w') ==> w.job.None?)
  }

  ghost predicate CleanRun(ws: seq<World>, steps: seq<Step>) {
    && |ws| == |steps| + 1
    && forall i :: 0 <= i < |steps| ==> CleanNext(ws[i], steps[i], ws[i + 1])
  }

  /** What one reconcile can do to the number of alive pods and to the job, by the number before. */
  lemma JobAfterReconcile(w: World, vm: VM, input: Input)
    requires InProtocol(w) && w.vm == Some(vm) && Calm(w, input)
    ensures var r := Process(w, vm, input).w;
      |Alive(r.pods)| == 2 ==>
        || (|Alive(w.pods)| == 1 && r.job == w.job)
        || (|Alive(w.pods)| == 2 && (r.job == w.job || (w.job.None? && r.job.Some? && !r.job.value.deleting)))
  {
    hide StartVM, StopVM, CreateLonghorn, Alive, UniqueNames, Names, Mark, MarkAll;
    if !Unprepared(vm) && vm.spec.action == Stop {
      CalmStop(w, vm, input);
      AliveMarkAll(w.pods);
    } else if !Unprepared(vm) && vm.spec.action == Start {
      CreateLonghornFrame(w, input);
      var w1 := if vm.spec.longhorn then CreateLonghorn(w, input).w else w;
      JobAfterStart(w1, vm, input);
    }
  }

  lemma JobAfterStart(w: World, vm: VM, input: Input)
    requires InProtocol(w) && w.vm == Some(vm) && Calm(w, input) && vm.spec.action == Start
    ensures var r := StartVM(w, vm, input).w;
      |Alive(r.pods)| == 2 ==>
        || (|Alive(w.pods)| == 1 && r.job == w.job)
        || (|Alive(w.pods)| == 2 && (r.job == w.job || (w.job.None? && r.job.Some? && !r.job.value.deleting)))
  {
    hide StartVM, Alive, UniqueNames, Names, Mark, Settled, Calm;
    var alive := Alive(w.pods);
    if Lookup(w) != Nil {
      LookupFirst(w, vm, input);
    } else if |alive| == 0 {
      BootKeepsProtocol(w, vm, input);
    } else if |alive| == 1 {
      assert alive == [alive[0]];
      SingleStep(w, vm, alive[0], input);
    } else {
      PairStep(w, vm, input);
      MarkedPair(w.pods, Older(alive), Newer(alive));
      MarkedPair(w.pods, Newer(alive), Older(alive));
    }
  }

  lemma NextKeepsOwnJob(w: World, s: Step, w': World)
    requires OwnJob(w) && CleanNext(w, s, w')
    ensures OwnJob(w')
  {
    hide Process, Alive, InProtocol, UniqueNames;
    NextKeepsProtocol(w, s, w');
    match s
    case Reconciled(vm, input) => JobAfterReconcile(w, vm, input);
    case Elsewhere =>
      if |Alive(w'.pods)| == 2 {
        TwoBefore(w, w');
      }
  }

  lemma TwoBefore(w: World, w': World)
    requires InProtocol(w) && Orderly(w, w') && |Alive(w'.pods)| == 2
    ensures |Alive(w.pods)| == 2
  {
    hide Alive;
    AliveCount(w.pods);
    AliveCount(w'.pods);
    EvolvedNames(w.pods, w'.pods);
    SubsetSize(AliveNames(w'.pods), AliveNames(w.pods));
  }

  /** A reconcile that finishes a migration saw the job succeed. */
  lemma FinishMeansMigrated(w: World, vm: VM, input: Input)
    requires InProtocol(w) && w.vm == Some(vm) && Finishes(w, Process(w, vm, input).w)
    ensures Migrated(w, vm)
  {
    hide Process, Alive, UniqueNames, AliveNames, Names, Mark, MarkAll, Migrated;
    var r := Process(w, vm, input).w;
    var source := Older(Alive(w.pods));
    TwoNames(w.pods);
    ReconcileEffect(w, vm, input);
    AliveMarkAll(w.pods);
    AliveCount(r.pods);
    OneName(Alive(r.pods));
    if vm.spec.action == Start && !vm.deleting {
      WhyAPodGoes(w, vm, input, source.name);
    }
  }

  lemma OneName(alive: seq<Pod>)
    requires |alive| == 1
    ensures Names(alive) == {alive[0].name}
  {
    assert alive[..0] == [];
  }

  /**
    In every calm run in which migrations start with no job listed, the step that takes the older pod
    away saw a job that moves the machine from that very pod to the newer one, and the job had succeeded.
  */
  lemma {:induction false} MigrationEndsWithItsOwnJob(ws: seq<World>, steps: seq<Step>, i: nat)
    requires CleanRun(ws, steps) && OwnJob(ws[0]) && i < |ws|
    ensures OwnJob(ws[i])
    ensures i < |steps| && steps[i].Reconciled? && Finishes(ws[i], ws[i + 1]) ==>
              && ws[i].job.Some? && ws[i].job.value.succeeded == 1
              && Moves(ws[i].job.value, Older(Alive(ws[i].pods)), Newer(Alive(ws[i].pods)))
  {
    hide Process, Alive, UniqueNames;
    if i > 0 {
      MigrationEndsWithItsOwnJob(ws, steps, i - 1);
      assert CleanNext(ws[i - 1], steps[i - 1], ws[i]);
      NextKeepsOwnJob(ws[i - 1], steps[i - 1], ws[i]);
    }
    if i < |steps| && steps[i].Reconciled? && Finishes(ws[i], ws[i + 1]) {
      assert CleanNext(ws[i], steps[i], ws[i + 1]);
      FinishMeansMigrated(ws[i], steps[i].vm, steps[i].input);
    }
  }

  // ---- the converse: a listed job ends the next migration

  lemma CalmLonghorn(w: World, input: Input)
    requires input.faults == map[] && w.image.ImageReady?
    ensures CreateLonghorn(w, input).err == Nil
  {
  }

  /** Reconciling a started machine is starting it, once its storage is complete. */
  function WithStorage(w: World, vm: VM, input: Input): World {
    if vm.spec.longhorn then CreateLonghorn(w, input).w else w
  }

  lemma CalmProcess(w: World, vm: VM, input: Input)
    requires input.faults == map[] && Lookup(w) == Nil
    requires !vm.deleting && !Unprepared(vm) && vm.spec.action == Start
    ensures Process(w, vm, input).w == StartVM(WithStorage(w, vm, input), vm, input).w
    ensures var w1 := WithStorage(w, vm, input); w1 == w.(volume := w1.volume, pv := w1.pv, pvc := w1.pvc)
  {
    hide StartVM, CreateLonghorn;
    CalmLonghorn(w, input);
    CreateLonghornFrame(w, input);
  }

  /** The state in which a migration starts, and what the start leaves. */
  lemma StartShape(w: World, vm: VM, input: Input)
    requires InProtocol(w) && w.vm == Some(vm) && Calm(w, input) && Starts(w, Process(w, vm, input).w)
    ensures !Unprepared(vm) && vm.spec.action == Start && Lookup(w) == Nil
    ensures Alive(w.pods)[0].ready && OnWrongNode(vm, Alive(w.pods)[0])
    ensures var r := Process(w, vm, input).w;
      && r.pods == w.pods + [TargetPod(vm, input)] && r.job == w.job
      && r.vm == Committed(WithState(vm, Migrating)) && Lookup(r) == Nil
  {
    hide StartVM, StopVM, CreateLonghorn, Alive, UniqueNames, Names, Mark, MarkAll, Settled;
    var p := Alive(w.pods)[0];
    assert Alive(w.pods) == [p];
    CreateLonghornFrame(w, input);
    CalmStop(w, vm, input);
    AliveMarkAll(w.pods);
    var w1 := WithStorage(w, vm, input);
    if Lookup(w) == Nil {
      SingleStep(w1, vm, p, input);
      OnlyName(w.pods, p);
    } else {
      LookupFirst(w1, vm, input);
    }
  }

  /** The world in which the new pod came up on the requested node while the listed job had succeeded. */
  function CameUp(vm: VM, target: Pod): Pod {
    target.(node := vm.spec.nodeName, hostIP := "10.0.0.1", podIP := "10.0.0.1", ready := true)
  }

  /**
    Whenever a migration starts while a job is still listed, that job was told to go before the target
    existed, and there is an orderly continuation in which the next reconcile takes the source pod away
    on the word of that job.
  */
  lemma LingeringJobEndsMigration(w: World, vm: VM, input: Input, next: Input)
    requires InProtocol(w) && w.vm == Some(vm) && Calm(w, input) && Starts(w, Process(w, vm, input).w)
    requires w.job.Some? && Calm(Process(w, vm, input).w, next)
    ensures w.job.value.deleting
    ensures exists u ::
      && Orderly(Process(w, vm, input).w, u) && JobLeftAlone(Process(w, vm, input).w, u)
      && u.job == Some(w.job.value.(succeeded := 1)) && u.vm.Some? && Calm(u, next)
      && Finishes(u, Process(u, u.vm.value, next).w)
  {
    hide Process, StartVM, Alive, UniqueNames, Names, Mark, AliveNames, Environment;
    StartShape(w, vm, input);
    ReconcileKeepsProtocol(w, vm, input);
    var w1 := Process(w, vm, input).w;
    var p, target := Alive(w.pods)[0], TargetPod(vm, input);
    var up := CameUp(vm, target);
    var u := w1.(pods := w.pods + [up], job := Some(w.job.value.(succeeded := 1)));
    AliveMembers(w.pods, p);
    AliveAppend(w.pods, target);
    AliveAppend(w.pods, up);
    ComesUp(w, w1, u, vm, target, up);
    EnvironmentKeepsProtocol(w1, u);
    assert Alive(u.pods) == [p, up];
    LastStep(u, u.vm.value, p, up, next);
  }

  lemma ComesUp(w: World, w1: World, u: World, vm: VM, target: Pod, up: Pod)
    requires InProtocol(w1) && w.job.Some? && w1.job == w.job && w1.pods == w.pods + [target]
    requires up == CameUp(vm, target) && vm.spec.nodeName != "" && target.node == "" && !target.deleting
    requires target.hostIP == "" && target.podIP == ""
    requires u == w1.(pods := w.pods + [up], job := Some(w.job.value.(succeeded := 1)))
    ensures Orderly(w1, u)
  {
    AliveAppend(w.pods, target);
    AliveAppend(w.pods, up);
    forall q | q in u.pods ensures exists o :: o in w1.pods && Evolved(o, q) {
      if q in w.pods {
        assert q in w1.pods && Evolved(q, q);
      } else {
        assert q == up;
        assert target in w1.pods && Evolved(target, q);
      }
    }
  }

  lemma LastStep(u: World, vm: VM, p: Pod, up: Pod, next: Input)
    requires InProtocol(u) && u.vm == Some(vm) && Calm(u, next) && Lookup(u) == Nil
    requires !Unprepared(vm) && vm.spec.action == Start
    requires Alive(u.pods) == [p, up] && p.created < up.created && p.ready && up.ready && vm.spec.nodeName != p.node
    requires u.job.Some? && u.job.value.succeeded == 1
    ensures Finishes(u, Process(u, vm, next).w)
  {
    hide Process, StartVM, Alive, UniqueNames, Names, Mark;
    CalmProcess(u, vm, next);
    PairStep(WithStorage(u, vm, next), vm, next);
    MarkedPair(u.pods, p, up);
  }
}
