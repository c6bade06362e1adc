/** Stopping a machine: what Stopped means, that stops finish, and when a start takes the last pod away. */
module Stopping {
  import opened Replies
  import opened Cluster
  import opened Reconcile
  import opened Safety
  import opened Pods
  import opened Runs
  import opened Ownership
  import opened Protocol
  import opened StaleJob

  predicate NothingLeft(w: World) {
    NoLabelledPods(w) && w.job.None?
  }

  /** Whatever calls fail, a stop records Stopped only if it found no pod, job or console pod. */
  lemma StopRecordsStopped(w: World, vm: VM, input: Input)
    requires Snapshot(w, vm) && !vm.deleting && w.vm.Some? && w.vm.value.status.state != Stopped
    ensures var r := StopVM(w, vm, input).w; r.vm.Some? && r.vm.value.status.state == Stopped ==> NothingLeft(w)
  {
    hide UpdateStatus, MarkAll;
    var r1 := DeleteLabelledPods(w, input.Fate(PodsDelete));
    assert r1.w.vm == w.vm && r1.w.job == w.job && (NoLabelledPods(w) ==> r1.w == w);
    var r2 := DeleteJob(r1.w, input.Fate(JobDelete));
    assert r2.w.vm == w.vm && r2.w.console == r1.w.console;
    var r3 := DeleteConsole(r2.w, input.Fate(ConsoleDelete));
    assert r3.w.vm == w.vm;
    var upd := vm.(status := vm.status.(nodeName := if r1.err == NotFound then "" else vm.status.nodeName,
                                        state := StopState(r1.err, r2.err, r3.err)));
    WrittenState(r3.w, vm, upd, input.Fate(StopUpdate));
  }

  /** The same for a reconcile. */
  lemma StoppedMeansGone(w: World, vm: VM, input: Input)
    requires Snapshot(w, vm) && !vm.deleting && !Unprepared(vm) && vm.spec.action == Stop
    requires w.vm.Some? && w.vm.value.status.state != Stopped
    ensures var r := Process(w, vm, input).w; r.vm.Some? && r.vm.value.status.state == Stopped ==> NothingLeft(w)
  {
    hide StopVM;
    StopRecordsStopped(w, vm, input);
  }

  /**
    What a stop records when the write is accepted, whatever became of its deletions: the last of pods, job
    and console that was there, or whose deletion failed, decides between Stopping and Errored; Stopped if
    there was none; and the node name goes exactly when no labelled pod was there.
  */
  lemma StopRecords(w: World, vm: VM, input: Input)
    requires w.vm == Some(vm) && !vm.deleting && input.Fate(StopUpdate) == Accepted
    ensures var r := StopVM(w, vm, input).w;
      && r.vm.Some? && r.vm.value.spec == vm.spec
      && r.vm.value.status.nodeName == (if NoLabelledPods(w) then "" else vm.status.nodeName)
      && r.vm.value.status.state ==
           if input.Fate(ConsoleDelete) == Rejected then Errored
           else if !w.console.Absent? then (if input.Fate(ConsoleDelete) == Accepted then State.Stopping else Errored)
           else if input.Fate(JobDelete) == Rejected then Errored
           else if w.job.Some? then (if input.Fate(JobDelete) == Accepted then State.Stopping else Errored)
           else if NoLabelledPods(w) then Stopped
           else if input.Fate(PodsDelete) == Accepted then State.Stopping else Errored
  {
    hide UpdateStatus, MarkAll;
    var r1 := DeleteLabelledPods(w, input.Fate(PodsDelete));
    assert r1.w.vm == w.vm && r1.w.job == w.job && (r1.w.console.Absent? <==> w.console.Absent?);
    var r2 := DeleteJob(r1.w, input.Fate(JobDelete));
    assert r2.w.vm == w.vm && r2.w.console == r1.w.console;
    var r3 := DeleteConsole(r2.w, input.Fate(ConsoleDelete));
    assert r3.w.vm == w.vm;
    CalmWrite(r3.w, vm, vm.(status := vm.status.(nodeName := if r1.err == NotFound then "" else vm.status.nodeName,
                                                 state := StopState(r1.err, r2.err, r3.err))));
  }

  /** What each deletion does unless it is refused, and that it touches nothing else. */
  lemma Deletions(w: World, o: Outcome)
    ensures var r := DeleteLabelledPods(w, o).w;
      && r == w.(pods := r.pods, console := r.console, jobPod := r.jobPod)
      && (o != Rejected ==> r.pods == MarkAll(w.pods) && !r.jobPod.Present?)
    ensures var r := DeleteJob(w, o).w;
      && r == w.(job := r.job, jobPod := r.jobPod) && (w.jobPod.Present? || !r.jobPod.Present?)
      && (if o != Rejected && w.job.Some? then r.job == Some(w.job.value.(deleting := true)) else r.job == w.job)
    ensures var r := DeleteConsole(w, o).w;
      r == w.(console := r.console) && (o != Rejected ==> !r.console.Present?)
    ensures var r := DeleteService(w, o).w;
      r == w.(service := r.service) && (o != Rejected ==> r.service.None?)
  {
    hide MarkAll;
    assert w.pods == [] ==> MarkAll(w.pods) == [] by { assert |MarkAll(w.pods)| == |w.pods|; }
  }

  /** One failure does not keep a stop from trying the rest: what was not refused is marked. */
  lemma StopTriesAll(w: World, vm: VM, input: Input)
    ensures var r := StopVM(w, vm, input).w;
      && (input.Fate(PodsDelete) != Rejected ==> r.pods == MarkAll(w.pods) && !r.jobPod.Present?)
      && (input.Fate(JobDelete) != Rejected && w.job.Some? ==> r.job == Some(w.job.value.(deleting := true)))
      && (input.Fate(ConsoleDelete) != Rejected ==> !r.console.Present?)
      && (w.job.None? ==> r.job.None?)
  {
    hide UpdateStatus, MarkAll, StopState, DeleteLabelledPods, DeleteJob, DeleteConsole;
    var r1 := DeleteLabelledPods(w, input.Fate(PodsDelete));
    Deletions(w, input.Fate(PodsDelete));
    var r2 := DeleteJob(r1.w, input.Fate(JobDelete));
    Deletions(r1.w, input.Fate(JobDelete));
    var r3 := DeleteConsole(r2.w, input.Fate(ConsoleDelete));
    Deletions(r2.w, input.Fate(ConsoleDelete));
    StatusFrame(r3.w, vm, vm.(status := vm.status.(nodeName := if r1.err == NotFound then "" else vm.status.nodeName,
                                        state := StopState(r1.err, r2.err, r3.err))), input.Fate(StopUpdate));
  }

  lemma WrittenState(w: World, vm: VM, upd: VM, o: Outcome)
    requires Snapshot(w, vm) && !vm.deleting && CopyOf(upd, vm)
    ensures var r := UpdateStatus(w, vm, upd, o).w; r.vm == w.vm || r.vm == Committed(upd)
  {
  }

  // ---- stops finish

  predicate Live(job: Option<Job>) {
    job.Some? && !job.value.deleting
  }

  /** Whether the job controller may still make a pod for the job. */
  predicate Restarting(job: Option<Job>) {
    Live(job) && job.value.succeeded != 1
  }

  /** The environment, with a job pod that appears only for a job that is still at work. */
  ghost predicate Tends(w: World, w': World) {
    && Environment(w, w')
    && (w.jobPod.Absent? && !w'.jobPod.Absent? ==> Restarting(w.job))
    && (Restarting(w'.job) ==> Restarting(w.job))
  }

  /** A job is to be marked and to go, and so is its pod. */
  function JobLeft(w: World): nat {
    if Live(w.job) then 3 else One(w.job.Some?) + One(!w.jobPod.Absent?)
  }

  /** What a stop still has to mark and to see disappear. */
  function Remaining(w: World): nat {
    |w.pods| + JobLeft(w) + One(!w.console.Absent?)
  }

  predicate FullyStopped(w: World) {
    NothingLeft(w) && w.vm.Some? && w.vm.value.status.state == Stopped && w.vm.value.status.nodeName == ""
  }

  predicate BeingStopped(w: World) {
    && w.vm.Some? && !w.vm.value.deleting && !Unprepared(w.vm.value) && w.vm.value.spec.action == Stop
    && UniqueNames(w.pods)
  }

  function StopRank(w: World): nat {
    if Remaining(w) > 0 then Remaining(w) + 1 else One(!FullyStopped(w))
  }

  /** Reconciles whose calls are answered; between them anything but another action or a deletion. */
  ghost predicate StopNext(w: World, s: Step, w': World) {
    match s
    case Reconciled(vm, input) => w.vm == Some(vm) && input.faults == map[] && w' == Process(w, vm, input).w
    case Elsewhere =>
      Tends(w, w') && w'.vm.Some? && !w'.vm.value.deleting && w'.vm.value.spec.action == Stop
  }

  ghost predicate StopRun(ws: seq<World>, steps: seq<Step>) {
    && |ws| == |steps| + 1
    && forall i :: 0 <= i < |steps| ==> StopNext(ws[i], steps[i], ws[i + 1])
  }

  /** A live job is marked, Stopped is recorded, or something has disappeared. */
  ghost predicate Productive(w: World, s: Step, w': World) {
    if s.Reconciled? then Live(w.job) || (NothingLeft(w) && !FullyStopped(w)) else Remaining(w') < Remaining(w)
  }

  ghost function ProductiveSteps(ws: seq<World>, steps: seq<Step>, i: nat): nat
    requires |ws| == |steps| + 1 && i < |ws|
  {
    if i == 0 then 0
    else ProductiveSteps(ws, steps, i - 1) + One(Productive(ws[i - 1], steps[i - 1], ws[i]))
  }

  lemma StopReconciles(w: World, vm: VM, input: Input)
    requires BeingStopped(w) && w.vm == Some(vm) && input.faults == map[]
    ensures var r := Process(w, vm, input).w;
      && BeingStopped(r) && StopRank(r) + One(Productive(w, Reconciled(vm, input), r)) <= StopRank(w)
      && (NothingLeft(w) ==> FullyStopped(r))
      && (FullyStopped(w) ==> r == w)
  {
    hide StopVM, MarkAll, UniqueNames;
    CalmStop(w, vm, input);
    StopFrame(w, vm, input);
    AliveMarkAll(w.pods);
    assert |MarkAll(w.pods)| == |w.pods|;
    StopKeepsImages(w, vm, input);
  }

  lemma StopKeepsImages(w: World, vm: VM, input: Input)
    ensures var r := StopVM(w, vm, input).w; r.image == w.image && r.keysFound == w.keysFound
  {
    hide UpdateStatus, MarkAll;
    var r1 := DeleteLabelledPods(w, input.Fate(PodsDelete));
    assert r1.w.image == w.image && r1.w.keysFound == w.keysFound;
    var r2 := DeleteJob(r1.w, input.Fate(JobDelete));
    assert r2.w.image == w.image && r2.w.keysFound == w.keysFound;
    var r3 := DeleteConsole(r2.w, input.Fate(ConsoleDelete));
    assert r3.w.image == w.image && r3.w.keysFound == w.keysFound;
    StatusFrame(r3.w, vm, vm.(status := vm.status.(nodeName := if r1.err == NotFound then "" else vm.status.nodeName,
                                        state := StopState(r1.err, r2.err, r3.err))), input.Fate(StopUpdate));
  }

  lemma StopWaits(w: World, w': World)
    requires BeingStopped(w) && StopNext(w, Elsewhere, w')
    ensures BeingStopped(w') && StopRank(w') + One(Remaining(w') < Remaining(w)) <= StopRank(w)
    ensures FullyStopped(w) ==> FullyStopped(w')
  {
    hide UniqueNames;
    NoMorePods(w.pods, w'.pods);
  }

  lemma StopStep(w: World, s: Step, w': World)
    requires BeingStopped(w) && StopNext(w, s, w')
    ensures BeingStopped(w') && StopRank(w') + One(Productive(w, s, w')) <= StopRank(w)
    ensures FullyStopped(w) ==> FullyStopped(w') && (s.Reconciled? ==> w' == w)
  {
    hide Process, Tends, StopRank, Productive, FullyStopped;
    match s
    case Reconciled(vm, input) => StopReconciles(w, vm, input);
    case Elsewhere =>
      StopWaits(w, w');
      assert Productive(w, s, w') <==> Remaining(w') < Remaining(w) by { Disappears(w, w'); }
  }

  lemma Disappears(w: World, w': World)
    ensures Productive(w, Elsewhere, w') <==> Remaining(w') < Remaining(w)
  {
  }

  /**
    In every run of stops, however often they find nothing new: after as many productive steps as the
    variant said at the start the machine is Stopped with an empty node name and nothing of it is left,
    and from then on a stop changes nothing.
  */
  lemma {:induction false} StopConverges(ws: seq<World>, steps: seq<Step>, i: nat)
    requires StopRun(ws, steps) && BeingStopped(ws[0]) && i < |ws|
    ensures BeingStopped(ws[i]) && StopRank(ws[i]) + ProductiveSteps(ws, steps, i) <= StopRank(ws[0])
    ensures ProductiveSteps(ws, steps, i) >= StopRank(ws[0]) ==> FullyStopped(ws[i])
    ensures FullyStopped(ws[i]) && i < |steps| ==> FullyStopped(ws[i + 1]) && (steps[i].Reconciled? ==> ws[i + 1] == ws[i])
  {
    hide StopNext, BeingStopped, Productive;
    if i > 0 {
      StopConverges(ws, steps, i - 1);
      StopStep(ws[i - 1], steps[i - 1], ws[i]);
    }
    if i < |steps| {
      StopStep(ws[i], steps[i], ws[i + 1]);
    }
  }

  /** From every such state, one stop, the disappearance of what it marked and another stop finish it. */
  lemma StopCanFinish(w: World) returns (ws: seq<World>, steps: seq<Step>)
    requires BeingStopped(w)
    ensures StopRun(ws, steps) && ws[0] == w && |steps| == 3 && FullyStopped(ws[3])
  {
    hide Process, StopRank, Productive, Unprepared;
    var vm, input := w.vm.value, Input(map[], "", 0, "", 0, 0, 0);
    StopReconciles(w, vm, input);
    var mid := Process(w, vm, input).w;
    var gone := mid.(pods := [], job := None, jobPod := Absent, console := Absent);
    StopReconciles(gone, gone.vm.value, input);
    ws := [w, mid, gone, Process(gone, gone.vm.value, input).w];
    steps := [Reconciled(vm, input), Elsewhere, Reconciled(gone.vm.value, input)];
    assert StopNext(ws[0], steps[0], ws[1]) && StopNext(ws[1], steps[1], ws[2]) && StopNext(ws[2], steps[2], ws[3]);
  }

  // ---- exactly when the last pod is taken away

  /** When calls are answered, starting a machine takes its only alive pod away if and only if that pod
      cannot be scheduled and is pinned to a node other than the one now asked for. */
  lemma LastPodGoesExactlyWhen(w: World, vm: VM, p: Pod, input: Input)
    requires w.vm == Some(vm) && !vm.deleting && !Unprepared(vm) && vm.spec.action == Start
    requires UniqueNames(w.pods) && Alive(w.pods) == [p] && Lookup(w) == Nil && Calm(w, input)
    ensures AliveNames(Process(w, vm, input).w.pods) == {} <==>
      vm.status.state == Pending && p.unschedulable && p.affinity.Some? && p.affinity.value != vm.spec.nodeName
  {
    hide Process, StartVM, Alive, UniqueNames, Names, AliveNames, Mark, Settled, CreateLonghorn;
    AliveMembers(w.pods, p);
    if AliveNames(Process(w, vm, input).w.pods) == {} {
      LastPodStays(w, vm, input);
    }
    if Misplaced(vm, p) {
      CalmProcess(w, vm, input);
      SingleStep(WithStorage(w, vm, input), vm, p, input);
      OnlyName(w.pods, p);
      AliveCount(Mark(w.pods, p.name));
    }
  }
}
