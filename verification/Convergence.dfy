/**
  Progress of a migration. Reconciles and steps of the environment interleave freely; most of them wait.
  A variant never grows, and it falls whenever it is the controller's turn or something awaited arrives.
*/
module Convergence {
  import opened Replies
  import opened Cluster
  import opened Reconcile
  import opened Safety
  import opened Pods
  import opened Runs
  import opened Ownership
  import opened Protocol
  import opened StaleJob

  // ---- the stages of a move

  /** The console part of a reconcile has nothing left to write. */
  predicate EndpointSettled(w: World, vm: VM, p: Pod) {
    || p.name == ""
    || (if vm.spec.hostedNovnc then
          && w.service.Some?
          && (vm.status.nodeIP == "" || w.service.value <= 0
              || vm.status.vncEndpoint == Endpoint(vm.status.nodeIP, w.service.value))
        else w.service.None? && vm.status.vncEndpoint == NoEndpoint)
  }

  /** A console that should be there has to go if it was told to, and then to be made; one that should not
      be there has to be told to go, and then to go. */
  function ConsoleLeft(w: World, vm: VM, p: Pod): nat {
    if p.name == "" then 0
    else if vm.spec.hostedNovnc then (if w.console.Present? then 0 else if w.console.Absent? then 1 else 2)
    else if w.console.Absent? then 0 else if w.console.Going? then 1 else 2
  }

  /** The next reconcile makes the console or tells it to go. */
  predicate ConsoleDue(w: World, vm: VM, p: Pod) {
    p.name != "" && if vm.spec.hostedNovnc then w.console.Absent? else w.console.Present?
  }

  /** On the node, or not scheduled yet and pinned to it. */
  predicate Bound(p: Pod, node: string) {
    p.node == node || (p.node == "" && p.affinity == Some(node))
  }

  /** One ready pod, wherever it is; or two, the newer one bound for the requested node, ready or not. */
  ghost predicate Moving(w: World) {
    && InProtocol(w) && Lookup(w) == Nil
    && var vm := w.vm.value; var alive := Alive(w.pods);
    && !Unprepared(vm) && vm.spec.action == Start && vm.spec.nodeName != ""
    && 1 <= |alive|
    && (|alive| == 1 ==> alive[0].ready && vm.status.state == Running)
    && (|alive| == 2 ==>
          && Older(alive).ready && Older(alive).node != vm.spec.nodeName
          && Bound(Newer(alive), vm.spec.nodeName))
  }

  /** Writes of the record that a reconcile with the single pod `p` still owes. */
  function Owed(w: World, vm: VM, p: Pod): nat {
    2 * One(StatusWithPod(vm, p) != vm) + One(!EndpointSettled(w, vm, p))
  }

  /** A pod that has yet to be scheduled and to become ready. */
  function PodStages(p: Pod): nat {
    One(p.node == "") + One(!p.ready)
  }

  /** A job told to go has to go, then a job has to be made, to succeed and to be acted upon. */
  function JobStages(job: Option<Job>): nat {
    if job.None? then 7
    else if job.value.deleting then 8
    else if job.value.succeeded != 1 then 6
    else 5
  }

  /** The variant. */
  ghost function Rank(w: World): nat
    requires Moving(w)
  {
    var vm, alive := w.vm.value, Alive(w.pods);
    if |alive| == 2 then PodStages(Newer(alive)) + JobStages(w.job)
    else
      var p := alive[0];
      Owed(w, vm, p) + if p.node == vm.spec.nodeName then One(w.job.Some?) + ConsoleLeft(w, vm, p) else 11
  }

  /** It is the controller's turn: the next reconcile has something to do. */
  ghost predicate Due(w: World)
    requires Moving(w)
  {
    var vm, alive := w.vm.value, Alive(w.pods);
    if |alive| == 2 then Newer(alive).ready && (w.job.None? || w.job.value.succeeded == 1)
    else alive[0].node != vm.spec.nodeName || Owed(w, vm, alive[0]) > 0 || ConsoleDue(w, vm, alive[0])
  }

  // ---- what the environment does meanwhile

  /** The scheduler respects node affinity. */
  ghost predicate Placed(pods: seq<Pod>, pods': seq<Pod>) {
    forall p, q :: p in pods && q in pods' && q.name == p.name && p.node == "" && p.affinity.Some? && q.node != "" ==>
      q.node == p.affinity.value
  }

  /** A ready pod stays ready while it is alive. */
  ghost predicate KeepReady(pods: seq<Pod>, pods': seq<Pod>) {
    forall p, q :: p in pods && q in pods' && q.name == p.name && p.ready && !q.deleting ==> q.ready
  }

  /** A job that was not told to go stays, and so does its success. */
  predicate JobKept(w: World, w': World) {
    && JobLeftAlone(w, w')
    && (w.job.Some? && !w.job.value.deleting ==>
          w'.job.Some? && (w.job.value.succeeded == 1 ==> w'.job.value.succeeded == 1))
  }

  /** A console stays until it is told to go, and then it goes. */
  predicate ConsoleKept(w: World, w': World) {
    && (w.console.Present? ==> w'.console.Present?)
    && (w.console.Going? ==> !w'.console.Present?)
  }

  /** No edits, no deaths and nothing undone; otherwise anything may or may not happen. */
  ghost predicate Waits(w: World, w': World) {
    && Orderly(w, w')
    && w'.vm == w.vm && w'.service == w.service && w'.image == w.image && w'.keysFound == w.keysFound
    && AliveNames(w'.pods) == AliveNames(w.pods)
    && Placed(w.pods, w'.pods) && KeepReady(w.pods, w'.pods) && JobKept(w, w') && ConsoleKept(w, w')
  }

  /** The target got its node or became ready, the job succeeded, or a job or console told to go is gone. */
  ghost predicate Delivers(w: World, w': World)
    requires Moving(w) && Moving(w')
  {
    var alive, alive' := Alive(w.pods), Alive(w'.pods);
    if |alive| == 2 then
      || (|alive'| == 2 && Newer(alive).node == "" && Newer(alive').node != "")
      || (|alive'| == 2 && !Newer(alive).ready && Newer(alive').ready)
      || (w.job.Some? && !w.job.value.deleting && w.job.value.succeeded != 1 && w'.job.Some? && w'.job.value.succeeded == 1)
      || (w.job.Some? && w.job.value.deleting && w'.job.None?)
    else
      && alive[0].node == w.vm.value.spec.nodeName
      && (|| (w.job.Some? && w'.job.None?)
          || (alive[0].name != "" && w.console.Going? && w'.console.Absent?))
  }

  ghost predicate MoveNext(w: World, s: Step, w': World) {
    match s
    case Reconciled(vm, input) => w.vm == Some(vm) && Calm(w, input) && w' == Process(w, vm, input).w
    case Elsewhere => Waits(w, w')
  }

  ghost predicate MoveRun(ws: seq<World>, steps: seq<Step>) {
    && |ws| == |steps| + 1
    && forall i :: 0 <= i < |steps| ==> MoveNext(ws[i], steps[i], ws[i + 1])
  }

  // ---- one reconcile

  /** What the status and console updates leave: at most one of the two wrote. */
  lemma SettledRecord(w: World, vm: VM, p: Pod, input: Input)
    requires w.vm == Some(vm) && !vm.deleting && input.faults == map[]
    ensures var w2 := Settled(w, vm, p, input);
      && w2.vm.Some?
      && if StatusWithPod(vm, p) != vm then w2.vm == Committed(StatusWithPod(vm, p))
         else
           && EndpointSettled(w2, w2.vm.value, p)
           && (|| w2.vm == Some(vm)
               || (&& w2.vm == Committed(WithEndpoint(vm, w2.vm.value.status.vncEndpoint))
                   && !EndpointSettled(w, vm, p)))
  {
    var w1 := w.(vm := After(vm, StatusWithPod(vm, p)));
    if StatusWithPod(vm, p) != vm {
      hide UpdateNovnc;
      NovncKeepsState(w, w1, vm, input);
    } else if p.name != "" {
      assert w1 == w;
      SettledEndpoint(w, vm, p, input);
    }
  }

  lemma SettledEndpoint(w: World, vm: VM, p: Pod, input: Input)
    requires w.vm == Some(vm) && !vm.deleting && input.faults == map[] && p.name != ""
    ensures var w2 := UpdateNovnc(w, vm, input).w;
      && w2.vm.Some? && EndpointSettled(w2, w2.vm.value, p)
      && (|| w2.vm == Some(vm)
          || (&& w2.vm == Committed(WithEndpoint(vm, w2.vm.value.status.vncEndpoint))
              && !EndpointSettled(w, vm, p)))
  {
    hide UpdateStatus;
    if vm.spec.hostedNovnc {
      var w1 := UpdateNovncPod(w, input).w;
      assert w1 == w.(console := w1.console);
      var w2 := if w1.service.Some? then w1 else w1.(service := Some(input.nodePort));
      CalmWrite(w2, vm, WithEndpoint(vm, Endpoint(vm.status.nodeIP, w2.service.value)));
    } else {
      var w1 := DeleteConsole(w, Accepted).w;
      assert w1.vm == w.vm;
      var w2 := DeleteService(w1, Accepted).w;
      assert w2.vm == w.vm;
      CalmWrite(w2, vm, WithEndpoint(vm, NoEndpoint));
    }
  }

  /** Each reconcile with a single ready pod makes one of the writes it owes. */
  lemma OwedFalls(w: World, vm: VM, p: Pod, input: Input)
    requires w.vm == Some(vm) && !vm.deleting && input.faults == map[]
    ensures var w2 := Settled(w, vm, p, input);
      && w2.vm.Some? && w2.vm.value.spec == vm.spec && (Unprepared(w2.vm.value) <==> Unprepared(vm))
      && (if Owed(w, vm, p) > 0 then Owed(w2, w2.vm.value, p) < Owed(w, vm, p)
          else w2.vm == w.vm && Owed(w2, vm, p) == 0)
  {
    hide Settled, EndpointSettled;
    SettledRecord(w, vm, p, input);
  }

  lemma ConsoleFalls(w: World, vm: VM, p: Pod, input: Input)
    requires input.faults == map[]
    ensures var w2 := Settled(w, vm, p, input); var left := ConsoleLeft(w, vm, p);
      if ConsoleDue(w, vm, p) then ConsoleLeft(w2, vm, p) < left else ConsoleLeft(w2, vm, p) == left
  {
    hide UpdateNovnc;
    ConsoleUpdated(w.(vm := After(vm, StatusWithPod(vm, p))), vm, input);
  }

  /** One reconcile of a moving machine with one alive pod. */
  lemma SingleReconcile(w: World, vm: VM, p: Pod, input: Input)
    requires Moving(w) && w.vm == Some(vm) && Alive(w.pods) == [p] && Calm(w, input)
    ensures var w1 := WithStorage(w, vm, input); var w2 := Settled(w1, vm, p, input);
      && w1 == w.(volume := w1.volume, pv := w1.pv, pvc := w1.pvc)
      && w2 == w1.(vm := w2.vm, console := w2.console, service := w2.service)
      && w2.vm.Some? && OneWrite(w1, w2, vm) && w2.vm.value.status.state == Running
      && Process(w, vm, input).w ==
         if OnWrongNode(vm, p) && w2.vm == w.vm then
           w2.(vm := Committed(WithState(vm, Migrating)), pods := w.pods + [TargetPod(vm, input)])
         else w2
  {
    hide Process, StartVM, Alive, UniqueNames, Names, Mark, Settled, CreateLonghorn, Unprepared;
    CalmProcess(w, vm, input);
    SingleStep(WithStorage(w, vm, input), vm, p, input);
  }

  /** A single pod: the reconcile writes what it owes, or starts the migration, or has nothing to do. */
  lemma SingleMoves(w: World, vm: VM, input: Input)
    requires Moving(w) && w.vm == Some(vm) && |Alive(w.pods)| == 1 && Calm(w, input)
    ensures var r := Process(w, vm, input).w;
      && Moving(r) && r.vm.value.spec == vm.spec && r.job == w.job
      && (if Due(w) then Rank(r) < Rank(w) else Rank(r) == Rank(w) && r.vm == w.vm)
      && (r.pods == w.pods || (Starts(w, r) && Due(w)))
  {
    hide Process, StartVM, Alive, UniqueNames, Names, Mark, Settled, CreateLonghorn, EndpointSettled, Unprepared;
    var p := Alive(w.pods)[0];
    assert Alive(w.pods) == [p];
    var w1 := WithStorage(w, vm, input);
    SingleReconcile(w, vm, p, input);
    ReconcileKeepsProtocol(w, vm, input);
    OwedFalls(w1, vm, p, input);
    ConsoleFalls(w1, vm, p, input);
    SameOwed(w, w1, vm, p);
    var r := Process(w, vm, input).w;
    var target := TargetPod(vm, input);
    if OnWrongNode(vm, p) && Settled(w1, vm, p, input).vm == w.vm {
      AliveMembers(w.pods, p);
      AliveAppend(w.pods, target);
      assert Alive(r.pods) == [p, target];
      PreparedStays(vm, WithState(vm, Migrating));
    }
  }

  lemma SameOwed(w: World, w1: World, vm: VM, p: Pod)
    requires w1.service == w.service && w1.console == w.console
    ensures Owed(w1, vm, p) == Owed(w, vm, p)
    ensures ConsoleLeft(w1, vm, p) == ConsoleLeft(w, vm, p) && (ConsoleDue(w1, vm, p) <==> ConsoleDue(w, vm, p))
  {
  }

  /** Two pods: the reconcile waits, makes the job, or finishes. */
  lemma PairMoves(w: World, vm: VM, input: Input)
    requires Moving(w) && w.vm == Some(vm) && |Alive(w.pods)| == 2 && Calm(w, input)
    ensures var r := Process(w, vm, input).w;
      && Moving(r) && r.vm.value.spec == vm.spec
      && (if Due(w) then Rank(r) < Rank(w)
          else Rank(r) == Rank(w) && r == w.(volume := r.volume, pv := r.pv, pvc := r.pvc))
  {
    hide Process, StartVM, Alive, UniqueNames, Names, AliveNames, CreateLonghorn, Unprepared, Mark, EndpointSettled;
    var alive := Alive(w.pods);
    CalmProcess(w, vm, input);
    PairStep(WithStorage(w, vm, input), vm, input);
    ReconcileKeepsProtocol(w, vm, input);
    MarkedPair(w.pods, Older(alive), Newer(alive));
    PreparedStays(vm, Moved(vm, Newer(alive)));
    MovedSettles(vm, Newer(alive));
  }

  lemma PreparedStays(vm: VM, upd: VM)
    requires upd.finalizers == vm.finalizers && upd.status.id == vm.status.id && upd.status.mac == vm.status.mac
    ensures Unprepared(upd) <==> Unprepared(vm)
    ensures Unprepared(upd.(version := vm.version + 1)) <==> Unprepared(vm)
  {
  }

  /** The finishing write leaves no status to write, and a machine that is to run. */
  lemma MovedSettles(vm: VM, p: Pod)
    ensures var m := Moved(vm, p).(version := vm.version + 1);
      StatusWithPod(m, p) == m && m.spec == vm.spec.(action := Start)
  {
  }

  /** Whenever it is the controller's turn a reconcile brings the move closer; otherwise it changes nothing. */
  lemma ReconcileMoves(w: World, vm: VM, input: Input)
    requires Moving(w) && w.vm == Some(vm) && Calm(w, input)
    ensures var r := Process(w, vm, input).w;
      && Moving(r) && r.vm.value.spec == vm.spec
      && (if Due(w) then Rank(r) < Rank(w)
          else Rank(r) == Rank(w) && r.vm == w.vm && r.pods == w.pods && r.job == w.job)
  {
    hide Process, Moving, Rank, Due, Alive;
    MovingMeans(w);
    if |Alive(w.pods)| == 2 {
      PairMoves(w, vm, input);
    } else {
      SingleMoves(w, vm, input);
    }
  }

  lemma MovingMeans(w: World)
    requires Moving(w)
    ensures InProtocol(w) && w.vm.Some? && 1 <= |Alive(w.pods)| <= 2
  {
    hide Alive;
  }

  // ---- one step of the environment

  /** A single alive pod and its later self. */
  lemma SingleEvolves(pods: seq<Pod>, pods': seq<Pod>)
    requires UniqueNames(pods) && PodsEvolved(pods, pods') && AliveNames(pods') == AliveNames(pods) && |Alive(pods)| == 1
    ensures |Alive(pods')| == 1 && Evolved(Alive(pods)[0], Alive(pods')[0])
  {
    hide Alive, AliveNames, UniqueNames, Names, Evolved;
    AliveCount(pods);
    AliveCount(pods');
    var a := EvolvedFrom(pods, pods', Alive(pods')[0]);
  }

  /** The environment undoes nothing, and what it delivers brings the move closer. */
  lemma WaitMoves(w: World, w': World)
    requires Moving(w) && Waits(w, w')
    ensures Moving(w') && Rank(w') <= Rank(w) && (Delivers(w, w') ==> Rank(w') < Rank(w))
  {
    hide Alive, UniqueNames, AliveNames, Unprepared;
    EnvironmentKeepsProtocol(w, w');
    if |Alive(w.pods)| == 2 {
      PairWaits(w, w');
    } else {
      SingleWaits(w, w');
    }
  }

  lemma SingleWaits(w: World, w': World)
    requires Moving(w) && Waits(w, w') && |Alive(w.pods)| == 1 && InProtocol(w')
    ensures Moving(w') && Rank(w') <= Rank(w) && (Delivers(w, w') ==> Rank(w') < Rank(w))
  {
    hide Alive, UniqueNames, AliveNames, Unprepared;
    SingleEvolves(w.pods, w'.pods);
    var p, p' := Alive(w.pods)[0], Alive(w'.pods)[0];
    AliveMembers(w.pods, p);
    AliveMembers(w'.pods, p');
    assert p'.ready && p'.node == p.node && p'.hostIP == p.hostIP && p'.name == p.name;
    assert StatusWithPod(w.vm.value, p') == StatusWithPod(w.vm.value, p);
  }

  lemma PairWaits(w: World, w': World)
    requires Moving(w) && Waits(w, w') && |Alive(w.pods)| == 2 && InProtocol(w')
    ensures Moving(w') && Rank(w') <= Rank(w) && (Delivers(w, w') ==> Rank(w') < Rank(w))
  {
    hide Alive, UniqueNames, AliveNames, Unprepared, EndpointSettled;
    PairEvolves(w.pods, w'.pods);
    var alive, alive' := Alive(w.pods), Alive(w'.pods);
    AliveMembers(w.pods, Older(alive));
    AliveMembers(w.pods, Newer(alive));
    AliveMembers(w'.pods, Older(alive'));
    AliveMembers(w'.pods, Newer(alive'));
  }

  // ---- whole runs

  /** It was the controller's turn and it reconciled, or something awaited arrived. */
  ghost predicate Productive(w: World, s: Step, w': World) {
    Moving(w) && Moving(w') && if s.Reconciled? then Due(w) else Delivers(w, w')
  }

  /** How many of the first `i` steps of a run were productive. */
  ghost function ProductiveSteps(ws: seq<World>, steps: seq<Step>, i: nat): nat
    requires |ws| == |steps| + 1 && i < |ws|
  {
    if i == 0 then 0
    else ProductiveSteps(ws, steps, i - 1) + One(Productive(ws[i - 1], steps[i - 1], ws[i]))
  }

  lemma StepMoves(w: World, s: Step, w': World)
    requires Moving(w) && MoveNext(w, s, w')
    ensures Moving(w') && w.vm.Some? && w'.vm.Some? && w'.vm.value.spec == w.vm.value.spec
    ensures Rank(w') + One(Productive(w, s, w')) <= Rank(w)
    ensures Rank(w) == 0 && s.Reconciled? ==> w'.pods == w.pods && w'.vm == w.vm
  {
    hide Process, Moving, Rank, Due, Delivers, Waits;
    MovingMeans(w);
    match s
    case Reconciled(vm, input) =>
      ReconcileMoves(w, vm, input);
      MovingMeans(w');
    case Elsewhere =>
      WaitMoves(w, w');
      assert w'.vm == w.vm by { WaitsKeeps(w, w'); }
  }

  lemma WaitsKeeps(w: World, w': World)
    requires Waits(w, w')
    ensures w'.vm == w.vm
  {
  }

  /** The machine runs where it was asked to, in one ready pod; its record says so; no job is left; and there
      is a console with its service exactly if one is asked for. */
  ghost predicate MoveDone(w: World, nodeName: string) {
    && w.vm.Some? && |Alive(w.pods)| == 1
    && var p := Alive(w.pods)[0]; var vm := w.vm.value;
    && p.node == nodeName && p.ready
    && vm.status.nodeName == nodeName && vm.status.nodeIP == p.hostIP && vm.status.state == Running
    && w.job.None?
    && (p.name != "" && vm.spec.hostedNovnc ==>
          && w.console.Present? && w.service.Some?
          && (w.service.value > 0 ==> vm.status.vncEndpoint == Endpoint(p.hostIP, w.service.value)))
    && (p.name != "" && !vm.spec.hostedNovnc ==>
          w.console.Absent? && w.service.None? && vm.status.vncEndpoint == NoEndpoint)
  }

  /**
    In every run of reconciles and of steps in which nothing is undone, however often they only wait: a
    machine is on the requested node after as many productive steps as the variant said at the start, and
    from then on reconciles leave its pods and its record alone.
  */
  lemma {:induction false} MigrationConverges(ws: seq<World>, steps: seq<Step>, i: nat)
    requires MoveRun(ws, steps) && Moving(ws[0]) && i < |ws|
    ensures Moving(ws[i]) && ws[0].vm.Some? && ws[i].vm.Some? && ws[i].vm.value.spec == ws[0].vm.value.spec
    ensures Rank(ws[i]) + ProductiveSteps(ws, steps, i) <= Rank(ws[0])
    ensures ProductiveSteps(ws, steps, i) >= Rank(ws[0]) ==> MoveDone(ws[i], ws[0].vm.value.spec.nodeName)
    ensures ProductiveSteps(ws, steps, i) >= Rank(ws[0]) && i < |steps| && steps[i].Reconciled? ==>
              ws[i + 1].pods == ws[i].pods && ws[i + 1].vm == ws[i].vm
  {
    hide MoveNext, Productive, Moving, Rank, MoveDone;
    MovingMeans(ws[0]);
    if i > 0 {
      MigrationConverges(ws, steps, i - 1);
      StepMoves(ws[i - 1], steps[i - 1], ws[i]);
    }
    if Rank(ws[i]) == 0 {
      DoneMeans(ws[i]);
      if i < |steps| {
        StepMoves(ws[i], steps[i], ws[i + 1]);
      }
    }
  }

  lemma DoneMeans(w: World)
    requires Moving(w) && Rank(w) == 0
    ensures w.vm.Some? && MoveDone(w, w.vm.value.spec.nodeName)
  {
    hide Alive;
    AliveMembers(w.pods, Alive(w.pods)[0]);
  }

  // ---- no move gets stuck

  /** An alive pod that has come up. */
  function Up(p: Pod): Pod {
    if p.deleting then p
    else p.(node := if p.node == "" && p.affinity.Some? then p.affinity.value else p.node,
            hostIP := if p.hostIP == "" then "10.0.0.1" else p.hostIP,
            podIP := if p.podIP == "" then "10.0.0.1" else p.podIP, ready := true)
  }

  function AllUp(pods: seq<Pod>): (r: seq<Pod>)
    ensures |r| == |pods| && forall i :: 0 <= i < |r| ==> r[i] == Up(pods[i])
  {
    if pods == [] then [] else AllUp(pods[..|pods| - 1]) + [Up(pods[|pods| - 1])]
  }

  predicate Placeable(p: Pod) {
    !p.deleting ==> p.node != "" || (p.affinity.Some? && p.affinity.value != "")
  }

  lemma UpEvolves(p: Pod)
    requires Placeable(p) && Addressed([p])
    ensures Evolved(p, Up(p)) && Up(p).name == p.name && Up(p).deleting == p.deleting
  {
    assert p in [p];
  }

  lemma {:induction false} AllUpNames(pods: seq<Pod>)
    requires UniqueNames(pods)
    ensures UniqueNames(AllUp(pods)) && Names(AllUp(pods)) == Names(pods) && AliveNames(AllUp(pods)) == AliveNames(pods)
  {
    if pods != [] {
      AllUpNames(pods[..|pods| - 1]);
      assert AllUp(pods)[..|pods| - 1] == AllUp(pods[..|pods| - 1]);
    }
  }

  lemma AllUpEvolves(pods: seq<Pod>, q: Pod)
    requires Addressed(pods) && (forall p :: p in pods ==> Placeable(p)) && q in AllUp(pods)
    ensures exists p :: p in pods && q == Up(p) && Evolved(p, q)
  {
    hide Up, Evolved;
    var i :| 0 <= i < |pods| && q == AllUp(pods)[i];
    UpEvolves(pods[i]);
  }

  lemma {:induction false} SameNameSamePod(pods: seq<Pod>, p: Pod, q: Pod)
    requires UniqueNames(pods) && p in pods && q in pods && p.name == q.name
    ensures p == q
  {
    var n := |pods| - 1;
    assert pods == pods[..n] + [pods[n]];
    AliveMembers(pods[..n], p);
    AliveMembers(pods[..n], q);
    if p in pods[..n] && q in pods[..n] {
      SameNameSamePod(pods[..n], p, q);
    }
  }

  /** A name longer than all the names in use together, and a time after all creations. */
  function LongName(pods: seq<Pod>): string {
    if pods == [] then "x" else LongName(pods[..|pods| - 1]) + pods[|pods| - 1].name
  }

  function LateTime(pods: seq<Pod>): nat {
    if pods == [] then 0
    else var t, c := LateTime(pods[..|pods| - 1]), pods[|pods| - 1].created; if t > c then t else c + 1
  }

  lemma {:induction false} NamesAreShorter(pods: seq<Pod>, name: string)
    requires name in Names(pods)
    ensures |name| < |LongName(pods)|
  {
    var n := |pods| - 1;
    if name in Names(pods[..n]) {
      NamesAreShorter(pods[..n], name);
    } else {
      LongNameLength(pods[..n]);
    }
  }

  lemma {:induction false} LongNameLength(pods: seq<Pod>)
    ensures |LongName(pods)| > 0
  {
    if pods != [] {
      LongNameLength(pods[..|pods| - 1]);
    }
  }

  lemma {:induction false} CreatedEarlier(pods: seq<Pod>, p: Pod)
    requires p in pods
    ensures p.created < LateTime(pods)
  {
    var n := |pods| - 1;
    assert pods == pods[..n] + [pods[n]];
    if p in pods[..n] {
      CreatedEarlier(pods[..n], p);
    }
  }

  /** A reconcile whose calls are answered is possible in every state. */
  lemma CalmInput(w: World) returns (input: Input)
    ensures Calm(w, input)
  {
    var name, time := LongName(w.pods), LateTime(w.pods);
    input := Input(map[], name, time, name + "x", time + 1, 0, 30000);
    if name in Names(w.pods) {
      NamesAreShorter(w.pods, name);
    }
    if name + "x" in Names(w.pods) {
      NamesAreShorter(w.pods, name + "x");
    }
    forall p | p in w.pods ensures p.created < time {
      CreatedEarlier(w.pods, p);
    }
  }

  /** Whatever is awaited arrives at once. */
  function Delivered(w: World): World {
    w.(pods := AllUp(w.pods),
       job := if w.job.Some? && !w.job.value.deleting then Some(w.job.value.(succeeded := 1)) else None,
       console := if w.console.Going? then Absent else w.console)
  }

  /** Every pod that is alive during a move has a node or is pinned to one. */
  lemma MovingPlaceable(w: World, p: Pod)
    requires Moving(w) && p in w.pods
    ensures Placeable(p)
  {
    hide Alive, UniqueNames;
    AliveMembers(w.pods, p);
  }

  lemma DeliveredWaits(w: World)
    requires Moving(w)
    ensures Waits(w, Delivered(w))
  {
    hide Alive, UniqueNames, AliveNames, Names, AllUp, Evolved, Placeable, Up, Unprepared;
    var w' := Delivered(w);
    forall p | p in w.pods ensures Placeable(p) {
      MovingPlaceable(w, p);
    }
    AllUpNames(w.pods);
    forall q | q in w'.pods ensures exists p :: p in w.pods && Evolved(p, q) {
      AllUpEvolves(w.pods, q);
    }
    forall p, q | p in w.pods && q in w'.pods && q.name == p.name ensures q == Up(p) {
      AllUpEvolves(w.pods, q);
      var o :| o in w.pods && q == Up(o) && Evolved(o, q);
      EvolvedKeeps(o, q);
      SameNameSamePod(w.pods, o, p);
    }
    assert Placed(w.pods, w'.pods) && KeepReady(w.pods, w'.pods) by { UpPlacedAndReady(w.pods, w'.pods); }
  }

  lemma UpPlacedAndReady(pods: seq<Pod>, pods': seq<Pod>)
    requires forall p, q :: p in pods && q in pods' && q.name == p.name ==> q == Up(p)
    ensures Placed(pods, pods') && KeepReady(pods, pods')
  {
  }

  /** When a move is not done and it is not the controller's turn, the environment owes something and can give it. */
  lemma DeliveryPossible(w: World)
    requires Moving(w) && Rank(w) > 0 && !Due(w)
    ensures Waits(w, Delivered(w)) && Moving(Delivered(w)) && Delivers(w, Delivered(w))
  {
    hide Alive, UniqueNames, AliveNames, Names, Unprepared, Waits;
    var w' := Delivered(w);
    DeliveredWaits(w);
    WaitMoves(w, w');
    if |Alive(w.pods)| == 2 {
      assert |Alive(w'.pods)| == 2 && Newer(Alive(w'.pods)).ready by { DeliveredPair(w); }
    }
  }

  lemma DeliveredPair(w: World)
    requires Moving(w) && Waits(w, Delivered(w)) && |Alive(w.pods)| == 2
    ensures |Alive(Delivered(w).pods)| == 2 && Newer(Alive(Delivered(w).pods)).ready
  {
    hide Alive, UniqueNames, AliveNames, Names, AllUp, Unprepared;
    var w' := Delivered(w);
    PairEvolves(w.pods, w'.pods);
    var q := Newer(Alive(w'.pods));
    AliveMembers(w'.pods, q);
    forall p | p in w.pods ensures Placeable(p) {
      MovingPlaceable(w, p);
    }
    AllUpEvolves(w.pods, q);
  }

  /** From every state of a move, some run of productive steps finishes it. */
  lemma {:induction false} MoveCanFinish(w: World) returns (ws: seq<World>, steps: seq<Step>)
    requires Moving(w)
    ensures MoveRun(ws, steps) && ws[0] == w && w.vm.Some?
    ensures ProductiveSteps(ws, steps, |steps|) == |steps| && MoveDone(ws[|steps|], w.vm.value.spec.nodeName)
    decreases Rank(w)
  {
    hide Process, Moving, Rank, Due, Delivers, Waits, Calm, MoveDone;
    MovingMeans(w);
    if Rank(w) == 0 {
      ws, steps := [w], [];
      DoneMeans(w);
    } else {
      var w', s;
      if Due(w) {
        var input := CalmInput(w);
        s := Reconciled(w.vm.value, input);
        w' := Process(w, w.vm.value, input).w;
      } else {
        s, w' := Elsewhere, Delivered(w);
        DeliveryPossible(w);
      }
      StepMoves(w, s, w');
      var ws', steps' := MoveCanFinish(w');
      ws, steps := [w] + ws', [s] + steps';
      assert MoveRun(ws, steps);
      Prepended(ws', steps', w, s, |steps'|);
    }
  }

  lemma {:induction false} Prepended(ws: seq<World>, steps: seq<Step>, w: World, s: Step, i: nat)
    requires |ws| == |steps| + 1 && i < |ws|
    ensures ProductiveSteps([w] + ws, [s] + steps, i + 1) == One(Productive(w, s, ws[0])) + ProductiveSteps(ws, steps, i)
  {
    hide Productive;
    if i > 0 {
      Prepended(ws, steps, w, s, i - 1);
    } else {
      assert ProductiveSteps([w] + ws, [s] + steps, 0) == 0;
    }
  }
}
