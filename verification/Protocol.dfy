/**
  The migration protocol when calls are answered: the only refusals left are the version conflicts a
  reconcile has with its own earlier write.
*/
module Protocol {
  import opened Replies
  import opened Cluster
  import opened Reconcile
  import opened Safety
  import opened Pods
  import opened Runs
  import opened Ownership

  ghost predicate CreatedBefore(pods: seq<Pod>, t: nat) {
    forall p :: p in pods ==> p.created < t
  }

  /** No call fails, new names are unused and the server's clock moves on. */
  ghost predicate Calm(w: World, input: Input) {
    && input.faults == map[]
    && input.bootName !in Names(w.pods) && input.targetName !in Names(w.pods)
    && input.bootName != input.targetName
    && CreatedBefore(w.pods, input.bootTime) && input.bootTime < input.targetTime
  }

  /** The job is the one that moves the machine from `source` to `target`. */
  predicate Moves(job: Job, source: Pod, target: Pod) {
    && job.source == source.name
    && target.migratePort == Some(job.targetPort)
    && job.targetIP == target.podIP && target.podIP != ""
  }

  predicate Pairing(w: World, vm: VM) {
    var alive := Alive(w.pods);
    && |alive| <= 2
    && (vm.status.state == Migrating <==> |alive| == 2)
    && (|alive| == 2 ==> alive[0].created != alive[1].created && Newer(alive).migratePort.Some?)
  }

  predicate JobFits(w: World) {
    var alive := Alive(w.pods);
    w.job.Some? && !w.job.value.deleting ==> |alive| == 2 && Moves(w.job.value, Older(alive), Newer(alive))
  }

  ghost predicate Addressed(pods: seq<Pod>) {
    forall p :: p in pods ==> p.ready ==> p.node != "" && p.hostIP != "" && p.podIP != ""
  }

  /**
    The machine is Migrating exactly when two pods are alive; the newer of them carries a migration port;
    and a migration job that was not told to go moves the machine from the older pod to the newer.
  */
  ghost predicate InProtocol(w: World) {
    && w.vm.Some? && !w.vm.value.deleting
    && UniqueNames(w.pods) && Addressed(w.pods)
    && Pairing(w, w.vm.value)
    && JobFits(w)
  }

  // ---- calls that are answered

  function Gone(job: Option<Job>): Option<Job> {
    if job.None? then None else Some(job.value.(deleting := true))
  }

  /** The record after a write from `vm` when the record still is `vm`. */
  function After(vm: VM, upd: VM): Option<VM> {
    if upd == vm then Some(vm) else Committed(upd)
  }

  lemma CalmWrite(w: World, vm: VM, upd: VM)
    requires w.vm == Some(vm) && !vm.deleting && CopyOf(upd, vm)
    ensures UpdateStatus(w, vm, upd, Accepted) == Result(w.(vm := After(vm, upd)), Nil)
  {
  }

  /** The step's own earlier write makes a later one fail. */
  lemma OwnConflict(w: World, w1: World, vm: VM, upd: VM, current: VM)
    requires w.vm == Some(vm) && OneWrite(w, w1, vm) && w1.vm != w.vm && !vm.deleting && CopyOf(upd, vm)
    requires current.status != upd.status
    ensures UpdateStatus(w1, current, upd, Accepted) == Result(w1, Conflict)
  {
  }

  lemma CalmRollback(w: World, vm: VM, target: Pod, input: Input)
    requires w.vm == Some(vm) && !vm.deleting && vm.status.state == Migrating && input.faults == map[]
    requires target.name in Names(w.pods)
    ensures Rollback(w, vm, target, input) == Result(
      w.(vm := Committed(WithState(vm, Running)), pods := Mark(w.pods, target.name), job := Gone(w.job),
         jobPod := if w.job.Some? then Leaving(w.jobPod) else w.jobPod), Nil)
  {
    hide Mark, UpdateStatus;
    var w1 := DeleteJob(w, Accepted).w;
    assert w1 == w.(job := Gone(w.job), jobPod := if w.job.Some? then Leaving(w.jobPod) else w.jobPod);
    var w2 := DeletePod(w1, target.name, Accepted).w;
    assert w2 == w1.(pods := Mark(w.pods, target.name));
    CalmWrite(w2, vm, WithState(vm, Running));
  }

  lemma CalmCleanup(w: World, vm: VM, source: Pod, target: Pod, input: Input)
    requires w.vm == Some(vm) && !vm.deleting && vm.status.state == Migrating && vm.spec.action == Start
    requires input.faults == map[] && source.name in Names(w.pods) && w.job.Some? && !target.deleting
    ensures Cleanup(w, vm, source, target, input) == Result(
      w.(vm := Committed(Moved(vm, target)), pods := Mark(w.pods, source.name), job := Gone(w.job),
         jobPod := Leaving(w.jobPod), console := Leaving(w.console)), if w.console.Absent? then NotFound else Nil)
  {
    hide Mark, UpdateStatus;
    CalmWrite(w, vm, Moved(vm, target));
    var w1 := w.(vm := Committed(Moved(vm, target)));
    var r2 := DeletePod(w1, source.name, Accepted);
    assert r2 == Result(w1.(pods := Mark(w.pods, source.name)), Nil);
    var r3 := DeleteJob(r2.w, Accepted);
    assert r3 == Result(r2.w.(job := Gone(w.job), jobPod := Leaving(w.jobPod)), Nil);
  }

  // ---- two pods

  lemma MarkedPair(pods: seq<Pod>, gone: Pod, left: Pod)
    requires UniqueNames(pods) && |Alive(pods)| == 2
    requires (gone == Older(Alive(pods)) && left == Newer(Alive(pods)))
          || (left == Older(Alive(pods)) && gone == Newer(Alive(pods)))
    ensures Alive(Mark(pods, gone.name)) == [left]
    ensures UniqueNames(Mark(pods, gone.name)) && gone.name in Names(pods) && !left.deleting && left in pods
  {
    hide Mark, Alive, UniqueNames, AliveNames, Names;
    TwoNames(pods);
    AliveMark(pods, gone.name);
    AliveCount(Mark(pods, gone.name));
    AliveAfterMark(pods, gone.name);
    AliveMembers(pods, gone);
    AliveMembers(pods, left);
    assert AliveNames(Mark(pods, gone.name)) == {left.name};
    assert left in Alive(Mark(pods, gone.name));
  }

  lemma {:induction false} MarkAddressed(pods: seq<Pod>, name: string)
    requires Addressed(pods)
    ensures Addressed(Mark(pods, name)) && Addressed(MarkAll(pods))
  {
    if pods != [] {
      var n := |pods| - 1;
      assert pods[n] in pods;
      forall p | p in pods[..n] ensures p.ready ==> p.node != "" && p.hostIP != "" && p.podIP != "" {
        assert p in pods;
      }
      MarkAddressed(pods[..n], name);
    }
  }

  // ---- start

  /** Nothing alive: one pod is booted, and the machine is Pending. */
  lemma BootKeepsProtocol(w: World, vm: VM, input: Input)
    requires InProtocol(w) && w.vm == Some(vm) && Calm(w, input) && vm.spec.action == Start
    requires |Alive(w.pods)| == 0
    ensures InProtocol(StartVM(w, vm, input).w) && |Alive(StartVM(w, vm, input).w.pods)| <= 1
  {
    hide UpdateNovnc, Migrate, Alive, UniqueNames, Names;
    if Lookup(w) == Nil {
      var boot := BootPod(vm, input);
      var pending := StatusWithPod(vm, boot);
      assert pending == WithState(vm, Pending);
      AliveAppend(w.pods, boot);
      var w1 := w.(pods := w.pods + [boot]);
      assert CreatePod(w, boot, Accepted) == Result(w1, Nil);
      CalmWrite(w1, vm, pending);
      var w2 := w1.(vm := After(vm, pending));
      assert UpdateMachinePod(w, vm, input) == PodResult(w2, Some(boot), Nil);
      NovncFrame(w2, vm, input);
      NovncKeepsState(w, w2, vm, input);
      var w3 := if boot.name != "" then UpdateNovnc(w2, vm, input).w else w2;
      if WantsMigration(vm, Some(boot)) {
        OwnConflictMigrates(w, w3, vm, input);
      }
      assert Addressed(w3.pods);
    }
  }

  /** With no pod alive, image and credentials in place: a pod pinned as the user asked, without a migration
      port, and the machine is Pending. */
  lemma BootStep(w: World, vm: VM, input: Input)
    requires w.vm == Some(vm) && !vm.deleting && Calm(w, input) && vm.status.state != Migrating
    requires |Alive(w.pods)| == 0 && Lookup(w) == Nil
    ensures var r := StartVM(w, vm, input).w;
      && r.pods == w.pods + [Pod(input.bootName, input.bootTime,
                                 if vm.spec.nodeName == "" then None else Some(vm.spec.nodeName), None,
                                 "", "", "", false, false, false)]
      && r.vm.Some? && r.vm.value.status.state == Pending
  {
    hide UpdateNovnc, Migrate, Alive, UniqueNames, Names;
    var boot := BootPod(vm, input);
    var pending := StatusWithPod(vm, boot);
    var w1 := w.(pods := w.pods + [boot]);
    assert CreatePod(w, boot, Accepted) == Result(w1, Nil);
    CalmWrite(w1, vm, pending);
    var w2 := w1.(vm := After(vm, pending));
    assert UpdateMachinePod(w, vm, input) == PodResult(w2, Some(boot), Nil);
    NovncFrame(w2, vm, input);
    NovncKeepsState(w, w2, vm, input);
    if WantsMigration(vm, Some(boot)) {
      OwnConflictMigrates(w, if boot.name != "" then UpdateNovnc(w2, vm, input).w else w2, vm, input);
    }
  }

  /** Whatever fails, every pod a reconcile makes is pinned as the user asked and not yet placed, and a
      migration target, and only that, carries a migration port, one of the upper half of the ports. */
  lemma PodsAreMadeAsAsked(w: World, vm: VM, input: Input, q: Pod)
    requires Snapshot(w, vm) && input.bootName != input.targetName
    ensures q in Process(w, vm, input).w.pods && q.name !in Names(w.pods) ==>
      && q.affinity == (if vm.spec.nodeName == "" then None else Some(vm.spec.nodeName))
      && q.node == "" && !q.ready && !q.deleting
      && (if q.name == input.bootName then |Alive(w.pods)| == 0 && q.migratePort.None?
          else
            && q.name == input.targetName && q.migratePort.Some? && 32768 <= q.migratePort.value <= 65535
            && q.migratePort.value % 32768 == input.rand % 32768)
  {
    hide Process, Mark, MarkAll, Alive, Names, UniqueNames, Committed, Moved;
    var r := Process(w, vm, input).w;
    ReconcileEffect(w, vm, input);
    if q in r.pods && q.name !in Names(w.pods) {
      AliveMembers(w.pods, q);
      AliveMembers(r.pods, q);
      forall name ensures Names(Mark(w.pods, name)) == Names(w.pods) {
        AliveMark(w.pods, name);
      }
      AliveMarkAll(w.pods);
    }
  }

  /** The identity a new machine gets holds the first eight characters of its uid, so machines whose uids
      differ there differ in both. */
  lemma PreparedIdentity(vm: VM, other: VM)
    ensures var s := Prepared(vm).status;
      && s.id == "i-" + vm.uid[..8]
      && |s.mac| == 17 && s.mac[..6] == "06:fe:"
      && s.mac[6..8] + s.mac[9..11] + s.mac[12..14] + s.mac[15..] == vm.uid[..8]
    ensures vm.uid[..8] != other.uid[..8] ==>
      Prepared(vm).status.id != Prepared(other).status.id && Prepared(vm).status.mac != Prepared(other).status.mac
  {
    var s, t := Prepared(vm).status, Prepared(other).status;
    assert s.id[2..] == vm.uid[..8] && t.id[2..] == other.uid[..8];
    MacHoldsUid(vm);
    MacHoldsUid(other);
  }

  lemma MacHoldsUid(vm: VM)
    ensures var mac := Prepared(vm).status.mac;
      && |mac| == 17 && mac[..6] == "06:fe:"
      && mac[6..8] + mac[9..11] + mac[12..14] + mac[15..] == vm.uid[..8]
  {
    var mac, u := Prepared(vm).status.mac, vm.uid;
    assert mac[6..8] == u[..2] && mac[9..11] == u[2..4] && mac[12..14] == u[4..6] && mac[15..] == u[6..8];
  }

  /** The console update leaves the recorded state alone, and after a write it changes nothing at all. */
  lemma NovncKeepsState(w0: World, w: World, vm: VM, input: Input)
    requires w0.vm == Some(vm) && OneWrite(w0, w, vm) && w.vm.Some? && !vm.deleting && input.faults == map[]
    ensures var r := UpdateNovnc(w, vm, input).w;
      && OneWrite(w0, r, vm) && r.vm.Some? && r.vm.value.deleting == vm.deleting
      && r.vm.value.status.state == w.vm.value.status.state
      && (w.vm != w0.vm ==> r.vm == w.vm)
  {
    NovncWrites(w0, w, vm, input);
    if vm.spec.hostedNovnc {
      var w1 := UpdateNovncPod(w, input).w;
      assert w1.vm == w.vm;
      var w2 := if w1.service.Some? then w1 else w1.(service := Some(input.nodePort));
      assert w2.vm == w.vm;
      NovncWriteState(w0, w2, vm, WithEndpoint(vm, Endpoint(vm.status.nodeIP, w2.service.value)));
    } else {
      var w1 := DeleteConsole(w, Accepted).w;
      assert w1.vm == w.vm;
      var w2 := DeleteService(w1, Accepted).w;
      assert w2.vm == w.vm;
      NovncWriteState(w0, w2, vm, WithEndpoint(vm, NoEndpoint));
    }
  }

  lemma NovncWriteState(w0: World, w: World, vm: VM, upd: VM)
    requires w0.vm == Some(vm) && OneWrite(w0, w, vm) && w.vm.Some? && !vm.deleting
    requires upd == WithEndpoint(vm, upd.status.vncEndpoint)
    ensures var r := UpdateStatus(w, vm, upd, Accepted).w;
      && r.vm.Some? && r.vm.value.status.state == w.vm.value.status.state
      && (w.vm != w0.vm ==> r.vm == w.vm)
  {
  }

  /** What a console update leaves when its calls are answered: a console and its service if they are asked
      for, and otherwise neither a service nor a console that was not told to go. */
  lemma ConsoleUpdated(w: World, vm: VM, input: Input)
    requires input.faults == map[]
    ensures var r := UpdateNovnc(w, vm, input).w;
      if vm.spec.hostedNovnc then
        && r.console == (if w.console.Absent? then Present else w.console)
        && r.service == (if w.service.None? then Some(input.nodePort) else w.service)
      else r.console == Leaving(w.console) && r.service.None?
  {
    hide UpdateStatus;
    if vm.spec.hostedNovnc {
      var w1 := UpdateNovncPod(w, input).w;
      assert w1 == w.(console := if w.console.Absent? then Present else w.console);
      var w2 := if w1.service.Some? then w1 else w1.(service := Some(input.nodePort));
      StatusFrame(w2, vm, WithEndpoint(vm, Endpoint(vm.status.nodeIP, w2.service.value)), Accepted);
    } else {
      var w1 := DeleteConsole(w, Accepted).w;
      assert w1 == w.(console := Leaving(w.console));
      var w2 := DeleteService(w1, Accepted).w;
      assert w2 == w1.(service := None);
      StatusFrame(w2, vm, WithEndpoint(vm, NoEndpoint), Accepted);
    }
  }

  /** What a console update records from the current record, when its calls are answered: the node's address
      with the service's port if both are known, and no endpoint if no console is asked for. */
  lemma EndpointRecorded(w: World, vm: VM, input: Input)
    requires w.vm == Some(vm) && !vm.deleting && input.faults == map[]
    ensures var r := UpdateNovnc(w, vm, input).w; var port := if w.service.Some? then w.service.value else input.nodePort;
      r.vm == After(vm, WithEndpoint(vm,
        if !vm.spec.hostedNovnc then NoEndpoint
        else if vm.status.nodeIP != "" && port > 0 then Endpoint(vm.status.nodeIP, port)
        else vm.status.vncEndpoint))
  {
    hide UpdateStatus;
    if vm.spec.hostedNovnc {
      var w1 := UpdateNovncPod(w, input).w;
      assert w1 == w.(console := w1.console);
      var w2 := if w1.service.Some? then w1 else w1.(service := Some(input.nodePort));
      CalmWrite(w2, vm, WithEndpoint(vm, Endpoint(vm.status.nodeIP, w2.service.value)));
    } else {
      var w1 := DeleteConsole(w, Accepted).w;
      assert w1.vm == w.vm;
      var w2 := DeleteService(w1, Accepted).w;
      assert w2.vm == w.vm;
      CalmWrite(w2, vm, WithEndpoint(vm, NoEndpoint));
    }
  }

  /** After the step's own write a migration does not start. */
  lemma OwnConflictMigrates(w0: World, w: World, vm: VM, input: Input)
    requires w0.vm == Some(vm) && OneWrite(w0, w, vm) && w.vm != w0.vm && !vm.deleting && input.faults == map[]
    requires vm.status.state == Running
    ensures Migrate(w, vm, input) == Result(w, Conflict)
  {
    hide ContinueMigration;
    OwnConflict(w0, w, vm, WithState(vm, Migrating), vm);
  }

  /** A migration that starts records Migrating and adds the target pod in one step. */
  lemma CalmMigrationStart(w: World, vm: VM, input: Input)
    requires w.vm == Some(vm) && !vm.deleting && vm.status.state == Running && input.faults == map[]
    requires |Alive(w.pods)| == 1 && Lookup(w) == Nil && input.targetName !in Names(w.pods)
    ensures Migrate(w, vm, input) == Result(
      w.(vm := Committed(WithState(vm, Migrating)), pods := w.pods + [TargetPod(vm, input)]), Nil)
  {
    hide Alive, Names, Rollback, Cleanup, UpdateStatus;
    var m := WithState(vm, Migrating);
    CalmWrite(w, vm, m);
    var w1 := w.(vm := Committed(m));
    var target := TargetPod(m, input);
    assert target == TargetPod(vm, input);
    assert CreatePod(w1, target, Accepted) == Result(w1.(pods := w.pods + [target]), Nil);
    assert StartTarget(w1, m, input) == TargetResult(w1.(pods := w.pods + [target]), false, false, Nil);
  }

  /** The cluster after the status and console updates of a start with the single alive pod `p`. */
  function Settled(w: World, vm: VM, p: Pod, input: Input): World {
    var w1 := w.(vm := After(vm, StatusWithPod(vm, p)));
    if p.name != "" then UpdateNovnc(w1, vm, input).w else w1
  }

  predicate OnWrongNode(vm: VM, p: Pod) {
    vm.status.state == Running && vm.spec.nodeName != "" && vm.spec.nodeName != p.node
  }

  /** What a start does with one alive pod: a migration begins only in a step that wrote nothing before. */
  lemma SingleStep(w: World, vm: VM, p: Pod, input: Input)
    requires w.vm == Some(vm) && !vm.deleting && Calm(w, input) && vm.status.state != Migrating
    requires UniqueNames(w.pods) && Alive(w.pods) == [p] && Lookup(w) == Nil
    ensures var w2 := Settled(w, vm, p, input);
      && w2 == w.(vm := w2.vm, console := w2.console, service := w2.service)
      && OneWrite(w, w2, vm) && w2.vm.Some?
      && w2.vm.value.status.state == (if p.ready then Running else Pending)
      && StartVM(w, vm, input).w ==
         if Misplaced(vm, p) then w2.(pods := Mark(w.pods, p.name))
         else if OnWrongNode(vm, p) && w2.vm == w.vm then
           w2.(vm := Committed(WithState(vm, Migrating)), pods := w.pods + [TargetPod(vm, input)])
         else w2
  {
    hide UpdateNovnc, Migrate, Alive, UniqueNames, Names, Mark;
    AliveMembers(w.pods, p);
    var upd := StatusWithPod(vm, p);
    CalmWrite(w, vm, upd);
    var w1 := w.(vm := After(vm, upd));
    assert UpdateMachinePod(w, vm, input) == PodResult(w1, Some(p), Nil);
    NovncFrame(w1, vm, input);
    NovncKeepsState(w, w1, vm, input);
    var w2 := Settled(w, vm, p, input);
    SingleTail(w, w2, vm, p, input);
  }

  lemma SingleTail(w: World, w2: World, vm: VM, p: Pod, input: Input)
    requires w.vm == Some(vm) && !vm.deleting && Calm(w, input) && vm.status.state != Migrating
    requires UniqueNames(w.pods) && Alive(w.pods) == [p] && Lookup(w) == Nil
    requires w2 == w.(vm := w2.vm, console := w2.console, service := w2.service) && OneWrite(w, w2, vm)
    ensures (if Misplaced(vm, p) then DeletePod(w2, p.name, Accepted).w
             else if WantsMigration(vm, Some(p)) then Migrate(w2, vm, input).w else w2) ==
      if Misplaced(vm, p) then w2.(pods := Mark(w.pods, p.name))
      else if OnWrongNode(vm, p) && w2.vm == w.vm then
        w2.(vm := Committed(WithState(vm, Migrating)), pods := w.pods + [TargetPod(vm, input)])
      else w2
  {
    hide Migrate, Alive, UniqueNames, Names, Mark, OneWrite;
    if Misplaced(vm, p) {
      OnlyName(w.pods, p);
    } else if WantsMigration(vm, Some(p)) {
      if w2.vm != w.vm {
        OwnConflictMigrates(w, w2, vm, input);
      } else {
        CalmMigrationStart(w2, vm, input);
      }
    }
  }

  /** A start with one alive pod, when calls are answered: the console and its service are there if they are
      asked for, and otherwise told to go. */
  lemma StartSeesToConsole(w: World, vm: VM, p: Pod, input: Input)
    requires InProtocol(w) && w.vm == Some(vm) && Calm(w, input) && vm.spec.action == Start
    requires Alive(w.pods) == [p] && p.name != "" && Lookup(w) == Nil
    ensures var r := StartVM(w, vm, input).w;
      if vm.spec.hostedNovnc then !r.console.Absent? && r.service.Some? && (w.console.Absent? ==> r.console.Present?)
      else r.console == Leaving(w.console) && r.service.None?
  {
    hide StartVM, Alive, UniqueNames, Names, Mark, UpdateNovnc;
    SingleStep(w, vm, p, input);
    ConsoleUpdated(w.(vm := After(vm, StatusWithPod(vm, p))), vm, input);
  }

  lemma SingleKeepsProtocol(w: World, vm: VM, input: Input)
    requires InProtocol(w) && w.vm == Some(vm) && Calm(w, input) && vm.spec.action == Start
    requires |Alive(w.pods)| == 1
    ensures InProtocol(StartVM(w, vm, input).w)
  {
    hide StartVM, Alive, UniqueNames, Names, Mark, Settled, Misplaced, OnWrongNode;
    var p := Alive(w.pods)[0];
    assert Alive(w.pods) == [p];
    if Lookup(w) == Nil {
      SingleStep(w, vm, p, input);
      OnlyName(w.pods, p);
      MarkAddressed(w.pods, p.name);
      var target := TargetPod(vm, input);
      AliveMembers(w.pods, p);
      AliveAppend(w.pods, target);
      assert Alive(w.pods + [target]) == [p, target];
    } else {
      LookupFirst(w, vm, input);
    }
  }

  lemma OnlyName(pods: seq<Pod>, p: Pod)
    requires UniqueNames(pods) && Alive(pods) == [p]
    ensures p.name in Names(pods) && Alive(Mark(pods, p.name)) == [] && UniqueNames(Mark(pods, p.name))
  {
    hide Alive, UniqueNames, Names, Mark, AliveNames;
    AliveMembers(pods, p);
    AliveMark(pods, p.name);
    AliveCount(pods);
    AliveCount(Mark(pods, p.name));
    assert AliveNames(pods) - {p.name} < AliveNames(pods);
    SubsetSize(AliveNames(pods) - {p.name}, AliveNames(pods));
  }

  /** Two alive pods: wait, cancel, run the job, or finish. */
  lemma PairKeepsProtocol(w: World, vm: VM, input: Input)
    requires InProtocol(w) && w.vm == Some(vm) && Calm(w, input) && vm.spec.action == Start
    requires |Alive(w.pods)| == 2
    ensures InProtocol(StartVM(w, vm, input).w)
  {
    hide Alive, UniqueNames, Names, Mark, Rollback, Cleanup, RunJob;
    PairStep(w, vm, input);
    var r := StartVM(w, vm, input).w;
    var alive := Alive(w.pods);
    var source, target := Older(alive), Newer(alive);
    MarkedPair(w.pods, source, target);
    MarkedPair(w.pods, target, source);
    MarkAddressed(w.pods, source.name);
    MarkAddressed(w.pods, target.name);
  }

  /** Two ready pods, a job that succeeded, and no cancellation. */
  predicate FinishesNow(w: World, vm: VM) {
    var alive := Alive(w.pods);
    && |alive| == 2 && vm.spec.nodeName != Older(alive).node && alive[0].ready && alive[1].ready
    && w.job.Some? && w.job.value.succeeded == 1
  }

  /** The four things a start can do with two alive pods. It reports an error only when it has finished and
      found no console to delete. */
  lemma PairStep(w: World, vm: VM, input: Input)
    requires InProtocol(w) && w.vm == Some(vm) && Calm(w, input) && vm.spec.action == Start
    requires |Alive(w.pods)| == 2
    ensures var r := StartVM(w, vm, input).w; var alive := Alive(w.pods);
      if Lookup(w) != Nil then r == w
      else if vm.spec.nodeName == Older(alive).node then
        r == w.(vm := Committed(WithState(vm, Running)), pods := Mark(w.pods, Newer(alive).name), job := Gone(w.job),
                jobPod := if w.job.Some? then Leaving(w.jobPod) else w.jobPod)
      else if !(alive[0].ready && alive[1].ready) then r == w
      else if w.job.None? then r == w.(job := Some(JobFor(Older(alive), Newer(alive))))
      else if w.job.value.succeeded != 1 then r == w
      else r == w.(vm := Committed(Moved(vm, Newer(alive))), pods := Mark(w.pods, Older(alive).name), job := Gone(w.job),
                   jobPod := Leaving(w.jobPod), console := Leaving(w.console))
    ensures Lookup(w) == Nil ==>
      StartVM(w, vm, input).err == if FinishesNow(w, vm) && w.console.Absent? then NotFound else Nil
  {
    hide Alive, UniqueNames, Names, Mark, Rollback, Cleanup;
    var alive := Alive(w.pods);
    var source, target := Older(alive), Newer(alive);
    AliveMembers(w.pods, source);
    AliveMembers(w.pods, target);
    MigrateIsContinue(w, vm, input);
    assert Lookup(w) == Nil ==> UpdateMachinePod(w, vm, input) == PodResult(w, None, Nil);
    CalmRollback(w, vm, target, input);
    if w.job.Some? {
      CalmCleanup(w, vm, source, target, input);
    }
  }

  // ---- stop

  /** What a stop does when its calls are answered. */
  lemma CalmStop(w: World, vm: VM, input: Input)
    requires w.vm == Some(vm) && !vm.deleting && input.faults == map[]
    ensures var r := StopVM(w, vm, input).w;
      && r.pods == MarkAll(w.pods) && r.job == Gone(w.job) && r.console == Leaving(w.console)
      && r.jobPod == Leaving(w.jobPod)
      && r.vm == After(vm, vm.(status := vm.status.(
           nodeName := if NoLabelledPods(w) then "" else vm.status.nodeName,
           state := if NoLabelledPods(w) && w.job.None? then Stopped else Stopping)))
  {
    hide MarkAll, UpdateStatus;
    var r1 := DeleteLabelledPods(w, Accepted);
    assert r1.w == w.(pods := MarkAll(w.pods), console := Leaving(w.console), jobPod := Leaving(w.jobPod)) by {
      assert w.pods == [] ==> MarkAll(w.pods) == [] by { assert |MarkAll(w.pods)| == |w.pods|; }
    }
    var r2 := DeleteJob(r1.w, Accepted);
    assert r2.w == r1.w.(job := Gone(w.job));
    var r3 := DeleteConsole(r2.w, Accepted);
    assert r3.w == r2.w;
    CalmWrite(r3.w, vm, vm.(status := vm.status.(nodeName := if r1.err == NotFound then "" else vm.status.nodeName,
                                                 state := StopState(r1.err, r2.err, r3.err))));
  }

  lemma StopKeepsProtocol(w: World, vm: VM, input: Input)
    requires InProtocol(w) && w.vm == Some(vm) && Calm(w, input)
    ensures InProtocol(StopVM(w, vm, input).w)
  {
    hide StopVM, MarkAll, UniqueNames, Names;
    CalmStop(w, vm, input);
    AliveMarkAll(w.pods);
    MarkAddressed(w.pods, "");
  }

  // ---- every step

  lemma StartKeepsProtocol(w: World, vm: VM, input: Input)
    requires InProtocol(w) && w.vm == Some(vm) && Calm(w, input) && vm.spec.action == Start
    ensures InProtocol(StartVM(w, vm, input).w)
  {
    hide StartVM, Calm;
    if |Alive(w.pods)| == 0 {
      BootKeepsProtocol(w, vm, input);
    } else if |Alive(w.pods)| == 1 {
      SingleKeepsProtocol(w, vm, input);
    } else {
      PairKeepsProtocol(w, vm, input);
    }
  }

  lemma ReconcileKeepsProtocol(w: World, vm: VM, input: Input)
    requires InProtocol(w) && w.vm == Some(vm) && Calm(w, input)
    ensures InProtocol(Process(w, vm, input).w)
  {
    hide StartVM, StopVM, CreateLonghorn, Alive, UniqueNames;
    if Unprepared(vm) {
      assert UpdateVM(w, Prepared(vm), Accepted).w == w.(vm := Committed(Prepared(vm)));
    } else if vm.spec.action == Start {
      CreateLonghornFrame(w, input);
      var w1 := if vm.spec.longhorn then CreateLonghorn(w, input).w else w;
      StartKeepsProtocol(w1, vm, input);
    } else if vm.spec.action == Stop {
      StopKeepsProtocol(w, vm, input);
    }
  }

  /** No outside hand removes a pod during a migration, or the record. */
  ghost predicate Orderly(w: World, w': World) {
    && Environment(w, w')
    && w'.vm.Some? && !w'.vm.value.deleting
    && (w.vm.Some? && w.vm.value.status.state == Migrating ==> AliveNames(w'.pods) == AliveNames(w.pods))
  }

  /** Each of two alive pods is, after the environment's step, the later self of the same one. */
  lemma PairEvolves(pods: seq<Pod>, pods': seq<Pod>)
    requires UniqueNames(pods) && PodsEvolved(pods, pods') && AliveNames(pods') == AliveNames(pods)
    requires |Alive(pods)| == 2 && Alive(pods)[0].created != Alive(pods)[1].created
    ensures |Alive(pods')| == 2 && Alive(pods')[0].created != Alive(pods')[1].created
    ensures Evolved(Older(Alive(pods)), Older(Alive(pods')))
    ensures Evolved(Newer(Alive(pods)), Newer(Alive(pods')))
  {
    hide AliveNames, UniqueNames, Names, Alive, Evolved;
    AliveCount(pods);
    AliveCount(pods');
    TwoNames(pods);
    TwoNames(pods');
    var a := EvolvedFrom(pods, pods', Alive(pods')[0]);
    var b := EvolvedFrom(pods, pods', Alive(pods')[1]);
    TwoDistinct(Alive(pods'));
    EvolvedKeeps(a, Alive(pods')[0]);
    EvolvedKeeps(b, Alive(pods')[1]);
  }

  lemma TwoDistinct(alive: seq<Pod>)
    requires |alive| == 2 && UniqueNames(alive)
    ensures alive[0].name != alive[1].name
  {
    assert Names(alive[..1]) == Names(alive[..1][..0]) + {alive[0].name};
  }

  lemma EvolvedKeeps(p: Pod, q: Pod)
    requires Evolved(p, q)
    ensures p.name == q.name && p.created == q.created
  {
  }

  /** The alive pod that an alive pod used to be. */
  lemma EvolvedFrom(pods: seq<Pod>, pods': seq<Pod>, q: Pod) returns (p: Pod)
    requires PodsEvolved(pods, pods') && q in Alive(pods')
    ensures p in Alive(pods) && Evolved(p, q)
  {
    AliveMembers(pods', q);
    p :| p in pods && Evolved(p, q);
    AliveMembers(pods, p);
  }

  lemma EnvironmentKeepsProtocol(w: World, w': World)
    requires InProtocol(w) && Orderly(w, w')
    ensures InProtocol(w')
  {
    hide Alive, UniqueNames, AliveNames;
    var vm := w.vm.value;
    assert w'.vm.value.status == vm.status;
    assert Addressed(w'.pods);
    if vm.status.state == Migrating {
      PairEvolves(w.pods, w'.pods);
    } else {
      AliveCount(w.pods);
      AliveCount(w'.pods);
      EvolvedNames(w.pods, w'.pods);
      SubsetSize(AliveNames(w'.pods), AliveNames(w.pods));
    }
  }

  ghost predicate CalmNext(w: World, s: Step, w': World) {
    match s
    case Reconciled(vm, input) => w.vm == Some(vm) && Calm(w, input) && w' == Process(w, vm, input).w
    case Elsewhere => Orderly(w, w')
  }

  ghost predicate CalmRun(ws: seq<World>, steps: seq<Step>) {
    && |ws| == |steps| + 1
    && forall i :: 0 <= i < |steps| ==> CalmNext(ws[i], steps[i], ws[i + 1])
  }

  lemma NextKeepsProtocol(w: World, s: Step, w': World)
    requires InProtocol(w) && CalmNext(w, s, w')
    ensures InProtocol(w')
  {
    hide Process, InProtocol, Orderly;
    match s
    case Reconciled(vm, input) => ReconcileKeepsProtocol(w, vm, input);
    case Elsewhere => EnvironmentKeepsProtocol(w, w');
  }

  /** The protocol holds in every state of every calm run, through starts, stops, moves and cancellations. */
  lemma {:induction false} ProtocolHolds(ws: seq<World>, steps: seq<Step>, i: nat)
    requires CalmRun(ws, steps) && InProtocol(ws[0]) && i < |ws|
    ensures InProtocol(ws[i])
  {
    hide CalmNext, InProtocol;
    if i > 0 {
      ProtocolHolds(ws, steps, i - 1);
      NextKeepsProtocol(ws[i - 1], steps[i - 1], ws[i]);
    }
  }
}
