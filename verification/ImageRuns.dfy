/** Whole runs of the image pipeline: the order of its stages, the ready list, and progress. */
module ImageRuns {
  import opened Replies
  import opened Sorting
  import opened Images

  /** Container `i` is the first kaniko container that has terminated. */
  predicate FirstKaniko(containers: seq<Container>, i: int) {
    && 0 <= i < |containers| && containers[i].name == "kaniko" && containers[i].exitCode.Some?
    && forall j :: 0 <= j < i ==> !(containers[j].name == "kaniko" && containers[j].exitCode.Some?)
  }

  /** The first kaniko container that has terminated exited with code 0. */
  ghost predicate KanikoDone(w: World) {
    && w.publisher.Some?
    && exists i :: FirstKaniko(w.publisher.value.containers, i) && w.publisher.value.containers[i].exitCode == Some(0)
  }

  /** The exit code found is that of the first kaniko container that has terminated; none means there is none. */
  lemma {:induction false} KanikoFound(containers: seq<Container>)
    ensures match KanikoExit(containers)
      case None => forall i :: 0 <= i < |containers| ==> !(containers[i].name == "kaniko" && containers[i].exitCode.Some?)
      case Some(code) => exists i :: FirstKaniko(containers, i) && containers[i].exitCode == Some(code)
  {
    if containers != [] {
      KanikoFound(containers[1..]);
      if containers[0].name == "kaniko" && containers[0].exitCode.Some? {
        assert FirstKaniko(containers, 0);
      } else if KanikoExit(containers).Some? {
        var i :| FirstKaniko(containers[1..], i) && containers[1..][i].exitCode == KanikoExit(containers);
        assert containers[i + 1] == containers[1..][i];
        forall j | 0 <= j < i + 1 ensures !(containers[j].name == "kaniko" && containers[j].exitCode.Some?) {
          assert j > 0 ==> containers[j] == containers[1..][j - 1];
        }
        assert FirstKaniko(containers, i + 1);
      } else {
        forall i | 0 <= i < |containers| ensures !(containers[i].name == "kaniko" && containers[i].exitCode.Some?) {
          assert i > 0 ==> containers[i] == containers[1..][i - 1];
        }
      }
    }
  }

  lemma FirstKanikoIsOne(containers: seq<Container>, i: int, j: int)
    requires FirstKaniko(containers, i) && FirstKaniko(containers, j)
    ensures i == j
  {
  }

  /** Kaniko is done, or failed, or still at work, as its containers say. */
  lemma KanikoExitMeans(containers: seq<Container>, i: int)
    requires FirstKaniko(containers, i)
    ensures KanikoExit(containers) == containers[i].exitCode
  {
    KanikoFound(containers);
    if KanikoExit(containers).Some? {
      var j :| FirstKaniko(containers, j) && containers[j].exitCode == KanikoExit(containers);
      FirstKanikoIsOne(containers, i, j);
    }
  }

  /** Each stage rests on the one before it. */
  predicate StagesInOrder(image: Image) {
    var s := image.status;
    && (image.fromVM ==> (s.backupURL != "" ==> s.snapshot != "") && (s.published ==> s.backupURL != ""))
    && (s.state == Provision || s.state == Ready ==> s.published)
  }

  /** Nothing that was completed is lost or replaced. */
  predicate NotUndone(a: Image, b: Image) {
    && b.fromVM == a.fromVM
    && (a.status.snapshot != "" ==> b.status.snapshot == a.status.snapshot)
    && (a.status.backupURL != "" ==> b.status.backupURL == a.status.backupURL && b.status.baseImage == a.status.baseImage)
    && (a.status.published ==> b.status.published)
  }

  lemma ProvisionKeeps(w: World, image: Image, input: Input)
    requires w.image == Some(image)
    ensures var r := ProvisionNodes(w, image, input).w;
      && r.image.Some? && r == w.(pulls := r.pulls, image := r.image)
      && r.image.value == image.(status := image.status.(state := r.image.value.status.state, nodes := r.image.value.status.nodes))
      && (r.image != w.image ==> r.image.value.status.state in {Provision, Ready})
  {
    hide VisitAll, Sort;
  }

  /** Backup changes nothing but what it is for. */
  lemma BackupKeeps(w: World, image: Image, input: Input)
    requires w.image == Some(image)
    ensures var r := CreateBackup(w, image, input).w;
      && r.image.Some? && r == w.(image := r.image)
      && r.image.value == image.(status := image.status.(backupURL := r.image.value.status.backupURL,
                                                         baseImage := r.image.value.status.baseImage))
  {
  }

  /** Publication changes nothing but what it is for, and happens only after kaniko. */
  lemma PublishKeeps(w: World, image: Image, input: Input)
    requires w.image == Some(image)
    ensures var r := PublishImage(w, image, input).w;
      && r.image.Some? && r == w.(image := r.image, publisher := r.publisher)
      && (r.image == w.image || (r.image == Some(image.(status := image.status.(published := true))) && KanikoDone(w)))
  {
    hide KanikoExit;
    if w.publisher.Some? {
      KanikoFound(w.publisher.value.containers);
    }
  }

  /**
    The publishing step of an image made from a machine, when its calls are answered: without a publish pod
    it makes one; it waits while no kaniko container has terminated; when the first that has exited with code
    0 the pod is told to go and the image is published; with any other code it reports an error and changes
    nothing.
  */
  lemma PublishAnswered(w: World, image: Image, input: Input)
    requires w.image == Some(image) && w.settingsFound
    requires input.update == Accepted && input.publisherCreate == Accepted && input.publisherDelete == Accepted
    ensures var r := PublishImage(w, image, input);
      match w.publisher
      case None => r == Result(w.(publisher := Some(Publisher([], false))), Nil)
      case Some(p) =>
        && ((forall i :: 0 <= i < |p.containers| ==> !(p.containers[i].name == "kaniko" && p.containers[i].exitCode.Some?)) ==>
              r == Result(w, Nil))
        && (forall i :: FirstKaniko(p.containers, i) ==>
              if p.containers[i].exitCode == Some(0) then
                r == Result(w.(publisher := Some(p.(deleting := true)),
                               image := Some(image.(status := image.status.(published := true)))), Nil)
              else r.w == w && r.err != Nil)
  {
    hide KanikoExit;
    if w.publisher.Some? {
      var containers := w.publisher.value.containers;
      KanikoFound(containers);
      if KanikoExit(containers).Some? {
        var i :| FirstKaniko(containers, i) && containers[i].exitCode == KanikoExit(containers);
      }
      forall i | FirstKaniko(containers, i) ensures KanikoExit(containers) == containers[i].exitCode {
        KanikoExitMeans(containers, i);
      }
    }
  }

  /** Whatever fails, a step keeps the order of the stages, undoes none, and publishes only after kaniko. */
  lemma StepKeepsOrder(w: World, input: Input)
    requires w.image.Some? && StagesInOrder(w.image.value)
    ensures var r := Process(w, input).w;
      && r.image.Some? && StagesInOrder(r.image.value) && NotUndone(w.image.value, r.image.value)
      && (r.image.value.fromVM && r.image.value.status.published && !w.image.value.status.published ==> KanikoDone(w))
  {
    hide ProvisionNodes, CreateBackup, PublishImage, KanikoDone;
    var image := w.image.value;
    ProvisionKeeps(w, image, input);
    BackupKeeps(w, image, input);
    PublishKeeps(w, image, input);
  }

  // ---- runs

  predicate PullsEvolved(a: map<string, Pull>, b: map<string, Pull>) {
    forall x :: x in b ==> x in a
  }

  /** Outside a reconcile, pods progress and vanish, nodes come and go, and the image may be deleted. */
  predicate Environment(w: World, w': World) {
    && (w'.image == w.image || w'.image.None?)
    && Distinct(w'.nodes)
    && PullsEvolved(w.pulls, w'.pulls)
    && (w.publisher.None? ==> w'.publisher.None?)
  }

  datatype Step = Reconciled(input: Input) | Elsewhere

  predicate Next(w: World, s: Step, w': World) {
    match s
    case Reconciled(input) => w' == Process(w, input).w
    case Elsewhere => Environment(w, w')
  }

  predicate Run(ws: seq<World>, steps: seq<Step>) {
    && |ws| == |steps| + 1
    && forall i :: 0 <= i < |steps| ==> Next(ws[i], steps[i], ws[i + 1])
  }

  /**
    In every run that starts in order, with any call failing at any step, the stages stay in order, none
    completed at step `j` is undone at a later step `i`, and an image made from a machine is published
    only after a state in which kaniko had exited with code 0.
  */
  lemma {:induction false} StagesStayInOrder(ws: seq<World>, steps: seq<Step>, j: nat, i: nat)
    requires Run(ws, steps) && j <= i < |ws|
    requires ws[j].image.Some? && StagesInOrder(ws[j].image.value)
    ensures ws[i].image.Some? ==> StagesInOrder(ws[i].image.value) && NotUndone(ws[j].image.value, ws[i].image.value)
    ensures (&& ws[i].image.Some? && ws[i].image.value.fromVM && ws[i].image.value.status.published
             && !ws[j].image.value.status.published) ==> exists k :: j <= k < i && KanikoDone(ws[k])
    decreases i
  {
    hide Process, StagesInOrder, KanikoDone;
    if i == j {
      Unchanged(ws[i].image.value);
    } else {
      StagesStayInOrder(ws, steps, j, i - 1);
      assert Next(ws[i - 1], steps[i - 1], ws[i]);
      if ws[i].image.Some? {
        if steps[i - 1].Reconciled? {
          if ws[i - 1].image.Some? {
            StepKeepsOrder(ws[i - 1], steps[i - 1].input);
            UndoneChain(ws[j].image.value, ws[i - 1].image.value, ws[i].image.value);
          } else {
            NoImage(ws[i - 1], steps[i - 1].input);
            assert false;
          }
        }
      }
    }
  }

  lemma Unchanged(a: Image)
    ensures NotUndone(a, a)
  {
  }

  lemma UndoneChain(a: Image, b: Image, c: Image)
    requires NotUndone(a, b) && NotUndone(b, c)
    ensures NotUndone(a, c)
  {
  }

  lemma NoImage(w: World, input: Input)
    requires w.image.None?
    ensures Process(w, input).w == w
  {
  }

  // ---- the ready list

  /**
    What a step records when it provisions: the sorted list, without duplicates, of exactly those listed
    nodes that were recorded before or whose pull pod has succeeded; and Ready exactly when the list
    reaches the minimum or covers every node.
  */
  lemma RecordedNodes(w: World, image: Image, input: Input)
    requires w.image == Some(image) && Distinct(w.nodes)
    requires ProvisionNodes(w, image, input).w.image != w.image
    ensures var s := ProvisionNodes(w, image, input).w.image.value.status;
      && Sorted(s.nodes) && Distinct(s.nodes) && w.minimum.Some?
      && (forall x :: x in s.nodes <==>
            x in w.nodes && (x in image.status.nodes || (x in w.pulls && w.pulls[x].phase == PodSucceeded)))
      && s.state == (if |s.nodes| >= w.minimum.value || |s.nodes| == |w.nodes| then Ready else Provision)
  {
    hide VisitAll, HavingImage, Sort, Sorted, Distinct;
    var ready := HavingImage(w.pulls, w.nodes, image.status.nodes);
    PassFinds(w.pulls, w.nodes, image.status.nodes, input, "");
    SortSorted(ready);
    SortMembers(ready);
    HavingDistinct(w.pulls, w.nodes, image.status.nodes);
    SortDistinct(ready);
    forall x ensures x in Sort(ready) <==>
      x in w.nodes && (x in image.status.nodes || (x in w.pulls && w.pulls[x].phase == PodSucceeded))
    {
      SameMember(Sort(ready), ready, x);
      HavingMembers(w.pulls, w.nodes, image.status.nodes, x);
    }
  }

  /** A step changes the recorded nodes only by provisioning. */
  lemma OnlyProvisionRecords(w: World, input: Input)
    requires w.image.Some?
    ensures var r := Process(w, input).w;
      && r.image.Some? && r.nodes == w.nodes && r.minimum == w.minimum
      && (r.image.value.status.nodes != w.image.value.status.nodes ==>
            r == ProvisionNodes(w, w.image.value, input).w && r.image != w.image)
  {
    hide ProvisionNodes, CreateBackup, PublishImage, KanikoDone;
    ProvisionKeeps(w, w.image.value, input);
    BackupKeeps(w, w.image.value, input);
    PublishKeeps(w, w.image.value, input);
  }

  /** The pull pod of `node` is seen to have succeeded. */
  predicate Pulled(w: World, node: string) {
    node in w.pulls && w.pulls[node].phase == PodSucceeded
  }

  /** A node is recorded only if it was once listed and its pull pod seen to have succeeded. */
  lemma {:induction false} RecordedWerePulled(ws: seq<World>, steps: seq<Step>, i: nat, node: string)
    requires Run(ws, steps) && Distinct(ws[0].nodes) && i < |ws|
    requires ws[0].image.Some? && ws[0].image.value.status.nodes == []
    requires ws[i].image.Some? && node in ws[i].image.value.status.nodes
    ensures exists j :: 0 <= j < i && Pulled(ws[j], node) && node in ws[j].nodes
  {
    hide Process, Distinct, Pulled;
    if i > 0 {
      assert Next(ws[i - 1], steps[i - 1], ws[i]);
      if ws[i - 1].image.None? {
        if steps[i - 1].Reconciled? {
          NoImage(ws[i - 1], steps[i - 1].input);
        }
        assert false;
      } else if node in ws[i - 1].image.value.status.nodes {
        RecordedWerePulled(ws, steps, i - 1, node);
      } else {
        var w, input := ws[i - 1], steps[i - 1].input;
        NodesDistinct(ws, steps, i - 1);
        OnlyProvisionRecords(w, input);
        RecordedNodes(w, w.image.value, input);
        assert Pulled(w, node) by { PulledMeans(w, node); }
      }
    }
  }

  /** In every run the recorded list is sorted and without duplicates. */
  lemma {:induction false} ListStaysSorted(ws: seq<World>, steps: seq<Step>, i: nat)
    requires Run(ws, steps) && Distinct(ws[0].nodes) && i < |ws|
    requires ws[0].image.Some? ==> ListSorted(ws[0].image.value)
    ensures ws[i].image.Some? ==> ListSorted(ws[i].image.value)
  {
    hide Process, Distinct, Sorted;
    if i > 0 {
      ListStaysSorted(ws, steps, i - 1);
      assert Next(ws[i - 1], steps[i - 1], ws[i]);
      var w := ws[i - 1];
      if steps[i - 1].Reconciled? && w.image.Some? {
        NodesDistinct(ws, steps, i - 1);
        OnlyProvisionRecords(w, steps[i - 1].input);
        if ws[i].image.value.status.nodes != w.image.value.status.nodes {
          RecordedNodes(w, w.image.value, steps[i - 1].input);
        }
      } else if steps[i - 1].Reconciled? {
        NoImage(w, steps[i - 1].input);
      }
    }
  }

  predicate ListSorted(image: Image) {
    Sorted(image.status.nodes) && Distinct(image.status.nodes)
  }

  /** In every run a recorded node stays recorded for as long as it stays in the cluster. */
  lemma {:induction false} RecordedStay(ws: seq<World>, steps: seq<Step>, j: nat, i: nat, node: string)
    requires Run(ws, steps) && Distinct(ws[0].nodes) && j <= i < |ws|
    requires ws[j].image.Some? && node in ws[j].image.value.status.nodes
    requires forall k :: j <= k < i ==> node in ws[k].nodes
    ensures ws[i].image.Some? ==> node in ws[i].image.value.status.nodes
    decreases i
  {
    hide Process, Distinct, Sorted;
    if j < i {
      RecordedStay(ws, steps, j, i - 1, node);
      assert Next(ws[i - 1], steps[i - 1], ws[i]);
      var w := ws[i - 1];
      if steps[i - 1].Reconciled? && w.image.Some? {
        NodesDistinct(ws, steps, i - 1);
        OnlyProvisionRecords(w, steps[i - 1].input);
        if ws[i].image.value.status.nodes != w.image.value.status.nodes {
          RecordedNodes(w, w.image.value, steps[i - 1].input);
        }
      } else if steps[i - 1].Reconciled? {
        NoImage(w, steps[i - 1].input);
      }
    }
  }

  lemma PulledMeans(w: World, node: string)
    ensures Pulled(w, node) <==> node in w.pulls && w.pulls[node].phase == PodSucceeded
  {
  }

  lemma {:induction false} NodesDistinct(ws: seq<World>, steps: seq<Step>, i: nat)
    requires Run(ws, steps) && Distinct(ws[0].nodes) && i < |ws|
    ensures Distinct(ws[i].nodes)
  {
    hide Process, Distinct;
    if i > 0 {
      NodesDistinct(ws, steps, i - 1);
      assert Next(ws[i - 1], steps[i - 1], ws[i]);
      if steps[i - 1].Reconciled? {
        if ws[i - 1].image.Some? {
          OnlyProvisionRecords(ws[i - 1], steps[i - 1].input);
        } else {
          NoImage(ws[i - 1], steps[i - 1].input);
        }
      }
    }
  }

  /** Ready, with a ready list that still justifies it. */
  predicate ReadyFor(w: World, nodes: seq<string>, minimum: int) {
    && w.image.Some? && w.image.value.status.published && w.image.value.status.state == Ready
    && (w.image.value.fromVM ==> w.image.value.status.snapshot != "" && w.image.value.status.backupURL != "")
    && w.nodes == nodes && w.minimum == Some(minimum)
    && Distinct(w.image.value.status.nodes)
    && (forall x :: x in w.image.value.status.nodes ==> x in nodes)
    && (|w.image.value.status.nodes| >= minimum || |w.image.value.status.nodes| == |nodes|)
  }

  lemma MoreReady(a: seq<string>, b: seq<string>, nodes: seq<string>, minimum: int)
    requires Distinct(a) && Distinct(b) && Distinct(nodes) && (|a| >= minimum || |a| == |nodes|)
    requires (forall x :: x in a ==> x in b) && (forall x :: x in b ==> x in nodes)
    ensures |b| >= minimum || |b| == |nodes|
  {
    DistinctSize(a);
    DistinctSize(b);
    DistinctSize(nodes);
    Subset(Elements(a), Elements(b));
    Subset(Elements(b), Elements(nodes));
  }

  lemma Subset(a: set<string>, b: set<string>)
    requires a <= b
    ensures |a| <= |b|
  {
    assert b == a + (b - a);
  }

  /** A step that records Ready leaves a list that justifies it. */
  lemma RecordedReady(w: World, image: Image, input: Input)
    requires w.image == Some(image) && Distinct(w.nodes) && image.status.published && StagesInOrder(image)
    requires var r := ProvisionNodes(w, image, input).w; r.image != w.image && r.image.value.status.state == Ready
    ensures w.minimum.Some? && ReadyFor(ProvisionNodes(w, image, input).w, w.nodes, w.minimum.value)
  {
    hide Distinct, ProvisionNodes;
    ProvisionKeeps(w, image, input);
    RecordedNodes(w, image, input);
  }

  lemma StaysReady(w: World, input: Input, nodes: seq<string>, minimum: int)
    requires ReadyFor(w, nodes, minimum) && Distinct(nodes)
    ensures ReadyFor(Process(w, input).w, nodes, minimum)
  {
    hide Distinct, ProvisionNodes, CreateBackup, PublishImage;
    var image := w.image.value;
    ProvisionKeeps(w, image, input);
    var r := ProvisionNodes(w, image, input).w;
    if r.image != w.image {
      RecordedNodes(w, image, input);
      MoreReady(image.status.nodes, r.image.value.status.nodes, nodes, minimum);
    }
  }

  /** Once Ready, an image stays Ready as long as the nodes and the minimum stay the same. */
  lemma {:induction false} ReadyIsStable(ws: seq<World>, steps: seq<Step>, i: nat, nodes: seq<string>, minimum: int)
    requires Run(ws, steps) && i < |ws| && Distinct(nodes) && ReadyFor(ws[0], nodes, minimum)
    requires forall k :: 0 <= k < |ws| ==> ws[k].image.Some? && ws[k].nodes == nodes && ws[k].minimum == Some(minimum)
    ensures ReadyFor(ws[i], nodes, minimum)
  {
    hide Process, Distinct;
    if i > 0 {
      ReadyIsStable(ws, steps, i - 1, nodes, minimum);
      assert Next(ws[i - 1], steps[i - 1], ws[i]);
      if steps[i - 1].Reconciled? {
        StaysReady(ws[i - 1], steps[i - 1].input, nodes, minimum);
      }
    }
  }

  // ---- progress

  /** What is left to do for one node: see a failed pull pod go, create a new one, see it succeed, record
      the node, and see the pod go. */
  function Work(w: World, recorded: seq<string>, node: string): (n: nat)
    ensures n <= 5
  {
    if node in recorded then (if node in w.pulls then 1 else 0)
    else if node !in w.pulls then 4
    else
      match w.pulls[node].phase
      case PodSucceeded => 2
      case PodPending => 3
      case PodRunning => 3
      case _ => 5
  }

  function TotalWork(w: World, recorded: seq<string>, nodes: seq<string>): nat {
    if nodes == [] then 0
    else Work(w, recorded, nodes[|nodes| - 1]) + TotalWork(w, recorded, nodes[..|nodes| - 1])
  }

  function Left(w: World): nat
    requires w.image.Some?
  {
    TotalWork(w, w.image.value.status.nodes, w.nodes)
  }

  /** An image that has come to provisioning, on distinct nodes. */
  predicate Provisioning(w: World) {
    && w.image.Some? && w.image.value.status.published && Distinct(w.nodes) && w.minimum.Some?
    && (w.image.value.fromVM ==>
          && w.origin.found && w.origin.longhorn && w.image.value.sizeGiB != 0
          && w.image.value.status.snapshot != "" && w.image.value.status.backupURL != "")
  }

  predicate Calm(input: Input) {
    input.update == Accepted && input.pullDelete == map[] && input.pullCreate == map[]
  }

  lemma {:induction false} CalmPass(pulls: map<string, Pull>, nodes: seq<string>, recorded: seq<string>, input: Input)
    requires Calm(input)
    ensures VisitAll(pulls, nodes, recorded, input).err == Nil
  {
    if nodes != [] {
      CalmPass(pulls, nodes[..|nodes| - 1], recorded, input);
    }
  }

  /** One calm reconcile, exactly. */
  lemma CalmProvision(w: World, input: Input)
    requires Provisioning(w) && Calm(input)
    ensures Process(w, input).err == Nil
    ensures var r := Process(w, input).w;
      && Provisioning(r) && r.nodes == w.nodes && r.minimum == w.minimum
      && r.pulls == VisitAll(w.pulls, w.nodes, w.image.value.status.nodes, input).pulls
      && r.image.value.status.nodes == Sort(HavingImage(w.pulls, w.nodes, w.image.value.status.nodes))
      && r.image.value.status.state ==
           (if |r.image.value.status.nodes| >= w.minimum.value || |r.image.value.status.nodes| == |w.nodes| then Ready
            else Provision)
  {
    hide VisitAll, Sort, HavingImage, Distinct;
    var image := w.image.value;
    CalmPass(w.pulls, w.nodes, image.status.nodes, input);
    PassFinds(w.pulls, w.nodes, image.status.nodes, input, "");
    SortMembers(HavingImage(w.pulls, w.nodes, image.status.nodes));
  }

  /** The controller has something to do for the node: create its pull pod, or record it. */
  predicate NodeDue(w: World, recorded: seq<string>, node: string) {
    Work(w, recorded, node) == 2 || Work(w, recorded, node) == 4
  }

  /** What a calm reconcile does to the work of each listed node. */
  lemma NodeWork(w: World, input: Input, x: string)
    requires Provisioning(w) && Calm(input) && x in w.nodes
    ensures var r := Process(w, input).w; var recorded := w.image.value.status.nodes;
      r.image.Some? && Work(r, r.image.value.status.nodes, x) == Work(w, recorded, x) - if NodeDue(w, recorded, x) then 1 else 0
  {
    hide Process, VisitAll, Sort, HavingImage, Distinct;
    var recorded, ready := w.image.value.status.nodes, HavingImage(w.pulls, w.nodes, w.image.value.status.nodes);
    CalmProvision(w, input);
    CalmPass(w.pulls, w.nodes, recorded, input);
    SortMembers(ready);
    PassFinds(w.pulls, w.nodes, recorded, input, x);
    SameMember(Sort(ready), ready, x);
    HavingMembers(w.pulls, w.nodes, recorded, x);
  }

  /** Work that grows for no node does not grow, and falls if it falls for one. */
  lemma {:induction false} Pointwise(w: World, r: World, a: seq<string>, b: seq<string>, nodes: seq<string>)
    requires forall x :: x in nodes ==> Work(r, b, x) <= Work(w, a, x)
    ensures TotalWork(r, b, nodes) <= TotalWork(w, a, nodes)
    ensures (exists x :: x in nodes && Work(r, b, x) < Work(w, a, x)) ==> TotalWork(r, b, nodes) < TotalWork(w, a, nodes)
  {
    if nodes != [] {
      var n := |nodes| - 1;
      assert nodes == nodes[..n] + [nodes[n]];
      Pointwise(w, r, a, b, nodes[..n]);
      if x :| x in nodes && Work(r, b, x) < Work(w, a, x) {
        assert x in nodes[..n] || x == nodes[n];
      }
    }
  }

  lemma {:induction false} NoWork(w: World, recorded: seq<string>, nodes: seq<string>)
    requires TotalWork(w, recorded, nodes) == 0
    ensures forall x :: x in nodes ==> x in recorded && x !in w.pulls
  {
    if nodes != [] {
      NoWork(w, recorded, nodes[..|nodes| - 1]);
      assert nodes == nodes[..|nodes| - 1] + [nodes[|nodes| - 1]];
    }
  }

  /** Every listed node recorded, no pull pod of a listed node left, and the image Ready. */
  predicate FullyProvisioned(w: World) {
    && w.image.Some? && w.image.value.status.state == Ready
    && (forall x :: x in w.nodes ==> x in w.image.value.status.nodes && x !in w.pulls)
  }

  /** A calm reconcile that finds the image on every node records Ready. */
  lemma AllReady(w: World, input: Input)
    requires Provisioning(w) && Calm(input)
    requires forall x :: x in w.nodes ==> x in w.image.value.status.nodes || Pulled(w, x)
    ensures var r := Process(w, input).w;
      && r.image.Some? && r.image.value.status.state == Ready
      && forall x :: x in w.nodes ==> x in r.image.value.status.nodes
  {
    hide Process, Sort, HavingImage, Distinct, VisitAll;
    CalmProvision(w, input);
    var s := Process(w, input).w.image.value.status;
    var ready := HavingImage(w.pulls, w.nodes, w.image.value.status.nodes);
    SortMembers(ready);
    HavingDistinct(w.pulls, w.nodes, w.image.value.status.nodes);
    SortDistinct(ready);
    DistinctSize(s.nodes);
    DistinctSize(w.nodes);
    forall x ensures x in s.nodes <==> x in w.nodes {
      SameMember(Sort(ready), ready, x);
      HavingMembers(w.pulls, w.nodes, w.image.value.status.nodes, x);
    }
    assert Elements(s.nodes) == Elements(w.nodes);
  }

  /** The variant. */
  function ProvisionRank(w: World): nat
    requires w.image.Some?
  {
    if Left(w) > 0 then Left(w) + 1 else if w.image.value.status.state == Ready then 0 else 1
  }

  /** It is the controller's turn. */
  predicate Due(w: World)
    requires w.image.Some?
  {
    || (exists x :: x in w.nodes && NodeDue(w, w.image.value.status.nodes, x))
    || (Left(w) == 0 && w.image.value.status.state != Ready)
  }

  lemma ReconcileProvisions(w: World, input: Input)
    requires Provisioning(w) && Calm(input)
    ensures var r := Process(w, input).w;
      Provisioning(r) && ProvisionRank(r) + (if Due(w) then 1 else 0) <= ProvisionRank(w)
  {
    hide Process, Sort, HavingImage, Distinct, TotalWork, VisitAll, NodeDue, Work;
    CalmProvision(w, input);
    var r := Process(w, input).w;
    var recorded, recorded' := w.image.value.status.nodes, r.image.value.status.nodes;
    forall x | x in w.nodes
      ensures Work(r, recorded', x) == Work(w, recorded, x) - if NodeDue(w, recorded, x) then 1 else 0
    {
      NodeWork(w, input, x);
    }
    Pointwise(w, r, recorded, recorded', w.nodes);
    if x :| x in w.nodes && NodeDue(w, recorded, x) {
      assert Work(r, recorded', x) < Work(w, recorded, x);
    }
    if Left(w) == 0 {
      NoWork(w, recorded, w.nodes);
      AllReady(w, input);
    }
  }

  // ---- setbacks

  /** How many listed nodes are further from done in `w'`: their pull pod failed, or vanished too early. */
  function SetBack(w: World, w': World, recorded: seq<string>, nodes: seq<string>): nat {
    if nodes == [] then 0
    else
      var x := nodes[|nodes| - 1];
      (if Work(w', recorded, x) > Work(w, recorded, x) then 1 else 0) + SetBack(w, w', recorded, nodes[..|nodes| - 1])
  }

  lemma {:induction false} SetBackCosts(w: World, w': World, recorded: seq<string>, nodes: seq<string>)
    ensures TotalWork(w', recorded, nodes) <= TotalWork(w, recorded, nodes) + 5 * SetBack(w, w', recorded, nodes)
  {
    if nodes != [] {
      SetBackCosts(w, w', recorded, nodes[..|nodes| - 1]);
    }
  }

  /** Pull pods do anything at all: they progress, fail, vanish. The image, the nodes and the minimum stay. */
  predicate PullsGoOn(w: World, w': World) {
    && w.image.Some? && w'.image == w.image && w'.nodes == w.nodes && w'.minimum == w.minimum && w'.origin == w.origin
  }

  function SetBacks(w: World, w': World): nat
    requires w.image.Some?
  {
    SetBack(w, w', w.image.value.status.nodes, w.nodes)
  }

  lemma PullsProvision(w: World, w': World)
    requires Provisioning(w) && PullsGoOn(w, w')
    ensures Provisioning(w')
    ensures ProvisionRank(w') + (if Left(w') < Left(w) then 1 else 0) <= ProvisionRank(w) + 6 * SetBacks(w, w')
  {
    hide Distinct, TotalWork, SetBack;
    SetBackCosts(w, w', w.image.value.status.nodes, w.nodes);
  }

  predicate ProvisionNext(w: World, s: Step, w': World) {
    match s
    case Reconciled(input) => Calm(input) && w' == Process(w, input).w
    case Elsewhere => PullsGoOn(w, w')
  }

  predicate ProvisionRun(ws: seq<World>, steps: seq<Step>) {
    && |ws| == |steps| + 1
    && forall i :: 0 <= i < |steps| ==> ProvisionNext(ws[i], steps[i], ws[i + 1])
  }

  /** It was the controller's turn and it reconciled, or pull pods brought the work down. */
  predicate Productive(w: World, s: Step, w': World) {
    w.image.Some? && w'.image.Some? && if s.Reconciled? then Due(w) else Left(w') < Left(w)
  }

  function ProductiveSteps(ws: seq<World>, steps: seq<Step>, i: nat): nat
    requires |ws| == |steps| + 1 && i < |ws|
  {
    if i == 0 then 0
    else ProductiveSteps(ws, steps, i - 1) + if Productive(ws[i - 1], steps[i - 1], ws[i]) then 1 else 0
  }

  /** Setbacks in the first `i` steps; reconciles cause none. */
  function AllSetBacks(ws: seq<World>, steps: seq<Step>, i: nat): nat
    requires |ws| == |steps| + 1 && i < |ws|
  {
    if i == 0 then 0
    else
      AllSetBacks(ws, steps, i - 1)
      + if steps[i - 1].Elsewhere? && ws[i - 1].image.Some? then SetBacks(ws[i - 1], ws[i]) else 0
  }

  lemma ProvisionStep(w: World, s: Step, w': World)
    requires Provisioning(w) && ProvisionNext(w, s, w')
    ensures Provisioning(w')
    ensures ProvisionRank(w') + (if Productive(w, s, w') then 1 else 0)
              <= ProvisionRank(w) + if s.Elsewhere? then 6 * SetBacks(w, w') else 0
  {
    hide Process, Left, Due, ProvisionRank, SetBacks, Distinct;
    match s
    case Reconciled(input) => ReconcileProvisions(w, input);
    case Elsewhere => PullsProvision(w, w');
  }

  /**
    For any finite set of nodes and in every run of reconciles and of pull pods that do what they like: once
    the productive steps outnumber the work at the start and a constant for each setback of a node, every
    node is recorded, no pull pod is left and the image is Ready.
  */
  lemma {:induction false} ProvisioningConverges(ws: seq<World>, steps: seq<Step>, i: nat)
    requires ProvisionRun(ws, steps) && Provisioning(ws[0]) && i < |ws|
    ensures Provisioning(ws[i])
    ensures ProvisionRank(ws[i]) + ProductiveSteps(ws, steps, i) <= ProvisionRank(ws[0]) + 6 * AllSetBacks(ws, steps, i)
    ensures ProductiveSteps(ws, steps, i) >= ProvisionRank(ws[0]) + 6 * AllSetBacks(ws, steps, i) ==> FullyProvisioned(ws[i])
  {
    hide ProvisionNext, Provisioning, ProvisionRank, Productive, SetBacks;
    ProvisioningHasImage(ws[0]);
    if i > 0 {
      ProvisioningConverges(ws, steps, i - 1);
      ProvisioningHasImage(ws[i - 1]);
      ProvisionStep(ws[i - 1], steps[i - 1], ws[i]);
      ProvisioningHasImage(ws[i]);
    }
    if ProvisionRank(ws[i]) == 0 {
      NoRank(ws[i]);
    }
  }

  lemma ProvisioningHasImage(w: World)
    requires Provisioning(w)
    ensures w.image.Some?
  {
  }

  lemma NoRank(w: World)
    requires w.image.Some? && ProvisionRank(w) == 0
    ensures FullyProvisioned(w)
  {
    NoWork(w, w.image.value.status.nodes, w.nodes);
  }

  // ---- provisioning can always finish

  /** Every pull pod has succeeded. */
  function AllPulled(pulls: map<string, Pull>): map<string, Pull> {
    map x | x in pulls :: Pull(PodSucceeded, pulls[x].deleting)
  }

  /** From every state: pull pods are made, they succeed, the nodes are recorded, and the pods go. */
  lemma ProvisioningCanFinish(w: World, input: Input) returns (ws: seq<World>, steps: seq<Step>)
    requires Provisioning(w) && Calm(input)
    ensures ProvisionRun(ws, steps) && ws[0] == w && |steps| == 4 && FullyProvisioned(ws[4])
  {
    hide Process, VisitAll, Sort, HavingImage, Distinct;
    CalmProvision(w, input);
    var mid := Process(w, input).w;
    var pulled := mid.(pulls := AllPulled(mid.pulls));
    forall x | x in mid.nodes ensures x in pulled.image.value.status.nodes || Pulled(pulled, x) {
      NodeWork(w, input, x);
    }
    CalmProvision(pulled, input);
    AllReady(pulled, input);
    var done := Process(pulled, input).w;
    var last := done.(pulls := map[]);
    ws := [w, mid, pulled, done, last];
    steps := [Reconciled(input), Elsewhere, Reconciled(input), Elsewhere];
    OriginStays(w, input);
    OriginStays(pulled, input);
    assert ProvisionNext(ws[0], steps[0], ws[1]) && ProvisionNext(ws[1], steps[1], ws[2]);
    assert ProvisionNext(ws[2], steps[2], ws[3]) && ProvisionNext(ws[3], steps[3], ws[4]);
  }

  lemma OriginStays(w: World, input: Input)
    requires Provisioning(w) && Calm(input)
    ensures Process(w, input).w.origin == w.origin
  {
    hide VisitAll, Sort, HavingImage, Distinct;
  }
}
