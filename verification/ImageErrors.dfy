/** What a reconcile of an image reports: every call that fails. */
module ImageErrors {
  import opened Replies
  import opened Sorting
  import opened Images

  predicate DeleteFails(i: Input, j: Input, node: string) {
    && i.DeleteFate(node) == Accepted && j.DeleteFate(node) != Accepted
    && j == i.(pullDelete := i.pullDelete[node := j.DeleteFate(node)])
  }

  predicate CreateFails(i: Input, j: Input, node: string) {
    && j.CreateFate(node) != Accepted
    && j == i.(pullCreate := i.pullCreate[node := j.CreateFate(node)])
  }

  /** In `j` one call fails, or fails in another way, and everything else is as in `i`. */
  ghost predicate Worse(i: Input, j: Input) {
    || (j.update != Accepted && j == i.(update := j.update))
    || (j.publisherCreate != Accepted && j == i.(publisherCreate := j.publisherCreate))
    || (j.publisherDelete != Accepted && j == i.(publisherDelete := j.publisherDelete))
    || j == i.(snapshot := None)
    || j == i.(backup := BackupFailed)
    || j == i.(backupCreated := false)
    || j == i.(backupAgain := BackupFailed)
    || (exists node :: DeleteFails(i, j, node))
    || (exists node :: CreateFails(i, j, node))
  }

  /** A failure changed nothing at all, or it is reported. */
  predicate Told(p: Result, q: Result) {
    q == p || q.err != Nil
  }

  lemma FatesElsewhere(i: Input, j: Input, node: string)
    requires Worse(i, j)
    ensures j.DeleteFate(node) == i.DeleteFate(node) || (j.DeleteFate(node) != Accepted && i.DeleteFate(node) == Accepted)
    ensures j.CreateFate(node) == i.CreateFate(node) || j.CreateFate(node) != Accepted
  {
  }

  lemma VisitTold(pass: Pass, node: string, recorded: bool, i: Input, j: Input)
    requires Worse(i, j)
    ensures var p, q := Visit(pass, node, recorded, i), Visit(pass, node, recorded, j); q == p || q.err != Nil
  {
    hide Worse;
    FatesElsewhere(i, j, node);
  }

  /** The loop over the nodes stops at a failed call and reports it. */
  lemma {:induction false} PassTold(pulls: map<string, Pull>, nodes: seq<string>, recorded: seq<string>, i: Input, j: Input)
    requires Worse(i, j)
    ensures var p, q := VisitAll(pulls, nodes, recorded, i), VisitAll(pulls, nodes, recorded, j); q == p || q.err != Nil
  {
    hide Worse, Visit;
    if nodes != [] {
      var n := |nodes| - 1;
      PassTold(pulls, nodes[..n], recorded, i, j);
      VisitTold(VisitAll(pulls, nodes[..n], recorded, i), nodes[n], nodes[n] in recorded, i, j);
    }
  }

  lemma SaveTold(w: World, image: Image, i: Input, j: Input)
    requires Worse(i, j)
    ensures Told(Save(w, image, i.update), Save(w, image, j.update))
  {
  }

  lemma ProvisionTold(w: World, image: Image, i: Input, j: Input)
    requires Worse(i, j)
    ensures Told(ProvisionNodes(w, image, i), ProvisionNodes(w, image, j))
  {
    hide Worse, VisitAll, Save, Provisioned;
    PassTold(w.pulls, w.nodes, image.status.nodes, i, j);
    var pass := VisitAll(w.pulls, w.nodes, image.status.nodes, i);
    if w.minimum.Some? {
      SaveTold(w.(pulls := pass.pulls), Provisioned(image, pass.ready, |w.nodes|, w.minimum.value), i, j);
    }
  }

  lemma BackupTold(w: World, image: Image, i: Input, j: Input)
    requires Worse(i, j)
    ensures Told(CreateBackup(w, image, i), CreateBackup(w, image, j))
  {
  }

  lemma PublishTold(w: World, image: Image, i: Input, j: Input)
    requires Worse(i, j)
    ensures Told(PublishImage(w, image, i), PublishImage(w, image, j))
  {
    hide KanikoExit;
  }

  lemma FirstStagesTold(w: World, image: Image, i: Input, j: Input)
    requires Worse(i, j) && image.fromVM && w.origin.found
    requires image.sizeGiB == 0 || !w.origin.longhorn || image.status.snapshot == ""
    ensures Told(ProcessFromVM(w, image, i), ProcessFromVM(w, image, j))
  {
    hide Worse, CreateBackup, PublishImage, ProvisionNodes, Save;
    SaveTold(w, WithState(image, Snapshot), i, j);
    SnapshotTold(i, j);
    if w.origin.parentSize.Some? {
      SaveTold(w, image.(sizeGiB := w.origin.parentSize.value), i, j);
    }
    if i.snapshot.Some? {
      SaveTold(w, image.(status := image.status.(snapshot := i.snapshot.value)), i, j);
    }
  }

  lemma LaterStagesTold(w: World, image: Image, i: Input, j: Input)
    requires Worse(i, j) && image.fromVM && w.origin.found
    requires image.sizeGiB != 0 && w.origin.longhorn && image.status.snapshot != ""
    ensures Told(ProcessFromVM(w, image, i), ProcessFromVM(w, image, j))
  {
    hide Worse, CreateBackup, PublishImage, ProvisionNodes, Save;
    BackupTold(w, image, i, j);
    PublishTold(w, image, i, j);
    ProvisionTold(w, image, i, j);
    SaveTold(w, WithState(image, Backup), i, j);
    SaveTold(w, WithState(image, Publish), i, j);
  }

  /**
    Whatever else fails: when one call of a reconcile fails, either nothing at all is different, because the
    call is not made or there was nothing to delete, or the reconcile reports an error.
  */
  lemma FailureIsReported(w: World, i: Input, j: Input)
    requires Worse(i, j)
    ensures Told(Process(w, i), Process(w, j))
  {
    if w.image.Some? {
      hide Worse, ProvisionNodes, Save;
      var image := w.image.value;
      ProvisionTold(w, image, i, j);
      SaveTold(w, image.(status := image.status.(published := true)), i, j);
      if image.fromVM && w.origin.found {
        hide ProcessFromVM;
        if image.sizeGiB == 0 || !w.origin.longhorn || image.status.snapshot == "" {
          FirstStagesTold(w, image, i, j);
        } else {
          LaterStagesTold(w, image, i, j);
        }
      }
    }
  }

  /** What a reconcile cannot find it reports, and leaves the image as it is. */
  lemma MissingIsReported(w: World, image: Image, input: Input)
    requires w.image == Some(image)
    ensures var r := Process(w, input); var s := image.status;
      var built := image.fromVM && w.origin.found && w.origin.longhorn && image.sizeGiB != 0;
      var publishing := built && s.snapshot != "" && s.backupURL != "" && !s.published && s.state == Publish;
      && (image.fromVM && !w.origin.found ==> r == Result(w, NotFound))
      && (image.fromVM && w.origin.found && image.sizeGiB == 0 && w.origin.parentSize.None? ==> r == Result(w, NotFound))
      && (image.fromVM && w.origin.found && image.sizeGiB != 0 && !w.origin.longhorn ==> r == Result(w, Failed))
      && (publishing && w.publisher.None? && !w.settingsFound ==> r == Result(w, NotFound))
      && (s.published && (image.fromVM ==> built && s.snapshot != "" && s.backupURL != "") && w.minimum.None? ==>
            r.err != Nil && r.w.image == w.image)
  {
    hide VisitAll, CreateBackup, KanikoExit, Sort;
  }

  /**
    A backup step without a usable backup leaves the image alone. It is an error if a lookup or the creation
    failed, or if the URL does not name exactly one backup and one volume; a backup that was made but is not
    listed yet is only waited for.
  */
  lemma BackupNotFound(w: World, image: Image, input: Input)
    ensures var r := CreateBackup(w, image, input);
      && (input.backup.BackupFailed? ==> r == Result(w, Failed))
      && (input.backup.NoBackup? && !input.backupCreated ==> r == Result(w, Failed))
      && (input.backup.NoBackup? && input.backupCreated && input.backupAgain.BackupFailed? ==> r == Result(w, Failed))
      && (input.backup.NoBackup? && input.backupCreated && input.backupAgain.NoBackup? ==> r == Result(w, Nil))
      && var b := if input.backup.NoBackup? && input.backupCreated then input.backupAgain else input.backup;
         (b.Found? && (b.url == "" || b.backups != 1 || b.volumes != 1) ==> r == Result(w, Failed))
  {
  }

  lemma SnapshotTold(i: Input, j: Input)
    requires Worse(i, j)
    ensures j.snapshot.None? || j.snapshot == i.snapshot
  {
  }
}
