/** What the file provider promises about its steps, stated over `FileProvider`'s step functions. */
module FileProviderProperties {
  import opened Wrappers
  import opened FileSystem
  import opened FileProvider
  import Deployment
  import DeployMv
  import DeployCp

  /** The staged file's path, when there is one. */
  predicate StagedAt(e: Env, tp: Path)
  {
    e.tempfile == Some(Tempfile(Some(tp)))
  }

  // ---------------------------------------------------------------------------
  // do_create_file

  /** An existing path is left alone; a missing one is logged and, outside why-run, created empty. */
  lemma CreateFileOnlyWhenAbsent(w: World, e: Env)
    ensures e.path in w.files ==> CreateFileStep(w, e) == w
    ensures e.path !in w.files ==>
      var r := CreateFileStep(w, e);
      && r.events == w.events + [CreateFile(e.path)]
      && r.backups == w.backups
      && r.files == if e.whyRun then w.files else w.files[e.path := NewEmptyFile(e.umask, e.now)]
  {
  }

  // ---------------------------------------------------------------------------
  // do_contents_changes

  /** A nil tempfile: no backup, no deploy, no unlink, no event. */
  lemma NilTempfileIsNoOp(w: World, e: Env, current: Option<Digest>)
    requires e.tempfile.None?
    ensures ContentsChangesStep(w, e, current) == Step(Pass, w)
  {
  }

  /** A tempfile without a path, or whose path is not on disk, raises before anything changes. */
  lemma LostTempfileRaises(w: World, e: Env, current: Option<Digest>)
    requires e.tempfile.Some?
    requires e.tempfile.value.path.None? || e.tempfile.value.path.value !in w.files
    ensures ContentsChangesStep(w, e, current) == Step(Fail(Confused), w)
  {
  }

  /** Equal checksums: nothing is backed up, deployed or logged; only the staged file goes. */
  lemma UnchangedContentOnlyDisposes(w: World, e: Env, tp: Path)
    requires StagedAt(e, tp) && tp in w.files
    ensures ContentsChangesStep(w, e, Some(e.digest(w.files[tp].content))) == Step(Pass, Unlinked(w, tp))
  {
  }

  /** Deploying the staged file onto an existing destination and then unlinking it, on the file map alone. */
  lemma DeployThenUnlink(strategy: Deployment.DeploymentStrategy, files: Files, tp: Path, dst: Path, umask: Mode, now: int)
    requires tp in files && dst in files && tp != dst && !files[dst].isDirectory && !files[tp].isDirectory
    requires ParentIsDirectory(files, dst) && (strategy.Cp? ==> files[dst].writable)
    ensures Deployment.Deployed(strategy, files, tp, dst, umask, now).0 == Pass
    ensures var after := Removed(Deployment.Deployed(strategy, files, tp, dst, umask, now).1, tp);
      && dst in after && tp !in after
      && after[dst].content == files[tp].content
      && after[dst].mode == (if strategy.Mv? then files[dst].mode & PermissionBits else files[dst].mode)
      && !after[dst].isDirectory
      && (forall q :: q in files && q != tp && q != dst ==> q in after && after[q] == files[q])
  {
    match strategy {
      case Mv => DeployMv.DeployKeepsDestinationMode(files, tp, dst);
      case Cp => DeployCp.DeployCopiesInPlace(files, tp, dst, umask, now);
    }
  }

  /** The changed-content step outside why-run onto an existing destination, unfolded: log, back up, deploy, unlink. */
  lemma ChangedContentStep(w: World, e: Env, tp: Path, current: Option<Digest>)
    requires StagedAt(e, tp) && tp in w.files && e.path in w.files && tp != e.path
    requires !w.files[e.path].isDirectory && !w.files[tp].isDirectory && ParentIsDirectory(w.files, e.path)
    requires !e.whyRun && current != Some(e.digest(w.files[tp].content))
    requires e.strategy.Cp? ==> w.files[e.path].writable
    ensures var r := ContentsChangesStep(w, e, current);
      && r.outcome == Pass
      && r.world.files == Removed(Deployment.Deployed(e.strategy, w.files, tp, e.path, e.umask, e.now).1, tp)
      && r.world.backups == w.backups + [BackupCopy(e.path, w.files[e.path])]
      && r.world.events == w.events + [UpdateContent(e.path, ShortCksum(current), ShortCksum(Some(e.digest(w.files[tp].content))))]
  {
    DeployThenUnlink(e.strategy, w.files, tp, e.path, e.umask, e.now);
  }

  /**
   * Changed content, outside why-run, onto an existing regular file: the old
   * entry is backed up first, then the staged bytes are installed with the
   * destination's mode kept (masked to 0777 by the move strategy), and the
   * staged file is gone. `ChangedContentLandsInDirectory` is the case of a
   * directory at the path.
   */
  lemma ChangedContentBacksUpThenDeploys(w: World, e: Env, tp: Path, current: Option<Digest>)
    requires StagedAt(e, tp) && tp in w.files && e.path in w.files && tp != e.path
    requires !w.files[e.path].isDirectory && !w.files[tp].isDirectory && ParentIsDirectory(w.files, e.path)
    requires !e.whyRun && current != Some(e.digest(w.files[tp].content))
    requires e.strategy.Cp? ==> w.files[e.path].writable
    ensures var r := ContentsChangesStep(w, e, current);
      && r.outcome == Pass
      && r.world.backups == w.backups + [BackupCopy(e.path, w.files[e.path])]
      && r.world.events == w.events + [UpdateContent(e.path, ShortCksum(current), ShortCksum(Some(e.digest(w.files[tp].content))))]
      && e.path in r.world.files && tp !in r.world.files
      && r.world.files[e.path].content == w.files[tp].content
      && r.world.files[e.path].mode == (if e.strategy.Mv? then w.files[e.path].mode & PermissionBits else w.files[e.path].mode)
      && (forall q :: q in w.files && q != tp && q != e.path ==> q in r.world.files && r.world.files[q] == w.files[q])
  {
    ChangedContentStep(w, e, tp, current);
    DeployThenUnlink(e.strategy, w.files, tp, e.path, e.umask, e.now);
  }

  /**
   * Changed content, outside why-run, onto a regular file the process may not
   * write, with the copy strategy: the backup is taken, then opening the
   * destination raises EACCES inside the converge block, so the destination
   * keeps its bytes and the staged file is not unlinked.
   */
  lemma ChangedContentDeniedByUnwritableDestination(w: World, e: Env, tp: Path, current: Option<Digest>)
    requires StagedAt(e, tp) && tp in w.files && e.path in w.files && tp != e.path
    requires !w.files[e.path].isDirectory && !w.files[tp].isDirectory && ParentIsDirectory(w.files, e.path)
    requires !e.whyRun && current != Some(e.digest(w.files[tp].content))
    requires e.strategy.Cp? && !w.files[e.path].writable
    ensures var r := ContentsChangesStep(w, e, current);
      && r.outcome == Fail(FsFailure(PermissionDenied(e.path)))
      && r.world.backups == w.backups + [BackupCopy(e.path, w.files[e.path])]
      && r.world.files == w.files
  {
    DeployCp.DeployDeniedOnUnwritable(w.files, tp, e.path, e.umask, e.now);
  }

  /**
   * The backup happens only if the destination exists: with no entry at the
   * path the backups are untouched, whatever the content and the strategy.
   * The mv strategy then fails on the missing destination (its chmod reads the
   * destination's mode first) and leaves the staged file in place.
   */
  lemma AbsentDestinationNoBackup(w: World, e: Env, tp: Path, current: Option<Digest>)
    requires StagedAt(e, tp) && tp in w.files && e.path !in w.files
    ensures ContentsChangesStep(w, e, current).world.backups == w.backups
    ensures e.strategy.Mv? && !e.whyRun && current != Some(e.digest(w.files[tp].content)) ==>
      && ContentsChangesStep(w, e, current).outcome == Fail(FsFailure(NoSuchFile(e.path)))
      && ContentsChangesStep(w, e, current).world.files == w.files
  {
  }

  /**
   * Changed content, outside why-run, where the path is a directory (the
   * reload never reads a directory's checksum, so the content always counts
   * as changed): the directory entry is backed up, the staged bytes land in
   * the entry of the staged file's name inside it, the directory stays a
   * directory, and the staged file is gone.
   */
  lemma ChangedContentLandsInDirectory(w: World, e: Env, tp: Path, current: Option<Digest>)
    requires StagedAt(e, tp) && tp in w.files && !w.files[tp].isDirectory && IsDirectoryAt(w.files, e.path)
    requires tp != e.path + [Basename(tp)] && !IsDirectoryAt(w.files, e.path + [Basename(tp)])
    requires e.strategy.Cp? && e.path + [Basename(tp)] in w.files ==> w.files[e.path + [Basename(tp)]].writable
    requires !e.whyRun && current != Some(e.digest(w.files[tp].content))
    ensures var r := ContentsChangesStep(w, e, current); var t := e.path + [Basename(tp)];
      && r.outcome == Pass
      && r.world.backups == w.backups + [BackupCopy(e.path, w.files[e.path])]
      && t in r.world.files && r.world.files[t].content == w.files[tp].content
      && e.path in r.world.files && r.world.files[e.path].isDirectory
      && tp !in r.world.files
      && (forall q :: q in w.files && q != tp && q != e.path && q != t ==> q in r.world.files && r.world.files[q] == w.files[q])
  {
    match e.strategy {
      case Mv => DeployMv.DeployIntoDirectory(w.files, tp, e.path);
      case Cp => DeployCp.DeployCopiesIntoDirectory(w.files, tp, e.path, e.umask, e.now);
    }
  }

  /** Whenever the step completes with a staged file, the staged file is no longer on disk. */
  lemma TempfileAlwaysUnlinked(w: World, e: Env, tp: Path, current: Option<Digest>)
    requires StagedAt(e, tp)
    ensures ContentsChangesStep(w, e, current).outcome.Pass? ==> tp !in ContentsChangesStep(w, e, current).world.files
  {
  }

  /** In why-run mode the step takes no backup and the only change on disk is the disposal of the staged file. */
  lemma WhyRunOnlyDisposes(w: World, e: Env, tp: Path, current: Option<Digest>)
    requires e.whyRun && StagedAt(e, tp) && tp in w.files
    ensures var r := ContentsChangesStep(w, e, current);
      r.outcome == Pass && r.world.files == Removed(w.files, tp) && r.world.backups == w.backups
  {
  }

  // ---------------------------------------------------------------------------
  // Requirements

  /** create, create_if_missing and touch fail on a missing parent directory, except in why-run mode. */
  lemma ParentDirectoryRequirement(files: Files, path: Path, action: Action, whyRun: bool)
    requires action != Delete
    ensures var r := ProcessRequirements(ResourceRequirements(files, path), action, whyRun);
      && (r.Fail? <==> !whyRun && !ParentIsDirectory(files, path))
      && (r.Fail? ==> r.error == EnclosingDirectoryDoesNotExist(Dirname(path)))
  {
    var reqs := ResourceRequirements(files, path);
    if !whyRun && !ParentIsDirectory(files, path) {
      assert Blocks(reqs[0], action, whyRun);
    }
  }

  /**
   * The provider creates no path under a missing or non-directory parent:
   * outside why-run the requirement stops the run before `touch`, a copy or a
   * rename can reach the path; in why-run nothing is written at all.
   */
  lemma NoFileUnderMissingParent(w: World, e: Env)
    requires e.action != Delete && !ParentIsDirectory(w.files, e.path) && e.path !in w.files
    ensures e.path !in RunStep(w, e).world.files
  {
    var loaded := LoadCurrentResourceStep(w, e);
    ParentDirectoryRequirement(loaded.files, e.path, e.action, e.whyRun);
    if e.whyRun {
      if e.tempfile.Some? && e.tempfile.value.path == Some(e.path) {
        // a staged path that is the missing destination itself: the content step fails as confused
        assert CreateFileStep(loaded, e).files == w.files;
      } else {
        WhyRunPassLeavesDiskAlone(w, e, e.path);
      }
    }
  }

  /** delete fails on an existing, unwritable file, in why-run mode too; on a missing file it is never checked. */
  lemma DeleteWritableRequirement(files: Files, path: Path, whyRun: bool)
    ensures var r := ProcessRequirements(ResourceRequirements(files, path), Delete, whyRun);
      && (r.Fail? <==> path in files && !files[path].writable)
      && (r.Fail? ==> r.error == InsufficientPermissions(path))
  {
    var reqs := ResourceRequirements(files, path);
    if path in files && !files[path].writable {
      assert Blocks(reqs[1], Delete, whyRun);
    }
  }

  // ---------------------------------------------------------------------------
  // The actions

  /** create_if_missing on an existing path changes neither disk, backups, log, nor the resources' checksums it did not load. */
  lemma CreateIfMissingOnExistingPathIsNoOp(w: World, e: Env)
    requires e.action == CreateIfMissing && e.path in w.files && ParentIsDirectory(w.files, e.path)
    ensures var r := RunStep(w, e);
      && r.outcome == Pass
      && r.world == w.(currentChecksum := None)
  {
  }

  /** delete on an existing file: backed up unless it is a symlink, then removed; nothing else changes. */
  lemma DeleteBacksUpUnlessSymlink(w: World, e: Env)
    requires e.path in w.files && !e.whyRun && !w.files[e.path].isDirectory
    ensures var r := DeleteStep(w, e);
      && r.outcome == Pass
      && r.world.files == Removed(w.files, e.path)
      && r.world.backups == w.backups + (if w.files[e.path].isSymlink then [] else [BackupCopy(e.path, w.files[e.path])])
      && r.world.events == w.events + [DeleteFile(e.path)]
  {
  }

  /** delete on a missing path does nothing at all. */
  lemma DeleteAbsentIsNoOp(w: World, e: Env)
    requires e.path !in w.files
    ensures DeleteStep(w, e) == Step(Pass, w)
  {
  }

  /** A completed touch, outside why-run, leaves the file with atime and mtime both at the pass's clock reading. */
  lemma TouchSetsTimes(w: World, e: Env)
    requires !e.whyRun && TouchStep(w, e).outcome == Pass
    ensures var r := TouchStep(w, e).world;
      && e.path in r.files && r.files[e.path].atime == e.now && r.files[e.path].mtime == e.now
      && r.events[|r.events| - 1] == UpdateUtime(e.path)
  {
  }

  /** The checksum is never re-derived under create_if_missing: both resources keep what they had. */
  lemma CreateIfMissingSkipsChecksum(w: World, e: Env)
    requires e.action == CreateIfMissing
    ensures RunStep(w, e).world.currentChecksum == None
    ensures RunStep(w, e).world.newChecksum == w.newChecksum
  {
  }

  /**
   * A completed content step outside why-run, with the current checksum read
   * from the destination, leaves at the destination a regular file whose
   * digest is the staged file's, and disposes of the staged file.
   */
  lemma ContentStepInstalls(w: World, e: Env, tp: Path, current: Option<Digest>)
    requires StagedAt(e, tp) && tp in w.files && tp != e.path && !e.whyRun
    requires e.path in w.files && !w.files[e.path].isDirectory && !w.files[tp].isDirectory
    requires ParentIsDirectory(w.files, e.path)
    requires current.Some? ==> current == Some(e.digest(w.files[e.path].content))
    requires ContentsChangesStep(w, e, current).outcome == Pass
    ensures var f := ContentsChangesStep(w, e, current).world.files;
      && e.path in f && tp !in f && !f[e.path].isDirectory
      && e.digest(f[e.path].content) == e.digest(w.files[tp].content)
  {
    if ContentsChanged(e.digest(w.files[tp].content), current) {
      ChangedContentStep(w, e, tp, current);
      DeployThenUnlink(e.strategy, w.files, tp, e.path, e.umask, e.now);
    } else {
      UnchangedContentOnlyDisposes(w, e, tp);
    }
  }

  /** Creating the file outside why-run leaves a regular file at the path, keeps every other entry, and changes no checksum. */
  lemma CreateFileLeavesRegularFile(w: World, e: Env)
    requires !e.whyRun && !(e.path in w.files && w.files[e.path].isDirectory)
    ensures var c := CreateFileStep(w, e);
      && e.path in c.files && !c.files[e.path].isDirectory
      && (forall q :: q in w.files && q != e.path ==> q in c.files && c.files[q] == w.files[q])
      && (e.path in w.files ==> c.files[e.path] == w.files[e.path])
      && c.currentChecksum == w.currentChecksum && c.newChecksum == w.newChecksum
  {
  }

  /**
   * Convergence: a completed create pass, outside why-run, leaves at the path
   * a file whose checksum is the staged file's, disposes the staged file, and
   * records that checksum on the new resource.
   */
  lemma {:induction false} CreateConverges(w: World, e: Env, tp: Path)
    requires e.action == Create && !e.whyRun
    requires StagedAt(e, tp) && tp in w.files && tp != e.path && !w.files[tp].isDirectory
    requires !(e.path in w.files && w.files[e.path].isDirectory)
    requires RunStep(w, e).outcome == Pass
    ensures var r := RunStep(w, e).world;
      && e.path in r.files && tp !in r.files
      && e.digest(r.files[e.path].content) == e.digest(w.files[tp].content)
      && r.newChecksum == Some(e.digest(w.files[tp].content))
  {
    var loaded := LoadCurrentResourceStep(w, e);
    var created := CreateFileStep(loaded, e);
    CreateFileLeavesRegularFile(loaded, e);
    var changed := ContentsChangesStep(created, e, created.currentChecksum);
    assert RunStep(w, e) == CreateStep(loaded, e);
    ContentStepInstalls(created, e, tp, created.currentChecksum);
    var acl := AccessControlStep(changed.world, e);
    assert acl.files == changed.world.files;
    assert RunStep(w, e).world == acl.(newChecksum := ReloadedChecksum(acl.files, e.path, e.action, e.digest, acl.newChecksum));
  }

  /**
   * Idempotence: a create pass whose staged content has the checksum the file
   * already has takes no backup and deploys nothing; the only change on disk is
   * the disposal of the staged file.
   */
  lemma CreateIsIdempotent(w: World, e: Env, tp: Path)
    requires e.action == Create && !e.whyRun
    requires StagedAt(e, tp) && tp in w.files && tp != e.path
    requires e.path in w.files && !w.files[e.path].isDirectory && ParentIsDirectory(w.files, e.path)
    requires e.digest(w.files[e.path].content) == e.digest(w.files[tp].content)
    ensures var r := RunStep(w, e);
      && r.outcome == Pass
      && r.world.files == Removed(w.files, tp)
      && r.world.backups == w.backups
      && r.world.events == w.events + (if e.aclChangesRequired then [AccessControlChanges] else [])
  {
  }

  /** The staged path, as a set: empty when there is no staged file or it has no path. */
  function StagedPaths(e: Env): (r: set<Path>)
  {
    if e.tempfile.Some? && e.tempfile.value.path.Some? then {e.tempfile.value.path.value} else {}
  }

  /** No backup taken, and the disk is unchanged outside the staged path. */
  predicate DiskAloneOutside(w: World, w': World, e: Env)
  {
    w'.backups == w.backups && w'.files - StagedPaths(e) == w.files - StagedPaths(e)
  }

  lemma WhyRunContentStepAlone(w: World, e: Env, current: Option<Digest>)
    requires e.whyRun
    ensures DiskAloneOutside(w, ContentsChangesStep(w, e, current).world, e)
  {
    if e.tempfile.Some? && e.tempfile.value.path.Some? && e.tempfile.value.path.value in w.files {
      var tp := e.tempfile.value.path.value;
      assert Removed(w.files, tp) - {tp} == w.files - {tp};
    }
  }

  lemma WhyRunCreateStepAlone(w: World, e: Env)
    requires e.whyRun
    ensures DiskAloneOutside(w, CreateStep(w, e).world, e)
  {
    var created := CreateFileStep(w, e);
    assert created.files == w.files && created.backups == w.backups;
    WhyRunContentStepAlone(created, e, created.currentChecksum);
  }

  /** A why-run pass of any action never takes a backup and leaves every path but the staged one exactly as it was. */
  lemma WhyRunPassLeavesDiskAlone(w: World, e: Env, q: Path)
    requires e.whyRun && !(e.tempfile.Some? && e.tempfile.value.path == Some(q))
    ensures RunStep(w, e).world.backups == w.backups
    ensures q in RunStep(w, e).world.files <==> q in w.files
    ensures q in w.files ==> RunStep(w, e).world.files[q] == w.files[q]
  {
    var loaded := LoadCurrentResourceStep(w, e);
    WhyRunCreateStepAlone(loaded, e);
    assert DiskAloneOutside(w, RunStep(w, e).world, e);
    var after := RunStep(w, e).world.files;
    assert q !in StagedPaths(e);
    assert (q in after <==> q in after - StagedPaths(e)) && (q in w.files <==> q in w.files - StagedPaths(e));
  }
}
