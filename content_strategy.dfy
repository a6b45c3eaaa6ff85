/**
 * ContentStrategy (lib/chef/provider/file_strategy/content_strategy.rb): the
 * variant of the content-change step in which a nil tempfile or a nil path
 * yields a nil checksum, so that nothing is deployed and nothing is raised.
 */
module ContentStrategy {
  import opened Wrappers
  import opened FileSystem
  import opened FileProvider
  import Deployment
  import DeployMv
  import DeployCp

  /** `checksum`: nil without a tempfile or a path; Digester raises ENOENT for a path that is not on disk. */
  function StagedChecksum(files: Files, tempfile: Option<Tempfile>, digest: Content -> Digest): (r: Result<Option<Digest>, FsError>)
    ensures (tempfile.None? || tempfile.value.path.None?) ==> r == Success(None)
    ensures r.Success? && r.value.Some? ==>
      tempfile.Some? && tempfile.value.path.Some? && tempfile.value.path.value in files
      && r.value.value == digest(files[tempfile.value.path.value].content)
    ensures r.Failure? ==> tempfile.Some? && tempfile.value.path.Some? && tempfile.value.path.value !in files
  {
    if tempfile.None? || tempfile.value.path.None? then Success(None)
    else if tempfile.value.path.value !in files then Failure(NoSuchFile(tempfile.value.path.value))
    else Success(Some(digest(files[tempfile.value.path.value].content)))
  }

  /** `contents_changed?`: a non-nil checksum that differs from the current one. */
  predicate StagedContentsChanged(checksum: Option<Digest>, current: Option<Digest>)
  {
    checksum.Some? && checksum != current
  }

  /** `cleanup`: a non-nil tempfile is unlinked. */
  function CleanupStep(w: World, tempfile: Option<Tempfile>): (r: World)
  {
    if tempfile.Some? && tempfile.value.path.Some? then Unlinked(w, tempfile.value.path.value) else w
  }

  /** `tempfile_to_destfile`: back up, then deploy, but only for a staged file that is on disk. */
  function TempfileToDestfileStep(w: World, e: Env): (r: Step)
  {
    if e.tempfile.None? then Step(Fail(NilTempfile), w)
    else if e.tempfile.value.path.None? || e.tempfile.value.path.value !in w.files then Step(Pass, w)
    else
      var tp := e.tempfile.value.path.value;
      var backed := if e.path in w.files then BackedUp(w, e.path) else w;
      var deployed := Deployment.Deployed(e.strategy, backed.files, tp, e.path, e.umask, e.now);
      if deployed.0.Fail? then Step(Fail(FsFailure(deployed.0.error)), backed.(files := deployed.1))
      else Step(Pass, backed.(files := deployed.1))
  }

  /** `do_contents_changes` */
  function StrategyContentsChangesStep(w: World, e: Env, current: Option<Digest>): (r: Step)
  {
    match StagedChecksum(w.files, e.tempfile, e.digest)
    case Failure(err) => Step(Fail(FsFailure(err)), w)
    case Success(checksum) =>
      if !StagedContentsChanged(checksum, current) then Step(Pass, CleanupStep(w, e.tempfile))
      else
        var logged := Logged(w, UpdateContent(e.path, ShortCksum(current), ShortCksum(checksum)));
        if e.whyRun then Step(Pass, CleanupStep(logged, e.tempfile))
        else
          var moved := TempfileToDestfileStep(logged, e);
          if moved.outcome.Fail? then moved else Step(Pass, CleanupStep(moved.world, e.tempfile))
  }

  class Strategy {
    const provider: Provider
    const tempfile: Option<Tempfile>                  // @content_object.tempfile
    const fileDeployer: Deployment.DeploymentStrategy // @file_deployer
    const path: Path                                  // @new_resource.path
    const currentChecksum: Option<Digest>             // @current_resource.checksum

    constructor (provider: Provider, tempfile: Option<Tempfile>, fileDeployer: Deployment.DeploymentStrategy,
                 path: Path, currentChecksum: Option<Digest>)
      ensures this.provider == provider && this.tempfile == tempfile && this.fileDeployer == fileDeployer
      ensures this.path == path && this.currentChecksum == currentChecksum
    {
      this.provider := provider;
      this.tempfile := tempfile;
      this.fileDeployer := fileDeployer;
      this.path := path;
      this.currentChecksum := currentChecksum;
    }

    function Environment(): (r: Env)
    {
      Env(path, provider.action, provider.whyRun, fileDeployer, tempfile, provider.aclChangesRequired,
          provider.fs.umask, provider.fs.now, provider.digest)
    }

    method Checksum() returns (r: Result<Option<Digest>, FsError>)
      ensures r == StagedChecksum(provider.fs.files, tempfile, provider.digest)
    {
      if tempfile.None? || tempfile.value.path.None? {
        return Success(None);
      }
      var tp := tempfile.value.path.value;
      if !provider.fs.Exists(tp) {
        return Failure(NoSuchFile(tp));
      }
      r := Success(Some(provider.Checksum(tp)));
    }

    method DoCreateFile()
      modifies provider, provider.fs
      ensures provider.Snapshot() == CreateFileStep(old(provider.Snapshot()), Environment())
    {
      if !provider.fs.Exists(path) {
        var run := provider.ConvergeBy(CreateFile(path));
        if run {
          Deployment.Create(fileDeployer, provider.fs, path);
        }
      }
    }

    method TempfileToDestfile() returns (r: Outcome<Error>)
      modifies provider.fs
      ensures Step(r, provider.Snapshot()) == TempfileToDestfileStep(old(provider.Snapshot()), Environment())
    {
      var fs := provider.fs;
      if tempfile.None? {
        return Fail(NilTempfile);
      }
      r := Pass;
      var temp := tempfile.value;
      if temp.path.Some? && fs.Exists(temp.path.value) {
        if fs.Exists(path) {
          fs.Backup(path);
        }
        var deployed := Deployment.Deploy(fileDeployer, fs, temp.path.value, path);
        if deployed.Fail? {
          r := Fail(FsFailure(deployed.error));
        }
      }
    }

    method Cleanup()
      modifies provider.fs
      ensures provider.Snapshot() == CleanupStep(old(provider.Snapshot()), tempfile)
    {
      if tempfile.Some? && tempfile.value.path.Some? {
        provider.fs.Unlink(tempfile.value.path.value);
      }
    }

    method DoContentsChanges() returns (r: Outcome<Error>)
      modifies provider, provider.fs
      ensures Step(r, provider.Snapshot()) == StrategyContentsChangesStep(old(provider.Snapshot()), Environment(), currentChecksum)
    {
      var checksum := Checksum();
      if checksum.Failure? {
        return Fail(FsFailure(checksum.error));
      }
      if StagedContentsChanged(checksum.value, currentChecksum) {
        var run := provider.ConvergeBy(UpdateContent(path, ShortCksum(currentChecksum), ShortCksum(checksum.value)));
        if run {
          r := TempfileToDestfile();
          if r.Fail? {
            return;
          }
        }
      }
      Cleanup();
      r := Pass;
    }
  }

  // ---------------------------------------------------------------------------
  // Properties

  /** A nil tempfile, or one with a nil path, never deploys, never raises and changes nothing. */
  lemma NilChecksumNeverDeploys(w: World, e: Env, current: Option<Digest>)
    requires e.tempfile.None? || e.tempfile.value.path.None?
    ensures StrategyContentsChangesStep(w, e, current) == Step(Pass, w)
  {
  }

  /** `tempfile_to_destfile` on a staged file with no path, or none on disk, silently does nothing. */
  lemma LostTempfileIsSkipped(w: World, e: Env)
    requires e.tempfile.Some?
    requires e.tempfile.value.path.None? || e.tempfile.value.path.value !in w.files
    ensures TempfileToDestfileStep(w, e) == Step(Pass, w)
  {
  }

  /** `tempfile_to_destfile` backs up an existing regular file before deploying onto it. */
  lemma BackupBeforeDeploy(w: World, e: Env, tp: Path)
    requires e.tempfile == Some(Tempfile(Some(tp))) && tp in w.files && e.path in w.files && tp != e.path
    requires !w.files[e.path].isDirectory && !w.files[tp].isDirectory && ParentIsDirectory(w.files, e.path)
    requires e.strategy.Cp? ==> w.files[e.path].writable
    ensures var r := TempfileToDestfileStep(w, e);
      && r.outcome == Pass
      && r.world.backups == w.backups + [BackupCopy(e.path, w.files[e.path])]
      && e.path in r.world.files && r.world.files[e.path].content == w.files[tp].content
  {
    match e.strategy {
      case Mv => DeployMv.DeployKeepsDestinationMode(w.files, tp, e.path);
      case Cp => DeployCp.DeployCopiesInPlace(w.files, tp, e.path, e.umask, e.now);
    }
  }

  /**
   * `tempfile_to_destfile` backs up only an existing destination: with no
   * entry at the path the backups are untouched, and the mv strategy fails on
   * the missing destination with the staged file kept.
   */
  lemma AbsentDestinationNoBackup(w: World, e: Env, tp: Path)
    requires e.tempfile == Some(Tempfile(Some(tp))) && tp in w.files && e.path !in w.files
    ensures TempfileToDestfileStep(w, e).world.backups == w.backups
    ensures e.strategy.Mv? ==>
      && TempfileToDestfileStep(w, e).outcome == Fail(FsFailure(NoSuchFile(e.path)))
      && TempfileToDestfileStep(w, e).world.files == w.files
  {
  }

  /** Whenever the step completes with a staged path, cleanup has removed it, change or no change. */
  lemma CleanupAlwaysRuns(w: World, e: Env, tp: Path, current: Option<Digest>)
    requires e.tempfile == Some(Tempfile(Some(tp)))
    ensures StrategyContentsChangesStep(w, e, current).outcome.Pass? ==> tp !in StrategyContentsChangesStep(w, e, current).world.files
  {
  }

  /**
   * For a staged file that is on disk the strategy and the provider's own step
   * agree exactly; they differ only on a lost staged file, for which the
   * provider raises its internal error and the strategy ENOENT from the digest.
   */
  lemma AgreesWithProviderStep(w: World, e: Env, tp: Path, current: Option<Digest>)
    requires e.tempfile == Some(Tempfile(Some(tp))) && tp in w.files
    ensures StrategyContentsChangesStep(w, e, current) == ContentsChangesStep(w, e, current)
  {
  }
}
