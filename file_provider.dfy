/**
 * The file provider (lib/chef/provider/file.rb): the create, create_if_missing,
 * delete and touch actions as ordered steps over the filesystem, each mutation
 * going through converge_by so that why-run mode records it without running it.
 *
 * Each step is given twice: as a function from the observable state (`World`)
 * before to the state after (`...Step`), and as a method of `Provider` that
 * changes the objects step by step and is proved to match that function. The
 * lemmas at the end state what the source promises about the steps.
 */
module FileProvider {
  import opened Wrappers
  import opened FileSystem
  import Deployment

  datatype Action = Create | CreateIfMissing | Delete | Touch

  /** What converge_by is told, in normal and in why-run mode alike. */
  datatype Description =
    | CreateFile(path: Path)
    | UpdateContent(path: Path, from: string, to: string)
    | AccessControlChanges
    | DeleteFile(path: Path)
    | UpdateUtime(path: Path)

  datatype Error =
    | Confused                                  // a staged file with no path, or none on disk
    | NilTempfile                               // `path` called on a nil tempfile
    | FsFailure(fsError: FsError)
    | EnclosingDirectoryDoesNotExist(dir: Path)
    | InsufficientPermissions(path: Path)

  /** Everything a pass changes: the disk, the backups, the converge log, the ACL flag and the two resources' checksums. */
  datatype World = World(
    files: Files,
    backups: seq<BackupCopy>,
    events: seq<Description>,
    aclsApplied: bool,
    currentChecksum: Option<Digest>,
    newChecksum: Option<Digest>)

  /** Everything a pass reads but does not change. */
  datatype Env = Env(
    path: Path,
    action: Action,
    whyRun: bool,
    strategy: Deployment.DeploymentStrategy,
    tempfile: Option<Tempfile>,
    aclChangesRequired: bool,
    umask: Mode,
    now: int,
    digest: Content -> Digest)

  datatype Step = Step(outcome: Outcome<Error>, world: World)

  function Min(a: int, b: int): (r: int) { if a < b then a else b }

  /** The six-character checksum prefix shown in "update content" descriptions. */
  function ShortCksum(checksum: Option<Digest>): (r: string)
    ensures checksum.None? ==> r == "none"
    ensures checksum.Some? ==> |r| == Min(6, |checksum.value|) && r <= checksum.value
  {
    if checksum.None? then "none" else checksum.value[..Min(6, |checksum.value|)]
  }

  /** `contents_changed?`: the staged digest differs from the current resource's checksum. */
  predicate ContentsChanged(tempDigest: Digest, current: Option<Digest>)
  {
    current != Some(tempDigest)
  }

  // ---------------------------------------------------------------------------
  // Requirements (define_resource_requirements)

  /** One registered assertion, evaluated against the filesystem as it was registered. */
  datatype Assertion = Assertion(actions: set<Action>, holds: bool, failure: Error, whyrunAssumption: bool)

  /** The assertions the provider registers: the parent-directory check always, the delete check only for an existing file. */
  function ResourceRequirements(files: Files, path: Path): (r: seq<Assertion>)
  {
    [Assertion({Create, CreateIfMissing, Touch}, ParentIsDirectory(files, path),
               EnclosingDirectoryDoesNotExist(Dirname(path)), true)]
    + if path in files
      then [Assertion({Delete}, files[path].writable, InsufficientPermissions(path), false)]
      else []
  }

  /** An assertion stops the action when it applies, fails, and why-run mode cannot assume it away. */
  predicate Blocks(a: Assertion, action: Action, whyRun: bool)
  {
    action in a.actions && !a.holds && !(whyRun && a.whyrunAssumption)
  }

  /** Running the registered assertions in order: the first blocking one raises its failure. */
  function ProcessRequirements(assertions: seq<Assertion>, action: Action, whyRun: bool): (r: Outcome<Error>)
    ensures r.Fail? <==> exists i :: 0 <= i < |assertions| && Blocks(assertions[i], action, whyRun)
    ensures r.Fail? ==> exists i :: 0 <= i < |assertions| && Blocks(assertions[i], action, whyRun)
                                    && r.error == assertions[i].failure
                                    && forall j :: 0 <= j < i ==> !Blocks(assertions[j], action, whyRun)
    decreases |assertions|
  {
    if |assertions| == 0 then Pass
    else if Blocks(assertions[0], action, whyRun) then Fail(assertions[0].failure)
    else
      var rest := ProcessRequirements(assertions[1..], action, whyRun);
      assert forall i :: 1 <= i < |assertions| ==> assertions[i] == assertions[1..][i - 1];
      rest
  }

  // ---------------------------------------------------------------------------
  // The steps as functions of the state

  function Logged(w: World, d: Description): (r: World)
  {
    w.(events := w.events + [d])
  }

  function BackedUp(w: World, p: Path): (r: World)
    requires p in w.files
  {
    w.(backups := w.backups + [BackupCopy(p, w.files[p])])
  }

  function Unlinked(w: World, p: Path): (r: World)
  {
    w.(files := Removed(w.files, p))
  }

  /** `load_resource_attributes_from_file`, checksum part: skipped for a missing path, a directory, and under create_if_missing. */
  function ReloadedChecksum(files: Files, path: Path, action: Action, digest: Content -> Digest, prior: Option<Digest>): (r: Option<Digest>)
  {
    if path in files && !files[path].isDirectory && action != CreateIfMissing
    then Some(digest(files[path].content))
    else prior
  }

  /** `load_current_resource`: a fresh current resource, its checksum read from disk. */
  function LoadCurrentResourceStep(w: World, e: Env): (r: World)
  {
    w.(currentChecksum := ReloadedChecksum(w.files, e.path, e.action, e.digest, None))
  }

  /** `do_create_file` */
  function CreateFileStep(w: World, e: Env): (r: World)
  {
    if e.path in w.files then w
    else
      var logged := Logged(w, CreateFile(e.path));
      if e.whyRun then logged else logged.(files := Touched(w.files, e.path, e.umask, e.now))
  }

  /** `do_contents_changes`, shared by file.rb and content_helper.rb; `current` is the current resource's checksum. */
  function ContentsChangesStep(w: World, e: Env, current: Option<Digest>): (r: Step)
  {
    if e.tempfile.None? then Step(Pass, w)
    else if e.tempfile.value.path.None? || e.tempfile.value.path.value !in w.files then Step(Fail(Confused), w)
    else
      var tp := e.tempfile.value.path.value;
      var tempDigest := e.digest(w.files[tp].content);
      if !ContentsChanged(tempDigest, current) then Step(Pass, Unlinked(w, tp))
      else
        var logged := Logged(w, UpdateContent(e.path, ShortCksum(current), ShortCksum(Some(tempDigest))));
        if e.whyRun then Step(Pass, Unlinked(logged, tp))
        else
          var backed := if e.path in logged.files then BackedUp(logged, e.path) else logged;
          var deployed := Deployment.Deployed(e.strategy, backed.files, tp, e.path, e.umask, e.now);
          if deployed.0.Fail? then Step(Fail(FsFailure(deployed.0.error)), backed.(files := deployed.1))
          else Step(Pass, Unlinked(backed.(files := deployed.1), tp))
  }

  /** `do_acl_changes`: the access-control collaborator runs only when it reports changes. */
  function AccessControlStep(w: World, e: Env): (r: World)
  {
    if !e.aclChangesRequired then w
    else
      var logged := Logged(w, AccessControlChanges);
      if e.whyRun then logged else logged.(aclsApplied := true)
  }

  /** `action_create` */
  function CreateStep(w: World, e: Env): (r: Step)
  {
    var created := CreateFileStep(w, e);
    var changed := ContentsChangesStep(created, e, created.currentChecksum);
    if changed.outcome.Fail? then changed
    else
      var acl := AccessControlStep(changed.world, e);
      Step(Pass, acl.(newChecksum := ReloadedChecksum(acl.files, e.path, e.action, e.digest, acl.newChecksum)))
  }

  /** `action_create_if_missing` */
  function CreateIfMissingStep(w: World, e: Env): (r: Step)
  {
    if e.path in w.files then Step(Pass, w) else CreateStep(w, e)
  }

  /** `action_delete` */
  function DeleteStep(w: World, e: Env): (r: Step)
  {
    if e.path !in w.files then Step(Pass, w)
    else
      var logged := Logged(w, DeleteFile(e.path));
      if e.whyRun then Step(Pass, logged)
      else
        var backed := if w.files[e.path].isSymlink then logged else BackedUp(logged, e.path);
        if w.files[e.path].isDirectory then Step(Fail(FsFailure(IsADirectory(e.path))), backed)
        else Step(Pass, backed.(files := Removed(backed.files, e.path)))
  }

  /** `action_touch` */
  function TouchStep(w: World, e: Env): (r: Step)
  {
    var created := CreateStep(w, e);
    if created.outcome.Fail? then created
    else
      var logged := Logged(created.world, UpdateUtime(e.path));
      if e.whyRun then Step(Pass, logged)
      else if e.path !in logged.files then Step(Fail(FsFailure(NoSuchFile(e.path))), logged)
      else Step(Pass, logged.(files := Utimed(logged.files, e.path, e.now, e.now)))
  }

  /** One pass: load the current resource, check the requirements, run the action. */
  function RunStep(w: World, e: Env): (r: Step)
  {
    var loaded := LoadCurrentResourceStep(w, e);
    var required := ProcessRequirements(ResourceRequirements(loaded.files, e.path), e.action, e.whyRun);
    if required.Fail? then Step(required, loaded)
    else
      match e.action
      case Create => CreateStep(loaded, e)
      case CreateIfMissing => CreateIfMissingStep(loaded, e)
      case Delete => DeleteStep(loaded, e)
      case Touch => TouchStep(loaded, e)
  }

  // ---------------------------------------------------------------------------
  // The provider object

  class Provider {
    const fs: Filesystem
    const path: Path                 // new_resource.path
    const action: Action             // @action
    const whyRun: bool
    const strategy: Deployment.DeploymentStrategy
    const tempfile: Option<Tempfile> // content_object.tempfile, memoised
    const aclChangesRequired: bool   // access_controls.requires_changes?
    const digest: Content -> Digest

    var events: seq<Description>
    var aclsApplied: bool
    var currentChecksum: Option<Digest>   // current_resource.checksum
    var newChecksum: Option<Digest>       // new_resource.checksum

    constructor (fs: Filesystem, path: Path, action: Action, whyRun: bool,
                 strategy: Deployment.DeploymentStrategy, tempfile: Option<Tempfile>,
                 aclChangesRequired: bool, digest: Content -> Digest, declaredChecksum: Option<Digest>)
      ensures this.fs == fs && this.path == path && this.action == action && this.whyRun == whyRun
      ensures this.strategy == strategy && this.tempfile == tempfile
      ensures this.aclChangesRequired == aclChangesRequired && this.digest == digest
      ensures events == [] && !aclsApplied && currentChecksum == None && newChecksum == declaredChecksum
    {
      this.fs := fs;
      this.path := path;
      this.action := action;
      this.whyRun := whyRun;
      this.strategy := strategy;
      this.tempfile := tempfile;
      this.aclChangesRequired := aclChangesRequired;
      this.digest := digest;
      events := [];
      aclsApplied := false;
      currentChecksum := None;
      newChecksum := declaredChecksum;
    }

    ghost function Snapshot(): (r: World)
      reads this, fs
    {
      World(fs.files, fs.backups, events, aclsApplied, currentChecksum, newChecksum)
    }

    function Environment(): (r: Env)
    {
      Env(path, action, whyRun, strategy, tempfile, aclChangesRequired, fs.umask, fs.now, digest)
    }

    /** converge_by: the description is always recorded; the caller runs its block only when told to. */
    method ConvergeBy(d: Description) returns (run: bool)
      modifies this
      ensures Snapshot() == Logged(old(Snapshot()), d)
      ensures run == !whyRun
    {
      events := events + [d];
      run := !whyRun;
    }

    /** Chef::Mixin::Checksum#checksum */
    function Checksum(p: Path): (r: Digest)
      requires p in fs.files
      reads fs
    {
      digest(fs.files[p].content)
    }

    method LoadResourceAttributesFromFile(prior: Option<Digest>) returns (checksum: Option<Digest>)
      ensures checksum == ReloadedChecksum(fs.files, path, action, digest, prior)
      ensures checksum != prior ==> path in fs.files && checksum == Some(Checksum(path))
    {
      checksum := prior;
      if fs.Exists(path) && !fs.files[path].isDirectory {
        if action != CreateIfMissing {
          checksum := Some(Checksum(path));
        }
      }
    }

    method LoadCurrentResource()
      modifies this
      ensures Snapshot() == LoadCurrentResourceStep(old(Snapshot()), Environment())
    {
      currentChecksum := LoadResourceAttributesFromFile(None);
    }

    method DoCreateFile()
      modifies this, fs
      ensures Snapshot() == CreateFileStep(old(Snapshot()), Environment())
    {
      if !fs.Exists(path) {
        var run := ConvergeBy(CreateFile(path));
        if run {
          Deployment.Create(strategy, fs, path);
        }
      }
    }

    method DoContentsChanges() returns (r: Outcome<Error>)
      modifies this, fs
      ensures Step(r, Snapshot()) == ContentsChangesStep(old(Snapshot()), Environment(), old(currentChecksum))
    {
      if tempfile.None? {
        return Pass;
      }
      var temp := tempfile.value;
      if temp.path.None? || !fs.Exists(temp.path.value) {
        return Fail(Confused);
      }
      var tp := temp.path.value;
      var tempDigest := Checksum(tp);
      if ContentsChanged(tempDigest, currentChecksum) {
        var run := ConvergeBy(UpdateContent(path, ShortCksum(currentChecksum), ShortCksum(Some(tempDigest))));
        if run {
          if fs.Exists(path) {
            fs.Backup(path);
          }
          var deployed := Deployment.Deploy(strategy, fs, tp, path);
          if deployed.Fail? {
            return Fail(FsFailure(deployed.error));
          }
        }
      }
      // unlinked in why-run mode too
      fs.Unlink(tp);
      r := Pass;
    }

    method DoAclChanges()
      modifies this
      ensures Snapshot() == AccessControlStep(old(Snapshot()), Environment())
    {
      if aclChangesRequired {
        var run := ConvergeBy(AccessControlChanges);
        if run {
          aclsApplied := true;
        }
      }
    }

    method ActionCreate() returns (r: Outcome<Error>)
      modifies this, fs
      ensures Step(r, Snapshot()) == CreateStep(old(Snapshot()), Environment())
    {
      DoCreateFile();
      r := DoContentsChanges();
      if r.Fail? {
        return;
      }
      DoAclChanges();
      newChecksum := LoadResourceAttributesFromFile(newChecksum);
    }

    method ActionCreateIfMissing() returns (r: Outcome<Error>)
      modifies this, fs
      ensures Step(r, Snapshot()) == CreateIfMissingStep(old(Snapshot()), Environment())
    {
      if fs.Exists(path) {
        r := Pass;
      } else {
        r := ActionCreate();
      }
    }

    method ActionDelete() returns (r: Outcome<Error>)
      modifies this, fs
      ensures Step(r, Snapshot()) == DeleteStep(old(Snapshot()), Environment())
    {
      r := Pass;
      if fs.Exists(path) {
        var run := ConvergeBy(DeleteFile(path));
        if run {
          if !fs.files[path].isSymlink {
            fs.Backup(path);
          }
          var deleted := fs.Delete(path);
          if deleted.Fail? {
            r := Fail(FsFailure(deleted.error));
          }
        }
      }
    }

    method ActionTouch() returns (r: Outcome<Error>)
      modifies this, fs
      ensures Step(r, Snapshot()) == TouchStep(old(Snapshot()), Environment())
    {
      r := ActionCreate();
      if r.Fail? {
        return;
      }
      var run := ConvergeBy(UpdateUtime(path));
      if run {
        var time := fs.now;
        var touched := fs.Utime(path, time, time);
        if touched.Fail? {
          r := Fail(FsFailure(touched.error));
        }
      }
    }

    /** The provider's run of its action: load, check requirements, dispatch. */
    method Run() returns (r: Outcome<Error>)
      modifies this, fs
      ensures Step(r, Snapshot()) == RunStep(old(Snapshot()), Environment())
    {
      LoadCurrentResource();
      r := ProcessRequirements(ResourceRequirements(fs.files, path), action, whyRun);
      if r.Fail? {
        return;
      }
      match action
      case Create => r := ActionCreate();
      case CreateIfMissing => r := ActionCreateIfMissing();
      case Delete => r := ActionDelete();
      case Touch => r := ActionTouch();
    }
  }
}
