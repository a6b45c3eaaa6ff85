/**
 * The move strategy (deploy/mv.rb): atomic rename of the staged file onto the
 * destination, keeping the destination's permission bits.
 */
module DeployMv {
  import opened Wrappers
  import opened FileSystem

  /** What `deploy(src, dst)` leaves behind: the outcome and the new file map. */
  function Deployed(files: Files, src: Path, dst: Path): (r: (Outcome<FsError>, Files))
    ensures r.0.Fail? ==> r.1 == files
  {
    if dst !in files then (Fail(NoSuchFile(dst)), files)
    else
      var moved := MvResult(files, src, dst);
      if moved.0.Fail? then moved
      else (Pass, Chmodded(moved.1, dst, files[dst].mode & PermissionBits))
  }

  /** `create` touches the path: afterwards it exists. */
  method Create(fs: Filesystem, path: Path)
    modifies fs
    ensures fs.files == Touched(old(fs.files), path, fs.umask, fs.now)
    ensures path in fs.files
    ensures fs.backups == old(fs.backups)
  {
    fs.Touch(path);
  }

  /**
   * `deploy` reads the destination's mode first (so a missing destination
   * raises before anything moves), renames, then puts the mode back.
   */
  method Deploy(fs: Filesystem, src: Path, dst: Path) returns (r: Outcome<FsError>)
    modifies fs
    ensures (r, fs.files) == Deployed(old(fs.files), src, dst)
    ensures fs.backups == old(fs.backups)
  {
    // Whether src and dst share a directory only changes what is logged.
    var stat := fs.Stat(dst);
    if stat.Failure? {
      return Fail(stat.error);
    }
    var mode := stat.value.mode & PermissionBits;
    r := fs.Move(src, dst);
    if r.Fail? {
      return;
    }
    fs.Chmod(dst, mode);
  }

  /** Onto a regular file, a successful move installs the staged bytes but keeps the old destination's `mode & 0777`, and the staged path is gone. */
  lemma DeployKeepsDestinationMode(files: Files, src: Path, dst: Path)
    requires src in files && dst in files && src != dst && !files[dst].isDirectory && !files[src].isDirectory
    requires ParentIsDirectory(files, dst)
    ensures Deployed(files, src, dst).0 == Pass
    ensures var after := Deployed(files, src, dst).1;
      && dst in after && src !in after
      && after[dst].content == files[src].content
      && after[dst].mode == files[dst].mode & PermissionBits
      && !after[dst].isDirectory
      && (forall q :: q in files && q != src && q != dst ==> q in after && after[q] == files[q])
  {
  }

  /**
   * Onto a directory, the staged entry lands inside it under its own name and
   * keeps its own mode; the directory stays, its mode masked to 0777 by the
   * chmod, and the staged path is gone.
   */
  lemma DeployIntoDirectory(files: Files, src: Path, dst: Path)
    requires src in files && !files[src].isDirectory && IsDirectoryAt(files, dst)
    requires src != dst + [Basename(src)] && !IsDirectoryAt(files, dst + [Basename(src)])
    ensures Deployed(files, src, dst).0 == Pass
    ensures var after := Deployed(files, src, dst).1; var t := dst + [Basename(src)];
      && t in after && src !in after
      && after[t] == files[src]
      && after[dst] == files[dst].(mode := files[dst].mode & PermissionBits)
      && (forall q :: q in files && q != src && q != dst && q != t ==> q in after && after[q] == files[q])
  {
    var t := dst + [Basename(src)];
    assert t != dst;
  }

  /** A directory in the way of the staged entry inside a directory destination: EEXIST, nothing moves. */
  lemma DeployBlockedBySubdirectory(files: Files, src: Path, dst: Path)
    requires IsDirectoryAt(files, dst) && IsDirectoryAt(files, dst + [Basename(src)])
    requires src != dst + [Basename(src)]
    ensures Deployed(files, src, dst) == (Fail(AlreadyExists(dst + [Basename(src)])), files)
  {
  }

  /** The staged file's own mode never reaches the destination: two staged files that differ only in mode deploy alike. */
  lemma DeployIgnoresStagedMode(files: Files, src: Path, dst: Path, m: Mode)
    requires src in files && dst in files && src != dst && !files[dst].isDirectory && !files[src].isDirectory
    requires ParentIsDirectory(files, dst)
    ensures Deployed(files[src := files[src].(mode := m)], src, dst) == Deployed(files, src, dst)
  {
    var staged := files[src := files[src].(mode := m)];
    assert staged[dst] == files[dst];
    assert Target(staged, src, dst) == dst == Target(files, src, dst);
    var viaStaged := Deployed(staged, src, dst).1;
    var viaFiles := Deployed(files, src, dst).1;
    assert viaStaged.Keys == viaFiles.Keys;
    forall q | q in viaStaged
      ensures viaStaged[q] == viaFiles[q]
    {
      if q != dst {
        assert q != src;
      }
    }
    assert viaStaged == viaFiles;
  }

  /** Without a destination to read the mode from, nothing changes and ENOENT is raised. */
  lemma DeployNeedsDestination(files: Files, src: Path, dst: Path)
    requires dst !in files
    ensures Deployed(files, src, dst) == (Fail(NoSuchFile(dst)), files)
  {
  }
}

/**
 * The copy strategy (deploy/cp.rb): the staged bytes are copied into the
 * destination in place; no explicit chmod.
 */
module DeployCp {
  import opened Wrappers
  import opened FileSystem

  function Deployed(files: Files, src: Path, dst: Path, umask: Mode, now: int): (r: (Outcome<FsError>, Files))
    ensures r.0.Fail? ==> r.1 == files
  {
    CpResult(files, src, dst, umask, now)
  }

  method Create(fs: Filesystem, path: Path)
    modifies fs
    ensures fs.files == Touched(old(fs.files), path, fs.umask, fs.now)
    ensures path in fs.files
    ensures fs.backups == old(fs.backups)
  {
    fs.Touch(path);
  }

  method Deploy(fs: Filesystem, src: Path, dst: Path) returns (r: Outcome<FsError>)
    modifies fs
    ensures (r, fs.files) == Deployed(old(fs.files), src, dst, fs.umask, fs.now)
    ensures fs.backups == old(fs.backups)
  {
    r := fs.Copy(src, dst);
  }

  /** Onto a regular file it may write, a successful copy gives the destination the staged bytes, keeps its mode, and leaves the staged file where it was. */
  lemma DeployCopiesInPlace(files: Files, src: Path, dst: Path, umask: Mode, now: int)
    requires src in files && dst in files && src != dst && !files[dst].isDirectory && !files[src].isDirectory
    requires ParentIsDirectory(files, dst) && files[dst].writable
    ensures Deployed(files, src, dst, umask, now).0 == Pass
    ensures var after := Deployed(files, src, dst, umask, now).1;
      && after.Keys == files.Keys
      && after[dst].content == files[src].content
      && after[dst].mode == files[dst].mode
      && !after[dst].isDirectory
      && after[src] == files[src]
  {
  }

  /**
   * Onto a directory, the staged bytes are copied into a file of the staged
   * file's name inside it; the directory itself is untouched.
   */
  lemma DeployCopiesIntoDirectory(files: Files, src: Path, dst: Path, umask: Mode, now: int)
    requires src in files && !files[src].isDirectory && IsDirectoryAt(files, dst)
    requires src != dst + [Basename(src)] && !IsDirectoryAt(files, dst + [Basename(src)])
    requires dst + [Basename(src)] in files ==> files[dst + [Basename(src)]].writable
    ensures Deployed(files, src, dst, umask, now).0 == Pass
    ensures var after := Deployed(files, src, dst, umask, now).1; var t := dst + [Basename(src)];
      && t in after && after[t].content == files[src].content
      && after[dst] == files[dst] && after[src] == files[src]
      && (forall q :: q in files && q != t ==> q in after && after[q] == files[q])
  {
    var t := dst + [Basename(src)];
    assert t != dst;
  }

  /**
   * Onto an existing regular file the process may not write, opening the
   * target raises EACCES and nothing changes, whatever the staged file is.
   */
  lemma DeployDeniedOnUnwritable(files: Files, src: Path, dst: Path, umask: Mode, now: int)
    requires src in files && src != dst && !files[src].isDirectory
    requires dst in files && !files[dst].isDirectory && !files[dst].writable && ParentIsDirectory(files, dst)
    ensures Deployed(files, src, dst, umask, now) == (Fail(PermissionDenied(dst)), files)
  {
  }
}

/** The deployment strategy a file resource names, and dispatch to it. */
module Deployment {
  import opened Wrappers
  import opened FileSystem
  import DeployMv
  import DeployCp

  datatype DeploymentStrategy = Mv | Cp

  function Deployed(strategy: DeploymentStrategy, files: Files, src: Path, dst: Path, umask: Mode, now: int): (r: (Outcome<FsError>, Files))
    ensures r.0.Fail? ==> r.1 == files
  {
    match strategy
    case Mv => DeployMv.Deployed(files, src, dst)
    case Cp => DeployCp.Deployed(files, src, dst, umask, now)
  }

  method Create(strategy: DeploymentStrategy, fs: Filesystem, path: Path)
    modifies fs
    ensures fs.files == Touched(old(fs.files), path, fs.umask, fs.now)
    ensures fs.backups == old(fs.backups)
  {
    match strategy
    case Mv => DeployMv.Create(fs, path);
    case Cp => DeployCp.Create(fs, path);
  }

  method Deploy(strategy: DeploymentStrategy, fs: Filesystem, src: Path, dst: Path) returns (r: Outcome<FsError>)
    modifies fs
    ensures (r, fs.files) == Deployed(strategy, old(fs.files), src, dst, fs.umask, fs.now)
    ensures fs.backups == old(fs.backups)
  {
    match strategy
    case Mv => r := DeployMv.Deploy(fs, src, dst);
    case Cp => r := DeployCp.Deploy(fs, src, dst);
  }

  /**
   * Either strategy, once it succeeds, leaves the staged bytes at the target
   * (the destination, or the entry of the staged file's name inside a
   * destination directory), keeps a destination directory a directory, and
   * touches no path but the staged one, the destination and the target.
   */
  lemma DeployInstallsContent(strategy: DeploymentStrategy, files: Files, src: Path, dst: Path, umask: Mode, now: int)
    requires Deployed(strategy, files, src, dst, umask, now).0 == Pass
    ensures src in files && src != dst
    ensures var after := Deployed(strategy, files, src, dst, umask, now).1; var t := Target(files, src, dst);
      && t in after && after[t].content == files[src].content
      && dst in after && (IsDirectoryAt(files, dst) ==> after[dst].isDirectory)
      && (forall q :: q in files && q != src && q != dst && q != t ==> q in after && after[q] == files[q])
  {
  }

  /** A failed deployment changes nothing. */
  lemma DeployFailsCleanly(strategy: DeploymentStrategy, files: Files, src: Path, dst: Path, umask: Mode, now: int)
    requires Deployed(strategy, files, src, dst, umask, now).0.Fail?
    ensures Deployed(strategy, files, src, dst, umask, now).1 == files
  {
  }
}
