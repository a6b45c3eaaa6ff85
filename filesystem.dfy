/**
 * The abstract filesystem the file provider converges: a map from path to
 * entry, plus the copies the backup step has taken. The primitives below are
 * the FileUtils / File calls the provider and its deployment strategies make.
 */
module FileSystem {
  import opened Wrappers

  newtype byte = x: int | 0 <= x < 256

  type Content = seq<byte>

  /** A path as its list of components; its parent directory drops the last one. */
  type Path = seq<string>

  /** Permission bits of a file (rwx for user, group, other, plus setuid, setgid, sticky). */
  type Mode = bv16

  /** An opaque content digest, as Chef::Digester produces. */
  type Digest = string

  /** `0777`: the bits `File.chmod` and `mode & 0777` keep. */
  const PermissionBits: Mode := 0x1FF
  /** `0666`: the mode a newly created regular file asks for before the umask. */
  const CreationMode: Mode := 0x1B6

  datatype Entry = Entry(
    content: Content,
    mode: Mode,
    isSymlink: bool,
    isDirectory: bool,
    writable: bool,
    atime: int,
    mtime: int)

  type Files = map<Path, Entry>

  /** A copy of an entry taken aside before it is overwritten or deleted. */
  datatype BackupCopy = BackupCopy(path: Path, entry: Entry)

  datatype FsError =
    | NoSuchFile(path: Path)     // Errno::ENOENT
    | IsADirectory(path: Path)   // Errno::EISDIR: deleting, opening or copying a directory
    | SameFile(path: Path)       // FileUtils' "same file" ArgumentError
    | AlreadyExists(path: Path)  // Errno::EEXIST from FileUtils.mv onto a directory
    | InvalidArgument(path: Path) // Errno::EINVAL: rename(2) of a directory into itself
    | NotADirectory(path: Path)  // Errno::ENOTDIR: a path component, or a directory's rename target, is not a directory
    | PermissionDenied(path: Path) // Errno::EACCES: opening for writing a file the process may not write

  /** A staged file; its path is nil once it has been unlinked. */
  datatype Tempfile = Tempfile(path: Option<Path>)

  function Dirname(p: Path): (r: Path)
  {
    if |p| == 0 then p else p[..|p| - 1]
  }

  function Basename(p: Path): (r: string)
  {
    if |p| == 0 then "" else p[|p| - 1]
  }

  predicate IsDirectoryAt(files: Files, p: Path)
  {
    p in files && files[p].isDirectory
  }

  /** The directory that holds `path` exists and is a directory. */
  predicate ParentIsDirectory(files: Files, path: Path)
  {
    IsDirectoryAt(files, Dirname(path))
  }

  /** `p` lies strictly below `q`. */
  predicate Below(p: Path, q: Path)
  {
    |q| < |p| && p[..|q|] == q
  }

  /**
   * The path `FileUtils.mv` and `FileUtils.cp` write: onto an existing
   * directory, the entry named after the source inside it; otherwise the
   * destination itself.
   */
  function Target(files: Files, src: Path, dst: Path): (r: Path)
  {
    if IsDirectoryAt(files, dst) then dst + [Basename(src)] else dst
  }

  function NewEmptyFile(umask: Mode, now: int): (r: Entry)
  {
    Entry([], CreationMode & !umask, false, false, true, now, now)
  }

  /** FileUtils.touch: create an empty file, or bump the times of an existing one. */
  function Touched(files: Files, p: Path, umask: Mode, now: int): (r: Files)
    ensures r.Keys == files.Keys + {p}
    ensures p in files ==> r[p] == files[p].(atime := now, mtime := now)
    ensures p !in files ==> r[p].content == [] && r[p].mode == CreationMode & !umask
    ensures forall q :: q in files && q != p ==> r[q] == files[q]
  {
    if p in files then files[p := files[p].(atime := now, mtime := now)]
    else files[p := NewEmptyFile(umask, now)]
  }

  /** rename(2) onto a path that is not a directory: `dst` becomes the entry that was at `src`, and `src` is gone. */
  function Moved(files: Files, src: Path, dst: Path): (r: Files)
    requires src in files && src != dst && !IsDirectoryAt(files, dst)
    ensures r.Keys == files.Keys - {src} + {dst}
    ensures r[dst] == files[src]
    ensures forall q :: q in files && q != src && q != dst ==> r[q] == files[q]
  {
    (files - {src})[dst := files[src]]
  }

  /** copy_file onto a path that is not a directory: an existing file keeps its mode and gets new bytes; a new one copies the mode through the umask. */
  function Copied(files: Files, src: Path, dst: Path, umask: Mode, now: int): (r: Files)
    requires src in files && src != dst && !IsDirectoryAt(files, dst)
    ensures r.Keys == files.Keys + {dst}
    ensures r[dst].content == files[src].content && r[dst].mtime == now && !r[dst].isDirectory
    ensures dst in files ==> r[dst].mode == files[dst].mode
    ensures r[src] == files[src]
    ensures forall q :: q in files && q != dst ==> r[q] == files[q]
  {
    if dst in files then files[dst := files[dst].(content := files[src].content, mtime := now)]
    else files[dst := Entry(files[src].content, files[src].mode & !umask, false, false, true, now, now)]
  }

  /**
   * FileUtils.mv: the same-file check on the target, EEXIST for a directory
   * in the way, then rename(2), which also needs the target's parent to be a
   * directory and refuses to put a directory in the place of an existing
   * file. On success the staged entry is at the target, the source is
   * gone, and a directory destination is still there.
   */
  function MvResult(files: Files, src: Path, dst: Path): (r: (Outcome<FsError>, Files))
    ensures r.0.Fail? ==> r.1 == files
    ensures r.0 == Pass <==>
      && src in files && src != Target(files, src, dst) && !IsDirectoryAt(files, Target(files, src, dst))
      && !(files[src].isDirectory && Below(Target(files, src, dst), src))
      && ParentIsDirectory(files, Target(files, src, dst))
      && !(files[src].isDirectory && Target(files, src, dst) in files)
    ensures r.0 == Pass ==> src != dst
    ensures r.0 == Pass ==> var t := Target(files, src, dst);
      && r.1.Keys == files.Keys - {src} + {t}
      && r.1[t] == files[src]
      && (forall q :: q in files && q != src && q != t ==> r.1[q] == files[q])
    ensures r.0 == Pass && IsDirectoryAt(files, dst) ==> dst in r.1 && r.1[dst] == files[dst]
  {
    var t := Target(files, src, dst);
    if src in files && src == t then (Fail(SameFile(src)), files)
    else if IsDirectoryAt(files, t) then (Fail(AlreadyExists(t)), files)
    else if src !in files then (Fail(NoSuchFile(src)), files)
    else if files[src].isDirectory && Below(t, src) then (Fail(InvalidArgument(src)), files)
    else if Dirname(t) !in files then (Fail(NoSuchFile(t)), files)
    else if !files[Dirname(t)].isDirectory then (Fail(NotADirectory(t)), files)
    else if files[src].isDirectory && t in files then (Fail(NotADirectory(t)), files)
    else (Pass, Moved(files, src, t))
  }

  /**
   * FileUtils.cp: the same-file check on the target, then copy_file, which
   * opens the source (ENOENT, or EISDIR on reading a directory) and then the
   * target for writing (EISDIR; ENOENT or ENOTDIR when its parent is missing
   * or not a directory; EACCES when it exists and may not be written). On success the target holds the staged
   * bytes, every other path is unchanged, and so a directory destination is
   * still there.
   */
  function CpResult(files: Files, src: Path, dst: Path, umask: Mode, now: int): (r: (Outcome<FsError>, Files))
    ensures r.0.Fail? ==> r.1 == files
    ensures r.0 == Pass <==>
      && src in files && src != Target(files, src, dst) && !files[src].isDirectory
      && !IsDirectoryAt(files, Target(files, src, dst))
      && ParentIsDirectory(files, Target(files, src, dst))
      && (Target(files, src, dst) in files ==> files[Target(files, src, dst)].writable)
    ensures r.0 == Pass ==> var t := Target(files, src, dst);
      && r.1.Keys == files.Keys + {t}
      && r.1[t].content == files[src].content && !r.1[t].isDirectory
      && (t in files ==> r.1[t].mode == files[t].mode)
      && (forall q :: q in files && q != t ==> r.1[q] == files[q])
  {
    var t := Target(files, src, dst);
    if src in files && src == t then (Fail(SameFile(src)), files)
    else if src !in files then (Fail(NoSuchFile(src)), files)
    else if files[src].isDirectory then (Fail(IsADirectory(src)), files)
    else if IsDirectoryAt(files, t) then (Fail(IsADirectory(t)), files)
    else if Dirname(t) !in files then (Fail(NoSuchFile(t)), files)
    else if !files[Dirname(t)].isDirectory then (Fail(NotADirectory(t)), files)
    else if t in files && !files[t].writable then (Fail(PermissionDenied(t)), files)
    else (Pass, Copied(files, src, t, umask, now))
  }

  function Chmodded(files: Files, p: Path, mode: Mode): (r: Files)
    requires p in files
    ensures r.Keys == files.Keys && r[p] == files[p].(mode := mode)
    ensures forall q :: q in files && q != p ==> r[q] == files[q]
  {
    files[p := files[p].(mode := mode)]
  }

  function Utimed(files: Files, p: Path, atime: int, mtime: int): (r: Files)
    requires p in files
    ensures r.Keys == files.Keys && r[p] == files[p].(atime := atime, mtime := mtime)
    ensures forall q :: q in files && q != p ==> r[q] == files[q]
  {
    files[p := files[p].(atime := atime, mtime := mtime)]
  }

  function Removed(files: Files, p: Path): (r: Files)
    ensures r.Keys == files.Keys - {p}
    ensures forall q :: q in r ==> r[q] == files[q]
  {
    files - {p}
  }

  class Filesystem {
    var files: Files
    var backups: seq<BackupCopy>
    const umask: Mode
    /** The clock reading every timestamp of this pass takes. */
    const now: int

    constructor (files: Files, umask: Mode, now: int)
      ensures this.files == files && backups == []
      ensures this.umask == umask && this.now == now
    {
      this.files := files;
      this.backups := [];
      this.umask := umask;
      this.now := now;
    }

    /** ::File.exists? */
    predicate Exists(p: Path)
      reads this
    {
      p in files
    }

    /** ::File.stat */
    method Stat(p: Path) returns (r: Result<Entry, FsError>)
      ensures p in files ==> r == Success(files[p])
      ensures p !in files ==> r == Failure(NoSuchFile(p))
    {
      if p in files {
        r := Success(files[p]);
      } else {
        r := Failure(NoSuchFile(p));
      }
    }

    /** FileUtils.touch */
    method Touch(p: Path)
      modifies this
      ensures files == Touched(old(files), p, umask, now)
      ensures backups == old(backups)
    {
      files := Touched(files, p, umask, now);
    }

    /** FileUtils.mv */
    method Move(src: Path, dst: Path) returns (r: Outcome<FsError>)
      modifies this
      ensures (r, files) == MvResult(old(files), src, dst)
      ensures backups == old(backups)
    {
      var t := if dst in files && files[dst].isDirectory then dst + [Basename(src)] else dst;
      if src in files && src == t {
        r := Fail(SameFile(src));
      } else if t in files && files[t].isDirectory {
        r := Fail(AlreadyExists(t));
      } else if src !in files {
        r := Fail(NoSuchFile(src));
      } else if files[src].isDirectory && Below(t, src) {
        r := Fail(InvalidArgument(src));
      } else if Dirname(t) !in files {
        r := Fail(NoSuchFile(t));
      } else if !files[Dirname(t)].isDirectory {
        r := Fail(NotADirectory(t));
      } else if files[src].isDirectory && t in files {
        r := Fail(NotADirectory(t));
      } else {
        files := Moved(files, src, t);
        r := Pass;
      }
    }

    /** FileUtils.cp */
    method Copy(src: Path, dst: Path) returns (r: Outcome<FsError>)
      modifies this
      ensures (r, files) == CpResult(old(files), src, dst, umask, now)
      ensures backups == old(backups)
    {
      var t := if dst in files && files[dst].isDirectory then dst + [Basename(src)] else dst;
      if src in files && src == t {
        r := Fail(SameFile(src));
      } else if src !in files {
        r := Fail(NoSuchFile(src));
      } else if files[src].isDirectory {
        r := Fail(IsADirectory(src));
      } else if t in files && files[t].isDirectory {
        r := Fail(IsADirectory(t));
      } else if Dirname(t) !in files {
        r := Fail(NoSuchFile(t));
      } else if !files[Dirname(t)].isDirectory {
        r := Fail(NotADirectory(t));
      } else if t in files && !files[t].writable {
        r := Fail(PermissionDenied(t));
      } else {
        files := Copied(files, src, t, umask, now);
        r := Pass;
      }
    }

    /** ::File.chmod on a path that exists. */
    method Chmod(p: Path, mode: Mode)
      requires p in files
      modifies this
      ensures files == Chmodded(old(files), p, mode)
      ensures backups == old(backups)
    {
      files := Chmodded(files, p, mode);
    }

    /** ::File.utime */
    method Utime(p: Path, atime: int, mtime: int) returns (r: Outcome<FsError>)
      modifies this
      ensures p !in old(files) ==> r == Fail(NoSuchFile(p)) && files == old(files)
      ensures p in old(files) ==> r == Pass && files == Utimed(old(files), p, atime, mtime)
      ensures backups == old(backups)
    {
      if p !in files {
        r := Fail(NoSuchFile(p));
      } else {
        files := Utimed(files, p, atime, mtime);
        r := Pass;
      }
    }

    /** ::File.delete: unlink(2) refuses a directory. */
    method Delete(p: Path) returns (r: Outcome<FsError>)
      modifies this
      ensures p !in old(files) ==> r == Fail(NoSuchFile(p)) && files == old(files)
      ensures p in old(files) && old(files)[p].isDirectory ==> r == Fail(IsADirectory(p)) && files == old(files)
      ensures p in old(files) && !old(files)[p].isDirectory ==> r == Pass && files == Removed(old(files), p)
      ensures backups == old(backups)
    {
      if p !in files {
        r := Fail(NoSuchFile(p));
      } else if files[p].isDirectory {
        r := Fail(IsADirectory(p));
      } else {
        files := Removed(files, p);
        r := Pass;
      }
    }

    /** Tempfile#unlink: removes the file if it is still there, never raises. */
    method Unlink(p: Path)
      modifies this
      ensures files == Removed(old(files), p)
      ensures backups == old(backups)
    {
      files := Removed(files, p);
    }

    /** The backup mixin: a copy of the current entry is kept aside. */
    method Backup(p: Path)
      requires p in files
      modifies this
      ensures files == old(files)
      ensures backups == old(backups) + [BackupCopy(p, files[p])]
    {
      backups := backups + [BackupCopy(p, files[p])];
    }
  }
}
