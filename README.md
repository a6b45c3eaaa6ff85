# Chef `file` provider: convergence and deployment, in Dafny

This project models the core of Chef's `file` resource provider.

A pass of the provider does the following:
- loads the current state of the target path;
- checks its requirements: the parent directory exists, and a file being deleted is writable;
- runs one action: `create`, `create_if_missing`, `delete` or `touch`.

The action does this:
- It creates the file when it is missing.
- It compares the checksum of the staged content (a tempfile) with the file's checksum.
- When they differ, it backs the file up and deploys the staged file through a deployment strategy.
- It disposes of the staged file, applies access-control changes, and re-reads the checksum.

Every mutation goes through `converge_by`. In why-run (dry-run) mode the change is recorded without running it.

There are two deployment strategies:
- `mv` renames the staged file over the destination and restores the destination's permission bits.
- `cp` copies the bytes into the destination in place.

Around the provider sit three more pieces:
- The diff service (`Chef::Util::Diff`) decides whether to show a unified diff or an explanation of why none is shown. It considers config, file size, binary content, tool failure and output length.
- The remote-file content class checks whether the current checksum already matches. If not, it tries mirrors in order.
- The content helper and content strategy classes are two variants of the create and content-change steps.

## How the model is built

- **Filesystem** (`FileSystem`). A `Filesystem` object holds a map from paths to entries, plus the list of backups taken.
  - An entry holds content, mode, symlink and directory flags, writability and times.
  - Its methods are the Ruby file operations the source calls. Each one is specified by a pure function of the old map (`Touched`, `MvResult`, `CpResult`, `Removed`, …).
  - `FileUtils.mv` and `FileUtils.cp` onto an existing directory write the entry named after the source inside that directory (`Target`), and the directory stays.
  - The same-file and missing-file errors of `FileUtils` are error results, not preconditions.
- **Provider** (`FileProvider`). `Provider` is a class whose methods change the filesystem and the provider's own fields step by step:
  - the converge log;
  - the ACL flag;
  - the checksums of the current and new resources.

  Every method is proved equal to a pure step function over a `World` value, such as `ContentsChangesStep` or `RunStep`. The lemmas in `FileProviderProperties` state what the source promises about those step functions.
- **Content helper and content strategy** (`ContentHelper`, `ContentStrategy`). Both run on a provider object and use its `converge_by`. The strategy's step is proved equal to the provider's step whenever the staged file is on disk.
- **Diff service** (`Diff`). The `diff -u` run is an input: its stdout and stderr, or the exception it raised.
  - `DoDiff` is the decision chain of `do_diff`, with a reason for every suppression.
  - `Diff` is the object with its `@error` and `@diff` fields.
  - `is_binary?` is modelled with Ruby's line anchors. `IsBinaryIffNoTextLine` proves it equal to "no line of the sample consists only of carriage returns and the bytes 0x20 to 0x7E". Here the lines are the fields between newlines, and a final newline ends the last line rather than opening an empty one (`SampleLines`).
- **Remote file** (`RemoteFile`). URI parsing and the three transports are function parameters.
  - `TryMultipleSources` is the `shift`/`retry` loop over a copy of the caller's array. It has no `modifies` clause, so it cannot change the caller's list.
  - It is proved equal to the recursive `TrySources`. The index-based lemmas then characterise that function.
- **Checksums** come from a function-typed parameter `digest: Content -> Digest`. Nothing is assumed about it: no injectivity, no format.

Behaviour worth noting:
- **Malformed URIs.** A URI that fails to parse raises `URI::InvalidURIError`. That is not an `ArgumentError`, so `try_multiple_sources` moves on to the next mirror; it does not abort (`RemoteFile.Attempt`).
- **Binary detection.** `is_binary?` matches `/^[\r[:print:]]*$/`, whose anchors are line anchors. A sample is therefore binary only when none of its lines is printable, so one printable line makes the whole sample text. `^` never matches after a newline that is the last byte, so a final newline adds no line: the two bytes NUL, newline are binary (`Diff.NulLineIsBinary`, `Diff.FinalNewlineChangesNothing`).
- **A file resource whose path is a directory.** The reload never reads a directory's checksum, so `create` always finds the content changed. Provided the diff for the log entry (lib/chef/provider/file.rb:110) does not raise, both strategies then put the staged file inside the directory, under the tempfile's own name, and leave the directory in place (`FileProviderProperties.ChangedContentLandsInDirectory`). That diff is computed before the deploy. With diffing enabled and the directory within the size threshold, `Chef::Util::Diff` opens the directory in `is_binary?` and raises EISDIR, which `catch (:nodiff)` does not stop (`Diff.DiffToA`), so the deploy is never reached. With diffing disabled the diff does not raise and the deploy happens as stated.
- **The no-newline marker.** On the success path, `@diff.delete(marker)` is the last expression of `do_diff`, so its return value is what `catch` stores in `@error`. When the marker was present, `to_a` therefore reports the single line `\ No newline at end of file` instead of the diff. This is kept as written (`Diff.MarkerReplacesDiff`).

## Model

| member | source | states |
|---|---|---|
| FileSystem.Touched | lib/chef/provider/file/deploy/mv.rb:30-32 | touch adds the path (and only it) to the map; an existing entry keeps its bytes and gets the new times, a new one is empty with mode 0666 masked by the umask |
| FileSystem.Moved | lib/chef/provider/file/deploy/mv.rb:44 | rename(2) onto a path that is not a directory: the destination holds the source's entry, the source path is gone, every other path is unchanged |
| FileSystem.Copied | lib/chef/provider/file/deploy/cp.rb:36 | copy onto a path that is not a directory: it holds the source's bytes and is a regular file, an existing one keeps its mode, the source and every other path are unchanged |
| FileSystem.MvResult | lib/chef/provider/file/deploy/mv.rb:44 | `FileUtils.mv` succeeds exactly when the source exists, is not the target, no directory is in the target's place, no directory moves into itself, the target's parent is a directory and no directory takes the place of an existing file; a failure changes nothing; on success the target holds the source's entry, the source is gone, a directory destination is kept and every other path is unchanged |
| FileSystem.CpResult | lib/chef/provider/file/deploy/cp.rb:36 | `FileUtils.cp` succeeds exactly when the source is an existing regular file other than the target, no directory is in the target's place, the target's parent is a directory and an existing target may be written; a failure changes nothing; on success the target holds the source's bytes (keeping an existing target's mode) and every other path, a directory destination included, is unchanged |
| FileSystem.Filesystem.Stat | lib/chef/provider/file/deploy/mv.rb:43 | stat gives the entry of an existing path and ENOENT for a missing one |
| FileSystem.Filesystem.Touch | lib/chef/provider/file/deploy/mv.rb:31 | the map becomes `Touched` of the old map; backups are untouched |
| FileSystem.Filesystem.Move | lib/chef/provider/file/deploy/mv.rb:44 | the outcome and the new map are `MvResult`: same-file ArgumentError, EEXIST for a directory at the target, ENOENT for a missing source, EINVAL for a directory moved into itself, ENOENT or ENOTDIR for a missing or non-directory parent of the target, ENOTDIR for a directory renamed onto an existing file, otherwise the rename to the target |
| FileSystem.Filesystem.Copy | lib/chef/provider/file/deploy/cp.rb:36 | the outcome and the new map are `CpResult`: same-file ArgumentError, ENOENT for a missing source, EISDIR for a directory source or target, ENOENT or ENOTDIR for a missing or non-directory parent of the target, EACCES for an existing target the process may not write, otherwise the copy to the target |
| FileSystem.Filesystem.Chmod | lib/chef/provider/file/deploy/mv.rb:45 | only the mode of the given path changes |
| FileSystem.Filesystem.Utime | lib/chef/provider/file.rb:159 | both times of an existing path are set; a missing path raises ENOENT and nothing changes |
| FileSystem.Filesystem.Delete | lib/chef/provider/file.rb:149 | a missing path raises ENOENT, a directory raises EISDIR, each without change; otherwise exactly that path is removed |
| FileSystem.Filesystem.Unlink | lib/chef/provider/file.rb:119 | the staged path is gone afterwards, whether or not it was there; nothing else changes |
| FileSystem.Filesystem.Backup | lib/chef/provider/file.rb:113 | a copy of the path's current entry is appended to the backups; the disk is unchanged |
| DeployMv.Create | lib/chef/provider/file/deploy/mv.rb:30-32 | `create` touches the path, so the path exists afterwards |
| DeployMv.Deploy | lib/chef/provider/file/deploy/mv.rb:34-46 | the outcome and the new map are `DeployMv.Deployed`: stat of the destination first, then `FileUtils.mv` (into a directory destination), then chmod of the destination to its saved mode |
| DeployMv.DeployKeepsDestinationMode | lib/chef/provider/file/deploy/mv.rb:41-45 | onto an existing regular file in a directory, a move of a regular staged file succeeds; the destination gets the staged bytes, stays a regular file and keeps its own mode `& 0777`, the staged path is gone, other paths are unchanged |
| DeployMv.DeployIgnoresStagedMode | lib/chef/provider/file/deploy/mv.rb:41-45 | onto a regular file in a directory, the staged file's mode has no effect on the result |
| DeployMv.DeployIntoDirectory | lib/chef/provider/file/deploy/mv.rb:41-45 | onto a directory the staged entry, with its own mode, lands inside it under the staged file's name; the directory stays with its mode masked to 0777, the staged path is gone, other paths are unchanged |
| DeployMv.DeployBlockedBySubdirectory | lib/chef/provider/file/deploy/mv.rb:44 | a directory already in the staged file's place inside a directory destination raises EEXIST and nothing moves |
| DeployMv.DeployNeedsDestination | lib/chef/provider/file/deploy/mv.rb:43 | with no destination to stat, deploy raises ENOENT and nothing moves |
| DeployCp.Create | lib/chef/provider/file/deploy/cp.rb:31-33 | `create` touches the path, so the path exists afterwards |
| DeployCp.Deploy | lib/chef/provider/file/deploy/cp.rb:35-37 | the outcome and the new map are `DeployCp.Deployed`, i.e. `FileUtils.cp` with its into-directory target and its errors, EACCES for an unwritable existing target included |
| DeployCp.DeployCopiesInPlace | lib/chef/provider/file/deploy/cp.rb:35-37 | a copy of a regular staged file onto an existing regular file in a directory that the process may write succeeds, keeps the set of paths, installs the staged bytes, keeps the destination's mode and leaves the staged file in place |
| DeployCp.DeployDeniedOnUnwritable | lib/chef/provider/file/deploy/cp.rb:35-37 | onto an existing regular file the process may not write, the copy raises EACCES for the destination and changes nothing |
| DeployCp.DeployCopiesIntoDirectory | lib/chef/provider/file/deploy/cp.rb:35-37 | onto a directory (whose entry of the staged file's name, if present, may be written) the staged bytes are copied to the entry of the staged file's name inside it; the directory, the staged file and every other path are unchanged |
| Deployment.Create | lib/chef/provider/file.rb:95 | either strategy's `create` is a touch of the path |
| Deployment.Deploy | lib/chef/provider/file.rb:114 | dispatch to the named strategy; the new map is that strategy's result |
| Deployment.DeployInstallsContent | lib/chef/provider/file.rb:114 | a successful deploy of either strategy implies the staged file existed and differed from the destination, leaves the staged bytes at the target (inside a destination directory, which stays a directory), and changes no path but the staged one, the destination and the target |
| Deployment.DeployFailsCleanly | lib/chef/provider/file/deploy/mv.rb:43-44 | a failed deploy of either strategy leaves the map unchanged |
| Lines.Split | lib/chef/util/diff.rb:81 | splitting always gives at least one field and no field contains the separator |
| Lines.JoinSplit | lib/chef/util/diff.rb:81 | splitting on a separator loses nothing: joining the fields back gives the input |
| Lines.DropTrailingEmpty | lib/chef/util/diff.rb:81 | Ruby's `split` result is a prefix of the fields that ends in a non-empty field, and every field dropped is empty |
| FileProvider.ShortCksum | lib/chef/provider/file.rb:182-185 | "none" for a nil checksum, otherwise the first six characters (all of a shorter one) |
| FileProvider.ProcessRequirements | lib/chef/provider/file.rb:73-89 | the requirements fail exactly when some assertion applies to the action, fails, and is not assumed away in why-run; the failure raised is that of the first such assertion |
| FileProvider.Provider.ConvergeBy | lib/chef/provider/file.rb:94-97 | the description is always recorded; the block is run exactly when not in why-run mode |
| FileProvider.Provider.LoadResourceAttributesFromFile | lib/chef/provider/file.rb:190-197 | the checksum is re-read only for an existing non-directory path and not under create_if_missing; whenever it changes it is the digest of the file at the path |
| FileProvider.Provider.LoadCurrentResource | lib/chef/provider/file.rb:64-71 | the current resource's checksum becomes what is on disk, or nil |
| FileProvider.Provider.DoCreateFile | lib/chef/provider/file.rb:91-99 | the new state is `CreateFileStep` of the old |
| FileProvider.Provider.DoContentsChanges | lib/chef/provider/file.rb:101-120 | the outcome and new state are `ContentsChangesStep` of the old state with the current checksum |
| FileProvider.Provider.DoAclChanges | lib/chef/provider/file.rb:122-128 | the access-control changes are recorded and applied (outside why-run) only when required |
| FileProvider.Provider.ActionCreate | lib/chef/provider/file.rb:130-135 | the outcome and new state are `CreateStep`: create, contents, ACLs, then re-read the new resource's checksum |
| FileProvider.Provider.ActionCreateIfMissing | lib/chef/provider/file.rb:137-143 | the outcome and new state are `CreateIfMissingStep` |
| FileProvider.Provider.ActionDelete | lib/chef/provider/file.rb:145-153 | the outcome and new state are `DeleteStep` |
| FileProvider.Provider.ActionTouch | lib/chef/provider/file.rb:155-162 | the outcome and new state are `TouchStep` |
| FileProvider.Provider.Run | lib/chef/provider/file.rb:64-89 | the outcome and new state are `RunStep`: load, requirements, then the action |
| FileProviderProperties.CreateFileOnlyWhenAbsent | lib/chef/provider/file.rb:91-99 | an existing path is left alone; a missing one is logged and, outside why-run, created empty with 0666 masked by the umask |
| FileProviderProperties.NilTempfileIsNoOp | lib/chef/provider/file.rb:102-103 | a nil tempfile changes nothing and raises nothing |
| FileProviderProperties.LostTempfileRaises | lib/chef/provider/file.rb:104-107 | a tempfile with no path, or whose path is not on disk, raises the internal error before anything changes |
| FileProviderProperties.UnchangedContentOnlyDisposes | lib/chef/provider/file.rb:108-120 | equal checksums: no backup, no deploy, no log entry; only the staged file is removed |
| FileProviderProperties.ChangedContentBacksUpThenDeploys | lib/chef/provider/file.rb:108-116 | changed content outside why-run onto a regular file in a directory (one the process may write, for cp): one backup of the old entry, then the staged bytes at the path with the destination's mode kept (`& 0777` for mv), the staged file gone, other paths unchanged, one "update content" entry with both short checksums |
| FileProviderProperties.ChangedContentDeniedByUnwritableDestination | lib/chef/provider/file.rb:111-114 | changed content outside why-run with cp onto a regular file the process may not write: the backup is taken, then the deploy raises EACCES for the path; the disk, staged file included, is unchanged |
| FileProviderProperties.ChangedContentLandsInDirectory | lib/chef/provider/file.rb:108-116 | changed content outside why-run where the path is a directory (with cp, an existing entry of the staged file's name inside it may be written): the directory entry is backed up, the staged bytes land inside it under the staged file's name, the directory stays, the staged file is gone, no other path changes |
| FileProviderProperties.TempfileAlwaysUnlinked | lib/chef/provider/file.rb:118-119 | whenever the content step completes, the staged file is no longer on disk |
| FileProviderProperties.WhyRunOnlyDisposes | lib/chef/provider/file.rb:111-119 | in why-run mode the content step takes no backup and changes the disk only by removing the staged file |
| FileProviderProperties.AbsentDestinationNoBackup | lib/chef/provider/file.rb:113-114 | the backup is taken only if the destination exists: with no entry at the path the backups are unchanged for either strategy, and a mv deploy of changed content outside why-run fails with ENOENT for the path and leaves the disk, staged file included, as it was |
| FileProviderProperties.NoFileUnderMissingParent | lib/chef/provider/file.rb:75-80 | no create, create_if_missing or touch run ever adds a path whose parent is missing or not a directory, in why-run or not |
| FileProviderProperties.ParentDirectoryRequirement | lib/chef/provider/file.rb:75-80 | create, create_if_missing and touch fail exactly when the parent is not a directory and not in why-run, with EnclosingDirectoryDoesNotExist for the parent |
| FileProviderProperties.DeleteWritableRequirement | lib/chef/provider/file.rb:83-88 | delete fails exactly when the file exists and is not writable, why-run or not, with InsufficientPermissions |
| FileProviderProperties.CreateIfMissingOnExistingPathIsNoOp | lib/chef/provider/file.rb:137-143 | create_if_missing on an existing path changes nothing but leaves the current checksum unloaded |
| FileProviderProperties.DeleteBacksUpUnlessSymlink | lib/chef/provider/file.rb:145-153 | delete of an existing file backs it up unless it is a symlink, removes exactly that path and logs one entry |
| FileProviderProperties.DeleteAbsentIsNoOp | lib/chef/provider/file.rb:146 | delete of a missing path changes nothing |
| FileProviderProperties.TouchSetsTimes | lib/chef/provider/file.rb:155-162 | a completed touch leaves the file with atime and mtime both at the pass's clock reading, logged last |
| FileProviderProperties.CreateIfMissingSkipsChecksum | lib/chef/provider/file.rb:190-196 | under create_if_missing neither resource's checksum is re-read |
| FileProviderProperties.CreateConverges | lib/chef/provider/file.rb:130-135 | a completed create leaves at the path content with the staged checksum, disposes the staged file and records that checksum on the new resource |
| FileProviderProperties.CreateIsIdempotent | lib/chef/provider/file.rb:166-168 | a create whose staged checksum equals the file's takes no backup and deploys nothing; the only disk change is removing the staged file |
| FileProviderProperties.WhyRunPassLeavesDiskAlone | lib/chef/provider/file.rb:91-162 | a why-run pass of any action takes no backup and leaves every path but the staged one exactly as it was |
| ContentHelper.Helper.DoCreateFile | lib/chef/provider/file/content_helper.rb:42-50 | the provider's state changes by `CreateFileStep`, through the provider's converge_by |
| ContentHelper.Helper.DoContentsChanges | lib/chef/provider/file/content_helper.rb:52-71 | the outcome and the provider's new state are `ContentsChangesStep`, the same step as the provider's own |
| ContentStrategy.StagedChecksum | lib/chef/provider/file_strategy/content_strategy.rb:81-84 | nil without a tempfile or path; ENOENT for a path not on disk; otherwise the staged file's digest |
| ContentStrategy.Strategy.Checksum | lib/chef/provider/file_strategy/content_strategy.rb:81-84 | the checksum read from the provider's disk is `StagedChecksum` |
| ContentStrategy.Strategy.DoCreateFile | lib/chef/provider/file_strategy/content_strategy.rb:42-51 | the provider's state changes by `CreateFileStep` |
| ContentStrategy.Strategy.TempfileToDestfile | lib/chef/provider/file_strategy/content_strategy.rb:53-59 | the outcome and new state are `TempfileToDestfileStep` |
| ContentStrategy.Strategy.Cleanup | lib/chef/provider/file_strategy/content_strategy.rb:88-90 | a non-nil staged path is unlinked, nothing else changes |
| ContentStrategy.Strategy.DoContentsChanges | lib/chef/provider/file_strategy/content_strategy.rb:61-71 | the outcome and new state are `StrategyContentsChangesStep` |
| ContentStrategy.NilChecksumNeverDeploys | lib/chef/provider/file_strategy/content_strategy.rb:73-75 | a nil tempfile or nil path: nothing deployed, nothing raised, nothing changed |
| ContentStrategy.LostTempfileIsSkipped | lib/chef/provider/file_strategy/content_strategy.rb:54 | `tempfile_to_destfile` on a staged file with no path or none on disk does nothing and raises nothing |
| ContentStrategy.BackupBeforeDeploy | lib/chef/provider/file_strategy/content_strategy.rb:55-56 | an existing regular file in a directory (one the process may write, for cp) is backed up (as it was) and then receives the staged bytes |
| ContentStrategy.AbsentDestinationNoBackup | lib/chef/provider/file_strategy/content_strategy.rb:55-56 | with no entry at the destination no backup is taken, and the mv strategy fails with ENOENT for the path, leaving the disk and the staged file as they were |
| ContentStrategy.CleanupAlwaysRuns | lib/chef/provider/file_strategy/content_strategy.rb:70 | whenever the step completes, the staged file is gone, changed or not |
| ContentStrategy.AgreesWithProviderStep | lib/chef/provider/file_strategy/content_strategy.rb:61-71 | with the staged file on disk the strategy's step and the provider's step give the same outcome and state |
| Diff.Sample | lib/chef/util/diff.rb:94-95 | the sample is the prefix of at most threshold bytes, the whole file when it is small enough |
| Diff.IsBinaryIffNoTextLine | lib/chef/util/diff.rb:91-98 | binary exactly when no line of the sample is all carriage returns and printable ASCII, a final newline ending the last line rather than opening an empty one |
| Diff.FirstLineText | lib/chef/util/diff.rb:96 | the first newline-delimited field is printable exactly when a printable span from the start reaches a newline or the end |
| Diff.LaterLinesText | lib/chef/util/diff.rb:96 | some later field is printable exactly when a printable span starting right after a newline reaches a newline or the end |
| Diff.SpanIffPrintableField | lib/chef/util/diff.rb:96 | some newline-delimited field is printable exactly when some printable span lies between line boundaries |
| Diff.MatchesWithoutFinalNewline | lib/chef/util/diff.rb:96 | for a sample without a final newline the pattern matches exactly when such a span exists |
| Diff.MatchesBeforeFinalNewline | lib/chef/util/diff.rb:96 | after a final newline `^` cannot start a match, so the pattern matches exactly when the sample without that newline has such a span |
| Diff.MatchesIffPrintableLine | lib/chef/util/diff.rb:96 | the pattern matches exactly when some line of the sample is printable |
| Diff.EmptyIsText | lib/chef/util/diff.rb:95-96 | an empty (nil) read is not binary |
| Diff.FinalNewlineChangesNothing | lib/chef/util/diff.rb:96 | appending a newline to a buffer that does not end in one never changes whether the pattern matches |
| Diff.NulLineIsBinary | lib/chef/util/diff.rb:96 | the two bytes NUL, newline are classed as binary |
| Diff.Without | lib/chef/util/diff.rb:82 | `Array#delete` leaves no copy of the marker, keeps every other line and each line's count |
| Diff.WithoutKeepsOrder | lib/chef/util/diff.rb:82 | `Array#delete` keeps order: deleting from a concatenation deletes from each part, and a single line is dropped exactly when it is the deleted value |
| Diff.WithoutAnyCut | lib/chef/util/diff.rb:82 | cut anywhere, the lines left are those left of the part before the cut followed by those left of the part after it |
| Diff.Diff.DiffFiles | lib/chef/util/diff.rb:39-46 | a missing old or new file raises and nothing is stored; so does the EISDIR of `ReadError`; otherwise a thrown reason is stored in `@error` as its message, and a returned diff sets `@diff` to the lines and `@error` to what `delete` returned |
| Diff.DiffToA | lib/chef/util/diff.rb:25-32 | `Diff.new(old, new).to_a` raises for a missing file and for a directory that `is_binary?` opens (`ReadError`), otherwise gives `Report` |
| Diff.DirectoryRaisesOnlyWhenOpened | lib/chef/util/diff.rb:51-62 | only a directory escapes `catch (:nodiff)`, and only past the config and size checks: an old directory then always raises EISDIR, and a new directory raises exactly when the old file is not binary |
| Diff.DisabledComesFirst | lib/chef/util/diff.rb:51 | with diffing disabled the report is the config message, whatever the files and tool |
| Diff.SizeSuppressionIff | lib/chef/util/diff.rb:56-58 | once enabled, the size suppression happens exactly when either file is strictly larger than the threshold |
| Diff.BinaryCheckOrder | lib/chef/util/diff.rb:61-62 | within the size limit, a binary old file gives the current-file message, else a binary new file gives the new-content message |
| Diff.ToolOnlyAfterChecks | lib/chef/util/diff.rb:51-66 | when config, size or binary content suppresses the diff, the tool's result has no effect |
| Diff.LongDiffIff | lib/chef/util/diff.rb:76-78 | once the tool runs, the long-diff suppression happens exactly when stdout is longer than the output threshold |
| Diff.EmptyOutputReports | lib/chef/util/diff.rb:84-88 | empty stdout: non-empty stderr is reported as the error, otherwise "(no diff)" |
| Diff.DiffLinesReported | lib/chef/util/diff.rb:79-83 | output within the threshold without the marker is reported as its lines split on "\n" |
| Diff.MarkerReplacesDiff | lib/chef/util/diff.rb:81-82 | output that contains the marker line is reported as that one line |
| Diff.StoredLinesDropMarker | lib/chef/util/diff.rb:81-82 | the stored lines never contain the marker and otherwise are the output's lines, with multiplicity and in the output's order |
| RemoteFile.SchemeFetcher | lib/chef/provider/file/content/remote_file.rb:82-95 | http and https (any case) go to HTTP, ftp to FTP, exactly "file" to the local file, anything else to none |
| RemoteFile.Mask | lib/chef/provider/file/content/remote_file.rb:74-76 | the password becomes "********" exactly when a user is present; every other part is kept |
| RemoteFile.TryMultipleSources | lib/chef/provider/file/content/remote_file.rb:52-78 | the shift-and-retry loop over a copy of the list gives `TrySources` of the caller's list, which it cannot modify |
| RemoteFile.TriesInOrder | lib/chef/provider/file/content/remote_file.rb:52-73 | after k retried failures the result is that of trying source k and those after it |
| RemoteFile.FirstSuccessWins | lib/chef/provider/file/content/remote_file.rb:55-58 | the first source fetched without error wins, reported with its masked URI |
| RemoteFile.SuccessComesFromFirstFetchedSource | lib/chef/provider/file/content/remote_file.rb:52-78 | every success comes from a source all of whose predecessors failed with a retried error |
| RemoteFile.AbortsOnArgumentError | lib/chef/provider/file/content/remote_file.rb:58-59 | an ArgumentError (or a non-StandardError) from source k is raised at once; no later source is tried |
| RemoteFile.UnsupportedSchemeAborts | lib/chef/provider/file/content/remote_file.rb:94-95 | a source with an unsupported scheme ends the search with the unsupported-scheme ArgumentError |
| RemoteFile.LastErrorRaised | lib/chef/provider/file/content/remote_file.rb:60-72 | when every source fails with a retried error, the last source's error is raised |
| RemoteFile.EmptySourcesRaise | lib/chef/provider/file/content/remote_file.rb:53-56 | an empty list raises the error of parsing nil |
| RemoteFile.ReportedUriHidesPassword | lib/chef/provider/file/content/remote_file.rb:74-77 | with a user present the reported URI carries the mask in place of the password and is the same whatever the real password |
| RemoteFile.SingleLineMatchIsPrefix | lib/chef/provider/file/content/remote_file.rb:47-49 | for a single-line current checksum the match is exactly "the desired checksum is a prefix" |
| RemoteFile.FileForProvider | lib/chef/provider/file/content/remote_file.rb:33-45 | nil is returned exactly when both checksums are set and the current one starts (on some line) with the desired one; otherwise the first mirror's raw file or the raised error |

## Left out

- The diff is not attached to the "update content" description (`description << diff(...)`). The diffable-resource mixin that calls `Chef::Util::Diff` is not part of this model; the diff service is modelled on its own.
- Backups are a recorded copy of the entry. The backup mixin is not part of this model, so rotation, the retention count, the backup directory and disabled backups are not modelled.
- Access control (`access_controls`, `ScanAccessControl`) appears only as a flag: changes required or not. `set_all` sets a flag; owner, group, mode and Windows ACL logic are out of scope.
- The Windows early return in `load_resource_attributes_from_file`, and the backslash rewriting of the path, are not modelled. Paths are lists of components, and `Dirname` drops the last one.
- Logging and resource reporting are left out, including `for_reporting` and the RestClient message rewrite, which only reaches the debug log.
- The lazy, memoised `content_object` is not modelled. The staged tempfile is a constant of the provider, and content resolution itself is out of scope.
- `Chef::Config` (`why_run`, `diff_disabled`, the two thresholds) is passed in as parameters. `Time.now` is one clock reading per pass (`Filesystem.now`). Times are unbounded integers.
- Symbolic links are a flag on an entry and are not followed. Cross-device renames, SELinux contexts and file ownership are not modelled.
- Diff.Diff.DiffFiles: the two missing-file messages interpolate the undefined names `source` and `dest`, so Ruby would raise a NameError. The model records only which file was missing.
- Diff: the external `diff -u` is an input (its stdout and stderr, or the exception), and file sizes are content lengths. A directory's size is the length of its entry's content, not the size the operating system reports for it. Of the errors that can escape the catch, only EISDIR from opening a directory is modelled; permission errors on reading are not.
- RemoteFile: URI parsing is an input. The scheme is taken as the parser stores it: HTTP and FTP class selection folds ASCII case, while "file" is compared as stored. The RestClient, FTP and local-file transports are inputs, and `ftp_active_mode` is passed through to them unmodelled.
- RemoteFile.EmptySourcesRaise: the message of the error raised for `URI.parse(nil)` depends on the Ruby version. The model fixes one message; what matters is that it is a StandardError.
- FileProviderProperties.CreateConverges: the staged path and the destination must not be directories. With a directory at the path the staged bytes land inside it (`ChangedContentLandsInDirectory`), the reload never reads a checksum, and the source promises no convergence there.
- FileSystem.MvResult: renaming a directory moves only its own entry, not the paths below it. The provider only ever moves the staged tempfile, a regular file.
- Write permission is checked only on an existing file: by the delete requirement, and by `FileSystem.CpResult` when it opens an existing target (EACCES). Write permission on directories is not modelled, so creating, copying into, renaming into or out of a directory the process may not write succeeds here.
- FileSystem.CpResult: a directory as the source raises EISDIR with no change, while `FileUtils.cp` would first create or truncate the target. The staged tempfile the provider copies is a regular file.
- FileSystem.Touched: creating a path whose parent is missing or not a directory succeeds here, where `FileUtils.touch` raises ENOENT or ENOTDIR. The provider never reaches it that way: outside why-run the parent-directory requirement stops the run first, and in why-run nothing is written (`FileProviderProperties.NoFileUnderMissingParent`).
- FileUtils' same-file check is modelled as equality of paths; hard links and symbolic links that make two paths the same file are not.
- ContentStrategy.LostTempfileIsSkipped: this is reachable only through a direct call of `tempfile_to_destfile`. Inside `do_contents_changes` the digest of a staged path that is not on disk raises ENOENT first (`ContentStrategy.StagedChecksum`).
- The why-run assumption message and the failure-message strings of the requirements are not modelled. Only the exception class and the path or directory it names are kept.
