# pickup's convergence engine, modelled in Dafny

pickup is a small configuration-management tool. A configuration lists *steps*. Each step
is a resource: a Debian package, a file, a service or a shell command. pickup converges each
resource on a remote host over SSH and SFTP. A resource may carry `not_if` guards, which
are resources whose results decide whether it is skipped. It may also carry `after`
children, which are converged once the resource itself has been converged.

This project models that engine against a simulated remote host:

- `mk_resource` builds a resource tree from a step tree.
- `Resource.converge` walks the tree depth-first: first the guards, then the resource's own
  action, then the `after` children.
- Each kind acts on the host with its own idempotency check: the package probe, the file
  facets, or the plain Shell and Service commands.
- `main` has a top-level loop that converges the steps in order.

## How it is modelled

- **The remote host** (`transport.dfy`) holds the installed packages, the files by path and
  the trace of every observable call, in order.
  - A file record is type bits, permission bits, uid, gid and bytes. `st_mode` is type bits
    times 0o10000 plus the permission bits, and `st_size` is the length of the bytes.
  - What the host does not decide is fixed by a `World`: the exit status of each command
    (by its text), the group and user tables that `getent` and `id -u` read, the local
    source files, and the record a newly created file gets.
  - `Transport.Host` is a class whose fields the transport methods update in place.
  - Each method is proved equal to a pure `…Effect` function over `HostState`.
- **Resources** (`resource.dfy`) are values: Python never changes a resource after
  construction. The four classes form a closed `Kind` datatype (`getattr(resources,
  type)` becomes a match).
  - `sys.exit`, and every exception the source lets escape, becomes
    `Outcome.Abort(Failure)`. Exceptions covered: `KeyError`, `AttributeError`, `ValueError`
    from `int()`, `IOError` from `stat` or `open`, and the `TypeError` that
    `cls(scope=..., **step)` raises for a step that carries its own `scope` key
    (`DuplicateScope`). None of them is modelled as the process ending.
- **Every operation comes twice.**
  - Once as a pure specification function (`ConvergeEffect`, `CreateEffect`, …) that
    returns the outcome and the new host state.
  - Once as an imperative method over `Host` (`Converge`, `ConvergeCreate`, …) with the
    source's loops, flags and early returns. Each method's `ensures` ties it to the
    function, and the properties the source promises are lemmas about the functions.
- **Guards** (resource.py:33-41): the resource is skipped exactly when it has guards and
  every guard returned 0. Every guard is converged in order, with no short-circuit; a guard
  that aborts ends the run.
- **An unknown action** (resource.py:44) fails at convergence, through `getattr`, after the
  guards and before the host is touched. Building the resource never checks the action.
- **The existence test of `create`** (file.py:55, 121) as written looks for
  `basename(source)` in the listing of `dirname(destination)`, not for the destination's
  own basename. `FileResource.ExistenceTest` names the two choices. `PrepareEffect`,
  `CreateEffect` and `ConvergeCreate` take that choice as a parameter, and the lemmas
  hold for both where they can. The convergence engine runs create with the corrected
  test (see "## Findings"). The test as written is the `SourceName` case, and the lemmas
  in "## Findings" state what it does.

## Model

| member | source | states |
|---|---|---|
| `ResourceBase.Init` | pickup/pickup/resource/resource.py:5-24 | action, type and scope are stored; env defaults to `{}`; name is the given non-empty name, otherwise scope + "." + type + "." + action; the guard and child lists are kept as given |
| `DebPackageResource.New` | pickup/pickup/resource/debpackage.py:5-11 | builds iff the step has an action and a package or a name; the package is the `package` key when present, otherwise `name`; a missing action is a KeyError |
| `DebPackageResource.ProbeMeansInstalled` | pickup/pickup/resource/debpackage.py:46-57 | the probe says "installed" iff its command exits with 0, which is iff the package is installed; it is one quiet call with no env and changes nothing |
| `DebPackageResource.InstallSkipsWhenInstalled` | pickup/pickup/resource/debpackage.py:22-24 | install on an installed package runs only the probe, reports the skip and returns 0 |
| `DebPackageResource.InstallRunsWhenAbsent` | pickup/pickup/resource/debpackage.py:25-27 | install on an absent package runs `apt-get install -y <pkg>` with the env after the probe and returns that status unchanged; on 0 the package is installed |
| `DebPackageResource.RemoveSkipsWhenAbsent` | pickup/pickup/resource/debpackage.py:38-40 | remove on an absent package runs only the probe, reports the skip and returns 0 |
| `DebPackageResource.RemoveRunsWhenInstalled` | pickup/pickup/resource/debpackage.py:42-44 | remove on an installed package runs `apt-get --purge autoremove -y <pkg>` with the env and returns that status; on 0 the package is gone |
| `DebPackageResource.InstallIdempotent` | pickup/pickup/resource/debpackage.py:13-27 | after an install that returned 0, a second install runs only the probe and reports "already installed" |
| `DebPackageResource.RemoveIdempotent` | pickup/pickup/resource/debpackage.py:29-44 | after a remove that returned 0, a second remove runs only the probe and reports "not installed" |
| `DebPackageResource.PackageInstalled` | pickup/pickup/resource/debpackage.py:46-57 | the probe method computes exactly the probe's specification |
| `DebPackageResource.ConvergeInstall` | pickup/pickup/resource/debpackage.py:13-27 | the install method has exactly the install specification's outcome and host state |
| `DebPackageResource.ConvergeRemove` | pickup/pickup/resource/debpackage.py:29-44 | the remove method has exactly the remove specification's outcome and host state |
| `ShellResource.New` | pickup/pickup/resource/shell.py:5-8 | a Shell builds iff the step has an action and a command; a missing one is a KeyError on that key |
| `ShellResource.RunSendsCommandVerbatim` | pickup/pickup/resource/shell.py:16-21 | run sends one call: the command text verbatim, with the env, quiet iff the scope is not_if; it returns that call's status, with no probe and no skip |
| `ShellResource.ConvergeRun` | pickup/pickup/resource/shell.py:16-21 | the run method has exactly the run specification's outcome and host state |
| `ServiceResource.New` | pickup/pickup/resource/service.py:5-8 | a Service builds iff the step has an action and a service; a missing one is a KeyError on that key |
| `ServiceResource.RestartIssuesOneCommand` | pickup/pickup/resource/service.py:16-21 | restart issues exactly `service <name> restart` with the env and returns its status unchanged |
| `ServiceResource.RestartTwiceRestartsTwice` | pickup/pickup/resource/service.py:16-21 | there is no idempotency check: two restarts issue the command twice |
| `ServiceResource.ConvergeRestart` | pickup/pickup/resource/service.py:16-21 | the restart method has exactly the restart specification's outcome and host state |
| `PosixPath.LastSlashIsLast` | pickup/pickup/resource/file.py:121 | the index `rfind('/')` finds holds a slash, and no slash follows it |
| `PosixPath.BasenameHasNoSlash` | pickup/pickup/resource/file.py:121 | the basename compared with the listing never holds a slash |
| `PosixPath.SplitJoin` | pickup/pickup/resource/file.py:121 | joining a non-empty directory without a trailing slash and a slash-free name with "/" splits back, by dirname and basename, into that directory and that name |
| `PosixPath.TrimKeepsPrefix` | pickup/pickup/resource/file.py:121 | dirname's trimming of trailing slashes keeps a prefix that is empty or ends in a non-slash, and removes only slashes |
| `Numerals.ModeTextOf` | pickup/pickup/resource/file.py:75 | for a file with type bits, `oct(st_mode)[-4:]` is the four zero-padded octal digits of the permission bits |
| `Numerals.OctalPlaces` | pickup/pickup/resource/file.py:75 | the low four octal places of the mode are those of the permission bits, and the type bits lie above them |
| `Numerals.FourOctalRoundTrip` | pickup/pickup/resource/file.py:78 | `int(s, 8)` of four octal digits is below 0o10000, and its zero-padded rendering is `s` again |
| `Numerals.DigitsOfFour` | pickup/pickup/resource/file.py:78 | four octal digits make a value below 0o10000 whose four octal places are those digits |
| `Numerals.ChmodSettlesMode` | pickup/pickup/resource/file.py:75-80 | after chmod to `int(s, 8)` (masked to 0o7777 by the server) for four octal digits, the mode text read back is `s` |
| `Numerals.OtherLengthNeverMatches` | pickup/pickup/resource/file.py:75 | a configured mode of any length other than four (such as "644") never equals the mode text, so chmod fires on every run |
| `FileResource.New` | pickup/pickup/resource/file.py:7-21 | a File builds iff the step has an action; each File attribute is stored exactly when the step carries it |
| `FileResource.LineLengthStopsAtNewline` | pickup/pickup/resource/file.py:158 | the first line read from a binary file ends at, and includes, the first newline |
| `FileResource.LinesAreLines` | pickup/pickup/resource/file.py:158 | the chunks `for line in src` yields are non-empty; a newline can only be a chunk's last byte, and every chunk but the last ends in one |
| `FileResource.LinesFlatten` | pickup/pickup/resource/file.py:158-159 | the chunks, joined, are the source bytes exactly |
| `FileResource.WriteChunksAppend` | pickup/pickup/resource/file.py:158-159 | writing the chunks in order appends their concatenation to the file, logs one write per chunk and changes nothing else |
| `FileResource.FileWriteReplacesContent` | pickup/pickup/resource/file.py:149-159 | after `_file_write` the destination holds exactly the source bytes, keeps its own record (or gets the new-file one), and nothing else changed; the trace is open, truncate, then the writes |
| `FileResource.WriteAfterTruncate` | pickup/pickup/resource/file.py:157-159 | writing the chunks after the truncate to 0 leaves exactly the source bytes |
| `FileResource.OpenTruncateEmpties` | pickup/pickup/resource/file.py:156-157 | opening with 'wb' and truncating leave the destination empty, with its own record or the new-file one |
| `FileResource.ResolveIdCalls` | pickup/pickup/resource/file.py:62-70 | a group or owner made of digits is its decimal value, with no remote call and no change to the host; a name costs exactly one quiet lookup and resolves iff the group or user table knows it, to that table's id |
| `FileResource.DeleteRemovesIffListed` | pickup/pickup/resource/file.py:23-39 | delete runs `rm <file>` iff basename(file) is listed in dirname(file), otherwise reports the skip; it returns 0 either way, and the file is gone iff rm ran and exited with 0 |
| `FileResource.CreateNeverFailsSoftly` | pickup/pickup/resource/file.py:41-108 | create returns 0 or the run aborts; it never returns a non-zero status |
| `FileResource.FacetsNeverFailSoftly` | pickup/pickup/resource/file.py:72-108 | the steps from the stat on end with 0 or abort the run; they never return a non-zero status |
| `FileResource.ContentSettles` | pickup/pickup/resource/file.py:92-105 | a content facet that succeeds leaves the destination holding the source bytes, with its other fields unchanged |
| `FileResource.ModeSettles` | pickup/pickup/resource/file.py:74-80 | for a four-digit octal mode, the mode facet leaves the destination's mode text equal to the configured mode and changes only the permission bits |
| `FileResource.ChmodRecordSettles` | pickup/pickup/resource/file.py:78-79 | a record chmodded to `int(mode, 8)` shows `mode` as its mode text |
| `FileResource.OwnerSettles` | pickup/pickup/resource/file.py:84-88 | the owner facet leaves the destination with the resolved uid and gid |
| `FileResource.FacetsSettle` | pickup/pickup/resource/file.py:72-108 | facets that succeed leave the destination Settled: type bits, the configured mode text, the resolved ids and the source bytes |
| `FileResource.ModeReports` | pickup/pickup/resource/file.py:75-80 | chmod is issued iff the last four characters of `oct(st_mode)` differ from the configured mode and `int(mode, 8)` accepts it; it is a mutation, the facet reports a change exactly then, and it reports no skip |
| `FileResource.OwnerReports` | pickup/pickup/resource/file.py:85-88 | chown is issued iff the stat's gid or uid differs from the resolved one; it is a mutation exactly when issued |
| `FileResource.FileWriteMutates` | pickup/pickup/resource/file.py:149-159 | `_file_write` only appends events, mutates the host and reports no skip |
| `FileResource.ContentRewritesIffDiffers` | pickup/pickup/resource/file.py:92-105 | content is rewritten iff the source size differs from `st_size`, or the sizes agree and the bytes differ; a rewrite is a mutation and a read-back is not |
| `FileResource.ConvergedIffNothingChanged` | pickup/pickup/resource/file.py:52-108 | after the stat, "already converged" is reported iff the destination was not touched and no facet made a mutation |
| `FileResource.FinishReports` | pickup/pickup/resource/file.py:106-107 | the "already converged" notice appears iff nothing was touched and nothing mutated; the session is closed after it |
| `FileResource.FacetsNoopWhenSettled` | pickup/pickup/resource/file.py:72-108 | on a Settled destination the facets only stat, read back, report "already converged" and close: no mutation |
| `FileResource.FacetsChmodOnly` | pickup/pickup/resource/file.py:72-108 | with owner and bytes already right and only the mode text differing (and parsing), the run is exactly stat, chmod to `int(mode, 8)`, read-back and close, returning 0; only the permission bits change |
| `FileResource.FacetsRewriteOnly` | pickup/pickup/resource/file.py:72-108 | with mode text and owner already right and only the bytes differing, the run rewrites the destination to the source bytes (after a read-back when the sizes agree) and returns 0; it mutates but issues no chmod and no chown |
| `FileResource.IdsEvents` | pickup/pickup/resource/file.py:62-70 | id resolution makes at most two calls, each a quiet `getent group` of the configured group or `id -u` of the configured owner with no env: no mutation, no touch and no skip |
| `FileResource.IdsOnlyLookUp` | pickup/pickup/resource/file.py:62-70 | resolving group then owner succeeds iff both are set and both resolve, yields the resolved ids, and only adds lookups to the trace |
| `FileResource.LocateTouchesIffUnlisted` | pickup/pickup/resource/file.py:55-58 | the existence test lists dirname(destination), and runs `touch destination` iff basename(source) is not listed there |
| `FileResource.PrepareKeepsTypeBits` | pickup/pickup/resource/file.py:50-70 | when the new-file record and an existing destination carry file-type bits, the destination still carries them after the steps before the stat |
| `FileResource.PrepareTargets` | pickup/pickup/resource/file.py:50-70 | the steps before the stat succeed iff source, destination, group and owner are set and both ids resolve; they then target the configured paths with those ids |
| `FileResource.PrepareTouchesIffUnlisted` | pickup/pickup/resource/file.py:50-58 | create opens the session and lists dirname(destination); the touch appears in its trace iff the basename the existence test looks for (the source's as written) is not listed there |
| `FileResource.PrepareTrace` | pickup/pickup/resource/file.py:50-70 | the trace before the stat is open, list, the touch when unlisted, then the id lookups; the touch flag is exactly "unlisted" |
| `FileResource.PrepareOnListed` | pickup/pickup/resource/file.py:55-70 | when the basename the existence test looks for is the destination's own and the destination exists, the steps before the stat do not touch, leave packages and files unchanged and make no mutation |
| `FileResource.CreateOnSettled` | pickup/pickup/resource/file.py:41-108 | a create that touched nothing and finds the destination Settled returns 0 and makes no mutation, and reports "already converged" |
| `FileResource.FacetsAfterQuietPrepare` | pickup/pickup/resource/file.py:72-108 | after preparation steps that mutated nothing, the facets on a Settled destination keep the whole run free of mutations and report "already converged" |
| `FileResource.CreateIdempotent` | pickup/pickup/resource/file.py:41-108 | when the existence test looks for the destination's own basename (with the test as written: when source and destination share a basename) and the mode is four octal digits, a second create after a successful one returns 0, makes no mutation and reports "already converged" |
| `FileResource.CorrectedCreateIdempotent` | pickup/pickup/resource/file.py:41-108 | with the existence test on the destination's basename, a second create after a successful one returns 0, makes no mutation and reports "already converged", whatever the source is called |
| `FileResource.CreateOnlyAtDestination` | pickup/pickup/resource/file.py:41-108 | create leaves every remote file other than its destination, and the packages, as they were |
| `FileResource.FacetsOnlyAtDestination` | pickup/pickup/resource/file.py:72-108 | the facets change no file but the destination and no package, and only extend the trace |
| `FileResource.ContentOnlyAtDestination` | pickup/pickup/resource/file.py:92-105 | the content facet changes no file but the destination and no package, and only extends the trace |
| `FileResource.PrepareOnlyAtDestination` | pickup/pickup/resource/file.py:50-70 | the steps before the stat change no file but the destination, and no package |
| `FileResource.AsWrittenMissingDestinationAborts` | pickup/pickup/resource/file.py:55-72 | as written, a destination that does not exist, in a directory holding a file with the source's basename, is not touched; create then aborts at the stat with the files unchanged |
| `FileResource.RenamedDestinationAborts` | pickup/pickup/resource/file.py:55-72 | as written, creating conf/hosts as /etc/hosts.new on a host that has /etc/hosts aborts with "no such file /etc/hosts.new" |
| `FileResource.RenamedDestinationTouchedWhenCorrected` | pickup/pickup/resource/file.py:55-58 | with the corrected test, the same create touches /etc/hosts.new before the stat |
| `FileResource.FacetsNeedLocalSource` | pickup/pickup/resource/file.py:93-99 | facets succeed only when the local source exists |
| `FileResource.TouchedFacetsNeverConverge` | pickup/pickup/resource/file.py:106 | facets that follow a touch never report "already converged" |
| `FileResource.TouchedNeverConverged` | pickup/pickup/resource/file.py:55-108 | a create whose existence test finds nothing touches the destination and, when it succeeds, never reports "already converged" |
| `FileResource.AsWrittenTouchesEveryRun` | pickup/pickup/resource/file.py:55-108 | as written, with different basenames and the source's basename unlisted, create touches, never reports "already converged", and leaves the source's basename unlisted, so every later run touches again |
| `FileResource.UnlistedSurvives` | pickup/pickup/resource/file.py:121 | a name absent from a directory listing stays absent when only a file with another basename changes |
| `FileResource.ListingOfOne` | pickup/pickup/resource/file.py:121 | the listing of a directory on a host with one file is that file's basename when the file lies in the directory, and empty otherwise |
| `FileResource.FileExists` | pickup/pickup/resource/file.py:110-121 | the existence method computes exactly the existence specification |
| `FileResource.GetGid` | pickup/pickup/resource/file.py:123-134 | the group lookup method computes exactly the lookup specification |
| `FileResource.GetUid` | pickup/pickup/resource/file.py:136-147 | the user lookup method computes exactly the lookup specification |
| `FileResource.FileWrite` | pickup/pickup/resource/file.py:149-159 | the chunk loop has exactly the `_file_write` specification's host state |
| `FileResource.ConvergeDelete` | pickup/pickup/resource/file.py:23-39 | the delete method has exactly the delete specification's outcome and host state |
| `FileResource.ConvergeCreate` | pickup/pickup/resource/file.py:41-108 | the create method, with its flag and its early aborts, has exactly the create specification's outcome and host state, for either existence test |
| `FileResource.ConvergeMode` | pickup/pickup/resource/file.py:74-82 | the mode method has exactly the mode facet's result and host state |
| `FileResource.ConvergeOwner` | pickup/pickup/resource/file.py:84-90 | the owner method has exactly the owner facet's result and host state |
| `FileResource.ConvergeContent` | pickup/pickup/resource/file.py:92-105 | the content method has exactly the content facet's result and host state |
| `FileResource.ConvergeFacets` | pickup/pickup/resource/file.py:72-108 | the facets method has exactly the facets specification's outcome and host state |
| `Convergence.ActionFailuresOnly` | pickup/pickup/resource/resource.py:44-46 | an own action aborts only for its own reasons (unknown action, missing attribute, non-number, missing file), never with converge's own exits |
| `Convergence.GuardsConvergeEach` | pickup/pickup/resource/resource.py:33-39 | the guard loop converges every guard in order, whatever their statuses; its verdict is "there are guards and every guard returned 0"; a guard that aborts ends the run |
| `Convergence.SkipIffGuardsPass` | pickup/pickup/resource/resource.py:33-42 | with guards, converge skips iff every guard returned 0; a skip reports the notice and returns 0 with no own action and no after-child; otherwise it proceeds on the state the guards left |
| `Convergence.NoGuardsProceeds` | pickup/pickup/resource/resource.py:33-36 | without guards there is no skip: converge is the own action and the children, on the state converge was given |
| `Convergence.GuardAbortStops` | pickup/pickup/resource/resource.py:37-38 | a guard that aborts ends the run at once |
| `Convergence.FailedActionStopsUnlessGuard` | pickup/pickup/resource/resource.py:47-53 | a non-zero own status outside not_if aborts before any after-child; inside not_if the children still run, and if they all return 0 the result is that non-zero status |
| `Convergence.ChildrenInOrder` | pickup/pickup/resource/resource.py:50-53 | after-children run in order on the state the action left; the first non-zero child aborts the run; otherwise the result is the own action's status |
| `Convergence.InOrderStopsAtFirst` | pickup/pickup/resource/resource.py:50-52 | the first resource that does not return 0 decides the outcome; those after it never run |
| `Convergence.UnknownActionAborts` | pickup/pickup/resource/resource.py:44-45 | an action the class does not define aborts once the guards have let it through, without touching the host |
| `Convergence.InOrderZeroOrAbort` | pickup/pickup/resource/resource.py:47-53 | converging resources outside not_if in order yields 0 or an abort |
| `Convergence.OutsideGuardZeroOrAbort` | pickup/pickup/resource/resource.py:47-48 | a resource outside a not_if scope returns 0 or aborts the run; it never returns non-zero |
| `Convergence.WellScopedNoChildFailure` | pickup/pickup/resource/resource.py:47-52 | in a tree shaped as mk_resource builds it, the "after-child failed" exit is never reached: a failing child has already aborted |
| `Convergence.GuardsNoChildFailure` | pickup/pickup/resource/resource.py:37-39 | a guard loop over well-scoped guards aborts only with a failure some resource raised itself |
| `Convergence.InOrderNoChildFailure` | pickup/pickup/resource/resource.py:50-52 | well-scoped after-children converge to 0, or abort with a failure some resource raised itself |
| `Convergence.Act` | pickup/pickup/resource/resource.py:44-46 | the dispatch method has exactly the dispatch specification's outcome and host state (file create with the corrected existence test) |
| `Convergence.Converge` | pickup/pickup/resource/resource.py:26-53 | the converge method, with its skip flag, guard loop and early returns, has exactly the converge specification's outcome and host state |
| `Convergence.Proceed` | pickup/pickup/resource/resource.py:43-53 | the action-and-children method has exactly the proceed specification's outcome and host state |
| `Pickup.BuildAllSpec` | pickup/pickup/pickup.py:22-24 | the list comprehension succeeds iff every step builds; it then holds exactly those resources, with the same count and order as the steps |
| `Pickup.BuildAllFirstFailure` | pickup/pickup/pickup.py:22-24 | otherwise it fails with the error of the first step that does not build |
| `Pickup.BuildAllAppend` | pickup/pickup/pickup.py:59-60 | building one more step extends the built list, or fails with that step's error |
| `Pickup.BuildWellScoped` | pickup/pickup/pickup.py:7-27 | a built resource has the scope it was built in; every guard has the not_if scope and every after-child the after scope, all the way down; its child lists are the built sub-steps, in order |
| `Pickup.BuildAllWellScoped` | pickup/pickup/pickup.py:22-24 | every resource of a built list has that list's scope and is well-scoped |
| `Pickup.ConfigErrorTouchesNothing` | pickup/pickup/pickup.py:59-64 | a step that does not build aborts the run before any resource converges, leaving the host as it was |
| `Pickup.OnlyResourcesAbort` | pickup/pickup/pickup.py:59-64 | for a configuration that builds, the run ends with 0 or with a failure a resource raised itself; "step failed" is never reached |
| `Pickup.Apply` | pickup/pickup/pickup.py:59-64 | main's two loops (build every step, then converge in order, stopping at the first non-zero) have exactly the run specification's outcome and host state |
| `Pickup.BuildAllPrefixFailure` | pickup/pickup/pickup.py:59-60 | a step that fails to build in the loop fails the whole list with its error |
| `Transport.ListedInOwnDirectory` | pickup/pickup/client/sftpclient.py:31-40 | every file is listed, under its basename, in its own directory |
| `Transport.Host.constructor` | pickup/pickup/client/sshclient.py:18-26 | a new host has the given world and state |
| `Transport.Host.Run` | pickup/pickup/client/sshclient.py:28-48 | a command call logs the call with its env and quiet flag and returns the command's exit status; on 0 it applies the command's effect |
| `Transport.Host.Lookup` | pickup/pickup/resource/file.py:132-134 | a lookup logs one quiet call and returns the id the host knows, or nothing, which `int("")` rejects |
| `Transport.Host.Note` | pickup/pickup/resource/resource.py:55-59 | a skip notice is logged and changes neither packages nor files |
| `Transport.Host.ListDirectory` | pickup/pickup/client/sftpclient.py:31-40 | listdir returns the basenames of the files in that directory |
| `Transport.Host.StatFile` | pickup/pickup/client/sftpclient.py:54-64 | stat returns the record of an existing file, or nothing for an absent one |
| `Transport.Host.ChmodFile` | pickup/pickup/client/sftpclient.py:8-15 | chmod keeps the file type and sets the permission bits to mode & 0o7777 |
| `Transport.Host.ChownFile` | pickup/pickup/client/sftpclient.py:17-25 | chown sets the uid and the gid |
| `Transport.Host.OpenForWrite` | pickup/pickup/client/sftpclient.py:42-52 | open with 'wb' creates or empties the file |
| `Transport.Host.TruncateFile` | pickup/pickup/resource/file.py:157 | truncate(0) empties the file |
| `Transport.Host.WriteChunk` | pickup/pickup/resource/file.py:159 | write appends the chunk to the file |
| `Transport.Host.ReadFile` | pickup/pickup/resource/file.py:99-100 | read returns the whole content of an existing file |

## Left out

- The SSH and SFTP clients (sshclient.py, sftpclient.py) are replaced by the simulated host:
  no connection, PTY, output capture or authentication errors. The `export k=v` prefix that
  `run` builds from the env stays inside the abstraction: the env is recorded with the call
  and does not change a command's exit status.
- The effects of Shell commands and of `service … restart` on the host are not
  interpreted: their exit statuses come from the `World`, and they change neither packages
  nor files.
- `main`'s argument checks, YAML loading, the environment-variable credentials, the
  connection and the closing banner (pickup.py:35-57, 66-71). `main` connects before it
  builds the steps; the model builds first and has no connection.
- Every `print`, banner and message. `skip` is modelled as a `Skipped` event in the trace.
- Parsing the output of `getent group` and `id -u`: a lookup answers from the `World`'s
  tables, and an unknown name is the `ValueError` that `int("")` raises.
- Python's `int()` and `str.isdigit` are modelled on ASCII digits only. The model leaves out
  signs, surrounding whitespace, underscores and non-ASCII digits.
- Local file reads (`os.path.getsize`, `open(source, 'rb')`): each source file is a given
  byte string in the `World`. An absent one is an `IOError`.
- Directories are not entities: a directory's listing is the set of files under it. A
  directory that does not exist therefore lists as the empty set, where SFTP's `listdir`
  raises `IOError` (file.py:121). For a path whose directory does not exist, the model's
  `delete` reports the skip and returns 0, and its `create` touches the destination.
- `sftp.close()` at the end of `create` is a `CloseSession` event. `delete` opens a session
  and never closes it, as in the source. Closing the file handles is not logged.
- Step values other than `env`, `after` and `not_if` are strings. A `Step` with no `after`
  or `not_if` key builds like one whose list is empty, as `mk_resource` does.
- pickup/resource/__init__.py is not part of this model. Its exports are taken to be the
  four resource classes, so a step whose type names anything else is an unknown type.
- Timeouts, retries and concurrency: the code has none.
- CreateIdempotent: with the existence test as written, create is idempotent only when
  source and destination share a basename. A renamed destination either aborts at the
  stat, when a file with the source's basename sits in its directory, or is touched on
  every run and never reported "already converged". "## Findings" records both cases.
  The corrected test has no such condition (`CorrectedCreateIdempotent`). Both lemmas
  also require a mode of exactly four octal digits. For any other mode, such as "644",
  the mode text never matches (`OtherLengthNeverMatches`), so every run chmods and
  neither run reports "already converged".
- Convergence.Act: file `create` is dispatched with the corrected existence test
  (`DestinationName`). So `Convergence.ActEffect`, `Act`, `ConvergeEffect`, `Converge`,
  `ProceedEffect`, `Proceed`, `Pickup.ApplyEffect` and `Apply` model the program with
  file.py:55 corrected, not as written. The as-written create is modelled on its own,
  by `FileResource.CreateEffect` with `SourceName` (see "## Findings").
- SFTP's IOError for chmod, chown, truncate or write on an absent path: the model only
  logs the call. Create reaches these calls only after a successful stat of that path,
  or after opening it for writing.

## Findings

| source | as written | input that shows it | evidently intended | confidence | as-written member | corrected member |
|---|---|---|---|---|---|---|
| pickup/pickup/resource/file.py:55 | `_file_exists(sftp, self._source, self._destination)` looks for `basename(source)` in `listdir(dirname(destination))` | source `conf/hosts`, destination `/etc/hosts.new`, host with `/etc/hosts`: nothing is touched and the stat of `/etc/hosts.new` raises. With no `hosts` in `/etc`, the destination is touched on every run and never reported converged | test whether the destination itself exists, i.e. look for `basename(destination)` | medium, not executed | `FileResource.RenamedDestinationAborts`, `FileResource.AsWrittenTouchesEveryRun` | `FileResource.CorrectedCreateIdempotent` |
