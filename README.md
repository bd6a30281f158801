# Docker daemon core: native exec driver, volumes, listing and statistics

This project models, in Dafny, five parts of the Docker daemon and runtime:

- **The native execution driver.** It keeps a registry of active containers. Its operations
  create, start and supervise a container's init process (Run) and start extra processes in a
  live container (Exec). They also pause, resume, kill and terminate containers, list their
  processes and read their statistics. Below the driver sit libcontainer's Process guards and
  the default container configuration.
- **The statistics normaliser.** It turns libcontainer statistics into the API's stats
  record. The network counters are summed with uint64 wrap-around.
- **Volume handling.** Parsing covers `-v` bind specifications, `--volumes-from` entries and
  mount modes. Preparation covers the bind map, volumes inherited from other containers, the
  container's declared volumes and the mount list handed to the driver.
- **The container list job (`docker ps`).** It parses the exit-code filter, applies the
  writeCont rules for all, limit, since and before, counts group members and builds the
  Command column.
- **DisplayablePorts.** It renders the Ports column of the older API.

Every collaborator is an oracle: its answers are parameters of the operation. This covers the
runtime library's factory, container handle and process operations, the OS (MkdirAll, Stat,
EvalSymlinks, mount, kill, wait4), the volumes graph and the daemon's container registry.
Methods of the driver return, as `calls`, the requests that reached the collaborators, in
order. That lets the contracts state what was started, signalled, waited for and cleaned up.
The driver's registry (`activeContainers`) is a field of class `NativeDriver.Driver`. The
container's volume maps and mount list are fields of class `Volumes.Container`. The methods
that change them say so in `modifies`.

Go semantics are written out where they matter:

- `strings.Split` gives one more piece than there are separators; `SplitN(_, _, 2)` gives one
  or two.
- uint64 `+=` wraps modulo 2^64, and `uint64(int64)` converts modulo 2^64.
- A missing map key reads as zero or false.
- Map iteration order is unspecified, so loops over Go maps choose their next key with `:|`
  and their contracts hold for every order.
- `filepath.Clean` is the lexical Unix algorithm.
- `strconv.Atoi` accepts an optional sign and int64 values.
- `%d` formats an int in decimal.

## Model

| member | source | states |
|---|---|---|
| Libcontainer.Wait | vendor/src/github.com/docker/libcontainer/process.go:44-49 | an unstarted process (no operations) fails with ProcessNotExecuted; a started one reports its wait outcome |
| Libcontainer.Pid | vendor/src/github.com/docker/libcontainer/process.go:52-57 | an unstarted process gives -1 and ProcessNotExecuted; a started one gives its pid and no error |
| Libcontainer.Signal | vendor/src/github.com/docker/libcontainer/process.go:60-65 | an unstarted process refuses with ProcessNotExecuted and hands no signal on; a started one delegates the signal |
| Libcontainer.GuardsAgree | vendor/src/github.com/docker/libcontainer/process.go:44-65 | the three guards agree: Pid fails exactly when Signal delegates nothing, and then Wait fails with the same error |
| Template.New | daemon/execdriver/native/template/default_template.go:9-45 | the 14 default capabilities, none repeated, and the default namespaces, none repeated; cgroup parent "docker" without all devices; the AppArmor profile only when AppArmor is enabled |
| NativeDriver.RunArgs | daemon/execdriver/native/driver.go:124-126 | Run's process arguments are the driver name, the entrypoint, then the arguments |
| NativeDriver.ConsoleSetupAsWritten | daemon/execdriver/native/driver.go:98-109 | with a tty, only a host-uid failure is reported; without one, the std console's error |
| NativeDriver.ConsoleSetup | daemon/execdriver/native/driver.go:98-109 | setup succeeds exactly when the host uid (tty only) and the console are both obtained, reporting the first failure |
| NativeDriver.ConsoleErrorSwallowed | daemon/execdriver/native/driver.go:99-103 | a tty console that cannot be built is dropped by the code as written and reported by the corrected setup |
| NativeDriver.Name | daemon/execdriver/native/driver.go:224-226 | the driver's name is "native-0.2" |
| NativeDriver.Driver.CleanContainer | daemon/execdriver/native/driver.go:247-252 | the registry loses exactly the entry for the id |
| NativeDriver.Driver.Run | daemon/execdriver/native/driver.go:81-165 | failures give exit code -1. Before the handle exists, the registry is unchanged and the error is the first of the configuration, console and create errors. The only call is the create attempt, made once the configuration and console succeeded. Once created, the handle is registered before Start and destroyed and unregistered last. Between Start and the cleanup come exactly the callback (when given), the wait, and then either the kill and second wait or the OOM notification. The callback only ever sees the started pid. Success holds exactly when the process was started and its wait succeeded |
| NativeDriver.Supervise | daemon/execdriver/native/driver.go:139-164 | a process never started reports ProcessNotExecuted and receives nothing. Otherwise the calls are exactly: the callback with the started pid when one is given, then the wait. A failed wait is followed by a kill and a second wait, and its error is reported. A successful wait gives its exit code, and with OOM watching it is followed by reading the notification; OOM-killed holds exactly when the notification was watched, obtained and said so |
| NativeDriver.SignalCalls | vendor/src/github.com/docker/libcontainer/process.go:60-65 | a signal reaches the process only when it was started |
| NativeDriver.Driver.Kill | daemon/execdriver/native/driver.go:167-172 | without an OS process the result is "not started" and nothing is signalled; otherwise exactly that pid gets the signal |
| NativeDriver.Driver.Pause | daemon/execdriver/native/driver.go:174-180 | an inactive id is an error with no call; an active one is paused and reports the handle's answer |
| NativeDriver.Driver.Unpause | daemon/execdriver/native/driver.go:182-188 | an inactive id is an error with no call; an active one is resumed and reports the handle's answer |
| NativeDriver.Driver.Terminate | daemon/execdriver/native/driver.go:190-215 | an inactive id is an error with no call. A failed state or start-time query returns its error with the registry unchanged. Otherwise the calls are exactly the state query and the start-time query, then SIGKILL and the wait4 reap of the init pid when its start time is still the recorded one, then the unregistering. The error is the kill's result, or none when the process was not killed |
| NativeDriver.Driver.GetPidsForContainer | daemon/execdriver/native/driver.go:228-237 | an inactive id is an error with no call; an active one lists the handle's processes |
| NativeDriver.Driver.Stats | daemon/execdriver/native/driver.go:262-280 | the handle's statistics with the read time; the memory limit is the configured one, or the machine's memory when none is configured |
| NativeDriver.GetEnvAsWritten | daemon/execdriver/native/driver.go:282-290 | the first pair whose text before '=' is the key decides: its value, or a panic when it has no '='; "" when no pair matches |
| NativeDriver.GetEnv | daemon/execdriver/native/driver.go:282-290 | the value of the first pair that assigns the key, or "" when none does |
| NativeDriver.GetEnvPanicInput | daemon/execdriver/native/driver.go:284-286 | the pair "FOO" matches the key FOO but has no value |
| NativeDriver.PairDefines | daemon/execdriver/native/driver.go:284-286 | KEY=VALUE assigns KEY with VALUE |
| NativeDriver.ValueStopsAtNextEquals | daemon/execdriver/native/driver.go:284-286 | KEY=a=b yields a: the value stops at the next '=' |
| NativeExec.ExecArgs | daemon/execdriver/native/exec.go:41-42 | the exec'd arguments are the command's entrypoint and arguments |
| NativeExec.Exec | daemon/execdriver/native/exec.go:16-71 | an inactive id is an error with no call. A failed console setup starts nothing. After Start it follows Run's supervision without the OOM notification and touches no handle. Success holds exactly when the wait succeeded, and then the result is its exit code |
| DaemonStats.Add64 | daemon/stats.go:41-48 | uint64 addition wraps modulo 2^64 |
| DaemonStats.AddInterfaceSum | daemon/stats.go:40-49 | adding one interface keeps each counter equal to the wrapped total over the interfaces so far |
| DaemonStats.SumWithoutOverflow | daemon/stats.go:40-49 | a total below 2^64 is reported exactly |
| DaemonStats.CopyBlkioEntry | daemon/stats.go:88-99 | the copy has the same length and every entry's fields |
| DaemonStats.ConvertToAPITypes | daemon/stats.go:36-86 | network counters are the wrapped sums over the interfaces, or zero without interfaces. Blkio, CPU and memory are copied field by field when cgroup statistics exist, and zero otherwise. Read time, host usage and limit stay zero |
| DaemonStats.ToUint64 | daemon/stats.go:22 | an in-range value is kept; a negative int64 becomes value + 2^64 |
| DaemonStats.EncodeUpdate | daemon/stats.go:20-24 | the converted statistics with the limit (as uint64), the read time and the host CPU usage taken from the update |
| FilePath.Clean | daemon/volumes.go:35-36 | the cleaned path is never empty and is absolute exactly when the input is |
| FilePath.CleanRootDot | volumes.go:135-169 | "/." cleans to "/", so it passes the illegal-destination test and is stored under "/" |
| GoStrings.SplitLength | daemon/volumes.go:19-21 | Split gives one piece more than the separators |
| GoStrings.JoinSplit | daemon/volumes.go:19 | joining Split's pieces with the separator gives the string back |
| GoStrings.SplitJoin | daemon/volumes.go:19 | splitting separator-free pieces joined by the separator gives the pieces back |
| GoStrings.SplitN2 | daemon/volumes.go:41 | one piece exactly when there is no separator; otherwise the text before the first one and the rest |
| GoStrings.ToLower | volumes.go:196 | every ASCII letter is lower-cased, length kept |
| GoStrings.Atoi | daemon/list.go:40 | a success has a digit and lies in the int64 range; the empty string is a syntax error |
| GoStrings.DigitRun | daemon/list.go:40 | the run of leading digits is as long as possible: all digits, and the next character, if any, is not a digit |
| GoStrings.DigitsValuePrefix | daemon/list.go:40 | a prefix of a digit string has at most the value of the whole string |
| GoStrings.AtoiOverflowFirst | daemon/list.go:40 | once leading digits exceed 2^64 - 1, Atoi is a range error, even when a non-digit follows |
| GoStrings.AtoiFormatInt | daemon/list.go:40 | Atoi reads back every int64 printed with %d |
| GoStrings.AtoiRejectsNonDigit | daemon/list.go:40-43 | a non-digit anywhere after the first character makes Atoi fail |
| DaemonVolumes.ValidMountMode | daemon/volumes.go:58-64 | valid exactly for "rw" and "ro" |
| DaemonVolumes.ParseBindMount | daemon/volumes.go:14-38 | not 2 or 3 parts is an invalid spec, and a relative source is refused. A success holds the cleaned source and destination, and is read-write exactly for two parts or the mode "rw" |
| DaemonVolumes.ParseBindMountTwoParts | daemon/volumes.go:21-24 | src:dst parses back into the cleaned paths, read-write |
| DaemonVolumes.ParseBindMountThreeParts | daemon/volumes.go:25-28 | src:dst:mode is read-write exactly for "rw"; any other mode is read-only, not an error |
| DaemonVolumes.ParseVolumesFrom | daemon/volumes.go:40-56 | no ':' gives the id and "rw". Otherwise the id is the text before the first ':'. The rest is the mode, which must be valid |
| DaemonVolumes.ParseVolumesFromJoin | daemon/volumes.go:41-55 | id:mode parses back into both for rw/ro and is an invalid-mode error otherwise |
| Volumes.ParseBind | volumes.go:138-162 | not 2 or 3 parts is an invalid bind, and a raw destination "/" or "." is illegal. Otherwise the source, destination and mode are kept, with mode "rw" by default |
| Volumes.EntryOf | volumes.go:169 | a bind is stored under its cleaned destination |
| Volumes.Parses | volumes.go:138-162 | one parse per bind, in order |
| Volumes.CollectErrors | volumes.go:138-171 | getBindMap's collection succeeds exactly when every bind parses |
| Volumes.CollectFirstError | volumes.go:138-162 | a failing bind preceded only by good ones gives the collection's error |
| Volumes.CollectNext | volumes.go:138-170 | one more bind extends the collection by its entry, or stops it with its error |
| Volumes.FoldNext | volumes.go:169 | storing one more bind updates the map at its cleaned destination |
| Volumes.CollectEntries | volumes.go:164-169 | a successful run keeps every bind, in order, keyed by its cleaned destination |
| Volumes.CollectStops | volumes.go:153-154 | a failing bind ends getBindMap with its error |
| Volumes.FoldKeys | volumes.go:169 | the bind map's keys are exactly the cleaned destinations |
| Volumes.FoldLastWins | volumes.go:169 | of binds with the same cleaned destination, the last one is stored |
| Volumes.Container.GetBindMap | volumes.go:130-172 | the loop's result is the bind map of the container's binds |
| Volumes.MountMode | volumes.go:89-105 | no suffix or "rw" is writable, "ro" read-only, and anything else malformed |
| Volumes.ApplyAllKeeps | volumes.go:112-115 | volumes-from never changes a volume the container has |
| Volumes.ApplyAllStops | volumes.go:94-118 | the first failing entry ends applyVolumesFrom with its error |
| Volumes.ReadOnlyEntry | volumes.go:99-100 | a path added by a `name:ro` entry is read-only whatever the source's flag |
| Volumes.MalformedEntry | volumes.go:101-103 | a suffix other than rw or ro is a malformed-spec error |
| Volumes.UnknownSource | volumes.go:107-110 | an unknown source container errors with the id of the container being prepared |
| Volumes.MergeVolumesStep | volumes.go:112-119 | one source path: a present path is kept, a new one takes the source's host path |
| Volumes.MergeFlagsStep | volumes.go:120-122 | a new path's flag is the source flag and mountRW, set only when the source has a flag |
| Volumes.MergeStep | volumes.go:112-123 | one source path merged, host path and flag together |
| Volumes.MergeKeeps | volumes.go:113-115 | merging keeps the container's existing volumes |
| Volumes.MergeFrom | volumes.go:112-123 | fails exactly when a new path's directory cannot be created. Without a failure the result is the merge of all source paths. After a failure it is the merge of some subset of the source paths, the ones handled before the loop stopped; that subset holds no new path whose directory fails. Existing volumes are kept either way |
| Volumes.MergeOne | volumes.go:113-122 | one iteration: blocked exactly for a new path whose directory fails; otherwise the merge extended by that path |
| Volumes.ApplyFrom | volumes.go:86-128 | the result is the entries applied in order, or the first error. After an error, the entries before the failing one are applied and the failing one leaves what SpecLeaves allows: nothing for a bad mode or an unknown container, a partial merge after a mkdir failure that holds no new path whose directory fails. Existing volumes are kept |
| Volumes.ApplyEntry | volumes.go:89-123 | one entry's result is its spec function's result. On an error the state is unchanged for a bad mode or an unknown container, and a partial merge of that container's paths after a mkdir failure, holding no new path whose directory fails. Existing volumes are kept |
| Volumes.ApplyAllNext | volumes.go:88 | applying one more entry extends the result by that entry |
| Volumes.KeepsTrans | volumes.go:113-115 | keeping the volumes composes |
| Volumes.FailsAt | volumes.go:86-128 | an entry that fails after the earlier ones succeeded leaves what SpecLeaves allows for it, over their result |
| Volumes.Container.ApplyVolumesFrom | volumes.go:86-128 | the container's maps become the volumes-from result, or it reports the first error. After an error the maps hold the earlier entries' merges and the failing entry's partial merge, which holds no new path whose directory fails. Mounts are unchanged |
| Volumes.VolumeFor | volumes.go:192-225 | with a bind, writable exactly when its mode lower-cased is "rw"; without one, writable. The host path is always a resolved path |
| Volumes.AddAll | volumes.go:227-228 | the volume keys grow by exactly the added paths |
| Volumes.AddAllIs | volumes.go:227-228 | the loop's added maps are the volumes AddAll records |
| Volumes.CreateRules | volumes.go:182-228 | existing volumes are kept and every declared path, cleaned, ends up present. A new path's flag follows the bind's lower-cased mode, or is writable without a bind |
| Volumes.AddedAreNew | volumes.go:185-188 | the paths the loop added are exactly the cleaned declared paths not present before |
| Volumes.CreateFrom | volumes.go:180-254 | no error exactly when every new path gets its volume and mount point, and then the result is all of them added. An error is some new path's error. The state then holds some new paths' volumes: that path's own only when just its mount point failed, and every other one with its mount point prepared. Existing volumes are kept |
| Volumes.CreateLoop | volumes.go:182-254 | without an error every cleaned path not present has its volume and mount point, and the result adds exactly those volumes. With one, some new path failed with that error and the state is the partial one PartialCreate describes |
| Volumes.CreateStep | volumes.go:182-188 | a present path is skipped, and a new one is added. Otherwise its error is reported with the progress so far, that path included exactly when only its mount point failed |
| Volumes.CreateOne | volumes.go:189-254 | one new path reports its first failing step's error. After symlink resolution it is recorded, even when its mount point then fails |
| Volumes.KeepsUnion | volumes.go:227-228 | adding paths the container lacks keeps its volumes |
| Volumes.PartialNoVolume | volumes.go:189-225 | a new path whose volume could not be obtained leaves the progress so far, recorded as a partial create |
| Volumes.PartialMountFailed | volumes.go:227-250 | a new path whose mount point failed leaves the progress so far plus that path's volume, recorded as a partial create |
| Volumes.RecordedMountFailed | volumes.go:227-250 | the paths then recorded are all new, each with its VolumeFor value, and all but the failing one have their mount points |
| Volumes.AddAllKeeps | volumes.go:185-188 | adding new paths' volumes keeps the existing ones |
| Volumes.PartialKeeps | volumes.go:185-188 | a partial create keeps the existing volumes |
| Volumes.PartialWiden | volumes.go:182-254 | a partial create over some paths is one over any larger set of paths |
| Volumes.ProgressDone | volumes.go:182-254 | once every path was handled, each new path had no error and the state is all new volumes added |
| Volumes.Container.CreateVolumes | volumes.go:174-291 | a bind-map error changes nothing. Otherwise the maps become the created volumes, or after an error of some new path the partial state of the volumes recorded before it stopped. Existing volumes are kept |
| Volumes.Reset | volumes.go:24-27 | a container without volumes starts from empty maps, its writable flags dropped too |
| Volumes.Container.PrepareVolumesForContainer | volumes.go:23-36 | after the reset come volumes-from, then the bind map, then volume creation, with the first error returned. A volumes-from error leaves its partial merges, with no new path whose directory fails, and a creation error its partial volumes. Volumes present after the reset are kept |
| Volumes.MountSetupAsWritten | volumes.go:44-57 | a MkdirAll failure other than "exists" returns with no error and no mount list |
| Volumes.MountSetup | volumes.go:44-57 | go on exactly when all three setup steps succeed; otherwise return the first error |
| Volumes.MkdirErrorDropped | volumes.go:44-46 | a failing root MkdirAll is dropped as written and reported when corrected |
| Volumes.VolumeMountList | volumes.go:71-73 | exactly one mount per volume, in some order, writable as its flag says (false when missing) |
| Volumes.Container.MountVolumesForContainer | volumes.go:38-78 | on a setup error the mounts are unchanged. Otherwise they are the three fixed mounts, then hostname and hosts when both are set, then one mount per volume |
| DaemonList.ParseCodesMeaning | daemon/list.go:38-46 | the codes parse exactly when every value does |
| DaemonList.ParseCodesAllNumbers | daemon/list.go:39-45 | values that are all numbers parse |
| DaemonList.ParseCodesValues | daemon/list.go:39-45 | parsed codes are one per value, in order, each the value's number |
| DaemonList.NonNumericExitCode | daemon/list.go:40-43 | a value Atoi rejects fails the whole job |
| DaemonList.ParseExited | daemon/list.go:38-46 | the loop's result is the codes of the values, or the first error |
| DaemonList.ParseCodesStops | daemon/list.go:41-43 | the first failing value's error ends the loop |
| DaemonList.WriteContStep | daemon/list.go:70-101 | writeCont's decision for one ungrouped container, the exit-code membership loop included |
| DaemonList.ScanAppend | daemon/list.go:141-152 | the pass over two halves is the second half's pass from where the first ended |
| DaemonList.ScanStopped | daemon/list.go:145-149 | after errLast, later containers change nothing, group members included |
| DaemonList.ScanWrittenOk | daemon/list.go:73-101 | every listed container is ungrouped and one of the input. A stopped one has one of the filter's exit codes (if any filter is given). None is the since container |
| DaemonList.LimitBound | daemon/list.go:82-84 | with a positive limit, at most that many containers are listed |
| DaemonList.LimitStops | daemon/list.go:82-84 | once limit containers are listed, the next ungrouped container past before ends the listing |
| DaemonList.SinceStops | daemon/list.go:85-89 | the since container ends the listing unlisted; nothing after it is listed |
| DaemonList.BeforePending | daemon/list.go:76-81 | until the before container is reached, nothing is listed |
| DaemonList.BeforeFound | daemon/list.go:76-81 | the before container itself is skipped, and it switches listing on |
| DaemonList.DefaultListsRunning | daemon/list.go:73-75 | without all, limit, since and before, exactly the running ungrouped containers are listed, in order |
| DaemonList.MembersCounted | daemon/list.go:139-143 | a listing that does not stop counts every member of each group |
| DaemonList.MembersAfterStopUncounted | daemon/list.go:141-150 | the break on errLast leaves later group members uncounted: limit 1 with two ungrouped containers before a member counts 0 where there is 1 |
| DaemonList.QuoteArg | daemon/list.go:111-115 | an argument holding a space is wrapped in single quotes; any other is kept |
| DaemonList.QuoteArgs | daemon/list.go:109-116 | one quoted argument per argument, in order |
| DaemonList.CommandForms | daemon/list.go:108-122 | no arguments gives the quoted path. Arguments without spaces give path and arguments joined by spaces, in double quotes |
| DaemonList.PlainArgs | daemon/list.go:111-115 | arguments without spaces are left as they are |
| DaemonList.CommandPlain | daemon/list.go:108-122 | with unquoted arguments, the column is path and arguments joined by spaces, in double quotes |
| DaemonList.FormatCommand | daemon/list.go:108-122 | the loop builds the Command column of path and arguments |
| DaemonList.ContainerRows | daemon/list.go:102-135 | one row per listed container with its id, names, command and status |
| DaemonList.GroupRows | daemon/list.go:159-173 | one row per group: "/name/" and "<count> containers" |
| DaemonList.ScanOne | daemon/list.go:141-151 | one iteration: errLast exactly when the pass stops, else the loop variables follow the pass |
| DaemonList.ScanContainers | daemon/list.go:139-152 | the container rows and group counts are those of the pass over all containers |
| DaemonList.ScanNext | daemon/list.go:141-151 | the pass over one more container is one more step of the pass |
| DaemonList.ScanRest | daemon/list.go:149 | a pass stopped after i containers ends there |
| DaemonList.GroupEntries | daemon/list.go:159-173 | the loop builds the group rows |
| DaemonList.ListingErrors | daemon/list.go:34-67 | a bad exit code comes first, then an unknown before name. The job succeeds exactly when the codes parse, before and since resolve and the group lookup works. Group rows come after container rows |
| DaemonList.Containers | daemon/list.go:20-180 | the job's result is the listing: the errors in source order, then the container rows and the group rows |
| ApiCommon.SortedAllPairs | api/common.go:32-33 | in a sorted table every row's PublicPort is at most that of every later row |
| ApiCommon.InsertSorted | api/common.go:32-33 | inserting a row into a sorted table keeps it sorted and adds exactly that row |
| ApiCommon.SortByPublicPort | api/common.go:32-33 | the sorted table is a permutation of the rows, in ascending numeric PublicPort order |
| ApiCommon.Renders | api/common.go:34-40 | one text per port, in order |
| ApiCommon.PrivateOnlyRoundTrip | api/common.go:35-36 | a port without an IP renders as "private/type", and the private port reads back |
| ApiCommon.MappedRoundTrip | api/common.go:37-38 | a port with an IP renders as the IP, ':' and then "public->private/type" |
| ApiCommon.DisplayablePorts | api/common.go:30-42 | the table is left sorted by numeric PublicPort, a permutation of the input; the text is the sorted ports' texts joined with ", " |
| ApiCommon.DisplayForms | api/common.go:31-41 | an empty table gives "". One port gives its own text. More give the first text, ", " and the rest |

## Left out

- NewDriver: reading memory information, creating the root directory, installing the AppArmor profile and building the factory are all I/O. The model's `Driver` constructor takes the machine memory as given.
- TtyConsole (NewTtyConsole, Resize, AttachPipes, Close) and execdriver.NewStdConsole are terminal and pipe I/O with goroutines. Their outcome is one oracle answer (`console`).
- Info, writeContainerFile, createContainerRoot and Clean are left out. They are I/O with no decision logic, and the first three are unused or commented out in Run.
- NativeDriver.Driver.Run: uses the corrected ConsoleSetup (Findings, first row). As written, a tty console that cannot be built is ignored and Run goes on to create, register and start, where the model returns -1 with nothing created. ConsoleSetupAsWritten models that behaviour.
- NativeExec.Exec: uses the corrected ConsoleSetup (Findings, first row). As written, a tty console that cannot be built is ignored and Exec goes on to start, where the model returns -1 with nothing started.
- NativeDriver.Driver.CleanContainer: the removal of container.json is a file-system call, and its error is not modelled.
- createContainer (the configuration built from the Command) is not part of this model. Its outcome is `RunWorld.config`.
- `utils.ExitStatus` (decoding a wait status) is not part of this model. The process operations report the exit code already decoded.
- The driver's mutex and the container locks are left out: the model is sequential. The OOM notification channel is one receive, given as `oom`.
- NativeDriver.Driver.Stats: requires an active id. The source dereferences the missing handle, which panics.
- ContainerStats' subscription and JSON encoding loop are left out. EncodeUpdate models one iteration, and the encoder's error is I/O.
- ValidateHost and MatchesContentType wrap parsers.ParseHost and mime.ParseMediaType, which are not part of this model.
- filters.FromParam is not part of this model. The job takes the parsed filter map.
- The graph walk that builds container names is given as the `names` map, and daemon.Get as the `lookup` map.
- The job's Image, Created, Ports and size columns are left out (ImageName, PortMappingAPI and its error path, GetSize). So is the table's ReverseSort by creation time and the write to the job's output.
- DaemonList.Containers: its rows are in the order the job adds them, before the reverse sort by creation time.
- ApiCommon.SortByPublicPort: engine.Table is not part of this model. Its Sort is taken as comparing the rows' key values as integers, which is how it orders keys that both parse as integers, and PublicPort values are always stored as integers. The ties that sort.Sort leaves unordered get one order of the model's choosing, and the contract promises only sortedness and permutation. The table is a sequence returned sorted, not an array sorted in place.
- ApiCommon.Port: a port row without a PublicPort entry is not modelled.
- GoStrings.ToLower: lower-cases ASCII letters only, not the full Unicode mapping.
- The volume file-system calls are oracles keyed by path. `mkdirFails` covers applyVolumesFrom's MkdirAll. The `FileSystem` record covers Stat, the volumes graph's Create and Get (folded into `created`), EvalSymlinks, and the mount-point steps (FollowSymlinkInScope, Stat, MkdirAll, OpenFile for a file volume), which are folded into `mountpointFails`.
- Error payloads are abstracted: `OsError` carries only whether the error says "exists", and `VolumeCreateFailed` stands for both graph errors.
- Copying an image's contents into a fresh volume and fixing its ownership are left out: volumes.go:256-290, and copyExistingContents and copyOwnership in daemon/volumes.go. They are file-system I/O whose errors would end createVolumes after the volume was recorded.
- Volumes.Container.MountVolumesForContainer: uses the corrected MountSetup (Findings, third row). As written, a failing MkdirAll of the root makes it return nil with the mounts unset, where the model returns that error. MountSetupAsWritten models that behaviour.
- unmountVolumesForContainer only logs an unmount error, so it is left out.
- Volumes.CreateFrom: the declared paths are cleaned before the loop and visited once per cleaned path. The source visits each raw path and skips one whose cleaned form is already present, so two raw paths that clean alike reach the loop body once, as here.

## Findings

| source | as written | input that shows it | evidently intended | confidence | as-written member | corrected member |
|---|---|---|---|---|---|---|
| daemon/execdriver/native/driver.go:98-109 and daemon/execdriver/native/exec.go:25-37 | in the tty branch `rootuid, err := HostUID()` declares a new `err`. The tty console's error goes to that inner variable, and the check after the branch reads the outer one | tty on, host uid obtained, NewTtyConsole fails: Run goes on with no terminal | the console error ends Run or Exec with exit code -1 | high (not executed) | NativeDriver.ConsoleSetupAsWritten, NativeDriver.ConsoleErrorSwallowed | NativeDriver.ConsoleSetup |
| daemon/execdriver/native/driver.go:282-290 | `parts[1]` is read whenever the text before the first '=' equals the key | env ["FOO"], key "FOO": index out of range, a panic | a pair without '=' assigns nothing and the search goes on | high (not executed) | NativeDriver.GetEnvAsWritten, NativeDriver.GetEnvPanicInput | NativeDriver.GetEnv |
| volumes.go:44-46 | a MkdirAll failure other than "exists" returns nil | the root directory cannot be created: the caller gets no error and no mount list | return the MkdirAll error | high (not executed) | Volumes.MountSetupAsWritten, Volumes.MkdirErrorDropped | Volumes.MountSetup |
