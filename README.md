# insulatr, modelled in Dafny

insulatr runs a build in throw-away Docker containers, driven by a YAML build definition. The
build has:

- a volume and a network, created for the build unless reused;
- injected files;
- cloned git repositories;
- background services;
- build steps, run one after the other in foreground containers;
- extracted files;
- a teardown that stops the services and removes the network and the volume.

This project models the core of the program. One module corresponds to each source file:

| module | source | flavour in the model |
|---|---|---|
| `Insulatr` | insulatr.go `run` | methods with loops over a `State` record, proved against stage functions |
| `Container` | docker_container.go | foreground, background and stop runs as methods over the engine's answers |
| `Demux` | the log reader loops in docker_container.go | a read loop proved against a decoder function, and a round trip |
| `Transfer` | docker_cp.go | inject/extract loops proved against functions of the file list |
| `Repos` | repos.go | `cloneRepo`: the reference, the clone command, the SSH agent scan, three git runs |
| `Steps` | steps.go | `RunStep`: merge, resolution in place, the Docker socket and the agent |
| `Services` | services.go | `startService`, `stopService` |
| `Files` | files.go | `InjectFiles`, `ExtractFiles` |
| `Environment` | environment.go and the resolution loops repeated in the other files | in-place array resolution and its value-level definition |
| `Cli` | main.go | flag normalisation, conflict and log-level checks, the exit status |
| `Config`, `Text`, `Wrappers` | insulatr.go records, Go `strings` helpers | data and small functions |

Every call on Docker, the file system, the process environment or the YAML reader is an input of
the model:

- `Container.Daemon`, `Container.Starter` and `Container.Stopper` hold the engine's answers to one
  container.
- `Transfer.World` holds the answers of the file system and archive library.
- `Insulatr.Engine` holds the answers for one whole build.
- `procEnv` is `os.Environ()`.
- `Cli.Input` is the outcome of reading the build file.

The modules above `Container` see a container only through `Container.Verdicts`, which is the
error each request's run returns. The predicate `Container.Reports(run, engine)` ties those
verdicts to the full container model.

The orchestration in `Insulatr`, and the command line in `Cli`, are written twice. Both versions
are functions of a `Variant`:

- `AsWritten` is what the code does. This is what the methods are proved against.
- `Intended` is the behaviour the code evidently aims at, in the places where it departs from it
  (see "## Findings").

Where the code departs from what its own text evidently aims at, the model follows the code:

- **Ref priority.** repos.go:15-20 takes a tag only when no branch is given, so branch > tag is
  meant. The commit test at repos.go:21 (also insulatr.go:207-216) uses `||` instead, so a commit
  wins over both. `Repos.RefPriority`
- **Merge.** steps.go:13-16 appends the global environment after the step's, with no
  de-duplication. A name set in both scopes reaches the container twice.
- **Error propagation.** `run` has a named `err` result and sets `FailedBuild` on every failure,
  but it loses most of its errors to shadowed variables (see "## Findings"). It also returns at
  once when the network cannot be removed, which leaves the volume behind.
  `Insulatr.ClosingOrder`
- **Allow-flags.** The usage text of `--allow-docker-sock` and `--allow-privileged`
  (main.go:20-21) says they allow the Docker socket in steps and privileged services. `run` takes
  both flags and never reads them.
- **Environment resolution.** `run` resolves a step's bare names against the process environment
  only, and passes a service's environment unresolved. It calls neither `expandGlobalEnvironment`
  nor the helpers `cloneRepo`, `RunStep`, `startService`, `stopService`, `InjectFiles` and
  `ExtractFiles`, and repeats their bodies inline with small differences. Those helpers are
  modelled in their own modules. `Insulatr.InlineCloneMatchesCloneRepo` shows where the inline
  clone agrees with `cloneRepo`.

## Model

| member | source | states |
|---|---|---|
| Config.Defaults | insulatr.go:76-88 | the default settings: volume `myvolume`/`local`, working directory `/src`, shell `sh`, timeout 3600 s, network `mynetwork`/`bridge`; nothing declared |
| Text.FirstIndex | environment.go:11 | the first position of a character, or the length when it does not occur; nothing before it is that character |
| Text.LastIndex | docker_cp.go:22 | `strings.LastIndex`: the last position of a character or -1, with no occurrence after it |
| Text.Split | environment.go:14 | `strings.Split` yields at least one part and no part contains the separator |
| Text.JoinSplit | docker_container.go:114 | joining the parts of a split gives back the text |
| Text.SplitJoin | docker_container.go:114 | splitting a join of separator-free parts gives back the parts |
| Text.KeyIsPrefix | environment.go:14-15 | the name of an entry (`pair[0]`) is the text before its first `=` |
| Environment.LastMatch | environment.go:13-19 | the last source entry with the name, or -1; no later entry has the name |
| Environment.FirstUnresolved | environment.go:10-24 | every entry before it resolves and it does not |
| Environment.ExpandAt | environment.go:9-29 | the expansion replaces each entry before the first unresolved one by its resolution, leaves the rest untouched and reports that name |
| Environment.QualifiedUnchanged | environment.go:11 | entries that contain `=` are never changed |
| Environment.ExpandSucceeds | environment.go:10-28 | the expansion succeeds exactly when every bare name has a match, and then each becomes its last match |
| Environment.ExpandQualified | environment.go:10-11 | a fully qualified list is returned unchanged without error |
| Environment.ExpandIdempotent | environment.go:9-29 | with a qualified source, expanding the result of a successful expansion again changes nothing |
| Environment.FindLastMatch | environment.go:13-19 | the inner loop finds a match exactly when one exists, and keeps the last |
| Environment.ResolveOne | environment.go:11-25 | the outer loop body computes the resolution of one entry |
| Environment.ExpandInPlace | environment.go:9-29 | `expandGlobalEnvironment` rewrites the array to the expansion of its old contents and returns the same unresolved name |
| Environment.ResolveEach | insulatr.go:387-402 | the step environment keeps its length, and each entry becomes its resolution or stays as it is |
| Environment.LastUnresolved | insulatr.go:397-400 | none exactly when every entry resolves; otherwise the last entry of the list that does not resolve: every later entry resolves |
| Environment.ResolveEachAgrees | insulatr.go:387-402 | the non-stopping loop of `run` fails on the same lists as `expandGlobalEnvironment` and agrees with it otherwise |
| Environment.ResolveAll | insulatr.go:387-405 | the step loop of `run` yields every resolvable entry resolved and reports the last unresolved one |
| Demux.PayloadSize | docker_container.go:141 | the big-endian length of a frame header is below 2^32 |
| Demux.LogReader.Read | docker_container.go:137 | a read hands over as many bytes as fit and are left, into the front of the buffer, keeps the rest of the buffer, and returns the reader's error for that read |
| Demux.ReadFrame | docker_container.go:137-144 | one pass: a header read into the reused buffer, then a read into a fresh zeroed buffer of the header's length, written whole; a header read error ends the loop with nothing written |
| Demux.Demux | docker_container.go:265-279 | the read loop writes exactly the decoded output to the sink and ends with the reader's error |
| Demux.SizeRoundTrip | docker_container.go:141 | a length written big-endian into a header is read back |
| Demux.DecodeFrames | docker_container.go:266-278 | whole frames write their payloads in order and leave the last header in the buffer |
| Demux.DemultiplexEncode | docker_container.go:265-279 | a well-formed stream yields exactly its payloads, and ends with a read error exactly when the connection broke |
| Demux.TrailingPartialHeader | docker_container.go:267-277 | a stream that ends inside a header: a reader returning `io.EOF` with those bytes stops after the whole frames; otherwise the length comes from the partly stale header buffer and that many zeros are written before the loop ends |
| Demux.EndsAsReader | docker_container.go:267-273 | wherever the bytes end, the loop ends with a read error exactly when the connection broke, and at `io.EOF` otherwise |
| Demux.StreamTypeIgnored | docker_container.go:141 | the stream-type byte never changes what reaches the sink |
| Demux.StaleKindIgnored | docker_container.go:135-141 | the first byte of the reused header buffer never changes what follows |
| Transfer.InjectDestinationKeepsLayout | docker_cp.go:22-25 | a source with a directory part goes to `dst/dir`, so its base name lands at `dst/src` |
| Transfer.InjectDestinationFlat | docker_cp.go:22-25 | a source without `/` goes to the destination itself |
| Transfer.CheckTarget | docker_cp.go:21-57 | the destination checks of `injectFile`: absolute path, stat, symlink re-stat, directory-or-regular check |
| Transfer.InjectFile | docker_cp.go:21-88 | `injectFile` makes the upload or returns the first failing check's error |
| Transfer.InjectThroughSymlink | docker_cp.go:42-57 | for a link destination, the link target is what gets checked and written; a failing second stat reads as a regular file |
| Transfer.InjectModeCheck | docker_cp.go:53-57 | without a link, the destination must be a directory or a regular file |
| Transfer.InjectUploadsToTarget | docker_cp.go:59-85 | an upload is made exactly when the target checks and the archive steps succeed, and its failure is the last possible error |
| Transfer.Utf8Length | docker_cp.go:95-105 | the byte length of the UTF-8 encoding is at least the number of characters |
| Transfer.Utf8LengthAscii | docker_cp.go:105 | for ASCII text, the byte length is the number of characters |
| Transfer.CreateFile | docker_cp.go:90-122 | one archive entry of mode 0600 with the byte length of the data, and an error exactly when the copy fails |
| Transfer.InjectMatches | docker_cp.go:138-143 | the loop over the matches of one glob uploads each in order and stops at the first failure |
| Transfer.InjectEntry | docker_cp.go:125-150 | one entry is either a glob with its matches or one inline file |
| Transfer.CopyFilesToContainer | docker_cp.go:124-154 | the loop over entries produces the uploads and error of the specification function |
| Transfer.FirstFailure | docker_cp.go:124-154 | every entry before it succeeds, and it fails |
| Transfer.InjectionStopsAtFirstFailure | docker_cp.go:124-154 | injection uploads everything of the entries before the first failure plus the failing one's part, and reports its error |
| Transfer.ZeroMatchesIsError | docker_cp.go:133-136 | a glob matching nothing is an error and nothing is copied |
| Transfer.InlineEntry | docker_cp.go:145-150 | an entry that is not globbed, even one with an empty name, is one inline file, failing exactly when its copy fails |
| Transfer.ExtractFile | docker_cp.go:157-217 | the loop body of `copyFilesFromContainer` skips an entry without an extract path and otherwise routes, fetches and writes it |
| Transfer.CopyFilesFromContainer | docker_cp.go:156-221 | the loop over entries produces the downloads and error of the specification function |
| Transfer.NonEmptyExtracts | docker_cp.go:158 | the kept entries all come from the list and name a path to extract, and every entry that names one is kept |
| Files.NonEmptyExtractsAppend | docker_cp.go:158 | keeping the entries that name a path distributes over concatenation, so they are kept in their order |
| Transfer.FirstExtractFailure | docker_cp.go:157-216 | every entry before it extracts without error, and it fails |
| Transfer.ExtractionStopsAtFirstFailure | docker_cp.go:157-216 | extraction downloads everything of the entries before the first failure plus the failing one's part, reports its error and reads no later entry; with no failure it downloads every entry |
| Transfer.ExtractionSkipsEmpty | docker_cp.go:158 | removing the entries without an extract path changes nothing |
| Transfer.EveryDownloadWellRebased | docker_cp.go:181-212 | a download is rebased exactly when a link gave it a rebase name, and then to that name |
| Transfer.PlainSourceNotRebased | docker_cp.go:181-212 | without a link, an entry reads `dir/Extract` itself under its own name |
| Container.Endpoints | docker_container.go:63-66 | the container joins the named network, or none when the name is empty |
| Container.CreateConfig | docker_container.go:37-66 | builds the configuration of the foreground container |
| Container.ForegroundConfigShape | docker_container.go:37-66 | the volume is the first mount, at the working directory, followed by the binds; the shell is the entrypoint or the command, never both |
| Container.Deliver | docker_container.go:83-120 | inject, attach, start and send run in order until one fails; the copy is always followed by the half-close of stdin, even when it fails; stdin gets the commands joined by newlines once sent |
| Container.RunForeground | docker_container.go:20-198 | `runForegroundContainer` makes the calls, uploads, output and downloads of the specification and returns its error |
| Container.RunForegroundError | docker_container.go:20-198 | the error a foreground run returns is the verdict the engine's answers give for that request |
| Container.Conclude | docker_container.go:122-197 | logs, wait, exit-status check, extraction and removal after delivery, or removal alone after a failure |
| Container.AfterSendCalls | docker_container.go:122-197 | after sending, the calls run up to the failing stage, then removal |
| Container.AfterSendFields | docker_container.go:122-183 | the output exists once the logs are attached; downloads happen only after a clean exit |
| Container.RemovedOnceCreated | docker_container.go:185-197 | a created container is always removed, as the last call, after the stages in order up to the failing one; without a container nothing is removed |
| Container.StdinIsCommands | docker_container.go:113-120 | what reaches stdin is the commands joined by newlines, and they can be split back; the commands are sent exactly when stdin is written, and the write side is half-closed right after, even when the copy fails |
| Container.TransfersPlacement | docker_container.go:83-183 | files are uploaded once the container exists; output is written once the logs are attached; downloads happen only after a clean exit |
| Container.ForegroundErrorIff | docker_container.go:122-195 | as written, no error exactly when delivery succeeded and then the logs failed, or the wait channel failed, or the exit was clean and extraction and removal succeeded |
| Container.LogsFailureMasked | docker_container.go:123-133 | as written, losing the logs returns no error and nothing is waited for |
| Container.IntendedErrorIff | docker_container.go:122-195 | as intended, no error exactly when every stage succeeds and the exit status is not positive |
| Container.ReadingsAgreeOnCalls | docker_container.go:122-197 | both readings make the same calls with the same effects; only the returned error differs |
| Container.RemoveErrorPlacement | docker_container.go:185-195 | a removal failure is either returned or printed, never both, by whether something failed before |
| Container.RunBackground | docker_container.go:200-249 | pull, create and start in order; the error of the first that fails; the container id once created |
| Container.BackgroundConfigShape | docker_container.go:214-236 | a service container has no mounts and no stdin, and is privileged exactly when asked |
| Container.StopAndRemove | docker_container.go:251-288 | stop, logs, the read loop when a writer is given, which returns the header error only for a read error other than `io.EOF`, and removal, each failure returning its own error |
| Container.StopRemovesUnlessBroken | docker_container.go:264-287 | once stopped with its logs connected, the container is removed unless a writer is given and the log connection breaks, even when the stream ends inside a frame |
| Files.InjectListExactly | files.go:14-19 | an entry is injected exactly when it is in the list and names a file |
| Files.ExtractListExactly | files.go:49-55 | an entry is extracted exactly when it names a path to extract, with the destination set to `.` |
| Files.SelectInjected | files.go:14-19 | the selection loop keeps the entries that name a file, in order |
| Files.SelectExtracted | files.go:49-55 | the selection loop keeps the extract entries, in order, each with destination `.` |
| Files.InjectFiles | files.go:13-45 | one `alpine` `sh` helper at the working directory with the injected entries; its error, wrapped |
| Files.ExtractFiles | files.go:48-79 | one `alpine` `sh` helper with the extracted entries; its error, wrapped |
| Files.ExtractListNotSkipped | files.go:49-55 | every selected entry is one the transfer does not skip, and all go to `.` |
| Repos.SelectRef | repos.go:14-23 | the three assignments compute the reference |
| Repos.RefPriority | repos.go:14-23 | a commit wins, then a branch, then a tag; the reference is empty only when none is set |
| Repos.CloneCommand | repos.go:24-36 | builds `clone [--depth 1] location [directory]` |
| Repos.CloneArgsShape | repos.go:24-36 | the location follows `clone` and its depth option; the directory is last when set; `--depth 1` appears exactly when shallow and no reference |
| Repos.Named | repos.go:42-58 | the selected entries are process entries with the name |
| Repos.NamedExactly | repos.go:42-48 | an entry is forwarded exactly when it is in the process environment under the name |
| Repos.NamedAppend | repos.go:42-58 | scanning two parts of the environment in turn selects the entries of both |
| Repos.NamedMountsMatch | repos.go:42-57 | the k-th bind mounts the socket of the k-th forwarded entry |
| Repos.ScanAgent | repos.go:38-58 | the scan forwards every agent entry and mounts its socket |
| Repos.ClonePlanShape | repos.go:59-128 | one run without a reference and three with one (clone, `fetch --all`, `checkout ref`); all use the git image, the volume and the agent binds; only the clone gets the environment |
| Repos.Progress | repos.go:59-128 | the runs made: up to and including the first that fails |
| Repos.PlanFollowedIsProgress | repos.go:75-127 | the runs `cloneRepo` makes are the first `Progress` ones of the plan, and it fails exactly when the last one failed |
| Repos.CloneRepo | repos.go:13-131 | `cloneRepo` follows its plan |
| Repos.RunClone | repos.go:59-128 | the clone, fetch and checkout runs follow the plan for the given forwarding |
| Repos.CloneSuccessChecksOut | repos.go:82-128 | a successful clone with a reference made all three runs, the last checking it out |
| Services.StartService | services.go:13-50 | resolves the shared environment array in place against the build environment and starts the container only when every name resolves |
| Services.ServiceEnvironment | services.go:14-31 | a qualified entry stays; a bare one becomes its last build entry; the service starts exactly when all resolve |
| Services.FirstNamed | services.go:55-60 | the first service with the name, or the count |
| Services.SelectService | services.go:55-60 | the range loop with its break selects the first service with the name, or else the last one, or the zero value |
| Services.FirstNamedAt | services.go:55-60 | the first match is the one found scanning from the front |
| Services.SelectedService | services.go:55-63 | the consulted service has the name when one exists; otherwise it is the last, or the zero service |
| Services.StopService | services.go:52-73 | the logs are drained exactly when the selected service does not suppress them; the error of the stop, wrapped with name and id |
| Steps.FirstDefinition | steps.go:44 | the first process entry that defines the name, or the count |
| Steps.GetenvEntry | steps.go:44 | a non-empty `os.Getenv` value comes from an entry `name=value` |
| Steps.EntryParts | steps.go:44 | an entry defining a name is that name, `=`, and the value `os.Getenv` returns for it |
| Steps.MergeEnvironment | steps.go:13-16 | the merged list is the step's entries followed by the global ones |
| Steps.Prepare | steps.go:13-55 | resolution in place, then the socket bind, then agent mapping, as specified |
| Steps.RunStep | steps.go:12-79 | `RunStep` prepares the container and then runs it, or stops with the preparation's error |
| Steps.UnresolvedStopsStep | steps.go:17-31 | the first unresolved name of the merged list stops the step before any container; when all resolve, no such error arises |
| Steps.StepRequestShape | steps.go:13-72 | without the agent, the container gets the merged list resolved entry by entry, exactly the socket bind when asked, and the step's image, shell, commands and user |
| Steps.AgentRequired | steps.go:43-54 | forwarding the agent without `SSH_AUTH_SOCK` is an error and no container runs |
| Steps.StepErrorNamesStep | steps.go:12-79 | errors name the step, except a container failure, which is the run's own error |
| Insulatr.Open | insulatr.go:91-135 | the directory check, the client, and the removal and creation of the resources before setup |
| Insulatr.CreateNetwork | insulatr.go:137-145 | the network stage |
| Insulatr.LastEmptyInject | insulatr.go:150-155 | none exactly when every entry names a file to inject; otherwise an entry that does not |
| Insulatr.InjectFiles | insulatr.go:147-188 | the injection stage: the name check over all entries, then one helper container |
| Insulatr.FirstKeyed | insulatr.go:235-252 | the first process entry with the name, or the count |
| Insulatr.ScanFirstAgent | insulatr.go:231-252 | the inline scan forwards only the first agent entry, and mounts its socket |
| Insulatr.FirstAgentIsFirstForwarded | insulatr.go:235-252 | the inline clone forwards the first of the entries `cloneRepo` forwards |
| Insulatr.FirstAgentMountIsFirstMount | insulatr.go:235-252 | ... and mounts that entry's socket |
| Insulatr.CloneRepository | insulatr.go:192-319 | one repository: the name and location checks, then the git runs |
| Insulatr.CloneRepositories | insulatr.go:190-322 | the clone loop, which breaks at the first failure |
| Insulatr.StartService | insulatr.go:327-357 | one service: the name and image checks, then the background container; the id is recorded under the name when it starts |
| Insulatr.StartAllServices | insulatr.go:324-359 | the service loop, which breaks at the first failure |
| Insulatr.RunStep | insulatr.go:363-405 | one step: the name, image and command checks, then the environment |
| Insulatr.ExecuteStep | insulatr.go:387-458 | resolves the step's environment, then runs the step's container; a failure aborts with the step's error, and success clears the error |
| Insulatr.StepRequest | insulatr.go:383-453 | the container a step runs in |
| Insulatr.RunAllSteps | insulatr.go:361-461 | the step loop, which breaks at the first failure |
| Insulatr.ExtractFiles | insulatr.go:463-496 | the extraction stage |
| Insulatr.Stopping | insulatr.go:498-521 | stopping services in a given order removes exactly those from the map |
| Insulatr.StopServices | insulatr.go:498-521 | the teardown loop stops every started service, in an order of the map's choosing, covering each exactly once |
| Insulatr.StopService | insulatr.go:500-519 | one service: its logs drained unless the first service of that name suppresses them; then its entry is deleted |
| Insulatr.Close | insulatr.go:523-541 | network removal, then volume removal |
| Insulatr.Run | insulatr.go:90-542 | `run`: the opening, the setup stages, the teardown in the returned order (each service once) and the closing |
| Insulatr.DirectoryRequiredFirst | insulatr.go:91-97 | with several repositories, one without its own directory fails the run before any engine call |
| Insulatr.FailedSkipsSetup | insulatr.go:137-463 | once the build has failed, every setup stage is skipped |
| Insulatr.CloneLoopConsistent | insulatr.go:192-320 | cloning keeps the returned error consistent with the failure |
| Insulatr.ServiceLoopConsistent | insulatr.go:327-357 | so does starting the services |
| Insulatr.StepLoopConsistent | insulatr.go:363-460 | so does running the steps |
| Insulatr.SetupConsistent | insulatr.go:137-496 | every setup stage keeps the error consistent: an error only with a failure; as written never an error of the kinds the code loses; as intended an error exactly when failed |
| Insulatr.StoppingConsistent | insulatr.go:498-521 | so does the teardown |
| Insulatr.OutcomeReportsFailure | insulatr.go:108-542 | as intended, the run returns no error exactly when nothing failed and both resources were removed or reused; as written, errors of the lost kinds never come back |
| Insulatr.NetworkFailureIsSilent | insulatr.go:137-145 | a network that cannot be created fails the build and nothing else is set up, yet the run as written returns no error; as intended it returns the network's error |
| Insulatr.TeardownStopsEachOnce | insulatr.go:498-521 | the teardown stops every started service exactly once, in the given order, whatever went wrong before, and leaves none |
| Insulatr.ClosingOrder | insulatr.go:523-541 | the network is removed unless reused; a failed removal returns at once and the volume is left; otherwise a volume failure is reported, else the build's own error |
| Insulatr.InjectListAll | insulatr.go:157-163 | when every entry names a file, the helper gets all entries |
| Insulatr.InjectionDemandsNames | insulatr.go:147-188 | an entry without a file to inject fails the build with the index of the last such entry, before any container runs; otherwise the helper gets every entry |
| Insulatr.InlineCloneMatchesCloneRepo | insulatr.go:222-319 | with at most one agent entry, the inline clone runs exactly `cloneRepo`'s containers |
| Insulatr.StepContainerShape | insulatr.go:383-453 | the step's image, commands and user; its shell or the build's; the build's places; its own environment, each name resolved against the process environment |
| Insulatr.StepBindsShape | insulatr.go:407-436 | the Docker socket first when asked; then, when the agent is forwarded, one bind per agent entry, mounting that entry's socket |
| Insulatr.AgentVariableDropped | insulatr.go:407-453 | as written, a forwarding step with `SSH_AUTH_SOCK=/agent` gets the bind of `/agent` but an empty environment |
| Insulatr.AgentVariableForwarded | insulatr.go:407-453 | as intended, every agent entry of the process environment reaches the step's environment, with its socket bound |
| Insulatr.SocketMountedUnchecked | insulatr.go:409-416 | as written, a valid step that asks for the Docker socket runs with it bound, whatever the allow-flags say |
| Insulatr.IntendedGating | insulatr.go:90 | as intended, the socket and privileged services are used only when allowed; otherwise the build fails naming the step or service |
| Cli.Configure | main.go:48-85 | the file checks, `--reuse`, the conflict check and the log-level switch decide what is run |
| Cli.Execute | main.go:45-94 | the command line runs the pipeline with the decided build and flags, and computes the exit status |
| Cli.LaunchFlagsConsistent | main.go:66-76 | a launched run never both reuses and removes a resource; `--reuse` reuses both; conflicts are refused exactly when the file was read |
| Cli.ConflictOnGivenFlags | main.go:66-76 | `--reuse` conflicts with any remove flag; each reuse flag conflicts with its own remove flag |
| Cli.LogLevelChecked | main.go:78-85 | an unknown log level stops the command line; an empty one keeps the file's; a known one replaces it and nothing else changes |
| Cli.RemoveNotPropagated | main.go:66-87 | as written, `--remove` never makes the run remove anything |
| Cli.RemoveStandsForBoth | main.go:19 | as intended, `--remove` removes both resources, as its usage text says |
| Cli.ExitIgnoresRun | main.go:87-91 | as written, a run that returns an error (directory missing) still exits with 0 |
| Cli.IntendedExit | main.go:87-91 | as intended, the exit status is 0 exactly when the pipeline ran and returned no error |

## Left out

- Docker, file-system, archive and path-library calls are not modelled: their answers are
  parameters (`Daemon`, `Starter`, `Stopper`, `World`, `Engine`). Reading and parsing the YAML file
  and `os.Exit` are not modelled either; `Cli.Input` stands for the reading and parsing.
- Printing, `log.*` and the `Error(...)` helper are not modelled. Error messages become
  constructors, so the format quirks do not appear:
  - insulatr.go:202 prints a name with `%d`;
  - insulatr.go:270 and repos.go:76 pass an argument that has no verb.
- The context timeout (insulatr.go:100) is not modelled as a clock. A deadline is one of the
  engine's answers to a wait (`Container.WaitOutcome.Deadline`).
- The log goroutine (docker_container.go:134-146) is read as running to completion before the
  wait. Concurrency is not modelled.
- `MapSSHAgentSocket` and `RunForegroundContainer`, reached from steps.go and files.go, are not
  part of the shown code. `Steps.AgentMapper` is a parameter. The helpers run the modelled
  `runForegroundContainer`.
- docker.go is an older copy of the container and copy functions and is not modelled. Nor are
  docker_volume.go and docker_network.go: their outcomes are booleans of `Insulatr.Engine`.
- Insulatr.Run: requires `Repos.AgentReadable(procEnv)`, and so do `Repos.ScanAgent`,
  `Repos.ClonePlan`, `Repos.CloneRepo`, `Insulatr.ScanFirstAgent`, `Insulatr.CloneRepository`,
  `Insulatr.ExecuteStep`, `Cli.Execute` and the stage functions and lemmas beside them. The
  predicate says every `SSH_AUTH_SOCK` entry of the process environment carries a value. A bare
  entry makes `pair[1]` panic (insulatr.go:246, insulatr.go:429, repos.go:53), and a panic is not
  modelled. The code needs less: the inline clone scan stops at the first match (insulatr.go:250),
  and the step scan runs only for `forward_ssh_agent` steps. The predicate is kept for the whole
  build because it is a property of the process environment, fixed for the run, that no variable
  set by a shell or `setenv` can break.
- Insulatr.Run: the engine's answer to a container depends only on the request. Two identical
  requests in one build get the same answer.
- Insulatr.StopServices: Go's map order is arbitrary. The method picks any remaining name, and its
  contract holds for every order.
- Insulatr.ExecuteStep: the in-place write to `step.Environment` also changes the build's own step
  list, through the shared backing array. The model works on values, so that aliasing is not
  modelled; the run never reads that list again.
- Services.StartService: the in-place write is modelled on an array, but the model does not show
  that the array is shared with the build's service list.
- Demux: a read hands over as many bytes as fit and are left. A reader that returns fewer
  bytes while more are available is not modelled. The reader's last read either returns
  `io.EOF` with the last bytes or after them, or fails (`Demux.Close`).

## Findings

| source | as written | input that shows it | evidently intended | confidence | as-written member | corrected member |
|---|---|---|---|---|---|---|
| docker_container.go:124-164 | `reader, err :=` and `case err :=` shadow the returned error, so a failed log connection or wait-channel error returns nil | commands delivered, `ContainerLogs` fails | the run fails with the logs (or wait) error | not executed | Container.LogsFailureMasked | Container.IntendedErrorIff |
| insulatr.go:139-143 | `err :=` in the network, injection, clone, service, extraction and stop blocks (also 165, 253, 276, 342, 474, 513) sets `FailedBuild` but `run` returns nil | network creation fails, everything else succeeds | `run` returns the stage's error | not executed | Insulatr.NetworkFailureIsSilent | Insulatr.OutcomeReportsFailure |
| insulatr.go:407-445 | the agent entries go into a local `environment` that is never used; `step.Environment` is passed | a step with `forward_ssh_agent`, no variables, process environment `SSH_AUTH_SOCK=/agent` | the step's container sees `SSH_AUTH_SOCK` next to the bound socket | not executed | Insulatr.AgentVariableDropped | Insulatr.AgentVariableForwarded |
| insulatr.go:90 | `allowDockerSock` and `allowPrivileged` are never read | a step with `mount_docker_sock` and `--allow-docker-sock` unset | the socket and privileged services are refused unless allowed | not executed | Insulatr.SocketMountedUnchecked | Insulatr.IntendedGating |
| main.go:87-91 | `run`'s result is discarded and the stale parse `err` (nil) is tested | two repositories, one without a directory | exit status 1 when `run` fails | not executed | Cli.ExitIgnoresRun | Cli.IntendedExit |
| main.go:66-73 | `--remove` only feeds the conflict check | `--remove` alone | both resources removed, as the flag's usage says | not executed | Cli.RemoveNotPropagated | Cli.RemoveStandsForBoth |

The methods follow the code as written. For each row, the `Intended` variant of the same
functions defines the corrected behaviour, and the corrected member proves the intended property
about it.
