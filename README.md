# auto-bencher core, modelled in Dafny

auto-bencher drives a distributed database benchmark (VanillaBench / ElaSQL)
from one control machine. For a run it:

- prepares a local `benchmarker` directory: it copies the jars and writes the
  properties files, which include the server and client "views" and the fixed
  paths;
- spawns one coordination thread per node. Server and sequencer threads send
  the directory, prepare or reset the database, and meet at a barrier. They then
  start the server, poll its log until it is ready, meet again, and watch for
  errors until the orchestrator raises the stop sign. Client threads clean their
  old results, send the directory, wait at both barriers, start the client, poll
  until it has finished, and then pull the CSV reports and read the throughput;
- collects one outcome per thread from a channel. The first failure ends the
  run, and once every client has reported, the stop sign is raised.

Remote actions go through `ssh` and `scp`. The jar check before copying runs
`ls` locally on the control machine. Exit statuses are classified into the
error type of `src/error.rs`. "Nothing found" (exit status
1) is a negative answer, not an error.

The model is organised by source file:

| module | source |
|---|---|
| `Errors` | src/error.rs: the error type, `throw` and `message` |
| `Command` | src/command.rs: argument lists of `ssh`/`scp`/`ls` and exit-status classification |
| `Remote` | the remote world as an oracle, plus the probe and cleanup rules shared by both controllers |
| `Strings` | decimal `to_string` of unsigned integers and `str::parse::<usize>` |
| `Connections` | src/connections/mod.rs: `Action` and `as_int` |
| `ServerConnection`, `ClientConnection` | src/connections/server.rs, src/connections/client.rs |
| `Lifecycle` | the trace vocabulary of a thread run: events, endings, sequencing |
| `ServerThread`, `ClientThread` | src/threads/server.rs, src/threads/client.rs |
| `Threads` | src/threads/mod.rs: thread count, spawn order, result collection, stop sign |
| `Preparation` | src/preparation.rs |
| `Subcommands` | src/subcommands/mod.rs |
| `Config` | src/config.rs |
| `Load` | src/load.rs |

How the model represents the system:

- **The remote world.** A `Remote.World` answers the k-th call that a thread
  issues: how the launched process ended, what an operation not modelled here
  returned, and which throughput was read. Every operation returns its result
  together with the calls it issued, in order (`Remote.Out`). The controllers
  are deterministic, so an oracle indexed by call position can describe any
  behaviour of the remote machines.
- **Thread runs.** A thread's run is a `Lifecycle.Run`: how it ended
  (returned a result, panicked, or was cut off because the observation ended),
  the protocol events it passed through (barrier waits, starts, polls, stop-flag
  reads), and its calls.
- **Loops.** The polling loops are imperative methods. Each is proved equal to
  a specification function, and the properties are proved about those
  functions.
- **Mutable state.** The properties map, the stop sign, the machine lists and
  the process builder are classes whose methods update their fields.

Where the code differs from the documented design, the model follows the code:

- Client results are returned in arrival order, not node-id order.
- On the first `Failed`, the orchestrator returns at once without joining the
  threads.
- The error scan searches for "Exception" and "error" only, not "SEVERE".
- A server is launched with the benchmark type as its only program argument.
  A client is launched with only the action code.
- The stop sign is raised only when a client success arrives and the number of
  client results has reached the client count. With no clients it is never
  raised.

## Model

| member | source | states |
|---|---|---|
| `Errors.ThrowWith` | src/error.rs:11-16 | the error text is the message, then ": ", then the wrapped error's text |
| `Errors.Message` | src/error.rs:18-22 | the error text is the message unchanged |
| `Errors.ThrowWithIsNotMessage` | src/error.rs:11-22 | a wrapped error never equals the bare message |
| `Connections.AsInt` | src/connections/mod.rs:15-20 | Loading maps to 1 and Benchmarking to 2, both directions |
| `Connections.AsIntInjective` | src/connections/mod.rs:15-20 | the action code identifies the action |
| `Command.Decode` | src/command.rs:31-34 | exit 0 yields the output when it is UTF-8, otherwise a "parsing command output fails" error |
| `Command.ClassifySsh` | src/command.rs:9-35 | for `ssh`: failure to spawn, 127 = no such command, 0 = output, any other code = that code, a signal = the signal message |
| `Command.ClassifyCopy` | src/command.rs:37-67 | for `scp`/`ls`: failure to spawn, 0 = output, 2 = file not found, any other code = that code, a signal = the signal message |
| `Command.ClassifiersDifferOnlyOn2And127` | src/command.rs:18-29 | the two classifications disagree exactly on exit codes 2 and 127 |
| `Command.SshArgs` | src/command.rs:10-12 | `ssh` receives `user@host` and then the whole remote command as one argument |
| `Command.ScpArgsShape` | src/command.rs:38-48 | `-r` comes first exactly for directories; the last two arguments are the local path and `user@host:path` |
| `Command.RemoteTargetSplits` | src/command.rs:48 | `user@host:path` splits back into its parts when the user has no `@` and the host no `:` |
| `Command.ProcessCommand.constructor` | src/command.rs:38 | a new command has its program and no arguments |
| `Command.ProcessCommand.Arg` | src/command.rs:41 | each call appends exactly one argument |
| `Command.BuildScp` | src/command.rs:37-48 | the assembled `scp` command has exactly the argument list of `ScpArgs` |
| `Command.BuildSsh` | src/command.rs:9-13 | the assembled `ssh` command has exactly the argument list of `SshArgs` |
| `Strings.Decimal` | src/preparation.rs:133 | the decimal text is all digits and has no leading zero except for 0 |
| `Strings.ParseUsize` | src/load.rs:24 | parsed values are below 2^64; empty text and a lone "+" are parse errors |
| `Strings.DecimalRoundTrip` | src/load.rs:24 | parsing the decimal text of any `usize` gives the number back |
| `Remote.Discard` | src/connections/server.rs:44-51 | keeps the calls and the success or error, and drops the output |
| `Remote.ProbeOf` | src/connections/server.rs:131-136 | a match answers found; exit status 1 answers not found; every other error stays an error |
| `Remote.ProbeOfSsh` | src/connections/server.rs:131-136 | a search answers not found exactly on exit 1, and found exactly on exit 0 with UTF-8 output |
| `Remote.TolerateExit1` | src/connections/server.rs:33-39 | success or exit status 1 is success; any other error propagates unchanged |
| `Remote.TolerateExit1OfSsh` | src/connections/server.rs:26-40 | an idempotent cleanup succeeds exactly on exit 1, or on exit 0 with UTF-8 output |
| `Remote.LaunchCommandIsDetached` | src/connections/server.rs:113-119 | the launch line ends with ` > log 2>&1 &`, so it runs in the background with its output in the log |
| `Remote.ScanLogForErrors` | src/connections/server.rs:139-151 | "Exception" is searched first and "error" second; the first match fails with "Server error: " plus the matched lines; it succeeds exactly when neither search matches |
| `Remote.CheckLogFor` | src/connections/server.rs:128-137 | after a clean scan: true on a keyword match, false on exit 1, otherwise the search's error; a scan error is returned with the scan's calls only |
| `Remote.CheckLogForTrue` | src/connections/server.rs:128-137 | a true answer means both error searches missed and the keyword matched, with exactly these three searches issued |
| `ServerConnection.BackupDbPathIsBeside` | src/connections/server.rs:157-169 | the backup path is the database path plus "-backup", so the two never coincide |
| `ServerConnection.KillExistingProcess` | src/connections/server.rs:26-40 | one `pkill -f benchmarker`; success, or exit 1 (nothing to kill), is success; other errors propagate |
| `ServerConnection.SendBenchDir` | src/connections/server.rs:42-52 | one recursive `scp` of "benchmarker" into the remote work directory; its classified outcome is the result |
| `ServerConnection.DeleteDbDir` | src/threads/server.rs:47 | one logged `delete_db_dir` call, answered by the remote world |
| `ServerConnection.DeleteBackupDbDir` | src/connections/server.rs:54-70 | one `rm -rf` of the backup path; exit 1 is success; other errors propagate |
| `ServerConnection.BackupDb` | src/connections/server.rs:72-84 | one `cp -r` from the database to the backup; always succeeds, whatever the copy returned |
| `ServerConnection.ResetDbDir` | src/connections/server.rs:86-107 | `rm -rf` of the database, then `cp -r` of the backup into its place; a failed delete stops before the copy; it succeeds exactly when both succeed |
| `ServerConnection.StartCommandText` | src/connections/server.rs:109-119 | the launch line is java, VM args, `-jar .../benchmarker/server.jar`, the benchmark type, and the redirect into `.../server.log` |
| `ServerConnection.Start` | src/connections/server.rs:109-126 | one `ssh` of the launch line; it succeeds exactly when the shell accepted it |
| `ServerConnection.GrepCommandText` | src/connections/server.rs:183-187 | a log search is `grep '<keyword>' <work>/server.log` |
| `ServerConnection.CheckForError` | src/connections/server.rs:139-151 | starts with the "Exception" search; succeeds exactly when neither error search matched |
| `ServerConnection.CheckForReady` | src/connections/server.rs:128-137 | true exactly when the scan is clean and "VanillaBench server ready" matches; false exactly on exit 1 |
| `ClientConnection.CompletionKeyword` | src/connections/client.rs:87-90 | "loading procedure finished." for Loading, "benchmark process finished." for Benchmarking |
| `ClientConnection.CompletionKeywordsDiffer` | src/connections/client.rs:87-90 | the two completion keywords are different |
| `ClientConnection.KillExistingProcess` | src/connections/client.rs:24-37 | one `pkill -f benchmarker`; exit 1 is success; other errors propagate |
| `ClientConnection.SendBenchDir` | src/connections/client.rs:39-48 | one recursive `scp` of "benchmarker" into the remote work directory |
| `ClientConnection.CleanPreviousResults` | src/connections/client.rs:50-65 | one `rm -r <work>/results`; exit 1 (nothing to delete) is success; other errors propagate |
| `ClientConnection.StartCommandArgument` | src/connections/client.rs:70 | the program argument is "1" or "2" and parses back to the action code |
| `ClientConnection.Start` | src/connections/client.rs:67-84 | one `ssh` of the launch line; it succeeds exactly when the shell accepted it |
| `ClientConnection.CheckForFinished` | src/connections/client.rs:86-108 | true exactly when both error searches miss and the action's completion keyword matches; false exactly on exit 1 |
| `ClientConnection.PullCsv` | src/connections/client.rs:114-125 | one non-recursive copy of `<work>/results/*.csv` into local "results"; the world's answer is the result. The client thread calls a `pull_csv(dir)` that takes a directory, so the thread model does not use this member |
| `Threads.ClientCount` | src/threads/mod.rs:35-39 | one client for Loading, every listed client for Benchmarking |
| `Threads.SpawnThreads` | src/threads/mod.rs:40-89 | spawns the servers, then the sequencer, then the clients, in list order; panics exactly when fewer clients are listed than needed; otherwise spawns exactly as many threads as the barrier expects |
| `Threads.StopSign.constructor` | src/threads/mod.rs:47 | the stop sign starts lowered |
| `Threads.StopSign.Raise` | src/threads/mod.rs:101-102 | raising sets the stop sign |
| `Threads.CollectResults` | src/threads/mod.rs:92-112 | the receive loop computes exactly the collection specification |
| `Threads.FirstFailed` | src/threads/mod.rs:105-109 | the first `Failed` arrival, or the length when there is none |
| `Threads.ClientPayloadsSnoc` | src/threads/mod.rs:95-96 | each client success appends its throughput; other outcomes append nothing |
| `Threads.CollectFromExpected` | src/threads/mod.rs:92-112 | from any consistent loop state, collection ends in its closed form |
| `Threads.CollectSpec` | src/threads/mod.rs:92-112 | fails exactly when a `Failed` is among the first thread-count arrivals; waits exactly when arrivals run out with no failure; otherwise returns the client throughputs in arrival order; the stop sign is raised exactly when at least one and at least client-count results arrived |
| `Threads.ServerSucceedChangesNothing` | src/threads/mod.rs:110 | a server's success changes neither the results nor the stop sign |
| `Threads.StopStaysRaised` | src/threads/mod.rs:97-103 | once raised, the stop sign stays raised |
| `Threads.ClientPayloadsCount` | src/threads/mod.rs:95-96 | there is exactly one result per `ClientSucceed` arrival, so never more results than arrivals |
| `Threads.RunInThreads` | src/threads/mod.rs:22-120 | panics exactly on a short client list; otherwise fails with "A thread exits with an error" exactly when collection fails, returns the collected results exactly when all threads reported, and blocks otherwise |
| `ServerThread.Connected` | src/threads/server.rs:41-88 | the thread's readiness and error checks are the controller's; the backup step always succeeds |
| `ServerThread.PollUntilReady` | src/threads/server.rs:59-61 | the readiness loop equals its specification: polls and sleeps until ready, an error, or the end of the observation |
| `ServerThread.WatchUntilStopped` | src/threads/server.rs:76-81 | the monitor loop equals its specification: an error check, a sleep, and a stop-flag read per round, until the flag reads true |
| `ServerThread.RunFromMonitor` | src/threads/server.rs:76-87 | monitoring, then the backup for Loading, equals its specification |
| `ServerThread.RunFromReady` | src/threads/server.rs:69-87 | the second barrier, then monitoring and finishing, equals its specification |
| `ServerThread.ExecuteServerThread` | src/threads/server.rs:41-88 | the whole server thread equals its specification `ServerRun` |
| `ServerThread.ServerReport` | src/threads/server.rs:23-31 | the report is `ServerSucceed` exactly on success and `Failed` exactly on error |
| `ServerThread.PrepareSucceeded` | src/threads/server.rs:45-53 | Loading deletes the database and then the backup; Benchmarking resets the database |
| `ServerThread.AwaitReadySucceeded` | src/threads/server.rs:59-61 | a successful wait is not-ready polls with sleeps, ending with a ready poll |
| `ServerThread.MonitorSucceeded` | src/threads/server.rs:76-81 | a successful watch is rounds of check, sleep and a false stop read, ending with a true stop read |
| `ServerThread.ServerRunSucceeded` | src/threads/server.rs:41-88 | a successful run is: send, prepare, barrier, start, ready polls, barrier, monitor rounds, and the backup for Loading |
| `ServerThread.ReadyPollsEvents` | src/threads/server.rs:59-61 | the ready phase holds only readiness polls and sleeps |
| `ServerThread.MonitorRoundsEvents` | src/threads/server.rs:76-81 | the monitor phase holds only error checks, sleeps and stop reads |
| `ServerThread.MonitorRoundsStopOnce` | src/threads/server.rs:77-80 | a finished watch reads a raised stop sign exactly once |
| `ServerThread.SucceededTraceCounts` | src/threads/server.rs:41-88 | a successful trace has two barrier waits, one start, one raised-stop read, and a backup exactly for Loading |
| `ServerThread.ServerRunSucceededCounts` | src/threads/server.rs:41-88 | the same counts hold for every successful server run |
| `ServerThread.BarrierNeedsPreparation` | src/threads/server.rs:43-56 | a server reaches the barrier exactly when sending and preparing succeeded |
| `ServerThread.MonitoringFollowsReadiness` | src/threads/server.rs:58-81 | error monitoring happens only after the start, the ready polls and the second barrier |
| `ServerThread.ServerStartsAfterBarrier` | src/threads/server.rs:43-58 | every run that starts the server, including one that fails later, has first sent the directory, prepared the database and waited at the barrier, so a failed send or preparation never reaches the start |
| `ServerThread.PollsFollowStart` | src/threads/server.rs:58-61 | the log is polled for readiness only in a run that started the server, so a failed send or preparation never reaches the polls |
| `ClientThread.Connected` | src/threads/client.rs:34-61 | the thread's completion probe is the controller's; the CSV pull and the throughput read are answered by the remote world |
| `ClientThread.PollUntilFinished` | src/threads/client.rs:48-50 | the completion loop equals its specification |
| `ClientThread.RunFromFinished` | src/threads/client.rs:48-60 | polling, then the collection of results, equals its specification |
| `ClientThread.ExecuteClientThread` | src/threads/client.rs:34-61 | the whole client thread equals its specification `ClientRun` |
| `ClientThread.ClientReport` | src/threads/client.rs:21-28 | success reports `ClientSucceed` with the thread's value; an error reports `Failed`, both directions |
| `ClientThread.AwaitFinishedSucceeded` | src/threads/client.rs:48-50 | a successful wait is unfinished polls with sleeps, ending with a finished poll |
| `ClientThread.AwaitFinishedEvents` | src/threads/client.rs:48-50 | the wait holds only completion polls and sleeps, and never panics |
| `ClientThread.FromFinishedSucceeded` | src/threads/client.rs:48-60 | after the wait, Benchmarking pulls the CSVs and reads the throughput; the value is absent exactly for Loading |
| `ClientThread.ClientRunSucceeded` | src/threads/client.rs:34-61 | a successful run is: clean, send, two barrier waits, start, polls, then the collection; the value is absent exactly for Loading |
| `ClientThread.ClientPanicsOnMissingReportDir` | src/threads/client.rs:52-53 | a client panics only when benchmarking without a report directory, after it has started and finished |
| `ClientThread.ClientBarrierWaits` | src/threads/client.rs:36-41 | a client waits twice at the barrier exactly when cleaning and sending succeeded, and never otherwise |
| `ClientThread.ClientStartsAfterBarriers` | src/threads/client.rs:36-47 | a client that starts has first cleaned, sent, and passed both barriers |
| `Preparation.PropertiesFileMap.constructor` | src/preparation.rs:31 | the map starts as the default properties |
| `Preparation.PropertiesFileMap.Set` | src/preparation.rs:63-67 | `set` changes exactly one (file, key) entry |
| `Preparation.PropertiesFileMap.OverrideWith` | src/preparation.rs:34 | each override replaces or adds its entry |
| `Preparation.BuildView` | src/preparation.rs:79-86 | the view loop builds exactly `View`: each node's text, preceded by ", " exactly when its id is not 0 |
| `Preparation.ViewOfDenseIds` | src/preparation.rs:79-86 | with ids 0, 1, 2, ... in order, the view is the texts joined with ", " |
| `Preparation.SequencerAloneKeepsSeparator` | src/preparation.rs:87-90 | with no servers, the server view is still ", " and then the sequencer |
| `Preparation.SetPaths` | src/preparation.rs:62-73 | sets the database directory to `<work>/databases` and the output directory to `<work>/results`; nothing else changes |
| `Preparation.StandAloneValue` | src/preparation.rs:111-124 | "true" exactly with a sequencer, "false" exactly without |
| `Preparation.SetConnectionProperties` | src/preparation.rs:75-127 | sets the server view (servers, then the sequencer), the client view (never the sequencer) and the stand-alone flag; nothing else changes |
| `Preparation.SetElasqlProperties` | src/preparation.rs:129-135 | sets the partition count to the decimal server count |
| `Preparation.ConnectedCheckIsLs` | src/preparation.rs:55-57 | the check step is `ls` of the file and the copy step is `cp` of it into "benchmarker" |
| `Preparation.CopyFilesCallsArePrefix` | src/preparation.rs:49-60 | the copy issues `ls` then `cp` per file, in order, and stops early exactly when it fails |
| `Preparation.CopyFilesFailsAtLastCall` | src/preparation.rs:49-60 | a failed copy fails with its last call's error, and every earlier call succeeded |
| `Preparation.CopyFilesSucceedsIffEveryCall` | src/preparation.rs:49-60 | the copy succeeds exactly when every `ls` and every `cp` succeeds |
| `Preparation.CopyEach` | src/preparation.rs:52-59 | the copy loop computes exactly the copy specification |
| `Preparation.FixedKeysDiffer` | src/preparation.rs:62-135 | the six fixed keys are six different properties |
| `Preparation.FixedKeysWin` | src/preparation.rs:33-37 | the paths, views, stand-alone flag and partition count win over any override; every other key keeps its override, or else its default |
| `Preparation.PartitionCountRoundTrip` | src/preparation.rs:129-135 | the partition count parses back to the number of servers |
| `Preparation.PrepareBenchDir` | src/preparation.rs:18-47 | a missing jar directory fails before anything is copied; a failed copy stops before the properties; otherwise the properties are the defaults, then the overrides, then the fixed keys |
| `Subcommands.PathPush` | src/subcommands/mod.rs:58 | an absolute component replaces the path; otherwise the component becomes the tail |
| `Subcommands.PathPushAddsOneSeparator` | src/subcommands/mod.rs:73-76 | joining onto a path without a trailing "/" inserts exactly one "/" |
| `Subcommands.PathPushKeepsSingleSeparator` | src/subcommands/mod.rs:73-76 | joining onto a path that ends with "/" adds no second "/" |
| `Subcommands.JarPaths` | src/subcommands/mod.rs:57-62 | exactly two jar paths are copied, whatever the directory name |
| `Subcommands.JarPathsAgreeWithFormat` | src/subcommands/mod.rs:57-70 | for a plain directory name these are `jars/<dir>/server.jar` and `jars/<dir>/client.jar` |
| `Subcommands.PathsAgreeWithFormat` | src/subcommands/mod.rs:72-91 | with no trailing "/" on the work directory, the paths are `<work>/databases` and `<work>/results` |
| `Subcommands.SetPaths` | src/subcommands/mod.rs:72-91 | sets the database and output directories to the joined paths; nothing else changes |
| `Subcommands.ConfigWinsOverOverrides` | src/subcommands/mod.rs:39-45 | the configured server address and the paths win over any override; other keys keep their override or default |
| `Subcommands.PrepareBenchDir` | src/subcommands/mod.rs:20-55 | a missing "jar.dir" fails with its message and no calls; a failed copy stops; otherwise the properties are the defaults, overrides, paths and SERVER_IP |
| `Config.Machines.FromFile` | src/config.rs:27-41 | after loading, `alls` is the sequencers, then the servers, then the clients |
| `Config.Machines.GenerateAllIps` | src/config.rs:43-53 | appends every sequencer, server and client, in order, after the existing entries; the three lists are unchanged |
| `Config.AllIpsLayout` | src/config.rs:43-53 | the generated list has the summed length, keeps order and duplicates, and holds exactly the configured machines |
| `Load.Execute` | src/load.rs:21-50 | succeeds exactly when the count parses and is at most the server count; a parse failure wraps Rust's message under "parsing # of machines fails"; a larger count is refused |
| `Load.AcceptsAvailableCounts` | src/load.rs:24-36 | every count up to the server count is accepted |
| `Load.RefusesLargerCounts` | src/load.rs:28-36 | every larger count is refused with "There are only ..." |
| `Load.EmptyArgumentIsParseFailure` | src/load.rs:24-25 | an empty argument is a parse failure, not zero |
| `Load.TooFewServersNamesCount` | src/load.rs:29-34 | refusals for different server counts have different texts, so the text identifies the count |

## Left out

- Processes, the network, the local file system, sleeps and logging are not
  modelled. A remote reply comes from the `Remote.World` oracle. Creating the
  benchmark directory (`create_dir_all`) and reading the default properties
  (`from_dir`) are assumed to succeed. The defaults are an input.
- Concurrency is not modelled. Each thread is modelled as its own run against
  the world; the barrier shows up as events in the traces. The orchestrator
  takes the order in which outcomes arrive on the channel as an input.
- `ServerThread.ExecuteServerThread`: the source's polling loops have no bound.
  Here the readiness loop runs on fuel, and the monitor loop reads a finite list
  of stop-flag values. Running out of either ends the run as `Cut` (the
  observation ended), not as an error.
- `ClientThread.ExecuteClientThread`: the completion loop runs on fuel for the
  same reason.
- `ServerThread.WatchUntilStopped`: reading a poisoned stop-sign lock
  (`stop_sign.read()?`) is not modelled. The orchestrator is the only writer and
  never panics while it holds the lock.
- `Threads.RunInThreads`: threads are not joined, the remote processes that are
  still running are not modelled, and a panic inside `unwrap()` on the channel
  is not modelled. A panic of `client_list[i]` is modelled as an outcome.
- `Preparation.PrepareBenchDir` and `Subcommands.PrepareBenchDir` return the
  final properties map instead of the VM argument string. Writing the files
  (`output_to_dir`) and building the VM arguments (`get_vm_args`) belong to
  src/properties.rs, which is not part of this model.
- `Preparation.PropertiesFileMap.OverrideWith`: `override_properties` is called
  in src/preparation.rs:34 but not defined in src/parameters.rs. It is taken to
  write each parameter into the map, replacing the current value.
- Some operations are called but never defined in the repository's source, and
  the world answers them:
  - `command::scp_from` and `command::cp` are not defined in src/command.rs;
  - `delete_db_dir` (src/threads/server.rs:47) is not defined in
    src/connections/server.rs;
  - `pull_csv(dir)` and `get_total_throughput` (src/threads/client.rs:53-54)
    are not defined in src/connections/client.rs.
  `command::scp_to` is also not defined, and is taken to be `command::scp`
  (src/command.rs:37-67).
- `Errors`: src/error.rs and the controllers use different error variants.
  `CommandFailedOnRemote(_, _, code, _)` is read as `CommandFails(code)`, and
  `BenchError::Message(text)` is read as `Throw(text)`.
- `pull_log` is `unimplemented!()` in both controllers and is not modelled.
  `Server::new` and `Client::new` only store their arguments; they become the
  `ServerConnection.Server` and `ClientConnection.Client` values.
- `Subcommands.PathPush`: only Unix paths are modelled (no drive prefixes).
- `Config.Machines.FromFile`: opening, reading and TOML-parsing the file, and
  their error messages, are not modelled. The parsed lists are its input.
- `Load.Execute`: the argument lookup (clap guarantees both arguments are
  present) and the closing `println!` are not modelled.
- `Strings.ParseUsize`: a 64-bit `usize` is assumed.
- src/init_env.rs, src/subcommands/init_env.rs, src/subcommands/pull.rs,
  src/subcommands/all_execute.rs, src/subcommands/load.rs,
  src/subcommands/benchmark.rs, src/main.rs, src/parameters.rs and
  src/properties.rs are not part of this model. They are remote provisioning,
  command-line glue and file formats around the core.
