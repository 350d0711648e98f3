/** The controller of a client node (src/connections/client.rs). Same shape
    as the server controller: paths, command lines, and the reading of the
    remote shell's replies. */
module ClientConnection {
  import opened Errors
  import opened Remote
  import opened Connections
  import Command
  import Strings

  datatype Client = Client(
    userName: string,
    remoteWorkDir: string,
    remoteJavaBin: string,
    address: string,
    vmArgs: string)

  const KILL_COMMAND := "pkill -f benchmarker"
  const BENCH_DIR := "benchmarker"
  const LOCAL_RESULTS_DIR := "results"

  function JarPath(c: Client): string
  {
    c.remoteWorkDir + "/benchmarker/client.jar"
  }

  function LogPath(c: Client): string
  {
    c.remoteWorkDir + "/client.log"
  }

  function ResultPath(c: Client): string
  {
    c.remoteWorkDir + "/results"
  }

  function Call(c: Client, cmd: string): Remote.Call
  {
    SshCall(c.userName, c.address, cmd)
  }

  /** The log line a client prints when its action is over. */
  function CompletionKeyword(a: Action): (keyword: string)
    ensures a == Loading ==> keyword == "loading procedure finished."
    ensures a == Benchmarking ==> keyword == "benchmark process finished."
  {
    match a
    case Loading => "loading procedure finished."
    case Benchmarking => "benchmark process finished."
  }

  /** The two actions wait for different lines. */
  lemma CompletionKeywordsDiffer()
    ensures CompletionKeyword(Loading) != CompletionKeyword(Benchmarking)
  {
    assert CompletionKeyword(Loading)[0] != CompletionKeyword(Benchmarking)[0];
  }

  /** `kill_existing_process`: exit 1 (nothing to kill) is success. */
  function KillExistingProcess(c: Client, w: World, t: nat): (o: Out<()>)
    ensures o.calls == [Call(c, KILL_COMMAND)]
    ensures o.result.Ok? <==> SshReply(w, t).Ok? || SshReply(w, t) == Err(CommandFails(1))
    ensures o.result.Err? ==> o.result.error == SshReply(w, t).error
  {
    var r := Ssh(w, t, c.userName, c.address, KILL_COMMAND);
    Out(TolerateExit1(r.result), r.calls)
  }

  /** `send_bench_dir`: the local "benchmarker" directory, recursively, into
      the remote working directory. */
  function SendBenchDir(c: Client, w: World, t: nat): (o: Out<()>)
    ensures o.calls == [Exec("scp", ["-r", BENCH_DIR, Command.RemoteTarget(c.userName, c.address, c.remoteWorkDir)])]
    ensures o.result.Ok? <==> Command.ClassifyCopy(w.process(t), Command.SPAWN_LABEL).Ok?
    ensures o.result.Err? ==> o.result.error == Command.ClassifyCopy(w.process(t), Command.SPAWN_LABEL).error
  {
    assert Command.ScpArgs(true, c.userName, c.address, BENCH_DIR, c.remoteWorkDir)
      == ["-r", BENCH_DIR, Command.RemoteTarget(c.userName, c.address, c.remoteWorkDir)];
    Discard(ScpTo(w, t, true, c.userName, c.address, BENCH_DIR, c.remoteWorkDir))
  }

  /** `clean_previous_results`: `rm -r` of the results directory; exit 1
      (nothing to delete) is success, other errors propagate. */
  function CleanPreviousResults(c: Client, w: World, t: nat): (o: Out<()>)
    ensures o.calls == [Call(c, "rm -r " + ResultPath(c))]
    ensures o.result.Ok? <==> SshReply(w, t).Ok? || SshReply(w, t) == Err(CommandFails(1))
    ensures o.result.Err? ==> o.result.error == SshReply(w, t).error
  {
    var r := Ssh(w, t, c.userName, c.address, "rm -r " + ResultPath(c));
    Out(TolerateExit1(r.result), r.calls)
  }

  /** The command that launches the client: its only program argument is the
      action's code, and it runs detached with its output in client.log. */
  function StartCommand(c: Client, a: Action): string
  {
    LaunchCommand(c.remoteJavaBin, c.vmArgs, JarPath(c), Strings.Decimal(AsInt(a)), LogPath(c))
  }

  /** The program argument reads back as the action's code. */
  lemma StartCommandArgument(a: Action)
    ensures Strings.Decimal(AsInt(a)) == (if a == Loading then "1" else "2")
    ensures Strings.ParseUsize(Strings.Decimal(AsInt(a))) == Strings.Parsed(AsInt(a))
  {
    Strings.DecimalRoundTrip(AsInt(a));
  }

  /** `start`: issues the launch and returns once the shell accepted it. */
  function Start(c: Client, a: Action, w: World, t: nat): (o: Out<()>)
    ensures o.calls == [Call(c, StartCommand(c, a))]
    ensures o.result.Ok? <==> SshReply(w, t).Ok?
    ensures o.result.Err? ==> o.result.error == SshReply(w, t).error
  {
    Discard(Ssh(w, t, c.userName, c.address, StartCommand(c, a)))
  }

  /** `check_for_finished`: the error scan of client.log ("Exception", then
      "error"), then a search for the action's completion line. */
  function CheckForFinished(c: Client, a: Action, w: World, t: nat): (o: Out<bool>)
    ensures |o.calls| >= 1 && o.calls[0] == Call(c, GrepCommand("Exception", LogPath(c)))
    ensures o.result == Ok(true)
        ==> |o.calls| == 3 && o.calls[2] == Call(c, GrepCommand(CompletionKeyword(a), LogPath(c)))
    ensures o.result == Ok(true)
        <==> !SshReply(w, t).Ok? && !SshReply(w, t + 1).Ok? && SshReply(w, t + 2).Ok?
    ensures o.result == Ok(false)
        <==> !SshReply(w, t).Ok? && !SshReply(w, t + 1).Ok? && SshReply(w, t + 2) == Err(CommandFails(1))
  {
    CheckLogFor(w, t, c.userName, c.address, LogPath(c), CompletionKeyword(a))
  }

  /** `pull_csv` of src/connections/client.rs:114-125: the CSV files of the
      remote results directory, not recursively, into the local "results"
      directory. `command::scp_from` is not
      defined in src/command.rs, so the oracle answers. */
  function PullCsv(c: Client, w: World, t: nat): (o: Out<()>)
    ensures o.calls == [ScpFrom(false, c.userName, c.address, c.remoteWorkDir + "/results/*.csv", LOCAL_RESULTS_DIR)]
    ensures o.result == w.effect(t)
  {
    assert ResultPath(c) + "/*.csv" == c.remoteWorkDir + "/results/*.csv";
    Effect(w, t, ScpFrom(false, c.userName, c.address, ResultPath(c) + "/*.csv", LOCAL_RESULTS_DIR))
  }
}
