/** The remote machines as the controllers see them: every call a controller
    issues is logged, and its reply comes from a `World`, an oracle that
    answers the k-th call of a thread's log. The controllers are
    deterministic, so an oracle indexed by position can describe any
    behaviour of the remote shell. */
module Remote {
  import opened Errors
  import Command

  /** One external call.
      `Exec` is a process that src/command.rs launches (`ssh`, `scp`, `ls`)
      with its exact arguments. The other calls stand for operations that are
      called but not defined in the repository's source: `command::scp_from`
      and `command::cp` (src/command.rs defines neither), and the controller
      methods `delete_db_dir`, `pull_csv(dir)` and `get_total_throughput`. */
  datatype Call =
    | Exec(program: string, args: seq<string>)
    | ScpFrom(isDir: bool, user: string, host: string, remotePath: string, localPath: string)
    | LocalCopy(isDir: bool, from: string, to: string)
    | DeleteDbDir(host: string)
    | PullCsvInto(host: string, dir: string)
    | GetTotalThroughput(host: string)

  /** The oracle: how the process launched by the k-th call ended, what the
      k-th call returned when it is an operation not modelled here, and the
      throughput it reported when it asked for one. */
  datatype World = World(
    process: nat -> Command.Spawn,
    effect: nat -> Result<()>,
    throughput: nat -> Result<U32>)

  /** What an operation returned, with the calls it issued, in order. */
  datatype Out<T> = Out(result: Result<T>, calls: seq<Call>)

  function SshCall(user: string, host: string, cmd: string): Call
  {
    Exec("ssh", Command.SshArgs(user, host, cmd))
  }

  /** `command::ssh`, issued as call number `t`. */
  function Ssh(w: World, t: nat, user: string, host: string, cmd: string): Out<string>
  {
    Out(Command.ClassifySsh(w.process(t)), [SshCall(user, host, cmd)])
  }

  /** `command::scp_to`, which src/command.rs does not define: taken to be
      `command::scp` (src/command.rs:37-67), a copy to the remote machine. */
  function ScpTo(w: World, t: nat, isDir: bool, user: string, host: string, local: string, remote: string): Out<string>
  {
    Out(Command.ClassifyCopy(w.process(t), Command.SPAWN_LABEL),
        [Exec("scp", Command.ScpArgs(isDir, user, host, local, remote))])
  }

  /** `command::ls`. */
  function Ls(w: World, t: nat, path: string): Out<string>
  {
    Out(Command.ClassifyCopy(w.process(t), Command.LS_SPAWN_LABEL), [Exec("ls", [path])])
  }

  /** An operation whose implementation is not modelled: the oracle answers. */
  function Effect(w: World, t: nat, call: Call): Out<()>
  {
    Out(w.effect(t), [call])
  }

  /** Drops the output text, keeping success or the error. */
  function Discard(o: Out<string>): (r: Out<()>)
    ensures r.calls == o.calls
    ensures r.result.Ok? <==> o.result.Ok?
    ensures r.result.Err? ==> r.result.error == o.result.error
  {
    Out(if o.result.Ok? then Ok(()) else Err(o.result.error), o.calls)
  }

  /** The three-way outcome of a keyword search: a match (with the matching
      lines), no match (`grep` exits with 1), or a hard error. */
  datatype Probe = Found(text: string) | NotFound | ProbeError(error: BenchError)

  function ProbeOf(r: Result<string>): (p: Probe)
    ensures p.Found? <==> r.Ok?
    ensures p.Found? ==> p.text == r.value
    ensures p.NotFound? <==> r == Err(CommandFails(1))
    ensures p.ProbeError? ==> r == Err(p.error) && p.error != CommandFails(1)
  {
    if r.Ok? then Found(r.value)
    else if r.error == CommandFails(1) then NotFound
    else ProbeError(r.error)
  }

  /** A remote search finds nothing exactly when the remote command exited
      with status 1, and matches exactly when it exited with 0 and printed
      UTF-8 text. */
  lemma ProbeOfSsh(p: Command.Spawn)
    ensures ProbeOf(Command.ClassifySsh(p)).NotFound? <==> p.Exited? && p.status == Command.Code(1)
    ensures ProbeOf(Command.ClassifySsh(p)).Found?
        <==> p.Exited? && p.status == Command.Code(0) && p.stdout.Utf8?
  {
  }

  /** The idempotent-cleanup rule: success, or exit status 1 ("nothing to
      kill", "nothing to delete"), is success; any other error propagates. */
  function TolerateExit1(r: Result<string>): (u: Result<()>)
    ensures u.Ok? <==> r.Ok? || r == Err(CommandFails(1))
    ensures u.Err? ==> u.error == r.error
  {
    if r.Ok? || r.error == CommandFails(1) then Ok(()) else Err(r.error)
  }

  /** A remote cleanup succeeds exactly when the command exited with 1, or
      with 0 and readable output. */
  lemma TolerateExit1OfSsh(p: Command.Spawn)
    ensures TolerateExit1(Command.ClassifySsh(p)).Ok?
        <==> p.Exited? && (p.status == Command.Code(1) || (p.status == Command.Code(0) && p.stdout.Utf8?))
  {
  }

  /** The detached launch both controllers use: the Java binary, the VM
      arguments, the jar, the program arguments, output and errors sent to
      the log, and `&` so that the shell returns at once. */
  function LaunchCommand(java: string, vmArgs: string, jar: string, progArgs: string, log: string): string
  {
    java + " " + vmArgs + " -jar " + jar + " " + progArgs + " > " + log + " 2>&1 &"
  }

  /** The launch command is backgrounded and its tail names the log file. */
  lemma LaunchCommandIsDetached(java: string, vmArgs: string, jar: string, progArgs: string, log: string)
    ensures var c := LaunchCommand(java, vmArgs, jar, progArgs, log);
      && |c| >= |log| + 10
      && c[|c| - |log| - 10..] == " > " + log + " 2>&1 &"
      && c[|c| - 1] == '&'
  {
    var c := LaunchCommand(java, vmArgs, jar, progArgs, log);
    var head := java + " " + vmArgs + " -jar " + jar + " " + progArgs;
    assert c == head + (" > " + log + " 2>&1 &");
  }

  /** The remote search of a log file for a keyword. */
  function GrepCommand(keyword: string, log: string): string
  {
    "grep '" + keyword + "' " + log
  }

  /** What the `k`-th call would return if it ran `ssh`. */
  function SshReply(w: World, k: nat): Result<string>
  {
    Command.ClassifySsh(w.process(k))
  }

  /** The prefix of the message for an error found in a log. */
  const ERROR_PREFIX := "Server error: "

  /** The error scan both controllers run before every readiness or
      completion probe: search the log for "Exception", then for "error"; the
      first search that matches fails the check with the matching lines, and
      a search that fails in any way (no match or a hard error) is ignored. */
  function ScanLogForErrors(w: World, t: nat, user: string, host: string, log: string): (o: Out<()>)
    ensures |o.calls| >= 1 && o.calls[0] == SshCall(user, host, GrepCommand("Exception", log))
    ensures SshReply(w, t).Ok?
        ==> o == Out(Err(Message(ERROR_PREFIX + SshReply(w, t).value)), [SshCall(user, host, GrepCommand("Exception", log))])
    ensures !SshReply(w, t).Ok?
        ==> o.calls == [SshCall(user, host, GrepCommand("Exception", log)), SshCall(user, host, GrepCommand("error", log))]
    ensures o.result.Ok? <==> !SshReply(w, t).Ok? && !SshReply(w, t + 1).Ok?
    ensures !SshReply(w, t).Ok? && SshReply(w, t + 1).Ok?
        ==> o.result == Err(Message(ERROR_PREFIX + SshReply(w, t + 1).value))
  {
    var exception := Ssh(w, t, user, host, GrepCommand("Exception", log));
    if exception.result.Ok? then
      Out(Err(Message(ERROR_PREFIX + exception.result.value)), exception.calls)
    else
      var error := Ssh(w, t + 1, user, host, GrepCommand("error", log));
      if error.result.Ok? then
        Out(Err(Message(ERROR_PREFIX + error.result.value)), exception.calls + error.calls)
      else
        Out(Ok(()), exception.calls + error.calls)
  }

  /** A readiness or completion probe: the error scan, then a search for the
      keyword, which answers true on a match, false when `grep` exits with 1,
      and fails on anything else. */
  function CheckLogFor(w: World, t: nat, user: string, host: string, log: string, keyword: string): (o: Out<bool>)
    ensures var scan := ScanLogForErrors(w, t, user, host, log);
      && (scan.result.Err? ==> o == Out(Err(scan.result.error), scan.calls))
      && (scan.result.Ok? ==> o.calls == scan.calls + [SshCall(user, host, GrepCommand(keyword, log))])
      && (o.result == Ok(true) <==> scan.result.Ok? && ProbeOf(SshReply(w, t + 2)).Found?)
      && (o.result == Ok(false) <==> scan.result.Ok? && ProbeOf(SshReply(w, t + 2)).NotFound?)
      && ((scan.result.Ok? && ProbeOf(SshReply(w, t + 2)).ProbeError?)
            ==> o.result == Err(ProbeOf(SshReply(w, t + 2)).error))
  {
    var scan := ScanLogForErrors(w, t, user, host, log);
    if scan.result.Err? then
      Out(Err(scan.result.error), scan.calls)
    else
      var search := Ssh(w, t + |scan.calls|, user, host, GrepCommand(keyword, log));
      var answer := match ProbeOf(search.result)
        case Found(_) => Ok(true)
        case NotFound => Ok(false)
        case ProbeError(e) => Err(e);
      Out(answer, scan.calls + search.calls)
  }

  /** The probe answers true only when neither error search matched and the
      keyword search did; then three searches were issued. */
  lemma CheckLogForTrue(w: World, t: nat, user: string, host: string, log: string, keyword: string)
    requires CheckLogFor(w, t, user, host, log, keyword).result == Ok(true)
    ensures !SshReply(w, t).Ok? && !SshReply(w, t + 1).Ok? && SshReply(w, t + 2).Ok?
    ensures CheckLogFor(w, t, user, host, log, keyword).calls == [
      SshCall(user, host, GrepCommand("Exception", log)),
      SshCall(user, host, GrepCommand("error", log)),
      SshCall(user, host, GrepCommand(keyword, log))]
  {
  }
}
