/** The controller of a server node (src/connections/server.rs): the paths
    and command lines it builds, and how it reads the replies of the remote
    shell. Every operation is issued as call number `t` onwards of the
    thread's log and returns its result with the calls it made. */
module ServerConnection {
  import opened Errors
  import opened Remote
  import Command

  /** A server controller: the settings it reads from the configuration and
      the node it drives. */
  datatype Server = Server(
    userName: string,
    remoteWorkDir: string,
    remoteJavaBin: string,
    address: string,
    benchType: string,
    vmArgs: string)

  const READY_KEYWORD := "VanillaBench server ready"
  const KILL_COMMAND := "pkill -f benchmarker"
  const BENCH_DIR := "benchmarker"

  function DbPath(s: Server): string
  {
    s.remoteWorkDir + "/databases/" + s.benchType
  }

  function BackupDbPath(s: Server): string
  {
    s.remoteWorkDir + "/databases/" + s.benchType + "-backup"
  }

  function JarPath(s: Server): string
  {
    s.remoteWorkDir + "/benchmarker/server.jar"
  }

  function LogPath(s: Server): string
  {
    s.remoteWorkDir + "/server.log"
  }

  /** The backup sits beside the database, under the same name with a
      "-backup" suffix, so the two paths never coincide. */
  lemma BackupDbPathIsBeside(s: Server)
    ensures BackupDbPath(s) == DbPath(s) + "-backup"
    ensures BackupDbPath(s) != DbPath(s)
  {
    assert |BackupDbPath(s)| == |DbPath(s)| + 7;
  }

  function Call(s: Server, cmd: string): Remote.Call
  {
    SshCall(s.userName, s.address, cmd)
  }

  /** `kill_existing_process`: succeeds when `pkill` killed something or
      found nothing to kill (exit 1); any other error propagates unchanged. */
  function KillExistingProcess(s: Server, w: World, t: nat): (o: Out<()>)
    ensures o.calls == [Call(s, KILL_COMMAND)]
    ensures o.result.Ok? <==> SshReply(w, t).Ok? || SshReply(w, t) == Err(CommandFails(1))
    ensures o.result.Err? ==> o.result.error == SshReply(w, t).error
  {
    var r := Ssh(w, t, s.userName, s.address, KILL_COMMAND);
    Out(TolerateExit1(r.result), r.calls)
  }

  /** `send_bench_dir`: copies the local "benchmarker" directory recursively
      into the remote working directory. */
  function SendBenchDir(s: Server, w: World, t: nat): (o: Out<()>)
    ensures o.calls == [Exec("scp", ["-r", BENCH_DIR, Command.RemoteTarget(s.userName, s.address, s.remoteWorkDir)])]
    ensures o.result.Ok? <==> Command.ClassifyCopy(w.process(t), Command.SPAWN_LABEL).Ok?
    ensures o.result.Err? ==> o.result.error == Command.ClassifyCopy(w.process(t), Command.SPAWN_LABEL).error
  {
    assert Command.ScpArgs(true, s.userName, s.address, BENCH_DIR, s.remoteWorkDir)
      == ["-r", BENCH_DIR, Command.RemoteTarget(s.userName, s.address, s.remoteWorkDir)];
    Discard(ScpTo(w, t, true, s.userName, s.address, BENCH_DIR, s.remoteWorkDir))
  }

  /** `delete_db_dir`: called by the server thread (src/threads/server.rs:47)
      but not defined in src/connections/server.rs, so the oracle answers it. */
  function DeleteDbDir(s: Server, w: World, t: nat): (o: Out<()>)
    ensures o.calls == [Remote.DeleteDbDir(s.address)] && o.result == w.effect(t)
  {
    Effect(w, t, Remote.DeleteDbDir(s.address))
  }

  /** `delete_backup_db_dir`: `rm -rf` of the backup; exit 1 is no error. */
  function DeleteBackupDbDir(s: Server, w: World, t: nat): (o: Out<()>)
    ensures o.calls == [Call(s, "rm -rf " + BackupDbPath(s))]
    ensures o.result.Ok? <==> SshReply(w, t).Ok? || SshReply(w, t) == Err(CommandFails(1))
    ensures o.result.Err? ==> o.result.error == SshReply(w, t).error
  {
    var r := Ssh(w, t, s.userName, s.address, "rm -rf " + BackupDbPath(s));
    Out(TolerateExit1(r.result), r.calls)
  }

  /** `backup_db`: copies the database to the backup path and succeeds
      whatever the copy returned. */
  function BackupDb(s: Server, w: World, t: nat): (o: Out<()>)
    ensures o.calls == [Call(s, "cp -r " + DbPath(s) + " " + BackupDbPath(s))]
    ensures o.result == Ok(())
  {
    var r := Ssh(w, t, s.userName, s.address, "cp -r " + DbPath(s) + " " + BackupDbPath(s));
    Out(Ok(()), r.calls)
  }

  /** `reset_db_dir`: deletes the database, then copies the backup in its
      place; a failed delete stops it before the copy. */
  function ResetDbDir(s: Server, w: World, t: nat): (o: Out<()>)
    ensures SshReply(w, t).Err?
        ==> o == Out(Err(SshReply(w, t).error), [Call(s, "rm -rf " + DbPath(s))])
    ensures SshReply(w, t).Ok?
        ==> o.calls == [Call(s, "rm -rf " + DbPath(s)), Call(s, "cp -r " + BackupDbPath(s) + " " + DbPath(s))]
    ensures o.result.Ok? <==> SshReply(w, t).Ok? && SshReply(w, t + 1).Ok?
    ensures SshReply(w, t).Ok? && SshReply(w, t + 1).Err? ==> o.result == Err(SshReply(w, t + 1).error)
  {
    var delete := Ssh(w, t, s.userName, s.address, "rm -rf " + DbPath(s));
    if delete.result.Err? then
      Out(Err(delete.result.error), delete.calls)
    else
      var copy := Ssh(w, t + 1, s.userName, s.address, "cp -r " + BackupDbPath(s) + " " + DbPath(s));
      Out(Discard(copy).result, delete.calls + copy.calls)
  }

  /** The command that launches the server: the benchmark type is its only
      program argument, and it runs detached with its output in server.log. */
  function StartCommand(s: Server): string
  {
    LaunchCommand(s.remoteJavaBin, s.vmArgs, JarPath(s), s.benchType, LogPath(s))
  }

  lemma StartCommandText(s: Server)
    ensures StartCommand(s) == s.remoteJavaBin + " " + s.vmArgs + " -jar " + s.remoteWorkDir
      + "/benchmarker/server.jar " + s.benchType + " > " + s.remoteWorkDir + "/server.log 2>&1 &"
  {
  }

  /** `start`: issues the launch and returns once the shell accepted it. */
  function Start(s: Server, w: World, t: nat): (o: Out<()>)
    ensures o.calls == [Call(s, StartCommand(s))]
    ensures o.result.Ok? <==> SshReply(w, t).Ok?
    ensures o.result.Err? ==> o.result.error == SshReply(w, t).error
  {
    Discard(Ssh(w, t, s.userName, s.address, StartCommand(s)))
  }

  /** The searches of server.log. */
  lemma GrepCommandText(s: Server, keyword: string)
    ensures GrepCommand(keyword, LogPath(s)) == "grep '" + keyword + "' " + s.remoteWorkDir + "/server.log"
  {
  }

  /** `check_for_error`: the error scan of server.log. */
  function CheckForError(s: Server, w: World, t: nat): (o: Out<()>)
    ensures |o.calls| >= 1 && o.calls[0] == Call(s, GrepCommand("Exception", LogPath(s)))
    ensures o.result.Ok? <==> !SshReply(w, t).Ok? && !SshReply(w, t + 1).Ok?
  {
    ScanLogForErrors(w, t, s.userName, s.address, LogPath(s))
  }

  /** `check_for_ready`: the error scan, then a search for the readiness line. */
  function CheckForReady(s: Server, w: World, t: nat): (o: Out<bool>)
    ensures o.result == Ok(true)
        ==> |o.calls| == 3 && o.calls[2] == Call(s, GrepCommand(READY_KEYWORD, LogPath(s)))
    ensures o.result == Ok(true) <==> CheckForError(s, w, t).result.Ok? && SshReply(w, t + 2).Ok?
    ensures o.result == Ok(false) <==> CheckForError(s, w, t).result.Ok? && SshReply(w, t + 2) == Err(CommandFails(1))
  {
    CheckLogFor(w, t, s.userName, s.address, LogPath(s), READY_KEYWORD)
  }
}
