/** Launching `ssh`, `scp` and `ls` and classifying how they ended
    (src/command.rs). The process itself is not run: what it returned is a
    value of type `Spawn`, handed to the classifiers below. */
module Command {
  import opened Errors

  /** `status.code()`: an exit code, or none when a signal ended the process. */
  datatype ExitStatus = Code(code: I32) | Signalled

  /** The captured standard output, decoded as UTF-8 or not. */
  datatype Stdout = Utf8(text: string) | NotUtf8(reason: string)

  /** What `Command::output()` gave back: the process could not be launched
      (with the text of the I/O error), or it ended. */
  datatype Spawn = SpawnFailed(reason: string) | Exited(status: ExitStatus, stdout: Stdout)

  const SIGNAL_MESSAGE := "the command terminates by a signal"
  const SPAWN_LABEL := "execute command fails"
  const LS_SPAWN_LABEL := "executes ls fails"
  const DECODE_LABEL := "parsing command output fails"

  /** The exit-0 branch: the output text, or an error when it is not UTF-8. */
  function Decode(out: Stdout): (r: Result<string>)
    ensures r.Ok? <==> out.Utf8?
    ensures r.Ok? ==> r.value == out.text
    ensures r.Err? ==> r.error == ThrowWith(DECODE_LABEL, out.reason)
  {
    match out
    case Utf8(text) => Ok(text)
    case NotUtf8(reason) => Err(ThrowWith(DECODE_LABEL, reason))
  }

  /** How `ssh` reads an outcome: 127 is a missing command, 0 success, any
      other code a failed command, no code a signal. */
  function ClassifySsh(p: Spawn): (r: Result<string>)
    ensures p.SpawnFailed? ==> r == Err(ThrowWith(SPAWN_LABEL, p.reason))
    ensures r == Err(NoSuchCommand) <==> p.Exited? && p.status == Code(127)
    ensures r.Ok? <==> p.Exited? && p.status == Code(0) && p.stdout.Utf8?
    ensures r.Ok? ==> r.value == p.stdout.text
    ensures (r.Err? && r.error.CommandFails?)
        <==> p.Exited? && p.status.Code? && p.status.code != 0 && p.status.code != 127
    ensures r.Err? && r.error.CommandFails? ==> r.error.code == p.status.code
    ensures r == Err(FileNotFound) ==> false
    ensures p.Exited? && p.status == Signalled ==> r == Err(Message(SIGNAL_MESSAGE))
  {
    match p
    case SpawnFailed(reason) => Err(ThrowWith(SPAWN_LABEL, reason))
    case Exited(status, out) =>
      match status
      case Code(c) =>
        if c == 127 then Err(NoSuchCommand)
        else if c == 0 then Decode(out)
        else Err(CommandFails(c))
      case Signalled => Err(Message(SIGNAL_MESSAGE))
  }

  /** How `scp` and `ls` read an outcome: 2 is a missing file, 0 success, any
      other code (127 included) a failed command, no code a signal. The label
      is the text put before a launch failure ("executes ls fails" for `ls`). */
  function ClassifyCopy(p: Spawn, spawnLabel: string): (r: Result<string>)
    ensures p.SpawnFailed? ==> r == Err(ThrowWith(spawnLabel, p.reason))
    ensures r == Err(FileNotFound) <==> p.Exited? && p.status == Code(2)
    ensures r.Ok? <==> p.Exited? && p.status == Code(0) && p.stdout.Utf8?
    ensures r.Ok? ==> r.value == p.stdout.text
    ensures (r.Err? && r.error.CommandFails?)
        <==> p.Exited? && p.status.Code? && p.status.code != 0 && p.status.code != 2
    ensures r.Err? && r.error.CommandFails? ==> r.error.code == p.status.code
    ensures r == Err(NoSuchCommand) ==> false
    ensures p.Exited? && p.status == Signalled ==> r == Err(Message(SIGNAL_MESSAGE))
  {
    match p
    case SpawnFailed(reason) => Err(ThrowWith(spawnLabel, reason))
    case Exited(status, out) =>
      match status
      case Code(c) =>
        if c == 0 then Decode(out)
        else if c == 2 then Err(FileNotFound)
        else Err(CommandFails(c))
      case Signalled => Err(Message(SIGNAL_MESSAGE))
  }

  /** The two classifications differ on exactly two exit codes: 2 (a failed
      command for `ssh`, a missing file for `scp`) and 127 (a missing command
      for `ssh`, a failed command for `scp`). */
  lemma ClassifiersDifferOnlyOn2And127(p: Spawn)
    ensures ClassifySsh(p) != ClassifyCopy(p, SPAWN_LABEL)
        <==> p.Exited? && (p.status == Code(2) || p.status == Code(127))
    ensures p.Exited? && p.status == Code(2)
        ==> ClassifySsh(p) == Err(CommandFails(2)) && ClassifyCopy(p, SPAWN_LABEL) == Err(FileNotFound)
    ensures p.Exited? && p.status == Code(127)
        ==> ClassifySsh(p) == Err(NoSuchCommand) && ClassifyCopy(p, SPAWN_LABEL) == Err(CommandFails(127))
  {
  }

  /** The `user@host` destination that `ssh` and `scp` address. */
  function Destination(user: string, host: string): string
  {
    user + "@" + host
  }

  /** The arguments of `ssh`: the destination, then the whole remote command
      as one argument. */
  function SshArgs(user: string, host: string, cmd: string): (args: seq<string>)
    ensures |args| == 2 && args[0] == Destination(user, host) && args[1] == cmd
  {
    [Destination(user, host), cmd]
  }

  /** The `user@host:path` target of a copy to a remote machine. */
  function RemoteTarget(user: string, host: string, path: string): string
  {
    Destination(user, host) + ":" + path
  }

  /** The arguments of `scp`: `-r` for a directory, the local path, the target. */
  function ScpArgs(isDir: bool, user: string, host: string, local: string, remote: string): seq<string>
  {
    (if isDir then ["-r"] else []) + [local, RemoteTarget(user, host, remote)]
  }

  /** `-r` is added exactly for directories and comes first; the local path
      and the target are always the last two arguments. */
  lemma ScpArgsShape(isDir: bool, user: string, host: string, local: string, remote: string)
    ensures var args := ScpArgs(isDir, user, host, local, remote);
      && |args| == (if isDir then 3 else 2)
      && (isDir ==> args[0] == "-r")
      && args[|args| - 2] == local
      && args[|args| - 1] == RemoteTarget(user, host, remote)
  {
  }

  /** The index of the first `c` in `s`, or `|s|` when there is none. */
  function FirstIndex(s: string, c: char): (i: nat)
    ensures i <= |s|
    ensures forall k :: 0 <= k < i ==> s[k] != c
    ensures i < |s| ==> s[i] == c
  {
    if s == [] then 0
    else if s[0] == c then 0
    else 1 + FirstIndex(s[1..], c)
  }

  /** Splits at the first `c`: what precedes it and what follows it. */
  function SplitFirst(s: string, c: char): (string, string)
  {
    var i := FirstIndex(s, c);
    if i < |s| then (s[..i], s[i + 1..]) else (s, "")
  }

  lemma {:induction false} FirstIndexAfterPrefix(u: string, c: char, rest: string)
    requires c !in u
    ensures FirstIndex(u + [c] + rest, c) == |u|
  {
    if u != [] {
      assert (u + [c] + rest)[1..] == u[1..] + [c] + rest;
      FirstIndexAfterPrefix(u[1..], c, rest);
    }
  }

  /** A copy target reads back unambiguously into user, host and path when the
      user name holds no `@` and the host no `:`. */
  lemma RemoteTargetSplits(user: string, host: string, path: string)
    requires '@' !in user && ':' !in host
    ensures var (u, rest) := SplitFirst(RemoteTarget(user, host, path), '@');
      && u == user
      && SplitFirst(rest, ':') == (host, path)
  {
    var t := RemoteTarget(user, host, path);
    var rest := host + [':'] + path;
    assert t == user + ['@'] + rest;
    FirstIndexAfterPrefix(user, '@', rest);
    assert t[..|user|] == user && t[|user| + 1..] == rest;
    FirstIndexAfterPrefix(host, ':', path);
    assert rest[..|host|] == host && rest[|host| + 1..] == path;
  }

  /** A process to launch whose arguments are added one by one, as the
      source does with `Command::arg`. */
  class ProcessCommand {
    const program: string
    var args: seq<string>

    constructor (program: string)
      ensures this.program == program && args == []
    {
      this.program := program;
      args := [];
    }

    method Arg(a: string)
      modifies this
      ensures args == old(args) + [a]
    {
      args := args + [a];
    }
  }

  /** `scp` as the source assembles it: `-r` only for a directory, then the
      local path, then the target. */
  method BuildScp(isDir: bool, user: string, host: string, local: string, remote: string)
    returns (cmd: ProcessCommand)
    ensures fresh(cmd)
    ensures cmd.program == "scp" && cmd.args == ScpArgs(isDir, user, host, local, remote)
  {
    cmd := new ProcessCommand("scp");
    if isDir {
      cmd.Arg("-r");
    }
    cmd.Arg(local);
    cmd.Arg(RemoteTarget(user, host, remote));
  }

  /** `ssh` as the source assembles it. */
  method BuildSsh(user: string, host: string, remoteCommand: string) returns (cmd: ProcessCommand)
    ensures fresh(cmd)
    ensures cmd.program == "ssh" && cmd.args == SshArgs(user, host, remoteCommand)
  {
    cmd := new ProcessCommand("ssh");
    cmd.Arg(Destination(user, host));
    cmd.Arg(remoteCommand);
  }
}
