/** The server coordination thread (src/threads/server.rs): one run of a
    database server's lifecycle, as a trace of steps. The thread is written
    imperatively (`ExecuteServerThread`) against the operations of a server
    connection and proved equal to the staged definition `ServerRun`, about
    which the ordering properties are proved. */
module ServerThread {
  import opened Errors
  import opened Remote
  import opened Connections
  import opened Lifecycle
  import Threads
  import S = ServerConnection

  /** The server-connection operations the thread calls, each as a function
      of the position of its first remote call in the thread's call log. */
  datatype Controller = Controller(
    sendBenchDir: nat -> Out<()>,
    deleteDbDir: nat -> Out<()>,
    deleteBackupDbDir: nat -> Out<()>,
    resetDbDir: nat -> Out<()>,
    start: nat -> Out<()>,
    checkForReady: nat -> Out<bool>,
    checkForError: nat -> Out<()>,
    backupDb: nat -> Out<()>)

  /** The operations of the connection to server `s` in world `w`. */
  function Connected(s: S.Server, w: World): (c: Controller)
    ensures forall t :: c.checkForReady(t) == S.CheckForReady(s, w, t)
    ensures forall t :: c.checkForError(t) == S.CheckForError(s, w, t)
    ensures forall t :: c.backupDb(t).result == Ok(())
  {
    Controller(
      (t: nat) => S.SendBenchDir(s, w, t),
      (t: nat) => S.DeleteDbDir(s, w, t),
      (t: nat) => S.DeleteBackupDbDir(s, w, t),
      (t: nat) => S.ResetDbDir(s, w, t),
      (t: nat) => S.Start(s, w, t),
      (t: nat) => S.CheckForReady(s, w, t),
      (t: nat) => S.CheckForError(s, w, t),
      (t: nat) => S.BackupDb(s, w, t))
  }

  /** The database preparation before the first barrier: loading deletes the
      database and then its backup; benchmarking restores the database from
      the backup. */
  function Prepare(c: Controller, action: Action, t: nat): Run<()>
  {
    match action
    case Loading =>
      var delete := Step(Event.DeleteDbDir, c.deleteDbDir(t));
      if !Continues(delete) then delete
      else Then(delete, Step(DeleteBackupDbDir, c.deleteBackupDbDir(t + |delete.calls|)))
    case Benchmarking => Step(ResetDbDir, c.resetDbDir(t))
  }

  /** Polls for readiness, sleeping between polls, with room for `fuel`
      polls. */
  function AwaitReady(c: Controller, t: nat, fuel: nat): Run<()>
    decreases fuel
  {
    if fuel == 0 then Run(Cut, [], [])
    else
      var probe := c.checkForReady(t);
      match probe.result
      case Err(e) => Run(Returned(Err(e)), [CheckForReady], probe.calls)
      case Ok(ready) =>
        if ready then Run(Returned(Ok(())), [CheckForReady], probe.calls)
        else Then(Run(Returned(Ok(())), [CheckForReady, Sleep], probe.calls),
                  AwaitReady(c, t + |probe.calls|, fuel - 1))
  }

  /** Watches the log until the stop flag is read raised: each round scans
      for errors, sleeps, then reads the flag; `stops` are the values the
      reads see. */
  function Monitor(c: Controller, t: nat, stops: seq<bool>): Run<()>
    decreases |stops|
  {
    var check := c.checkForError(t);
    if check.result.Err? then Run(Returned(Err(check.result.error)), [CheckForError], check.calls)
    else if stops == [] then Run(Cut, [CheckForError, Sleep], check.calls)
    else
      var round := Run(Returned(Ok(())), [CheckForError, Sleep, ReadStop(stops[0])], check.calls);
      if stops[0] then round
      else Then(round, Monitor(c, t + |check.calls|, stops[1..]))
  }

  /** After the monitoring ends: a loaded database is backed up. */
  function Finish(c: Controller, action: Action, t: nat): Run<()>
  {
    if action == Loading then Step(BackupDb, c.backupDb(t)) else Mark([])
  }

  function FromMonitor(c: Controller, action: Action, t: nat, stops: seq<bool>): Run<()>
  {
    var monitor := Monitor(c, t, stops);
    if !Continues(monitor) then monitor
    else Then(monitor, Finish(c, action, t + |monitor.calls|))
  }

  function FromReady(c: Controller, action: Action, t: nat, fuel: nat, stops: seq<bool>): Run<()>
  {
    var ready := AwaitReady(c, t, fuel);
    if !Continues(ready) then ready
    else Then(ready, Then(Mark([BarrierWait]), FromMonitor(c, action, t + |ready.calls|, stops)))
  }

  function FromStart(c: Controller, action: Action, t: nat, fuel: nat, stops: seq<bool>): Run<()>
  {
    var start := Step(Start, c.start(t));
    if !Continues(start) then start
    else Then(start, FromReady(c, action, t + |start.calls|, fuel, stops))
  }

  function FromPrepare(c: Controller, action: Action, t: nat, fuel: nat, stops: seq<bool>): Run<()>
  {
    var prepare := Prepare(c, action, t);
    if !Continues(prepare) then prepare
    else Then(prepare, Then(Mark([BarrierWait]), FromStart(c, action, t + |prepare.calls|, fuel, stops)))
  }

  /** The whole run: send the benchmark directory, prepare the database, wait
      at the barrier, start the server, poll until it is ready, wait at the
      barrier again, watch the log until told to stop, back up a loaded
      database. The first failing step ends the run with its error. */
  function ServerRun(c: Controller, action: Action, fuel: nat, stops: seq<bool>): Run<()>
  {
    var send := Step(SendBenchDir, c.sendBenchDir(0));
    if !Continues(send) then send
    else Then(send, FromPrepare(c, action, |send.calls|, fuel, stops))
  }

  /** The readiness loop: `while !check_for_ready()? { sleep }`, with room
      for `fuel` polls. */
  method PollUntilReady(c: Controller, t: nat, fuel: nat) returns (run: Run<()>)
    ensures run == AwaitReady(c, t, fuel)
  {
    var events: seq<Event> := [];
    var calls: seq<Call> := [];
    var budget: nat := fuel;
    while true
      invariant budget <= fuel
      invariant Then(Run(Returned(Ok(())), events, calls), AwaitReady(c, t + |calls|, budget))
             == AwaitReady(c, t, fuel)
      decreases budget
    {
      if budget == 0 {
        return Run(Cut, events, calls);
      }
      var probe := c.checkForReady(t + |calls|);
      if probe.result.Err? {
        return Run(Returned(Err(probe.result.error)), events + [CheckForReady], calls + probe.calls);
      }
      if probe.result.value {
        return Run(Returned(Ok(())), events + [CheckForReady], calls + probe.calls);
      }
      ThenAssociates(Run(Returned(Ok(())), events, calls),
                     Run(Returned(Ok(())), [CheckForReady, Sleep], probe.calls),
                     AwaitReady(c, t + |calls| + |probe.calls|, budget - 1));
      events, calls := events + [CheckForReady, Sleep], calls + probe.calls;
      budget := budget - 1;
    }
  }

  /** The monitoring loop: `while !stop { check_for_error()?; sleep; read
      the flag }`, reading the flag values `stops`. */
  method WatchUntilStopped(c: Controller, t: nat, stops: seq<bool>) returns (run: Run<()>)
    ensures run == Monitor(c, t, stops)
  {
    var events: seq<Event> := [];
    var calls: seq<Call> := [];
    var remaining := stops;
    while true
      invariant Then(Run(Returned(Ok(())), events, calls), Monitor(c, t + |calls|, remaining))
             == Monitor(c, t, stops)
      decreases |remaining|
    {
      var check := c.checkForError(t + |calls|);
      if check.result.Err? {
        return Run(Returned(Err(check.result.error)), events + [CheckForError], calls + check.calls);
      }
      if remaining == [] {
        return Run(Cut, events + [CheckForError, Sleep], calls + check.calls);
      }
      var stop := remaining[0];
      if stop {
        return Run(Returned(Ok(())), events + [CheckForError, Sleep, ReadStop(true)], calls + check.calls);
      }
      ThenAssociates(Run(Returned(Ok(())), events, calls),
                     Run(Returned(Ok(())), [CheckForError, Sleep, ReadStop(false)], check.calls),
                     Monitor(c, t + |calls| + |check.calls|, remaining[1..]));
      events, calls := events + [CheckForError, Sleep, ReadStop(false)], calls + check.calls;
      remaining := remaining[1..];
    }
  }

  /** From the start of monitoring to the end of the run. */
  method RunFromMonitor(c: Controller, action: Action, t: nat, stops: seq<bool>) returns (run: Run<()>)
    ensures run == FromMonitor(c, action, t, stops)
  {
    var monitor := WatchUntilStopped(c, t, stops);
    if !Continues(monitor) {
      return monitor;
    }
    if action == Loading {
      run := Then(monitor, Step(BackupDb, c.backupDb(t + |monitor.calls|)));
    } else {
      run := Then(monitor, Mark([]));
    }
  }

  /** From the first readiness poll to the end of the run. */
  method RunFromReady(c: Controller, action: Action, t: nat, fuel: nat, stops: seq<bool>) returns (run: Run<()>)
    ensures run == FromReady(c, action, t, fuel, stops)
  {
    var ready := PollUntilReady(c, t, fuel);
    if !Continues(ready) {
      return ready;
    }
    var rest := RunFromMonitor(c, action, t + |ready.calls|, stops);
    run := Then(ready, Then(Mark([BarrierWait]), rest));
  }

  /** The thread body, `execute_server_thread`: each step's error ends the
      run; the readiness loop may poll `fuel` times and the monitoring loop
      reads the stop flag as `stops` says before the run is cut off. */
  method ExecuteServerThread(c: Controller, action: Action, fuel: nat, stops: seq<bool>)
    returns (run: Run<()>)
    ensures run == ServerRun(c, action, fuel, stops)
  {
    var send := Step(SendBenchDir, c.sendBenchDir(0));
    if !Continues(send) {
      return send;
    }
    var t := |send.calls|;
    var prepare := Prepare(c, action, t);
    if !Continues(prepare) {
      return Then(send, prepare);
    }
    t := t + |prepare.calls|;
    var start := Step(Start, c.start(t));
    if !Continues(start) {
      return Then(send, Then(prepare, Then(Mark([BarrierWait]), start)));
    }
    var rest := RunFromReady(c, action, t + |start.calls|, fuel, stops);
    run := Then(send, Then(prepare, Then(Mark([BarrierWait]), Then(start, rest))));
  }

  /** What the thread sends on the result channel: success or failure of a
      run that returned. */
  function ServerReport(run: Run<()>): (report: Threads.ThreadResult)
    requires run.ending.Returned?
    ensures report == Threads.ServerSucceed <==> run.ending.result.Ok?
    ensures report == Threads.Failed <==> run.ending.result.Err?
  {
    if run.ending.result.Ok? then Threads.ServerSucceed else Threads.Failed
  }

  /** The steps of a successful preparation. */
  function PrepareEvents(action: Action): seq<Event>
  {
    if action == Loading then [Event.DeleteDbDir, DeleteBackupDbDir] else [ResetDbDir]
  }

  /** The steps after a successful monitoring. */
  function FinishEvents(action: Action): seq<Event>
  {
    if action == Loading then [BackupDb] else []
  }

  /** Readiness polls: polls that found the server not ready, each followed
      by a sleep, then one that found it ready. */
  predicate ReadyPolls(es: seq<Event>)
    decreases |es|
  {
    es == [CheckForReady] || (|es| > 2 && es[..2] == [CheckForReady, Sleep] && ReadyPolls(es[2..]))
  }

  /** Monitoring rounds: rounds that read the flag lowered, then one that
      read it raised; each round scans for errors and sleeps first. */
  predicate MonitorRounds(es: seq<Event>)
    decreases |es|
  {
    es == [CheckForError, Sleep, ReadStop(true)]
    || (|es| > 3 && es[..3] == [CheckForError, Sleep, ReadStop(false)] && MonitorRounds(es[3..]))
  }

  lemma PrepareSucceeded(c: Controller, action: Action, t: nat)
    requires Continues(Prepare(c, action, t))
    ensures Prepare(c, action, t).events == PrepareEvents(action)
  {
  }

  lemma {:induction false} AwaitReadySucceeded(c: Controller, t: nat, fuel: nat)
    requires Continues(AwaitReady(c, t, fuel))
    ensures ReadyPolls(AwaitReady(c, t, fuel).events)
    decreases fuel
  {
    var probe := c.checkForReady(t);
    if probe.result == Ok(false) {
      var rest := AwaitReady(c, t + |probe.calls|, fuel - 1);
      AwaitReadySucceeded(c, t + |probe.calls|, fuel - 1);
      var es := [CheckForReady, Sleep] + rest.events;
      assert es[..2] == [CheckForReady, Sleep] && es[2..] == rest.events;
    }
  }

  lemma {:induction false} MonitorSucceeded(c: Controller, t: nat, stops: seq<bool>)
    requires Continues(Monitor(c, t, stops))
    ensures MonitorRounds(Monitor(c, t, stops).events)
    decreases |stops|
  {
    var check := c.checkForError(t);
    if !stops[0] {
      var rest := Monitor(c, t + |check.calls|, stops[1..]);
      MonitorSucceeded(c, t + |check.calls|, stops[1..]);
      var es := [CheckForError, Sleep, ReadStop(false)] + rest.events;
      assert es[..3] == [CheckForError, Sleep, ReadStop(false)] && es[3..] == rest.events;
    }
  }

  /** The trace of a successful run with the given readiness polls and
      monitoring rounds, grouped as the stages nest. */
  function SucceededTrace(action: Action, ready: seq<Event>, monitor: seq<Event>): seq<Event>
  {
    [SendBenchDir] + (PrepareEvents(action) + ([BarrierWait] + ([Start]
      + (ready + ([BarrierWait] + (monitor + FinishEvents(action)))))))
  }

  lemma FromMonitorSucceeded(c: Controller, action: Action, t: nat, stops: seq<bool>)
    returns (monitor: seq<Event>)
    requires FromMonitor(c, action, t, stops).ending == Returned(Ok(()))
    ensures MonitorRounds(monitor)
    ensures FromMonitor(c, action, t, stops).events == monitor + FinishEvents(action)
  {
    var m := Monitor(c, t, stops);
    assert Continues(m);
    MonitorSucceeded(c, t, stops);
    monitor := m.events;
  }

  lemma FromReadySucceeded(c: Controller, action: Action, t: nat, fuel: nat, stops: seq<bool>)
    returns (ready: seq<Event>, monitor: seq<Event>)
    requires FromReady(c, action, t, fuel, stops).ending == Returned(Ok(()))
    ensures ReadyPolls(ready) && MonitorRounds(monitor)
    ensures FromReady(c, action, t, fuel, stops).events
         == ready + ([BarrierWait] + (monitor + FinishEvents(action)))
  {
    var r := AwaitReady(c, t, fuel);
    assert Continues(r);
    AwaitReadySucceeded(c, t, fuel);
    monitor := FromMonitorSucceeded(c, action, t + |r.calls|, stops);
    ready := r.events;
  }

  lemma FromStartSucceeded(c: Controller, action: Action, t: nat, fuel: nat, stops: seq<bool>)
    returns (ready: seq<Event>, monitor: seq<Event>)
    requires FromStart(c, action, t, fuel, stops).ending == Returned(Ok(()))
    ensures ReadyPolls(ready) && MonitorRounds(monitor)
    ensures FromStart(c, action, t, fuel, stops).events
         == [Start] + (ready + ([BarrierWait] + (monitor + FinishEvents(action))))
  {
    var start := Step(Start, c.start(t));
    assert Continues(start);
    ready, monitor := FromReadySucceeded(c, action, t + |start.calls|, fuel, stops);
  }

  lemma FromPrepareSucceeded(c: Controller, action: Action, t: nat, fuel: nat, stops: seq<bool>)
    returns (ready: seq<Event>, monitor: seq<Event>)
    requires FromPrepare(c, action, t, fuel, stops).ending == Returned(Ok(()))
    ensures ReadyPolls(ready) && MonitorRounds(monitor)
    ensures [SendBenchDir] + FromPrepare(c, action, t, fuel, stops).events
         == SucceededTrace(action, ready, monitor)
  {
    var prepare := Prepare(c, action, t);
    assert Continues(prepare);
    PrepareSucceeded(c, action, t);
    ready, monitor := FromStartSucceeded(c, action, t + |prepare.calls|, fuel, stops);
  }

  /** A run that returned successfully went through every stage in order:
      send, prepare, barrier, start, readiness polls, barrier, monitoring
      rounds up to a raised flag, and a backup when loading. */
  lemma ServerRunSucceeded(c: Controller, action: Action, fuel: nat, stops: seq<bool>)
    returns (ready: seq<Event>, monitor: seq<Event>)
    requires ServerRun(c, action, fuel, stops).ending == Returned(Ok(()))
    ensures ReadyPolls(ready) && MonitorRounds(monitor)
    ensures ServerRun(c, action, fuel, stops).events == SucceededTrace(action, ready, monitor)
  {
    var send := Step(SendBenchDir, c.sendBenchDir(0));
    assert Continues(send);
    ready, monitor := FromPrepareSucceeded(c, action, |send.calls|, fuel, stops);
  }

  lemma {:induction false} ReadyPollsEvents(es: seq<Event>)
    requires ReadyPolls(es)
    ensures forall i :: 0 <= i < |es| ==> es[i] == CheckForReady || es[i] == Sleep
    decreases |es|
  {
    if es != [CheckForReady] {
      ReadyPollsEvents(es[2..]);
      assert es == es[..2] + es[2..];
    }
  }

  lemma {:induction false} MonitorRoundsEvents(es: seq<Event>)
    requires MonitorRounds(es)
    ensures forall i :: 0 <= i < |es| ==> es[i] == CheckForError || es[i] == Sleep || es[i].ReadStop?
    decreases |es|
  {
    if es != [CheckForError, Sleep, ReadStop(true)] {
      MonitorRoundsEvents(es[3..]);
      assert es == es[..3] + es[3..];
    }
  }

  /** The flag is read raised exactly once in the monitoring rounds. */
  lemma {:induction false} MonitorRoundsStopOnce(es: seq<Event>)
    requires MonitorRounds(es)
    ensures Count(es, ReadStop(true)) == 1
    decreases |es|
  {
    var round := es[..3];
    var rest := es[3..];
    assert es == round + rest;
    CountConcat(round, rest, ReadStop(true));
    assert round[..2] + [round[2]] == round;
    CountConcat(round[..2], [round[2]], ReadStop(true));
    CountAbsent(round[..2], ReadStop(true));
    if es != [CheckForError, Sleep, ReadStop(true)] {
      MonitorRoundsStopOnce(rest);
    } else {
      assert rest == [];
    }
  }

  /** Counting over the stages of a successful trace. */
  lemma CountSucceededTrace(action: Action, ready: seq<Event>, monitor: seq<Event>, e: Event)
    ensures Count(SucceededTrace(action, ready, monitor), e)
         == Count([SendBenchDir], e) + Count(PrepareEvents(action), e) + 2 * Count([BarrierWait], e)
            + Count([Start], e) + Count(ready, e) + Count(monitor, e) + Count(FinishEvents(action), e)
  {
    var f := FinishEvents(action);
    CountConcat(monitor, f, e);
    CountConcat([BarrierWait], monitor + f, e);
    CountConcat(ready, [BarrierWait] + (monitor + f), e);
    CountConcat([Start], ready + ([BarrierWait] + (monitor + f)), e);
    CountConcat([BarrierWait], [Start] + (ready + ([BarrierWait] + (monitor + f))), e);
    CountConcat(PrepareEvents(action), [BarrierWait] + ([Start] + (ready + ([BarrierWait] + (monitor + f)))), e);
    CountConcat([SendBenchDir],
      PrepareEvents(action) + ([BarrierWait] + ([Start] + (ready + ([BarrierWait] + (monitor + f))))), e);
  }

  /** An event that neither the polls nor the rounds contain is counted in
      the fixed stages alone. */
  lemma CountFixedStages(action: Action, ready: seq<Event>, monitor: seq<Event>, e: Event)
    requires e !in ready && e !in monitor
    ensures Count(SucceededTrace(action, ready, monitor), e)
         == Count([SendBenchDir], e) + Count(PrepareEvents(action), e) + 2 * Count([BarrierWait], e)
            + Count([Start], e) + Count(FinishEvents(action), e)
  {
    CountAbsent(ready, e);
    CountAbsent(monitor, e);
    CountSucceededTrace(action, ready, monitor, e);
  }

  /** An event of a fixed stage that polls and rounds never contain. */
  lemma CountStageEvent(action: Action, ready: seq<Event>, monitor: seq<Event>, e: Event)
    requires ReadyPolls(ready) && MonitorRounds(monitor)
    requires e == BarrierWait || e == Start || e == BackupDb
    ensures Count(SucceededTrace(action, ready, monitor), e)
         == Count([SendBenchDir], e) + Count(PrepareEvents(action), e) + 2 * Count([BarrierWait], e)
            + Count([Start], e) + Count(FinishEvents(action), e)
  {
    ReadyPollsEvents(ready);
    MonitorRoundsEvents(monitor);
    CountFixedStages(action, ready, monitor, e);
  }

  lemma CountStopRaised(action: Action, ready: seq<Event>, monitor: seq<Event>)
    requires ReadyPolls(ready) && MonitorRounds(monitor)
    ensures Count(SucceededTrace(action, ready, monitor), ReadStop(true)) == 1
  {
    ReadyPollsEvents(ready);
    MonitorRoundsStopOnce(monitor);
    CountAbsent(ready, ReadStop(true));
    CountSucceededTrace(action, ready, monitor, ReadStop(true));
  }

  lemma SucceededTraceCounts(action: Action, ready: seq<Event>, monitor: seq<Event>)
    requires ReadyPolls(ready) && MonitorRounds(monitor)
    ensures var es := SucceededTrace(action, ready, monitor);
      && Count(es, BarrierWait) == 2
      && Count(es, Start) == 1
      && Count(es, ReadStop(true)) == 1
      && Count(es, BackupDb) == (if action == Loading then 1 else 0)
  {
    CountStageEvent(action, ready, monitor, BarrierWait);
    CountStageEvent(action, ready, monitor, Start);
    CountStageEvent(action, ready, monitor, BackupDb);
    CountStopRaised(action, ready, monitor);
  }

  /** A successful run waited at the barrier exactly twice, started the
      server once, read the flag raised once, and backed up the database
      exactly when loading. */
  lemma ServerRunSucceededCounts(c: Controller, action: Action, fuel: nat, stops: seq<bool>)
    requires ServerRun(c, action, fuel, stops).ending == Returned(Ok(()))
    ensures var es := ServerRun(c, action, fuel, stops).events;
      && Count(es, BarrierWait) == 2
      && Count(es, Start) == 1
      && Count(es, ReadStop(true)) == 1
      && Count(es, BackupDb) == (if action == Loading then 1 else 0)
  {
    var ready, monitor := ServerRunSucceeded(c, action, fuel, stops);
    SucceededTraceCounts(action, ready, monitor);
  }

  /** The server waits at the barrier only once the benchmark directory was
      sent and the database prepared: a server whose preparation fails never
      reaches the barrier. */
  lemma BarrierNeedsPreparation(c: Controller, action: Action, fuel: nat, stops: seq<bool>)
    ensures BarrierWait in ServerRun(c, action, fuel, stops).events
        <==> c.sendBenchDir(0).result.Ok? && Continues(Prepare(c, action, |c.sendBenchDir(0).calls|))
  {
    var send := Step(SendBenchDir, c.sendBenchDir(0));
    var es := ServerRun(c, action, fuel, stops).events;
    if Continues(send) {
      var prepare := Prepare(c, action, |send.calls|);
      if Continues(prepare) {
        PrepareSucceeded(c, action, |send.calls|);
        assert es[1 + |PrepareEvents(action)|] == BarrierWait;
      } else {
        assert es == [SendBenchDir] + prepare.events;
        assert forall i :: 0 <= i < |prepare.events| ==> prepare.events[i] != BarrierWait;
      }
    }
  }

  lemma AwaitReadyEvents(c: Controller, t: nat, fuel: nat)
    ensures forall i :: 0 <= i < |AwaitReady(c, t, fuel).events| ==>
      AwaitReady(c, t, fuel).events[i] == CheckForReady || AwaitReady(c, t, fuel).events[i] == Sleep
    decreases fuel
  {
    if fuel > 0 {
      var probe := c.checkForReady(t);
      if probe.result == Ok(false) {
        AwaitReadyEvents(c, t + |probe.calls|, fuel - 1);
      }
    }
  }

  lemma FromReadyMonitoring(c: Controller, action: Action, t: nat, fuel: nat, stops: seq<bool>)
    returns (ready: seq<Event>, rest: seq<Event>)
    requires CheckForError in FromReady(c, action, t, fuel, stops).events
    ensures ReadyPolls(ready)
    ensures FromReady(c, action, t, fuel, stops).events == ready + ([BarrierWait] + rest)
  {
    var r := AwaitReady(c, t, fuel);
    AwaitReadyEvents(c, t, fuel);
    assert Continues(r);
    AwaitReadySucceeded(c, t, fuel);
    ready, rest := r.events, FromMonitor(c, action, t + |r.calls|, stops).events;
  }

  lemma FromStartMonitoring(c: Controller, action: Action, t: nat, fuel: nat, stops: seq<bool>)
    returns (ready: seq<Event>, rest: seq<Event>)
    requires CheckForError in FromStart(c, action, t, fuel, stops).events
    ensures ReadyPolls(ready)
    ensures FromStart(c, action, t, fuel, stops).events == [Start] + (ready + ([BarrierWait] + rest))
  {
    var start := Step(Start, c.start(t));
    assert Continues(start);
    ready, rest := FromReadyMonitoring(c, action, t + |start.calls|, fuel, stops);
  }

  lemma FromPrepareMonitoring(c: Controller, action: Action, t: nat, fuel: nat, stops: seq<bool>)
    returns (ready: seq<Event>, rest: seq<Event>)
    requires CheckForError in FromPrepare(c, action, t, fuel, stops).events
    ensures ReadyPolls(ready)
    ensures FromPrepare(c, action, t, fuel, stops).events
         == PrepareEvents(action) + ([BarrierWait] + ([Start] + (ready + ([BarrierWait] + rest))))
  {
    var prepare := Prepare(c, action, t);
    assert Continues(prepare);
    PrepareSucceeded(c, action, t);
    ready, rest := FromStartMonitoring(c, action, t + |prepare.calls|, fuel, stops);
  }

  /** The log is watched for errors only after the server was started, found
      ready, and both barrier waits were passed. */
  lemma MonitoringFollowsReadiness(c: Controller, action: Action, fuel: nat, stops: seq<bool>)
    returns (ready: seq<Event>, rest: seq<Event>)
    requires CheckForError in ServerRun(c, action, fuel, stops).events
    ensures ReadyPolls(ready)
    ensures ServerRun(c, action, fuel, stops).events
         == [SendBenchDir] + (PrepareEvents(action) + ([BarrierWait] + ([Start] + (ready + ([BarrierWait] + rest)))))
  {
    var send := Step(SendBenchDir, c.sendBenchDir(0));
    assert Continues(send);
    ready, rest := FromPrepareMonitoring(c, action, |send.calls|, fuel, stops);
  }

  lemma FromPrepareStarts(c: Controller, action: Action, t: nat, fuel: nat, stops: seq<bool>)
    returns (rest: seq<Event>)
    requires Start in FromPrepare(c, action, t, fuel, stops).events
    ensures FromPrepare(c, action, t, fuel, stops).events
         == PrepareEvents(action) + ([BarrierWait] + ([Start] + rest))
  {
    var prepare := Prepare(c, action, t);
    assert Continues(prepare);
    PrepareSucceeded(c, action, t);
    rest := FromStart(c, action, t + |prepare.calls|, fuel, stops).events[1..];
  }

  /** Every run that starts the server, whether it later fails or not, first
      sent the benchmark directory, prepared the database and passed the
      first barrier wait, so a failed send or preparation never reaches the
      start. */
  lemma ServerStartsAfterBarrier(c: Controller, action: Action, fuel: nat, stops: seq<bool>)
    returns (rest: seq<Event>)
    requires Start in ServerRun(c, action, fuel, stops).events
    ensures ServerRun(c, action, fuel, stops).events
         == [SendBenchDir] + (PrepareEvents(action) + ([BarrierWait] + ([Start] + rest)))
  {
    var send := Step(SendBenchDir, c.sendBenchDir(0));
    assert Continues(send);
    rest := FromPrepareStarts(c, action, |send.calls|, fuel, stops);
  }

  /** The server's log is polled for readiness only in a run that started
      the server, so a failed send or preparation never reaches the polls. */
  lemma PollsFollowStart(c: Controller, action: Action, fuel: nat, stops: seq<bool>)
    requires CheckForReady in ServerRun(c, action, fuel, stops).events
    ensures Start in ServerRun(c, action, fuel, stops).events
  {
    var send := Step(SendBenchDir, c.sendBenchDir(0));
    assert CheckForReady !in send.events;
    assert Continues(send);
    var prepare := Prepare(c, action, |send.calls|);
    if Continues(prepare) {
      PrepareSucceeded(c, action, |send.calls|);
    }
  }
}
