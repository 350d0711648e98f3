/** The client coordination thread (src/threads/client.rs): one run of a
    benchmark client, as a trace of steps. The thread is written
    imperatively (`ExecuteClientThread`) against the operations of a client
    connection and proved equal to the staged definition `ClientRun`. */
module ClientThread {
  import opened Errors
  import opened Remote
  import opened Connections
  import opened Lifecycle
  import Threads
  import C = ClientConnection

  /** The client-connection operations the thread calls, each as a function
      of the position of its first remote call in the thread's call log. */
  datatype Controller = Controller(
    cleanPreviousResults: nat -> Out<()>,
    sendBenchDir: nat -> Out<()>,
    start: nat -> Out<()>,
    checkForFinished: nat -> Out<bool>,
    pullCsv: (string, nat) -> Out<()>,
    getTotalThroughput: nat -> Out<U32>)

  /** The operations of the connection to client `cl` running `action` in
      world `w`. `pull_csv(dir)` and `get_total_throughput` are called in
      src/threads/client.rs:53-54 but not defined in src/connections/client.rs
      (which has a `pull_csv` without a directory argument), so the world
      answers them. */
  function Connected(cl: C.Client, action: Action, w: World): (c: Controller)
    ensures forall t :: c.checkForFinished(t) == C.CheckForFinished(cl, action, w, t)
    ensures forall t :: c.getTotalThroughput(t).result == w.throughput(t)
    ensures forall dir, t :: c.pullCsv(dir, t) == Out(w.effect(t), [PullCsvInto(cl.address, dir)])
  {
    Controller(
      (t: nat) => C.CleanPreviousResults(cl, w, t),
      (t: nat) => C.SendBenchDir(cl, w, t),
      (t: nat) => C.Start(cl, action, w, t),
      (t: nat) => C.CheckForFinished(cl, action, w, t),
      (dir: string, t: nat) => Effect(w, t, PullCsvInto(cl.address, dir)),
      (t: nat) => Out(w.throughput(t), [Call.GetTotalThroughput(cl.address)]))
  }

  /** Polls for completion, sleeping between polls, with room for `fuel`
      polls. */
  function AwaitFinished(c: Controller, t: nat, fuel: nat): Run<()>
    decreases fuel
  {
    if fuel == 0 then Run(Cut, [], [])
    else
      var probe := c.checkForFinished(t);
      match probe.result
      case Err(e) => Run(Returned(Err(e)), [CheckForFinished], probe.calls)
      case Ok(finished) =>
        if finished then Run(Returned(Ok(())), [CheckForFinished], probe.calls)
        else Then(Run(Returned(Ok(())), [CheckForFinished, Sleep], probe.calls),
                  AwaitFinished(c, t + |probe.calls|, fuel - 1))
  }

  /** After completion: a benchmarking client pulls its CSV files into the
      report directory, which must have been given (the thread panics
      otherwise), then reports its total throughput; a loading client
      reports none. */
  function Collect(c: Controller, action: Action, reportDir: Option<string>, t: nat): Run<Option<U32>>
  {
    match action
    case Loading => Run(Returned(Ok(None)), [], [])
    case Benchmarking =>
      if reportDir.None? then Run(Panicked, [], [])
      else
        var pull := Step(PullCsv, c.pullCsv(reportDir.value, t));
        if !Continues(pull) then Halt(pull)
        else
          var total := c.getTotalThroughput(t + |pull.calls|);
          var result := match total.result
            case Ok(th) => Ok(Some(th))
            case Err(e) => Err(e);
          Then(pull, Run(Returned(result), [Event.GetTotalThroughput], total.calls))
  }

  function FromFinished(c: Controller, action: Action, reportDir: Option<string>, t: nat, fuel: nat)
    : Run<Option<U32>>
  {
    var finished := AwaitFinished(c, t, fuel);
    if !Continues(finished) then Halt(finished)
    else Then(finished, Collect(c, action, reportDir, t + |finished.calls|))
  }

  function FromStart(c: Controller, action: Action, reportDir: Option<string>, t: nat, fuel: nat)
    : Run<Option<U32>>
  {
    var start := Step(Start, c.start(t));
    if !Continues(start) then Halt(start)
    else Then(start, FromFinished(c, action, reportDir, t + |start.calls|, fuel))
  }

  /** The whole run: clean the previous results, send the benchmark
      directory, wait at the barrier twice (servers prepared, servers
      ready), start the client, poll until it finished, then collect its
      results. The first failing step ends the run with its error. */
  function ClientRun(c: Controller, action: Action, reportDir: Option<string>, fuel: nat): Run<Option<U32>>
  {
    var clean := Step(CleanPreviousResults, c.cleanPreviousResults(0));
    if !Continues(clean) then Halt(clean)
    else
      var send := Step(SendBenchDir, c.sendBenchDir(|clean.calls|));
      if !Continues(send) then Halt(Then(clean, send))
      else Then(clean, Then(send, Then(Mark([BarrierWait, BarrierWait]),
             FromStart(c, action, reportDir, |clean.calls| + |send.calls|, fuel))))
  }

  /** The completion loop: `while !check_for_finished(action)? { sleep }`,
      with room for `fuel` polls. */
  method PollUntilFinished(c: Controller, t: nat, fuel: nat) returns (run: Run<()>)
    ensures run == AwaitFinished(c, t, fuel)
  {
    var events: seq<Event> := [];
    var calls: seq<Call> := [];
    var budget: nat := fuel;
    while true
      invariant budget <= fuel
      invariant Then(Run(Returned(Ok(())), events, calls), AwaitFinished(c, t + |calls|, budget))
             == AwaitFinished(c, t, fuel)
      decreases budget
    {
      if budget == 0 {
        return Run(Cut, events, calls);
      }
      var probe := c.checkForFinished(t + |calls|);
      if probe.result.Err? {
        return Run(Returned(Err(probe.result.error)), events + [CheckForFinished], calls + probe.calls);
      }
      if probe.result.value {
        return Run(Returned(Ok(())), events + [CheckForFinished], calls + probe.calls);
      }
      ThenAssociates(Run(Returned(Ok(())), events, calls),
                     Run(Returned(Ok(())), [CheckForFinished, Sleep], probe.calls),
                     AwaitFinished(c, t + |calls| + |probe.calls|, budget - 1));
      events, calls := events + [CheckForFinished, Sleep], calls + probe.calls;
      budget := budget - 1;
    }
  }

  /** From the first completion poll to the end of the run. */
  method RunFromFinished(c: Controller, action: Action, reportDir: Option<string>, t: nat, fuel: nat)
    returns (run: Run<Option<U32>>)
    ensures run == FromFinished(c, action, reportDir, t, fuel)
  {
    var finished := PollUntilFinished(c, t, fuel);
    if !Continues(finished) {
      return Halt(finished);
    }
    var t' := t + |finished.calls|;
    if action == Loading {
      return Then(finished, Run(Returned(Ok(None)), [], []));
    }
    if reportDir.None? {
      return Then(finished, Run(Panicked, [], []));
    }
    var pull := c.pullCsv(reportDir.value, t');
    if pull.result.Err? {
      return Then(finished, Run(Returned(Err(pull.result.error)), [PullCsv], pull.calls));
    }
    var total := c.getTotalThroughput(t' + |pull.calls|);
    var result: Result<Option<U32>>;
    if total.result.Err? {
      result := Err(total.result.error);
    } else {
      result := Ok(Some(total.result.value));
    }
    run := Then(finished, Then(Step(PullCsv, pull), Run(Returned(result), [Event.GetTotalThroughput], total.calls)));
  }

  /** The thread body, `execute_client_thread`. */
  method ExecuteClientThread(c: Controller, action: Action, reportDir: Option<string>, fuel: nat)
    returns (run: Run<Option<U32>>)
    ensures run == ClientRun(c, action, reportDir, fuel)
  {
    var clean := Step(CleanPreviousResults, c.cleanPreviousResults(0));
    if !Continues(clean) {
      return Halt(clean);
    }
    var send := Step(SendBenchDir, c.sendBenchDir(|clean.calls|));
    if !Continues(send) {
      return Halt(Then(clean, send));
    }
    var t := |clean.calls| + |send.calls|;
    var waits := Mark([BarrierWait, BarrierWait]);
    var start := Step(Start, c.start(t));
    if !Continues(start) {
      return Then(clean, Then(send, Then(waits, Halt(start))));
    }
    var rest := RunFromFinished(c, action, reportDir, t + |start.calls|, fuel);
    run := Then(clean, Then(send, Then(waits, Then(start, rest))));
  }

  /** What the thread sends on the result channel: the throughput of a run
      that returned successfully, or a failure. */
  function ClientReport(run: Run<Option<U32>>): (report: Threads.ThreadResult)
    requires run.ending.Returned?
    ensures run.ending.result.Ok? ==> report == Threads.ClientSucceed(run.ending.result.value)
    ensures run.ending.result.Err? <==> report == Threads.Failed
  {
    if run.ending.result.Ok? then Threads.ClientSucceed(run.ending.result.value) else Threads.Failed
  }

  /** Completion polls: polls that found the client still running, each
      followed by a sleep, then one that found it finished. */
  predicate FinishPolls(es: seq<Event>)
    decreases |es|
  {
    es == [CheckForFinished] || (|es| > 2 && es[..2] == [CheckForFinished, Sleep] && FinishPolls(es[2..]))
  }

  /** The steps after a successful completion. */
  function CollectEvents(action: Action): seq<Event>
  {
    if action == Benchmarking then [PullCsv, Event.GetTotalThroughput] else []
  }

  lemma {:induction false} AwaitFinishedSucceeded(c: Controller, t: nat, fuel: nat)
    requires Continues(AwaitFinished(c, t, fuel))
    ensures FinishPolls(AwaitFinished(c, t, fuel).events)
    decreases fuel
  {
    var probe := c.checkForFinished(t);
    if probe.result == Ok(false) {
      var rest := AwaitFinished(c, t + |probe.calls|, fuel - 1);
      AwaitFinishedSucceeded(c, t + |probe.calls|, fuel - 1);
      var es := [CheckForFinished, Sleep] + rest.events;
      assert es[..2] == [CheckForFinished, Sleep] && es[2..] == rest.events;
    }
  }

  lemma {:induction false} AwaitFinishedEvents(c: Controller, t: nat, fuel: nat)
    ensures forall i :: 0 <= i < |AwaitFinished(c, t, fuel).events| ==>
      AwaitFinished(c, t, fuel).events[i] == CheckForFinished || AwaitFinished(c, t, fuel).events[i] == Sleep
    ensures AwaitFinished(c, t, fuel).ending != Panicked
    decreases fuel
  {
    if fuel > 0 {
      var probe := c.checkForFinished(t);
      if probe.result == Ok(false) {
        AwaitFinishedEvents(c, t + |probe.calls|, fuel - 1);
      }
    }
  }

  lemma FromFinishedSucceeded(c: Controller, action: Action, reportDir: Option<string>, t: nat, fuel: nat)
    returns (polls: seq<Event>)
    requires var r := FromFinished(c, action, reportDir, t, fuel); r.ending.Returned? && r.ending.result.Ok?
    ensures FinishPolls(polls)
    ensures FromFinished(c, action, reportDir, t, fuel).events == polls + CollectEvents(action)
    ensures FromFinished(c, action, reportDir, t, fuel).ending.result.value.None? <==> action == Loading
  {
    var f := AwaitFinished(c, t, fuel);
    assert Continues(f);
    AwaitFinishedSucceeded(c, t, fuel);
    polls := f.events;
  }

  /** A client run that returned successfully went through every stage in
      order: clean, send, both barrier waits, start, completion polls, and,
      when benchmarking, the pull of the CSV files and the throughput
      query; it reports a throughput exactly when benchmarking. */
  lemma ClientRunSucceeded(c: Controller, action: Action, reportDir: Option<string>, fuel: nat)
    returns (polls: seq<Event>)
    requires var r := ClientRun(c, action, reportDir, fuel); r.ending.Returned? && r.ending.result.Ok?
    ensures FinishPolls(polls)
    ensures ClientRun(c, action, reportDir, fuel).events
         == [CleanPreviousResults] + ([SendBenchDir] + ([BarrierWait, BarrierWait] + ([Start]
            + (polls + CollectEvents(action)))))
    ensures ClientRun(c, action, reportDir, fuel).ending.result.value.None? <==> action == Loading
  {
    var clean := Step(CleanPreviousResults, c.cleanPreviousResults(0));
    assert Continues(clean);
    var send := Step(SendBenchDir, c.sendBenchDir(|clean.calls|));
    assert Continues(send);
    var t := |clean.calls| + |send.calls|;
    var start := Step(Start, c.start(t));
    assert Continues(start);
    polls := FromFinishedSucceeded(c, action, reportDir, t + |start.calls|, fuel);
  }

  /** The thread panics only when benchmarking without a report directory,
      and only after the client finished: the panic is the unwrap of the
      missing directory before the CSV files are pulled. */
  lemma ClientPanicsOnMissingReportDir(c: Controller, action: Action, reportDir: Option<string>, fuel: nat)
    returns (polls: seq<Event>)
    requires ClientRun(c, action, reportDir, fuel).ending == Panicked
    ensures action == Benchmarking && reportDir == None
    ensures FinishPolls(polls)
    ensures ClientRun(c, action, reportDir, fuel).events
         == [CleanPreviousResults] + ([SendBenchDir] + ([BarrierWait, BarrierWait] + ([Start] + polls)))
  {
    var clean := Step(CleanPreviousResults, c.cleanPreviousResults(0));
    assert Continues(clean);
    var send := Step(SendBenchDir, c.sendBenchDir(|clean.calls|));
    assert Continues(send);
    var t := |clean.calls| + |send.calls|;
    var start := Step(Start, c.start(t));
    assert Continues(start);
    var f := AwaitFinished(c, t + |start.calls|, fuel);
    AwaitFinishedEvents(c, t + |start.calls|, fuel);
    assert Continues(f);
    AwaitFinishedSucceeded(c, t + |start.calls|, fuel);
    polls := f.events;
    assert Collect(c, action, reportDir, t + |start.calls| + |f.calls|).events == [];
  }

  lemma CollectHasNoBarrier(c: Controller, action: Action, reportDir: Option<string>, t: nat)
    ensures BarrierWait !in Collect(c, action, reportDir, t).events
  {
    var rest := Collect(c, action, reportDir, t);
    assert forall i :: 0 <= i < |rest.events| ==> rest.events[i] != BarrierWait;
  }

  lemma FromFinishedHasNoBarrier(c: Controller, action: Action, reportDir: Option<string>, t: nat, fuel: nat)
    ensures BarrierWait !in FromFinished(c, action, reportDir, t, fuel).events
  {
    var f := AwaitFinished(c, t, fuel);
    AwaitFinishedEvents(c, t, fuel);
    if Continues(f) {
      CollectHasNoBarrier(c, action, reportDir, t + |f.calls|);
    }
  }

  lemma FromStartEvents(c: Controller, action: Action, reportDir: Option<string>, t: nat, fuel: nat)
    ensures BarrierWait !in FromStart(c, action, reportDir, t, fuel).events
  {
    var start := Step(Start, c.start(t));
    if Continues(start) {
      FromFinishedHasNoBarrier(c, action, reportDir, t + |start.calls|, fuel);
      assert FromStart(c, action, reportDir, t, fuel).events
          == [Start] + FromFinished(c, action, reportDir, t + |start.calls|, fuel).events;
    }
  }

  lemma CountTwoWaits(rest: seq<Event>)
    requires BarrierWait !in rest
    ensures Count([CleanPreviousResults, SendBenchDir] + ([BarrierWait, BarrierWait] + rest), BarrierWait) == 2
  {
    CountAbsent(rest, BarrierWait);
    CountAbsent([CleanPreviousResults, SendBenchDir], BarrierWait);
    CountConcat([BarrierWait, BarrierWait], rest, BarrierWait);
    CountConcat([CleanPreviousResults, SendBenchDir], [BarrierWait, BarrierWait] + rest, BarrierWait);
  }

  lemma ClientRunPrepared(c: Controller, action: Action, reportDir: Option<string>, fuel: nat)
    requires c.cleanPreviousResults(0).result.Ok?
    requires c.sendBenchDir(|c.cleanPreviousResults(0).calls|).result.Ok?
    ensures var t := |c.cleanPreviousResults(0).calls| + |c.sendBenchDir(|c.cleanPreviousResults(0).calls|).calls|;
      ClientRun(c, action, reportDir, fuel).events
        == [CleanPreviousResults, SendBenchDir] + ([BarrierWait, BarrierWait] + FromStart(c, action, reportDir, t, fuel).events)
  {
  }

  /** A client that fails to clean or to send stops before the barrier. */
  lemma ClientRunUnprepared(c: Controller, action: Action, reportDir: Option<string>, fuel: nat)
    requires c.cleanPreviousResults(0).result.Err?
          || c.sendBenchDir(|c.cleanPreviousResults(0).calls|).result.Err?
    ensures BarrierWait !in ClientRun(c, action, reportDir, fuel).events
  {
    var es := ClientRun(c, action, reportDir, fuel).events;
    if c.cleanPreviousResults(0).result.Err? {
      assert es == [CleanPreviousResults];
    } else {
      assert es == [CleanPreviousResults, SendBenchDir];
    }
  }

  /** The client waits at the barrier twice, before it starts, exactly when
      it cleaned its previous results and sent the benchmark directory; a
      client that fails before that never reaches the barrier. */
  lemma ClientBarrierWaits(c: Controller, action: Action, reportDir: Option<string>, fuel: nat)
    ensures var prepared := c.cleanPreviousResults(0).result.Ok?
                         && c.sendBenchDir(|c.cleanPreviousResults(0).calls|).result.Ok?;
      Count(ClientRun(c, action, reportDir, fuel).events, BarrierWait) == (if prepared then 2 else 0)
  {
    var clean := c.cleanPreviousResults(0);
    var es := ClientRun(c, action, reportDir, fuel).events;
    if clean.result.Err? || c.sendBenchDir(|clean.calls|).result.Err? {
      ClientRunUnprepared(c, action, reportDir, fuel);
      CountAbsent(es, BarrierWait);
    } else {
      var t := |clean.calls| + |c.sendBenchDir(|clean.calls|).calls|;
      ClientRunPrepared(c, action, reportDir, fuel);
      FromStartEvents(c, action, reportDir, t, fuel);
      CountTwoWaits(FromStart(c, action, reportDir, t, fuel).events);
    }
  }

  /** The client is started only after both barrier waits, so only once
      every server is ready. */
  lemma ClientStartsAfterBarriers(c: Controller, action: Action, reportDir: Option<string>, fuel: nat)
    requires Start in ClientRun(c, action, reportDir, fuel).events
    ensures ClientRun(c, action, reportDir, fuel).events[..5]
         == [CleanPreviousResults, SendBenchDir, BarrierWait, BarrierWait, Start]
  {
    var clean := Step(CleanPreviousResults, c.cleanPreviousResults(0));
    assert Continues(clean);
    var send := Step(SendBenchDir, c.sendBenchDir(|clean.calls|));
    assert Continues(send);
  }
}
