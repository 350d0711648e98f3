/** The run orchestrator (src/threads/mod.rs): how many coordination threads
    a run has, the order they are started in, and the loop that receives
    their results, raises the stop flag and gives the run its result.
    Threads are not run here: the results arrive as a sequence, in the order
    the channel delivers them. */
module Threads {
  import opened Errors
  import opened Connections

  /** What a coordination thread reports, once, when it ends. */
  datatype ThreadResult = ServerSucceed | ClientSucceed(throughput: Option<U32>) | Failed

  const THREAD_FAILED_MESSAGE := "A thread exits with an error"

  /** How many client threads a run starts: one bulk loader when loading,
      one per listed client when benchmarking. */
  function ClientCount(action: Action, clientListLength: nat): (n: nat)
    ensures action == Loading ==> n == 1
    ensures action == Benchmarking ==> n == clientListLength
  {
    if action == Loading then 1 else clientListLength
  }

  /** The size of the barrier: every server, the sequencer if any, and the
      client threads. */
  function ThreadCount(hasSequencer: bool, serverCount: nat, clientCount: nat): nat
  {
    serverCount + clientCount + (if hasSequencer then 1 else 0)
  }

  datatype Role = ServerRole | SequencerRole | ClientRole

  /** A started coordination thread: its role and its node. */
  datatype Spawned = Spawned(role: Role, node: ConnectionInfo)

  function Min(a: nat, b: nat): nat
  {
    if a <= b then a else b
  }

  /** Starts the threads: the servers in list order, then the sequencer, then
      the clients `0 .. client_count`. Indexing a client beyond the list
      panics; the threads started before the panic stay in the list. */
  method SpawnThreads(action: Action, sequencer: Option<ConnectionInfo>,
                      servers: seq<ConnectionInfo>, clients: seq<ConnectionInfo>)
    returns (threads: seq<Spawned>, panicked: bool)
    ensures panicked <==> |clients| < ClientCount(action, |clients|)
    ensures var seqCount := if sequencer.Some? then 1 else 0;
      |threads| == |servers| + seqCount + Min(ClientCount(action, |clients|), |clients|)
    ensures !panicked
        ==> |threads| == ThreadCount(sequencer.Some?, |servers|, ClientCount(action, |clients|))
    ensures forall i :: 0 <= i < |servers| ==> threads[i] == Spawned(ServerRole, servers[i])
    ensures sequencer.Some? ==> threads[|servers|] == Spawned(SequencerRole, sequencer.value)
    ensures var first := |servers| + (if sequencer.Some? then 1 else 0);
      forall j :: first <= j < |threads| ==> threads[j] == Spawned(ClientRole, clients[j - first])
  {
    var clientCount := ClientCount(action, |clients|);
    threads := [];
    for i := 0 to |servers|
      invariant |threads| == i
      invariant forall k :: 0 <= k < i ==> threads[k] == Spawned(ServerRole, servers[k])
    {
      threads := threads + [Spawned(ServerRole, servers[i])];
    }
    if sequencer.Some? {
      threads := threads + [Spawned(SequencerRole, sequencer.value)];
    }
    var first := |threads|;
    panicked := false;
    var clientId := 0;
    while clientId < clientCount
      invariant 0 <= clientId <= clientCount && clientId <= |clients|
      invariant |threads| == first + clientId
      invariant forall k :: 0 <= k < |servers| ==> threads[k] == Spawned(ServerRole, servers[k])
      invariant sequencer.Some? ==> threads[|servers|] == Spawned(SequencerRole, sequencer.value)
      invariant forall j :: first <= j < |threads| ==> threads[j] == Spawned(ClientRole, clients[j - first])
      invariant !panicked
    {
      if clientId >= |clients| {
        panicked := true;
        return;
      }
      threads := threads + [Spawned(ClientRole, clients[clientId])];
      clientId := clientId + 1;
    }
  }

  /** The shared stop flag. The only way to change it is to raise it, so once
      raised it stays raised. */
  class StopSign {
    var stop: bool

    constructor ()
      ensures !stop
    {
      stop := false;
    }

    method Raise()
      modifies this
      ensures stop
    {
      stop := true;
    }
  }

  /** What the receiving loop ends with: all results received, a thread
      failed, or still waiting on the channel (a thread never reported; the
      sender held by the orchestrator keeps the channel open). */
  datatype Outcome = AllReceived(results: seq<Option<U32>>) | ThreadFailed | StillWaiting

  datatype Collected = Collected(outcome: Outcome, stop: bool)

  /** The receiving loop from the `i`-th arrival on, with the results so far
      and the stop flag so far. */
  function CollectFrom(arrivals: seq<ThreadResult>, i: nat, threadCount: nat, clientCount: nat,
                       results: seq<Option<U32>>, stop: bool): Collected
    decreases threadCount - i
  {
    if i >= threadCount then Collected(AllReceived(results), stop)
    else if i >= |arrivals| then Collected(StillWaiting, stop)
    else match arrivals[i]
      case ClientSucceed(th) =>
        var rs := results + [th];
        CollectFrom(arrivals, i + 1, threadCount, clientCount, rs, stop || |rs| >= clientCount)
      case Failed => Collected(ThreadFailed, stop)
      case ServerSucceed => CollectFrom(arrivals, i + 1, threadCount, clientCount, results, stop)
  }

  /** The receiving loop of a run, from a lowered flag and no results. */
  function Collect(arrivals: seq<ThreadResult>, threadCount: nat, clientCount: nat): Collected
  {
    CollectFrom(arrivals, 0, threadCount, clientCount, [], false)
  }

  /** The receiving loop: takes at most `thread_count` results; the first
      `Failed` ends it at once; each client's result is appended; the stop
      flag is raised when the client results reach the client count. */
  method CollectResults(arrivals: seq<ThreadResult>, threadCount: nat, clientCount: nat)
    returns (c: Collected)
    ensures c == Collect(arrivals, threadCount, clientCount)
  {
    var stopSign := new StopSign();
    var results: seq<Option<U32>> := [];
    var i := 0;
    while i < threadCount
      invariant 0 <= i <= threadCount
      invariant CollectFrom(arrivals, i, threadCount, clientCount, results, stopSign.stop)
             == Collect(arrivals, threadCount, clientCount)
    {
      if i >= |arrivals| {
        return Collected(StillWaiting, stopSign.stop);
      }
      match arrivals[i] {
        case ClientSucceed(th) =>
          results := results + [th];
          if |results| >= clientCount {
            stopSign.Raise();
          }
        case Failed =>
          return Collected(ThreadFailed, stopSign.stop);
        case ServerSucceed =>
      }
      i := i + 1;
    }
    c := Collected(AllReceived(results), stopSign.stop);
  }

  /** The throughputs carried by the client results of `s`, in order. */
  function ClientPayloads(s: seq<ThreadResult>): seq<Option<U32>>
  {
    if s == [] then []
    else
      var last := s[|s| - 1];
      ClientPayloads(s[..|s| - 1]) + (if last.ClientSucceed? then [last.throughput] else [])
  }

  /** The position of the first `Failed` in `s`, or `|s|` when none. */
  function FirstFailed(s: seq<ThreadResult>): (i: nat)
    ensures i <= |s|
    ensures forall k :: 0 <= k < i ==> s[k] != Failed
    ensures i < |s| ==> s[i] == Failed
  {
    if s == [] then 0 else if s[0] == Failed then 0 else 1 + FirstFailed(s[1..])
  }

  /** The arrivals the loop takes in before it stops on a failure or on the
      thread count. */
  function Received(arrivals: seq<ThreadResult>, threadCount: nat): seq<ThreadResult>
  {
    var n := Min(threadCount, |arrivals|);
    arrivals[..FirstFailed(arrivals[..n])]
  }

  lemma ClientPayloadsSnoc(s: seq<ThreadResult>, r: ThreadResult)
    ensures ClientPayloads(s + [r]) == ClientPayloads(s) + (if r.ClientSucceed? then [r.throughput] else [])
  {
    assert (s + [r])[..|s + [r]| - 1] == s;
  }

  /** The receiving loop's result written out in closed form: a failure if
      one is among the results taken in, waiting if the results run out
      first, else the client throughputs in arrival order; the flag is
      raised when the client results taken in reach the client count. */
  function Expected(arrivals: seq<ThreadResult>, threadCount: nat, clientCount: nat): Collected
  {
    var n := Min(threadCount, |arrivals|);
    var k := |ClientPayloads(Received(arrivals, threadCount))|;
    var stop := k >= clientCount && k >= 1;
    if Failed in arrivals[..n] then Collected(ThreadFailed, stop)
    else if |arrivals| < threadCount then Collected(StillWaiting, stop)
    else Collected(AllReceived(ClientPayloads(arrivals[..threadCount])), stop)
  }

  lemma FirstFailedIs(s: seq<ThreadResult>, i: nat)
    requires i <= |s|
    requires i < |s| ==> s[i] == Failed
    requires forall k :: 0 <= k < i ==> s[k] != Failed
    ensures FirstFailed(s) == i
  {
    if i == |s| {
      assert Failed !in s;
    }
  }

  /** The loop has taken in every result it will: no failure among them. */
  lemma ExpectedAtEnd(arrivals: seq<ThreadResult>, i: nat, threadCount: nat, clientCount: nat,
                      results: seq<Option<U32>>, stop: bool)
    requires i == Min(threadCount, |arrivals|)
    requires Failed !in arrivals[..i]
    requires results == ClientPayloads(arrivals[..i])
    requires stop <==> |results| >= clientCount && |results| >= 1
    ensures CollectFrom(arrivals, i, threadCount, clientCount, results, stop)
         == Expected(arrivals, threadCount, clientCount)
  {
    FirstFailedIs(arrivals[..i], i);
    assert arrivals[..i][..i] == arrivals[..i];
    assert Received(arrivals, threadCount) == arrivals[..i];
    if |arrivals| < threadCount {
      assert arrivals[..i] == arrivals;
    }
  }

  /** The loop meets a failure at position `i`. */
  lemma ExpectedAtFailure(arrivals: seq<ThreadResult>, i: nat, threadCount: nat, clientCount: nat,
                          results: seq<Option<U32>>, stop: bool)
    requires i < Min(threadCount, |arrivals|) && arrivals[i] == Failed
    requires Failed !in arrivals[..i]
    requires results == ClientPayloads(arrivals[..i])
    requires stop <==> |results| >= clientCount && |results| >= 1
    ensures CollectFrom(arrivals, i, threadCount, clientCount, results, stop)
         == Expected(arrivals, threadCount, clientCount)
  {
    var n := Min(threadCount, |arrivals|);
    var prefix := arrivals[..n];
    assert prefix[i] == Failed;
    assert forall k :: 0 <= k < i ==> prefix[k] == arrivals[..i][k];
    FirstFailedIs(prefix, i);
    assert Received(arrivals, threadCount) == arrivals[..i];
  }

  /** One arrival that is not a failure keeps the loop's accumulators in step
      with the arrivals taken in. */
  lemma AccumulatorsStep(arrivals: seq<ThreadResult>, i: nat, clientCount: nat,
                         results: seq<Option<U32>>, stop: bool)
    requires i < |arrivals| && arrivals[i] != Failed
    requires Failed !in arrivals[..i]
    requires results == ClientPayloads(arrivals[..i])
    requires stop <==> |results| >= clientCount && |results| >= 1
    ensures var rs := if arrivals[i].ClientSucceed? then results + [arrivals[i].throughput] else results;
      var st := if arrivals[i].ClientSucceed? then stop || |rs| >= clientCount else stop;
      && Failed !in arrivals[..i + 1]
      && rs == ClientPayloads(arrivals[..i + 1])
      && (st <==> |rs| >= clientCount && |rs| >= 1)
  {
    assert arrivals[..i + 1] == arrivals[..i] + [arrivals[i]];
    ClientPayloadsSnoc(arrivals[..i], arrivals[i]);
  }

  lemma {:induction false} CollectFromExpected(arrivals: seq<ThreadResult>, i: nat, threadCount: nat,
                                               clientCount: nat, results: seq<Option<U32>>, stop: bool)
    requires i <= threadCount && i <= |arrivals|
    requires Failed !in arrivals[..i]
    requires results == ClientPayloads(arrivals[..i])
    requires stop <==> |results| >= clientCount && |results| >= 1
    ensures CollectFrom(arrivals, i, threadCount, clientCount, results, stop)
         == Expected(arrivals, threadCount, clientCount)
    decreases threadCount - i
  {
    if i == Min(threadCount, |arrivals|) {
      ExpectedAtEnd(arrivals, i, threadCount, clientCount, results, stop);
    } else if arrivals[i] == Failed {
      ExpectedAtFailure(arrivals, i, threadCount, clientCount, results, stop);
    } else {
      var rs := if arrivals[i].ClientSucceed? then results + [arrivals[i].throughput] else results;
      var st := if arrivals[i].ClientSucceed? then stop || |rs| >= clientCount else stop;
      AccumulatorsStep(arrivals, i, clientCount, results, stop);
      CollectFromExpected(arrivals, i + 1, threadCount, clientCount, rs, st);
    }
  }

  /** What the receiving loop decides, stated on the arrivals:
      - it reports a failure exactly when a `Failed` is among the results it
        takes in (at most `thread_count` of them);
      - it keeps waiting exactly when fewer results than threads ever arrive
        and none of them failed;
      - otherwise it has all `thread_count` results, and returns the client
        throughputs in arrival order;
      - the stop flag ends raised exactly when the client results taken in
        before any failure number at least the client count, and at least
        one (the flag is only raised on the arrival of a client result). */
  lemma CollectSpec(arrivals: seq<ThreadResult>, threadCount: nat, clientCount: nat)
    ensures var c := Collect(arrivals, threadCount, clientCount);
      var n := Min(threadCount, |arrivals|);
      var k := |ClientPayloads(Received(arrivals, threadCount))|;
      && (c.outcome == ThreadFailed <==> Failed in arrivals[..n])
      && (c.outcome == StillWaiting <==> |arrivals| < threadCount && Failed !in arrivals)
      && (c.outcome.AllReceived? <==> threadCount <= |arrivals| && Failed !in arrivals[..threadCount])
      && (c.outcome.AllReceived? ==> c.outcome.results == ClientPayloads(arrivals[..threadCount]))
      && (c.stop <==> k >= clientCount && k >= 1)
  {
    assert arrivals[..0] == [];
    CollectFromExpected(arrivals, 0, threadCount, clientCount, [], false);
    if |arrivals| < threadCount {
      assert arrivals[..Min(threadCount, |arrivals|)] == arrivals;
    }
  }

  /** A server's success changes neither the results nor the flag: the loop
      goes on to the next arrival as if it had not been there. */
  lemma ServerSucceedChangesNothing(arrivals: seq<ThreadResult>, i: nat, threadCount: nat, clientCount: nat,
                                    results: seq<Option<U32>>, stop: bool)
    requires i < threadCount && i < |arrivals| && arrivals[i] == ServerSucceed
    ensures CollectFrom(arrivals, i, threadCount, clientCount, results, stop)
         == CollectFrom(arrivals, i + 1, threadCount, clientCount, results, stop)
  {
  }

  /** Once raised, the flag stays raised to the end of the loop. */
  lemma {:induction false} StopStaysRaised(arrivals: seq<ThreadResult>, i: nat, threadCount: nat, clientCount: nat,
                                           results: seq<Option<U32>>)
    ensures CollectFrom(arrivals, i, threadCount, clientCount, results, true).stop
    decreases threadCount - i
  {
    if i < threadCount && i < |arrivals| {
      match arrivals[i]
      case ClientSucceed(th) =>
        StopStaysRaised(arrivals, i + 1, threadCount, clientCount, results + [th]);
      case Failed =>
      case ServerSucceed =>
        StopStaysRaised(arrivals, i + 1, threadCount, clientCount, results);
    }
  }

  /** The positions in `s` at which a client reported success. */
  function ClientSuccessPositions(s: seq<ThreadResult>): set<nat>
  {
    set i: nat | i < |s| && s[i].ClientSucceed?
  }

  /** There is exactly one result per client success received, and so never
      more results than arrivals. */
  lemma {:induction false} ClientPayloadsCount(s: seq<ThreadResult>)
    ensures |ClientPayloads(s)| == |ClientSuccessPositions(s)|
    ensures |ClientPayloads(s)| <= |s|
    decreases |s|
  {
    if s != [] {
      var init := s[..|s| - 1];
      var last := s[|s| - 1];
      ClientPayloadsCount(init);
      if last.ClientSucceed? {
        assert ClientSuccessPositions(s) == ClientSuccessPositions(init) + {|s| - 1};
        assert |s| - 1 !in ClientSuccessPositions(init);
      } else {
        assert ClientSuccessPositions(s) == ClientSuccessPositions(init);
      }
    }
  }

  /** How a run ends: a panic while starting the threads, blocked on the
      channel for ever, or the function returns. */
  datatype RunOutcome = RunPanicked | RunBlocked | RunReturned(result: Result<seq<Option<U32>>>)

  /** `run_in_threads`: counts the threads, starts them, then receives their
      results. The first failure is returned at once (the threads are not
      joined on that path); on success every thread is joined and the client
      results are returned. */
  method RunInThreads(action: Action, sequencer: Option<ConnectionInfo>,
                      servers: seq<ConnectionInfo>, clients: seq<ConnectionInfo>,
                      arrivals: seq<ThreadResult>)
    returns (o: RunOutcome, threads: seq<Spawned>)
    ensures var clientCount := ClientCount(action, |clients|);
      var c := Collect(arrivals, ThreadCount(sequencer.Some?, |servers|, clientCount), clientCount);
      && (o == RunPanicked <==> |clients| < clientCount)
      && (o.RunReturned? && o.result.Err? <==> |clients| >= clientCount && c.outcome == ThreadFailed)
      && (o.RunReturned? && o.result.Err? ==> o.result.error == Message(THREAD_FAILED_MESSAGE))
      && (o.RunReturned? && o.result.Ok? <==> |clients| >= clientCount && c.outcome.AllReceived?)
      && (o.RunReturned? && o.result.Ok? ==> o.result.value == c.outcome.results)
      && (o == RunBlocked <==> |clients| >= clientCount && c.outcome == StillWaiting)
    ensures o != RunPanicked ==> |threads| == ThreadCount(sequencer.Some?, |servers|, ClientCount(action, |clients|))
  {
    var clientCount := ClientCount(action, |clients|);
    var threadCount := ThreadCount(sequencer.Some?, |servers|, clientCount);
    var panicked;
    threads, panicked := SpawnThreads(action, sequencer, servers, clients);
    if panicked {
      return RunPanicked, threads;
    }
    var c := CollectResults(arrivals, |threads|, clientCount);
    match c.outcome {
      case ThreadFailed => o := RunReturned(Err(Message(THREAD_FAILED_MESSAGE)));
      case StillWaiting => o := RunBlocked;
      case AllReceived(results) => o := RunReturned(Ok(results));
    }
  }
}
