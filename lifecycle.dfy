/** The vocabulary of a node's lifecycle trace: the steps a coordination
    thread takes (controller operations, barrier waits, sleeps, reads of the
    stop flag), how its run ended, and the calls it made to the remote side.
    A barrier wait is a step of the trace, not a synchronisation. */
module Lifecycle {
  import opened Errors
  import opened Remote

  datatype Event =
    | SendBenchDir
    | DeleteDbDir
    | DeleteBackupDbDir
    | ResetDbDir
    | CleanPreviousResults
    | BarrierWait
    | Start
    | CheckForReady
    | CheckForError
    | CheckForFinished
    | Sleep
    | ReadStop(stop: bool)
    | BackupDb
    | PullCsv
    | GetTotalThroughput

  /** How a run ended: the thread function returned, it panicked, or the
      observation was cut off while it was still polling (the source polls
      without a bound). */
  datatype Ending<T> = Returned(result: Result<T>) | Panicked | Cut

  /** A run, or a piece of one: how it ended, its steps, its remote calls. */
  datatype Run<T> = Run(ending: Ending<T>, events: seq<Event>, calls: seq<Call>)

  /** A piece that ended normally, so the run goes on. */
  predicate Continues(r: Run<()>)
  {
    r.ending.Returned? && r.ending.result.Ok?
  }

  /** Runs `b` after `a`. */
  function Then<T>(a: Run<()>, b: Run<T>): Run<T>
  {
    Run(b.ending, a.events + b.events, a.calls + b.calls)
  }

  /** Running pieces one after another does not depend on how they are grouped. */
  lemma ThenAssociates<T>(a: Run<()>, b: Run<()>, c: Run<T>)
    ensures Then(Then(a, b), c) == Then(a, Then(b, c))
  {
    assert (a.events + b.events) + c.events == a.events + (b.events + c.events);
    assert (a.calls + b.calls) + c.calls == a.calls + (b.calls + c.calls);
  }

  /** A piece that did not continue, as the end of a run of any result type. */
  function Halt<T>(a: Run<()>): (r: Run<T>)
    requires !Continues(a)
    ensures r.events == a.events && r.calls == a.calls
    ensures r.ending.Returned? <==> a.ending.Returned?
    ensures r.ending.Cut? <==> a.ending.Cut?
    ensures r.ending.Returned? ==> r.ending.result == Err(a.ending.result.error)
  {
    match a.ending
    case Returned(res) => Run(Returned(Err(res.error)), a.events, a.calls)
    case Panicked => Run(Panicked, a.events, a.calls)
    case Cut => Run(Cut, a.events, a.calls)
  }

  /** One controller operation as a step. */
  function Step(e: Event, o: Out<()>): Run<()>
  {
    Run(Returned(o.result), [e], o.calls)
  }

  /** Steps that touch nothing remote (barrier waits). */
  function Mark(es: seq<Event>): Run<()>
  {
    Run(Returned(Ok(())), es, [])
  }

  /** How often `e` occurs in a trace. */
  function Count(es: seq<Event>, e: Event): nat
  {
    if es == [] then 0 else Count(es[..|es| - 1], e) + (if es[|es| - 1] == e then 1 else 0)
  }

  lemma {:induction false} CountConcat(a: seq<Event>, b: seq<Event>, e: Event)
    ensures Count(a + b, e) == Count(a, e) + Count(b, e)
    decreases |b|
  {
    if b == [] {
      assert a + b == a;
    } else {
      var b' := b[..|b| - 1];
      assert (a + b)[..|a + b| - 1] == a + b';
      assert (a + b)[|a + b| - 1] == b[|b| - 1];
      CountConcat(a, b', e);
    }
  }

  lemma {:induction false} CountAbsent(a: seq<Event>, e: Event)
    requires e !in a
    ensures Count(a, e) == 0
    decreases |a|
  {
    if a != [] {
      assert a[..|a| - 1] <= a;
      CountAbsent(a[..|a| - 1], e);
    }
  }
}
