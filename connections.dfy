/** The shared vocabulary of the role controllers (src/connections/mod.rs). */
module Connections {

  /** What a run does: load the database, or benchmark it. */
  datatype Action = Loading | Benchmarking

  /** The code a client program receives for its action. */
  function AsInt(a: Action): (code: int)
    ensures code == 1 || code == 2
    ensures code == 1 <==> a == Loading
    ensures code == 2 <==> a == Benchmarking
  {
    match a
    case Loading => 1
    case Benchmarking => 2
  }

  /** Two actions with the same code are the same action. */
  lemma AsIntInjective(a: Action, b: Action)
    requires AsInt(a) == AsInt(b)
    ensures a == b
  {
  }

  /** A node of the run as the thread and preparation code see it: its id and
      the text it prints as (`to_string()`, whose implementation is not part
      of this model). */
  datatype ConnectionInfo = ConnectionInfo(id: nat, text: string)
}
