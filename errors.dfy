/** The error type of the benchmark driver (src/error.rs) and the `Result`
    every fallible operation returns.

    src/error.rs and the controllers use different variants: the controllers
    match `CommandFailedOnRemote(_, _, code, _)` and build `Message(text)`,
    which src/error.rs does not define. Here one datatype serves all of them:
    a remote command that exits with a non-zero code is `CommandFails(code)`,
    and a free-text error is `Throw(text)`. */
module Errors {

  /** Process exit codes are `i32` in the source. */
  type I32 = x: int | -0x8000_0000 <= x < 0x8000_0000

  /** Throughputs are `u32` in the source. */
  type U32 = x: int | 0 <= x < 0x1_0000_0000

  datatype BenchError =
    | NoSuchCommand
    | CommandFails(code: I32)
    | FileNotFound
    | Throw(text: string)

  datatype Result<T> = Ok(value: T) | Err(error: BenchError)

  datatype Option<T> = None | Some(value: T)

  /** `BenchError::throw(message, err)`: the message, then ": ", then the
      text of the underlying error. */
  function ThrowWith(message: string, err: string): (e: BenchError)
    ensures e.Throw?
    ensures |e.text| == |message| + 2 + |err|
    ensures e.text[..|message|] == message
    ensures e.text[|message|..|message| + 2] == ": "
    ensures e.text[|message| + 2..] == err
  {
    Throw(message + ": " + err)
  }

  /** `BenchError::message(message)`: the message, unchanged. */
  function Message(message: string): (e: BenchError)
    ensures e.Throw? && e.text == message
  {
    Throw(message)
  }

  /** The two constructors never collide: a wrapped error always carries the
      separator after the message, so it is never the bare message. */
  lemma ThrowWithIsNotMessage(message: string, err: string)
    ensures ThrowWith(message, err) != Message(message)
  {
    assert |ThrowWith(message, err).text| > |Message(message).text|;
  }
}
