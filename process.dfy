/** libcontainer's Process: the configuration of a process to run inside a container, and the
    guards on Wait, Pid and Signal that refuse to act before the process was started (before
    the runtime attached its process operations). */
module Libcontainer {
  import opened Wrappers

  /** Errors reported by the runtime library. `Runtime` stands for every error the library's
      unseen internals can return (namespace/cgroup setup, start, wait, stats, ...). */
  datatype Error = ProcessNotExecuted | Runtime(reason: string)

  /** The process operations the runtime attaches when it starts the process: the OS pid, and
      the outcomes its wait (already decoded to an exit code) and signal give. */
  datatype Ops = Ops(pid: int, waitResult: Result<int, Error>, signalResult: Option<Error>)

  datatype Process = Process(
    args: seq<string>,
    env: seq<string>,
    user: string,
    cwd: string,
    ops: Option<Ops>)

  /** A Go `(int, error)` pair. */
  datatype IntOrError = IntOrError(value: int, err: Option<Error>)

  /** What Signal reports, and the signal it handed to the process operations, if any. */
  datatype SignalOutcome = SignalOutcome(err: Option<Error>, delegated: Option<int>)

  /** A process that the runtime has started. */
  predicate Started(p: Process)
  {
    p.ops.Some?
  }

  function Wait(p: Process): (r: Result<int, Error>)
    ensures !Started(p) ==> r == Failure(ProcessNotExecuted)
    ensures Started(p) ==> r == p.ops.value.waitResult
  {
    match p.ops
    case None => Failure(ProcessNotExecuted)
    case Some(ops) => ops.waitResult
  }

  function Pid(p: Process): (r: IntOrError)
    ensures !Started(p) ==> r == IntOrError(-1, Some(ProcessNotExecuted))
    ensures Started(p) ==> r == IntOrError(p.ops.value.pid, None)
  {
    match p.ops
    case None => IntOrError(-1, Some(ProcessNotExecuted))
    case Some(ops) => IntOrError(ops.pid, None)
  }

  function Signal(p: Process, sig: int): (r: SignalOutcome)
    ensures !Started(p) ==> r == SignalOutcome(Some(ProcessNotExecuted), None)
    ensures Started(p) ==> r == SignalOutcome(p.ops.value.signalResult, Some(sig))
  {
    match p.ops
    case None => SignalOutcome(Some(ProcessNotExecuted), None)
    case Some(ops) => SignalOutcome(ops.signalResult, Some(sig))
  }

  /** The three guards agree: Pid fails exactly when the process was not started, and then
      Wait reports the same error and Signal hands nothing on; otherwise nothing is refused. */
  lemma GuardsAgree(p: Process, sig: int)
    ensures Pid(p).err.Some? <==> Signal(p, sig).delegated.None?
    ensures Pid(p).err.Some? ==> Pid(p).value == -1 && Wait(p) == Failure(ProcessNotExecuted)
    ensures Pid(p).err.Some? ==> Signal(p, sig).err == Pid(p).err
    ensures Wait(p) != Failure(ProcessNotExecuted) ==> Pid(p).err.None?
  {
  }
}
