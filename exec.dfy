/** Exec: run an additional process inside an already active container. It shares Run's
    console setup and start/wait/kill sequence, but neither creates nor destroys a handle and
    never changes the registry. */
module NativeExec {
  import opened Wrappers
  import Lib = Libcontainer
  import opened NativeDriver

  /** The answers Exec's collaborators give, in the order Exec asks. */
  datatype ExecWorld = ExecWorld(
    hostUid: Result<int, Error>,   // the active handle's configuration's host uid (tty only)
    console: Option<Error>,        // constructing the tty or std console
    start: Option<Error>,          // handle.Start of the new process
    ops: Option<Lib.Ops>)          // the process operations Start attached

  /** The arguments of the exec'd process: taken from the COMMAND's process configuration (the
      entrypoint and arguments of the container), not from the configuration passed to Exec. */
  function ExecArgs(c: Command): (args: seq<string>)
    ensures |args| == 1 + |c.processConfig.arguments|
    ensures args[0] == c.processConfig.entrypoint && args[1..] == c.processConfig.arguments
  {
    [c.processConfig.entrypoint] + c.processConfig.arguments
  }

  /** Exec reached Start: the container is active and the console was set up. */
  predicate ReachesStart(d: Driver, c: Command, pc: ProcessConfig, w: ExecWorld)
    reads d
  {
    c.id in d.activeContainers && ConsoleSetup(pc.tty, w.hostUid, w.console).None?
  }

  method Exec(d: Driver, c: Command, pc: ProcessConfig, hasCallback: bool, w: ExecWorld)
    returns (exitCode: int, err: Option<Error>, calls: seq<Call>)
    ensures err.Some? ==> exitCode == -1
    ensures c.id !in d.activeContainers ==> err == Some(NotActive(c.id)) && calls == []
    ensures c.id in d.activeContainers && !ReachesStart(d, c, pc, w) ==>
      err == ConsoleSetup(pc.tty, w.hostUid, w.console) && calls == []
    ensures ReachesStart(d, c, pc, w) ==> |calls| >= 1 && calls[0] == StartProcess(ExecArgs(c))
    ensures ReachesStart(d, c, pc, w) && w.start.Some? ==> err == w.start && |calls| == 1
    // after Start: Run's sequence without the OOM notification; no handle is touched
    ensures ReachesStart(d, c, pc, w) && w.start.None? ==>
      exists status: ExitStatus :: status.exitCode == exitCode &&
        SupervisedProcess(w.ops, hasCallback, false, Success(false), calls[1..], status, err)
    ensures err.None? <==>
      ReachesStart(d, c, pc, w) && w.start.None? && w.ops.Some? && w.ops.value.waitResult.Success?
    ensures err.None? ==> exitCode == w.ops.value.waitResult.value
  {
    if c.id !in d.activeContainers {
      return -1, Some(NotActive(c.id)), [];
    }
    var setup := ConsoleSetup(pc.tty, w.hostUid, w.console);
    if setup.Some? {
      return -1, setup, [];
    }
    var p := Lib.Process([c.processConfig.entrypoint] + c.processConfig.arguments,
                         c.processConfig.env, c.processConfig.user, c.processConfig.dir, None);
    calls := [StartProcess(p.args)];
    if w.start.Some? {
      return -1, w.start, calls;
    }
    var status, middle;
    status, err, middle := Supervise(p.(ops := w.ops), hasCallback, false, Success(false));
    calls := calls + middle;
    assert calls[1..] == middle;
    exitCode := status.exitCode;
  }
}
