/** The native execution driver: the registry of active containers and the lifecycle
    operations that create, start, wait for, pause, resume, terminate and inspect them.

    The runtime library (factory, container handle, process operations) and the OS are
    collaborators whose answers are passed in as parameters; every method returns, as `calls`,
    the requests that reached them, in order, along with the registry changes it made. */
module NativeDriver {
  import opened Wrappers
  import opened GoStrings
  import Lib = Libcontainer
  import Template
  import RuntimeStats

  const DriverName: string := "native"
  const Version: string := "0.2"

  datatype Error =
    | NotActive(id: string)          // no registry entry for the id
    | NotStarted                     // Kill before the process has an OS pid
    | LibError(err: Lib.Error)       // anything the runtime library reports
    | SetupError(reason: string)     // console / pipe construction, container configuration
    | OsError(reason: string)        // a failing system call

  /** The running OS process of a command, once it has one. */
  datatype OsProcess = OsProcess(pid: int)

  /** execdriver.ProcessConfig: what to run and how. */
  datatype ProcessConfig = ProcessConfig(
    entrypoint: string,
    arguments: seq<string>,
    env: seq<string>,
    user: string,
    dir: string,
    tty: bool,
    process: Option<OsProcess>)

  /** execdriver.Command: the container id and its process configuration. */
  datatype Command = Command(id: string, processConfig: ProcessConfig)

  /** A libcontainer container handle: which container, built from which configuration. */
  datatype Handle = Handle(id: string, config: Template.Config)

  datatype ExitStatus = ExitStatus(exitCode: int, oomKilled: bool)

  /** An interaction with the runtime library, the OS or the caller, or a registry update. */
  datatype Call =
    | CreateHandle(id: string)
    | Register(id: string)
    | Unregister(id: string)
    | StartProcess(args: seq<string>)
    | Callback(pid: int)
    | WaitProcess
    | SignalProcess(sig: int)
    | NotifyOom
    | DestroyHandle(id: string)
    | PauseHandle(id: string)
    | ResumeHandle(id: string)
    | QueryState(id: string)
    | QueryStartTime(pid: int)
    | KillPid(pid: int, sig: int)
    | ReapPid(pid: int)
    | ListProcesses(id: string)
    | QueryStats(id: string)

  /** Calls that may only happen while a container handle is live. */
  predicate HandleScoped(c: Call)
  {
    c.CreateHandle? || c.Register? || c.Unregister? || c.StartProcess? || c.DestroyHandle?
  }

  const SigKill: int := 9

  /** The answers Run's collaborators give, in the order Run asks. */
  datatype RunWorld = RunWorld(
    config: Result<Template.Config, Error>,  // building the container configuration
    hostUid: Result<int, Error>,             // the configuration's host uid (tty only)
    console: Option<Error>,                  // constructing the tty or std console
    create: Option<Error>,                   // factory.Create
    start: Option<Error>,                    // handle.Start
    ops: Option<Lib.Ops>,                    // the process operations Start attached
    oom: Result<bool, Error>)                // NotifyOOM: an error, or the `ok` of one receive

  /** The container handle was created (and registered): every check before it passed. */
  predicate Created(c: Command, w: RunWorld)
  {
    w.config.Success? && ConsoleSetup(c.processConfig.tty, w.hostUid, w.console).None? && w.create.None?
  }

  /** The process arguments of Run: the driver name, then the entrypoint and its arguments. */
  function RunArgs(pc: ProcessConfig): (args: seq<string>)
    ensures |args| == 2 + |pc.arguments|
    ensures args[0] == DriverName && args[1] == pc.entrypoint && args[2..] == pc.arguments
  {
    [DriverName] + ([pc.entrypoint] + pc.arguments)
  }

  /** Console setup as the source writes it: in the tty branch `rootuid, err := HostUID()`
      declares a new `err`, so the error of the tty console is assigned to that inner variable
      and the check after the branch sees the outer one, which is nil. */
  function ConsoleSetupAsWritten(tty: bool, hostUid: Result<int, Error>, console: Option<Error>): (r: Option<Error>)
    ensures tty ==> (r.Some? <==> hostUid.Failure?)
    ensures !tty ==> r == console
  {
    if tty then (if hostUid.Failure? then Some(hostUid.error) else None)
    else console
  }

  /** Console setup as intended: it succeeds only if the host uid (tty only) and the console
      were both obtained, and reports the first failure. */
  function ConsoleSetup(tty: bool, hostUid: Result<int, Error>, console: Option<Error>): (r: Option<Error>)
    ensures r.None? <==> (!tty || hostUid.Success?) && console.None?
    ensures tty && hostUid.Failure? ==> r == Some(hostUid.error)
    ensures (!tty || hostUid.Success?) ==> r == console
  {
    if tty && hostUid.Failure? then Some(hostUid.error) else console
  }

  /** The input that shows the difference: a tty console that cannot be built is reported by
      the intended setup and swallowed by the source's. */
  lemma ConsoleErrorSwallowed(e: Error)
    ensures ConsoleSetupAsWritten(true, Success(0), Some(e)) == None
    ensures ConsoleSetup(true, Success(0), Some(e)) == Some(e)
  {
  }

  /** Process start-up data of a container's init process, as the handle reports it. */
  datatype State = State(initProcessPid: int, initProcessStartTime: string)

  /** Go's `%s-%s` of the driver name and version. */
  function Name(): (r: string)
    ensures r == "native-0.2"
  {
    DriverName + "-" + Version
  }

  class Driver {
    /** The registry: container id to live handle. */
    var activeContainers: map<string, Handle>
    /** Total machine memory, read once when the driver is built. */
    const machineMemory: int

    constructor (machineMemory: int)
      ensures this.machineMemory == machineMemory
      ensures activeContainers == map[]
    {
      this.machineMemory := machineMemory;
      activeContainers := map[];
    }

    /** cleanContainer: drop the registry entry (a no-op for an absent id). */
    method CleanContainer(id: string)
      modifies this
      ensures activeContainers == old(activeContainers) - {id}
    {
      activeContainers := activeContainers - {id};
    }

    /** Run: create the container, register it, start its init process, hand its pid to the
        callback, wait for it, and always destroy and unregister the handle once created. */
    method Run(c: Command, hasCallback: bool, w: RunWorld)
      returns (status: ExitStatus, err: Option<Error>, calls: seq<Call>)
      modifies this
      // failures report exit code -1
      ensures err.Some? ==> status.exitCode == -1
      // before the handle exists: the registry is untouched and nothing is started
      ensures !Created(c, w) ==> err.Some? && activeContainers == old(activeContainers)
      ensures !Created(c, w) ==>
        calls == (if w.config.Success? && ConsoleSetup(c.processConfig.tty, w.hostUid, w.console).None?
                  then [CreateHandle(c.id)] else [])
      // the first failure before that: the configuration, the console, then the handle
      ensures !Created(c, w) ==>
        err == (if w.config.Failure? then Some(w.config.error)
                else if ConsoleSetup(c.processConfig.tty, w.hostUid, w.console).Some?
                then ConsoleSetup(c.processConfig.tty, w.hostUid, w.console)
                else w.create)
      // once it exists: registered before Start, destroyed and unregistered last
      ensures Created(c, w) ==> activeContainers == old(activeContainers) - {c.id}
      ensures Created(c, w) ==>
        |calls| >= 5 &&
        calls[..3] == [CreateHandle(c.id), Register(c.id), StartProcess(RunArgs(c.processConfig))] &&
        calls[|calls| - 2..] == [DestroyHandle(c.id), Unregister(c.id)] &&
        (forall k :: 3 <= k < |calls| - 2 ==> !HandleScoped(calls[k])) &&
        Supervised(c, hasCallback, w, calls[3..|calls| - 2], status, err)
      // a failed start: nothing happens between Start and the cleanup
      ensures Created(c, w) && w.start.Some? ==> err == w.start && |calls| == 5
      // the callback is only ever called with the pid of a process Run started
      ensures forall i :: 0 <= i < |calls| && calls[i].Callback? ==>
        i == 3 && hasCallback && Created(c, w) && w.start.None? && w.ops.Some?
      // success: the exit code of the process
      ensures err.None? <==>
        Created(c, w) && w.start.None? && w.ops.Some? && w.ops.value.waitResult.Success?
    {
      calls := [];
      if w.config.Failure? {
        return ExitStatus(-1, false), Some(w.config.error), calls;
      }
      var config := w.config.value;
      var setup := ConsoleSetup(c.processConfig.tty, w.hostUid, w.console);
      if setup.Some? {
        return ExitStatus(-1, false), setup, calls;
      }
      calls := calls + [CreateHandle(c.id)];
      if w.create.Some? {
        return ExitStatus(-1, false), w.create, calls;
      }
      var cont := Handle(c.id, config);
      activeContainers := activeContainers[c.id := cont];
      calls := calls + [Register(c.id)];

      var pc := c.processConfig;
      var args := [pc.entrypoint] + pc.arguments;
      var p := Lib.Process([DriverName] + args, pc.env, pc.user, pc.dir, None);
      calls := calls + [StartProcess(p.args)];
      var middle: seq<Call> := [];
      if w.start.Some? {
        status, err := ExitStatus(-1, false), w.start;
      } else {
        status, err, middle := Supervise(p.(ops := w.ops), hasCallback, true, w.oom);
      }
      calls := calls + middle;
      // the deferred cleanup
      calls := calls + [DestroyHandle(c.id)];
      CleanContainer(c.id);
      calls := calls + [Unregister(c.id)];
      assert calls == [CreateHandle(c.id), Register(c.id), StartProcess(RunArgs(pc))] + middle +
                      [DestroyHandle(c.id), Unregister(c.id)];
      AroundMiddle(c, middle);
    }
    /** Kill: signal the command's OS process directly, if it has one. */
    method Kill(c: Command, sig: int, killResult: Option<Error>) returns (err: Option<Error>, calls: seq<Call>)
      ensures c.processConfig.process.None? ==> err == Some(NotStarted) && calls == []
      ensures c.processConfig.process.Some? ==>
        err == killResult && calls == [KillPid(c.processConfig.process.value.pid, sig)]
    {
      if c.processConfig.process.None? {
        return Some(NotStarted), [];
      }
      err := killResult;
      calls := [KillPid(c.processConfig.process.value.pid, sig)];
    }

    /** Pause: freeze the active container; `pauseResult` is what the handle answers. */
    method Pause(c: Command, pauseResult: Option<Error>) returns (err: Option<Error>, calls: seq<Call>)
      ensures c.id !in activeContainers ==> err == Some(NotActive(c.id)) && calls == []
      ensures c.id in activeContainers ==> err == pauseResult && calls == [PauseHandle(c.id)]
    {
      if c.id !in activeContainers {
        return Some(NotActive(c.id)), [];
      }
      err, calls := pauseResult, [PauseHandle(c.id)];
    }

    /** Unpause: resume the active container; `resumeResult` is what the handle answers. */
    method Unpause(c: Command, resumeResult: Option<Error>) returns (err: Option<Error>, calls: seq<Call>)
      ensures c.id !in activeContainers ==> err == Some(NotActive(c.id)) && calls == []
      ensures c.id in activeContainers ==> err == resumeResult && calls == [ResumeHandle(c.id)]
    {
      if c.id !in activeContainers {
        return Some(NotActive(c.id)), [];
      }
      err, calls := resumeResult, [ResumeHandle(c.id)];
    }

    /** Terminate: kill the init process only if its pid still belongs to it (same start
        time), then unregister; a failed state or start-time query leaves the entry. */
    method Terminate(c: Command, state: Result<State, Error>, startTime: Result<string, Error>,
                     killResult: Option<Error>)
      returns (err: Option<Error>, calls: seq<Call>)
      modifies this
      ensures c.id !in old(activeContainers) ==>
        err == Some(NotActive(c.id)) && calls == [] && activeContainers == old(activeContainers)
      ensures c.id in old(activeContainers) && state.Failure? ==>
        err == Some(state.error) && activeContainers == old(activeContainers) &&
        calls == [QueryState(c.id)]
      ensures c.id in old(activeContainers) && state.Success? && startTime.Failure? ==>
        err == Some(startTime.error) && activeContainers == old(activeContainers) &&
        calls == [QueryState(c.id), QueryStartTime(state.value.initProcessPid)]
      ensures c.id in old(activeContainers) && state.Success? && startTime.Success? ==>
        var pid := state.value.initProcessPid;
        var same := state.value.initProcessStartTime == startTime.value;
        && activeContainers == old(activeContainers) - {c.id}
        && err == (if same then killResult else None)
        && calls == [QueryState(c.id), QueryStartTime(pid)] +
                    (if same then [KillPid(pid, SigKill), ReapPid(pid)] else []) + [Unregister(c.id)]
    {
      if c.id !in activeContainers {
        return Some(NotActive(c.id)), [];
      }
      calls := [QueryState(c.id)];
      if state.Failure? {
        return Some(state.error), calls;
      }
      var pid := state.value.initProcessPid;
      calls := calls + [QueryStartTime(pid)];
      if startTime.Failure? {
        return Some(startTime.error), calls;
      }
      err := None;
      if state.value.initProcessStartTime == startTime.value {
        err := killResult;
        calls := calls + [KillPid(pid, SigKill), ReapPid(pid)];
      }
      CleanContainer(c.id);
      calls := calls + [Unregister(c.id)];
    }

    /** GetPidsForContainer: the pids the active container's handle lists. */
    method GetPidsForContainer(id: string, processes: Result<seq<int>, Error>)
      returns (r: Result<seq<int>, Error>, calls: seq<Call>)
      ensures id !in activeContainers ==> r == Failure(NotActive(id)) && calls == []
      ensures id in activeContainers ==> r == processes && calls == [ListProcesses(id)]
    {
      if id !in activeContainers {
        return Failure(NotActive(id)), [];
      }
      r, calls := processes, [ListProcesses(id)];
    }

    /** Stats: the handle's statistics with the effective memory limit. The source looks the
        handle up without a nil check, so the id must be active. */
    method Stats(id: string, now: int, raw: Result<RuntimeStats.Stats, Error>)
      returns (r: Result<RuntimeStats.ResourceStats, Error>, calls: seq<Call>)
      requires id in activeContainers
      ensures calls == [QueryStats(id)]
      ensures raw.Failure? ==> r == Failure(raw.error)
      ensures raw.Success? ==> r.Success? && r.value.stats == raw.value && r.value.read == now
      ensures raw.Success? ==>
        var configured := activeContainers[id].config.cgroups.memory;
        r.value.memoryLimit == (if configured != 0 then configured else machineMemory)
    {
      var cont := activeContainers[id];
      calls := [QueryStats(id)];
      if raw.Failure? {
        return Failure(raw.error), calls;
      }
      var memoryLimit := cont.config.cgroups.memory;
      if memoryLimit == 0 {
        memoryLimit := machineMemory;
      }
      r := Success(RuntimeStats.ResourceStats(raw.value, now, memoryLimit, 0));
    }
  }

  /** Run's calls around the supervision: the handle is created, registered and started
      before it, destroyed and unregistered after it, and only the supervision calls back. */
  lemma AroundMiddle(c: Command, middle: seq<Call>)
    requires forall k :: 0 <= k < |middle| ==> !HandleScoped(middle[k])
    ensures var calls := [CreateHandle(c.id), Register(c.id), StartProcess(RunArgs(c.processConfig))] + middle +
                         [DestroyHandle(c.id), Unregister(c.id)];
      && |calls| >= 5
      && calls[..3] == [CreateHandle(c.id), Register(c.id), StartProcess(RunArgs(c.processConfig))]
      && calls[|calls| - 2..] == [DestroyHandle(c.id), Unregister(c.id)]
      && calls[3..|calls| - 2] == middle
      && (forall k :: 3 <= k < |calls| - 2 ==> !HandleScoped(calls[k]))
      && (forall i :: 0 <= i < |calls| && calls[i].Callback? ==> 3 <= i < |calls| - 2 && middle[i - 3] == calls[i])
  {
    var calls := [CreateHandle(c.id), Register(c.id), StartProcess(RunArgs(c.processConfig))] + middle +
                 [DestroyHandle(c.id), Unregister(c.id)];
    assert calls[3..|calls| - 2] == middle;
  }

  /** What happens between a successful or failed Start and the cleanup, for the outcomes in
      `w`: `middle` is that part of Run's calls. */
  predicate Supervised(c: Command, hasCallback: bool, w: RunWorld, middle: seq<Call>,
                       status: ExitStatus, err: Option<Error>)
  {
    w.start.None? ==> SupervisedProcess(w.ops, hasCallback, true, w.oom, middle, status, err)
  }

  /** The contract of Supervise, on the operations the Start attached (None: it attached
      none, so the process counts as never started). */
  predicate SupervisedProcess(ops: Option<Lib.Ops>, hasCallback: bool, watchOom: bool, oom: Result<bool, Error>,
                              calls: seq<Call>, status: ExitStatus, err: Option<Error>)
  {
    && (err.Some? ==> status.exitCode == -1)
    && (forall k :: 0 <= k < |calls| ==> !HandleScoped(calls[k]))
    // the callback: only at the start, only when given, with the pid of the started process
    && (forall i :: 0 <= i < |calls| && calls[i].Callback? ==>
          i == 0 && hasCallback && ops.Some? && calls[i] == Callback(ops.value.pid))
    && (hasCallback && ops.Some? ==> |calls| > 0 && calls[0].Callback?)
    // no process: the pid (or wait) query fails and nothing reaches the process
    && (ops.None? ==> err == Some(LibError(Lib.ProcessNotExecuted)) && calls == [])
    // a failed wait: kill it, wait again, report the error
    && (ops.Some? && ops.value.waitResult.Failure? ==>
          err == Some(LibError(ops.value.waitResult.error)) &&
          calls == CallbackCalls(ops.value, hasCallback) + [WaitProcess, SignalProcess(SigKill), WaitProcess])
    // a successful wait: its exit code, read after the callback and the wait; OOM-killed only if
    // watched and the notification, read after the wait, was obtained
    && (err.None? <==> ops.Some? && ops.value.waitResult.Success?)
    && (err.None? ==>
          status == ExitStatus(ops.value.waitResult.value, watchOom && oom.Success? && oom.value) &&
          calls == CallbackCalls(ops.value, hasCallback) + [WaitProcess] + (if watchOom then [NotifyOom] else []))
  }

  /** The part of Run and Exec after Start: pass the pid to the callback, wait, kill and wait
      again on failure, and (Run only, `watchOom`) read the OOM notification on success. */
  method Supervise(p: Lib.Process, hasCallback: bool, watchOom: bool, oom: Result<bool, Error>)
    returns (status: ExitStatus, err: Option<Error>, calls: seq<Call>)
    ensures SupervisedProcess(p.ops, hasCallback, watchOom, oom, calls, status, err)
  {
    calls := [];
    if hasCallback {
      var pid := Lib.Pid(p);
      if pid.err.Some? {
        calls := calls + SignalCalls(p, SigKill) + WaitCalls(p);
        assert calls == [];
        NeverStarted(hasCallback, watchOom, oom);
        return ExitStatus(-1, false), Some(LibError(pid.err.value)), calls;
      }
      calls := calls + [Callback(pid.value)];
    }
    ghost var head := calls;
    assert Lib.Started(p) ==> head == CallbackCalls(p.ops.value, hasCallback);
    var ps := Lib.Wait(p);
    calls := calls + WaitCalls(p);
    if ps.Failure? {
      calls := calls + SignalCalls(p, SigKill) + WaitCalls(p);
      if Lib.Started(p) {
        assert calls == head + [WaitProcess, SignalProcess(SigKill), WaitProcess];
        WaitFailed(p.ops.value, hasCallback, watchOom, oom);
      } else {
        assert calls == [];
        NeverStarted(hasCallback, watchOom, oom);
      }
      return ExitStatus(-1, false), Some(LibError(ps.error)), calls;
    }
    var oomKill := false;
    if watchOom {
      calls := calls + [NotifyOom];
      if oom.Success? {
        oomKill := oom.value;
      }
    }
    status, err := ExitStatus(ps.value, oomKill), None;
    assert calls == head + [WaitProcess] + (if watchOom then [NotifyOom] else []);
    Waited(p.ops.value, hasCallback, watchOom, oom);
  }

  /** The callback call Supervise starts with, if it has a callback. */
  function CallbackCalls(ops: Lib.Ops, hasCallback: bool): seq<Call>
  {
    if hasCallback then [Callback(ops.pid)] else []
  }

  /** A process never started: nothing happens and the library's refusal is reported. */
  lemma NeverStarted(hasCallback: bool, watchOom: bool, oom: Result<bool, Error>)
    ensures SupervisedProcess(None, hasCallback, watchOom, oom, [], ExitStatus(-1, false),
                              Some(LibError(Lib.ProcessNotExecuted)))
  {
  }

  /** A failed wait: after the callback, the wait, the kill and the second wait. */
  lemma WaitFailed(ops: Lib.Ops, hasCallback: bool, watchOom: bool, oom: Result<bool, Error>)
    requires ops.waitResult.Failure?
    ensures SupervisedProcess(Some(ops), hasCallback, watchOom, oom,
                              CallbackCalls(ops, hasCallback) + [WaitProcess, SignalProcess(SigKill), WaitProcess],
                              ExitStatus(-1, false), Some(LibError(ops.waitResult.error)))
  {
    var calls := CallbackCalls(ops, hasCallback) + [WaitProcess, SignalProcess(SigKill), WaitProcess];
    assert calls[|calls| - 3..] == [WaitProcess, SignalProcess(SigKill), WaitProcess];
  }

  /** A successful wait: after the callback, the wait and (when watched) the OOM notification. */
  lemma Waited(ops: Lib.Ops, hasCallback: bool, watchOom: bool, oom: Result<bool, Error>)
    requires ops.waitResult.Success?
    ensures SupervisedProcess(Some(ops), hasCallback, watchOom, oom,
                              CallbackCalls(ops, hasCallback) + [WaitProcess] + (if watchOom then [NotifyOom] else []),
                              ExitStatus(ops.waitResult.value, watchOom && oom.Success? && oom.value), None)
  {
  }

  /** The calls a Signal on `p` makes: none when the process was never started. */
  function SignalCalls(p: Lib.Process, sig: int): (r: seq<Call>)
    ensures r == (if Lib.Started(p) then [SignalProcess(sig)] else [])
  {
    var o := Lib.Signal(p, sig);
    if o.delegated.Some? then [SignalProcess(o.delegated.value)] else []
  }

  /** The calls a Wait on `p` makes: none when the process was never started. */
  function WaitCalls(p: Lib.Process): seq<Call>
  {
    if Lib.Started(p) then [WaitProcess] else []
  }

  // ---- getEnv ----

  /** The text before the first '=' of an environment pair. */
  function EnvKey(pair: string): string
  {
    Split(pair, '=')[0]
  }

  /** The pair has an '=' (so `parts[1]` exists). */
  predicate HasValue(pair: string)
  {
    |Split(pair, '=')| > 1
  }

  /** The text after the first '=' up to the next one. */
  function EnvValue(pair: string): string
    requires HasValue(pair)
  {
    Split(pair, '=')[1]
  }

  /** The pair assigns `key`. */
  predicate Defines(pair: string, key: string)
  {
    EnvKey(pair) == key && HasValue(pair)
  }

  /** getEnv as intended: the value of the first pair that assigns `key`, or "" if none does;
      a pair without '=' assigns nothing. */
  method GetEnv(key: string, env: seq<string>) returns (r: string)
    ensures (forall i :: 0 <= i < |env| ==> !Defines(env[i], key)) ==> r == ""
    ensures forall i ::
      (0 <= i < |env| && Defines(env[i], key) && forall j :: 0 <= j < i ==> !Defines(env[j], key)) ==>
        r == EnvValue(env[i])
  {
    for i := 0 to |env|
      invariant forall j :: 0 <= j < i ==> !Defines(env[j], key)
    {
      var parts := Split(env[i], '=');
      if parts[0] == key && |parts| > 1 {
        return parts[1];
      }
    }
    return "";
  }

  /** getEnv as the source writes it: `parts[1]` is read whenever the key matches, which
      panics (index out of range, modelled as None) on a matching pair without '='. */
  method GetEnvAsWritten(key: string, env: seq<string>) returns (r: Option<string>)
    ensures (forall i :: 0 <= i < |env| ==> EnvKey(env[i]) != key) ==> r == Some("")
    ensures forall i ::
      (0 <= i < |env| && EnvKey(env[i]) == key && forall j :: 0 <= j < i ==> EnvKey(env[j]) != key) ==>
        r == (if HasValue(env[i]) then Some(EnvValue(env[i])) else None)
  {
    for i := 0 to |env|
      invariant forall j :: 0 <= j < i ==> EnvKey(env[j]) != key
    {
      var parts := Split(env[i], '=');
      if parts[0] == key {
        if |parts| < 2 {
          return None;
        }
        return Some(parts[1]);
      }
    }
    return Some("");
  }

  /** The input that shows it: ["FOO"] looked up as "FOO" matches the key and has no value. */
  lemma GetEnvPanicInput()
    ensures EnvKey("FOO") == "FOO" && !HasValue("FOO") && !Defines("FOO", "FOO")
  {
    SplitNone("FOO", '=');
  }

  /** A well-formed pair KEY=VALUE assigns KEY, with VALUE as its value. */
  lemma PairDefines(key: string, value: string)
    requires '=' !in key && '=' !in value
    ensures Defines(key + "=" + value, key) && EnvValue(key + "=" + value) == value
  {
    SplitJoin([key, value], '=');
    assert Join([key, value], "=") == key + "=" + value;
  }

  /** A value that itself holds '=' is cut at it: KEY=a=b gives a. */
  lemma ValueStopsAtNextEquals(key: string, a: string, b: string)
    requires '=' !in key && '=' !in a && '=' !in b
    ensures Defines(key + "=" + a + "=" + b, key) && EnvValue(key + "=" + a + "=" + b) == a
  {
    SplitJoin([key, a, b], '=');
    assert [key, a, b][1..] == [a, b] && [a, b][1..] == [b];
    assert Join([a, b], "=") == a + "=" + b;
    assert Join([key, a, b], "=") == key + "=" + a + "=" + b;
  }
}
