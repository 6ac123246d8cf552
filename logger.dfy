/** The external container logger: for one executor, launch two logger
    processes reading the executor's standard output and standard error
    through two pipes, and hand the two write ends back to the agent. Either
    both loggers run and both write ends are returned, or the call fails and,
    since `close` and `killtree` are taken to succeed, leaves the agent holding
    nothing new and no logger running. */
module ExternalLogger {
  import opened Wrappers
  import opened LoggerFlags
  import opened Syscalls

  /** The two streams of the executor, each read by its own logger. */
  datatype Stream = Stdout | Stderr

  /** The fallible operating-system actions taken for one stream, in order. */
  datatype Action = CreatePipe | SetCloexec | SpawnLogger

  /** A point where the operating system can fail the call. */
  datatype Step = Step(stream: Stream, action: Action)

  /** The value the stream-name key takes in the logger's environment. */
  function StreamName(s: Stream): (name: string)
    ensures name in {"STDOUT", "STDERR"}
    ensures name == "STDOUT" <==> s == Stdout
  {
    match s
    case Stdout => "STDOUT"
    case Stderr => "STDERR"
  }

  /** The six fallible steps of the call, in the order it takes them. */
  const ProgramOrder: seq<Step> := [
    Step(Stdout, CreatePipe), Step(Stdout, SetCloexec), Step(Stdout, SpawnLogger),
    Step(Stderr, CreatePipe), Step(Stderr, SetCloexec), Step(Stderr, SpawnLogger)]

  /** Which steps the operating system fails, each with its reason. */
  type Faults = map<Step, string>

  /** The outcome the operating system gives a step. */
  function Injected(faults: Faults, s: Step): Option<string>
  {
    if s in faults then Some(faults[s]) else None
  }

  /** The position, from `k` on, of the first step of the call that fails, if any. */
  function FirstFault(faults: Faults, k: nat): (i: Option<nat>)
    requires k <= |ProgramOrder|
    ensures i.Some? ==> k <= i.value < |ProgramOrder| && ProgramOrder[i.value] in faults
    ensures i.Some? ==> forall j :: k <= j < i.value ==> ProgramOrder[j] !in faults
    ensures i.None? <==> forall j :: k <= j < |ProgramOrder| ==> ProgramOrder[j] !in faults
    decreases |ProgramOrder| - k
  {
    if k == |ProgramOrder| then None
    else if ProgramOrder[k] in faults then Some(k)
    else FirstFault(faults, k + 1)
  }

  /** Every step is one of the six. */
  lemma StepIsOrdered(s: Step)
    ensures s in ProgramOrder
  {
    match s
    case Step(Stdout, CreatePipe) => assert ProgramOrder[0] == s;
    case Step(Stdout, SetCloexec) => assert ProgramOrder[1] == s;
    case Step(Stdout, SpawnLogger) => assert ProgramOrder[2] == s;
    case Step(Stderr, CreatePipe) => assert ProgramOrder[3] == s;
    case Step(Stderr, SetCloexec) => assert ProgramOrder[4] == s;
    case Step(Stderr, SpawnLogger) => assert ProgramOrder[5] == s;
  }

  /** Some step fails first exactly when some step fails at all. */
  lemma FirstFaultExists(faults: Faults)
    ensures FirstFault(faults, 0).None? <==> faults == map[]
  {
    if faults != map[] {
      var s :| s in faults;
      StepIsOrdered(s);
      var j :| 0 <= j < |ProgramOrder| && ProgramOrder[j] == s;
      assert ProgramOrder[j] in faults;
    }
  }

  /** The message a call that stops at a step fails with. The pipe reason is
      the text of the system error, appended as an errno-based error does. */
  function FailureMessage(a: Action, reason: string): (message: string)
    ensures |reason| < |message| && message[|message| - |reason|..] == reason
  {
    match a
    case CreatePipe => "Failed to create pipe: " + reason
    case SetCloexec => "Failed to cloexec: " + reason
    case SpawnLogger => "Failed to create logger process: " + reason
  }

  function SandboxKey(flags: FlagValues): string
  {
    flags.mesosFieldPrefix + "SANDBOX_DIRECTORY"
  }

  function JsonKey(flags: FlagValues): string
  {
    flags.mesosFieldPrefix + flags.executorInfoJsonField
  }

  function StreamKey(flags: FlagValues): string
  {
    flags.mesosFieldPrefix + flags.streamNameField
  }

  /** `std::map::insert`: adds the pair only when the key is absent. */
  function Insert(m: map<string, string>, k: string, v: string): (r: map<string, string>)
    ensures r.Keys == m.Keys + {k}
    ensures forall j :: j in m ==> r[j] == m[j]
    ensures k !in m ==> r[k] == v
  {
    if k in m then m else m[k := v]
  }


  /** The environment both loggers share before the stream key is set: the
      sandbox directory, and the executor's description when its key is configured. */
  function BaseEnvironment(flags: FlagValues, sandboxDirectory: string, executorInfoJson: string): (env: map<string, string>)
    ensures env.Keys == {SandboxKey(flags)} + (if flags.executorInfoJsonField != "" then {JsonKey(flags)} else {})
    ensures flags.executorInfoJsonField != "" ==> env[JsonKey(flags)] == executorInfoJson
    ensures flags.executorInfoJsonField == "" || SandboxKey(flags) != JsonKey(flags) ==>
      env[SandboxKey(flags)] == sandboxDirectory
  {
    var blank: map<string, string> := map[];
    var withSandbox := Insert(blank, SandboxKey(flags), sandboxDirectory);
    if flags.executorInfoJsonField != "" then withSandbox[JsonKey(flags) := executorInfoJson] else withSandbox
  }

  /** The environment the logger for a stream is launched with. Only three keys
      can appear; later assignments win where configured keys coincide. */
  function LoggerEnvironment(flags: FlagValues, sandboxDirectory: string, executorInfoJson: string, stream: Stream): (env: map<string, string>)
    ensures env.Keys == {SandboxKey(flags), StreamKey(flags)} + (if flags.executorInfoJsonField != "" then {JsonKey(flags)} else {})
    ensures env[StreamKey(flags)] == StreamName(stream)
    ensures flags.executorInfoJsonField != "" && JsonKey(flags) != StreamKey(flags) ==> env[JsonKey(flags)] == executorInfoJson
    ensures SandboxKey(flags) != StreamKey(flags) && (flags.executorInfoJsonField == "" || SandboxKey(flags) != JsonKey(flags)) ==>
      env[SandboxKey(flags)] == sandboxDirectory
  {
    BaseEnvironment(flags, sandboxDirectory, executorInfoJson)[StreamKey(flags) := StreamName(stream)]
  }

  /** The two loggers' environments differ in the stream key alone. */
  lemma StreamEnvironmentsDiffer(flags: FlagValues, sandboxDirectory: string, executorInfoJson: string)
    ensures LoggerEnvironment(flags, sandboxDirectory, executorInfoJson, Stderr)
         == LoggerEnvironment(flags, sandboxDirectory, executorInfoJson, Stdout)[StreamKey(flags) := "STDERR"]
  {
  }

  /** With the default prefix, stream field and JSON field, the keys are distinct,
      so each holds what was put under it. */
  lemma DefaultEnvironment(sandboxDirectory: string, executorInfoJson: string, stream: Stream)
    ensures var flags := FlagValues("", "MESOS_LOG_", "STREAM", "EXECUTORINFO_JSON");
      LoggerEnvironment(flags, sandboxDirectory, executorInfoJson, stream)
        == map["MESOS_LOG_SANDBOX_DIRECTORY" := sandboxDirectory,
               "MESOS_LOG_EXECUTORINFO_JSON" := executorInfoJson,
               "MESOS_LOG_STREAM" := StreamName(stream)]
  {
    var flags := FlagValues("", "MESOS_LOG_", "STREAM", "EXECUTORINFO_JSON");
    assert SandboxKey(flags) == "MESOS_LOG_SANDBOX_DIRECTORY";
    assert JsonKey(flags) == "MESOS_LOG_EXECUTORINFO_JSON";
    assert StreamKey(flags) == "MESOS_LOG_STREAM";
  }

  /** The parent hooks every logger is launched with: the lifetime extension
      exactly when the agent runs under systemd. */
  function LoggerParentHooks(systemdEnabled: bool): (hooks: seq<ParentHook>)
    ensures |hooks| <= 1
    ensures ExtendLifetime in hooks <==> systemdEnabled
  {
    if systemdEnabled then [ExtendLifetime] else []
  }

  /** The spawn request for a logger reading descriptor `stdin`. */
  function LoggerRequest(flags: FlagValues, stdin: Fd, environment: map<string, string>,
                         parentHooks: seq<ParentHook>, childHooks: seq<ChildHook>): (r: SpawnRequest)
    ensures r.stdin.OwnedFd? && r.stdin.fd == stdin
    ensures childHooks == [Setsid] ==>
      forall systemdEnabled :: parentHooks == LoggerParentHooks(systemdEnabled) ==>
        IsLoggerRequest(r, flags, systemdEnabled, stdin, environment)
  {
    SpawnRequest(flags.externalLoggerBinary, [flags.externalLoggerBinary], OwnedFd(stdin),
                 Path("/dev/null"), SharedFd(STDERR_FILENO), environment, parentHooks, childHooks)
  }

  /** The shape of both spawn requests: the binary run with itself as its only
      argument, reading the owned pipe end, writing its own output nowhere and
      its errors to the agent's standard error, in a new session. */
  predicate IsLoggerRequest(request: SpawnRequest, flags: FlagValues, systemdEnabled: bool,
                            stdin: Fd, env: map<string, string>)
  {
    && request.path == flags.externalLoggerBinary
    && request.argv == [flags.externalLoggerBinary]
    && request.stdin == OwnedFd(stdin)
    && request.stdout == Path("/dev/null")
    && request.stderr == SharedFd(STDERR_FILENO)
    && request.environment == env
    && request.parentHooks == (if systemdEnabled then [ExtendLifetime] else [])
    && request.childHooks == [Setsid]
  }

  /** The two descriptors handed to the agent on success: where the executor's
      standard output and standard error are to be written. */
  datatype SubprocessInfo = SubprocessInfo(out: Fd, err: Fd)

  /** What a call of `prepare` returns and leaves behind, step by step as the
      call takes them: each failure releases what the call holds at that point. */
  function PrepareOutcome(flags: FlagValues, s: OsState, executorInfoJson: string, sandboxDirectory: string,
                          systemdEnabled: bool, faults: Faults): (Result<SubprocessInfo, string>, OsState)
  {
    var environment := BaseEnvironment(flags, sandboxDirectory, executorInfoJson);
    if Step(Stdout, CreatePipe) in faults then
      (Failure(FailureMessage(CreatePipe, faults[Step(Stdout, CreatePipe)])), s)
    else
      var (outRead, outWrite) := NewPipe(s);
      var s1 := PipeOpened(s);
      if Step(Stdout, SetCloexec) in faults then
        (Failure(FailureMessage(SetCloexec, faults[Step(Stdout, SetCloexec)])), Closed(Closed(s1, outRead), outWrite))
      else
        var s2 := Flagged(s1, outWrite);
        var parentHooks := LoggerParentHooks(systemdEnabled);
        var childHooks := [Setsid];
        var outEnvironment := environment[StreamKey(flags) := "STDOUT"];
        var outRequest := LoggerRequest(flags, outRead, outEnvironment, parentHooks, childHooks);
        if Step(Stdout, SpawnLogger) in faults then
          // The failed spawn has already closed the read end it owned.
          (Failure(FailureMessage(SpawnLogger, faults[Step(Stdout, SpawnLogger)])), Closed(Closed(s2, outRead), outWrite))
        else
          StderrOutcome(flags, Spawned(s2, outRead, outRequest), outEnvironment, parentHooks, childHooks,
                        outWrite, NewPid(s2), faults)
  }

  /** The rest of the call once the standard-output logger runs: the same three
      steps for standard error, where a failure also closes the first write end
      and kills the first logger. */
  function StderrOutcome(flags: FlagValues, s: OsState, environment: map<string, string>,
                         parentHooks: seq<ParentHook>, childHooks: seq<ChildHook>,
                         outWrite: Fd, outProcess: Pid, faults: Faults): (Result<SubprocessInfo, string>, OsState)
  {
    if Step(Stderr, CreatePipe) in faults then
      (Failure(FailureMessage(CreatePipe, faults[Step(Stderr, CreatePipe)])), Killed(Closed(s, outWrite), outProcess))
    else
      var (errRead, errWrite) := NewPipe(s);
      var s1 := PipeOpened(s);
      if Step(Stderr, SetCloexec) in faults then
        (Failure(FailureMessage(SetCloexec, faults[Step(Stderr, SetCloexec)])),
         Killed(Closed(Closed(Closed(s1, outWrite), errRead), errWrite), outProcess))
      else
        var s2 := Flagged(s1, errWrite);
        var errEnvironment := environment[StreamKey(flags) := "STDERR"];
        var errRequest := LoggerRequest(flags, errRead, errEnvironment, parentHooks, childHooks);
        if Step(Stderr, SpawnLogger) in faults then
          (Failure(FailureMessage(SpawnLogger, faults[Step(Stderr, SpawnLogger)])),
           Killed(Closed(Closed(Closed(s2, errRead), outWrite), errWrite), outProcess))
        else
          (Success(SubprocessInfo(outWrite, errWrite)), Spawned(s2, errRead, errRequest))
  }

  /** One stream's three steps from a consistent state, all succeeding: the
      agent then holds the new write end, flagged close-on-exec, and the new
      logger holds the read end and, of the two, inherits only the read end. */
  lemma LaunchedState(s: OsState, request: SpawnRequest)
    requires Valid(s)
    ensures var (rd, wr) := NewPipe(s);
      var u := Spawned(Flagged(PipeOpened(s), wr), rd, request);
      && Valid(u)
      && u.open == s.open + {wr} && u.cloexec == s.cloexec + {wr}
      && u.created == s.created + {rd, wr} && u.readEndOf == s.readEndOf[wr := rd]
      && u.heldBy == s.heldBy[rd := NewPid(s)] && u.live == s.live + {NewPid(s)}
      && u.children == s.children[NewPid(s) := Child(request, (s.open - s.cloexec) + {rd})]
      && u.nextFd == s.nextFd + 2 && u.nextPid == s.nextPid + 1
  {
    var (rd, wr) := NewPipe(s);
    var s2 := Flagged(PipeOpened(s), wr);
    assert rd !in s.open && wr !in s.open;
    assert s2.open - s2.cloexec == (s.open - s.cloexec) + {rd};
  }

  /** Closing both ends of a new pipe, flagged or not, leaves the agent's
      descriptors as they were before the pipe. */
  lemma PipeRolledBack(s: OsState)
    requires Valid(s)
    ensures var (rd, wr) := NewPipe(s);
      && Closed(Closed(PipeOpened(s), rd), wr).open == s.open
      && Closed(Closed(PipeOpened(s), rd), wr).cloexec == s.cloexec
      && Closed(Closed(Flagged(PipeOpened(s), wr), rd), wr).open == s.open
      && Closed(Closed(Flagged(PipeOpened(s), wr), rd), wr).cloexec == s.cloexec
  {
    var (rd, wr) := NewPipe(s);
    assert rd !in s.open && wr !in s.open;
  }

  /** A failure in the standard-error half gives back the standard-output
      write end and kills the standard-output logger, and releases all it acquired itself. */
  lemma StderrFailureReleasesAll(flags: FlagValues, s: OsState, environment: map<string, string>,
                                 parentHooks: seq<ParentHook>, childHooks: seq<ChildHook>,
                                 outWrite: Fd, outProcess: Pid, faults: Faults)
    requires Valid(s)
    ensures var (r, t) := StderrOutcome(flags, s, environment, parentHooks, childHooks, outWrite, outProcess, faults);
      r.Failure? ==>
        && t.open == s.open - {outWrite} && t.cloexec == s.cloexec - {outWrite}
        && t.live == s.live - {outProcess}
  {
    var (errRead, errWrite) := NewPipe(s);
    assert errRead !in s.open && errWrite !in s.open;
    if Step(Stderr, CreatePipe) !in faults {
      var s1 := PipeOpened(s);
      if Step(Stderr, SetCloexec) in faults {
        assert Closed(Closed(Closed(s1, outWrite), errRead), errWrite).open == s.open - {outWrite};
      } else {
        var s2 := Flagged(s1, errWrite);
        assert Closed(Closed(Closed(s2, errRead), outWrite), errWrite).open == s.open - {outWrite};
      }
    }
  }

  /** A failed call leaves the agent as it found it: every descriptor it opened
      is closed again, no flag it set survives, and no logger it launched runs.
      This rests on `close` and `killtree` succeeding, which the call does not check. */
  lemma PrepareFailureReleasesAll(flags: FlagValues, s: OsState, executorInfoJson: string, sandboxDirectory: string,
                                  systemdEnabled: bool, faults: Faults)
    requires Valid(s)
    ensures var (r, t) := PrepareOutcome(flags, s, executorInfoJson, sandboxDirectory, systemdEnabled, faults);
      r.Failure? ==> t.open == s.open && t.cloexec == s.cloexec && t.live == s.live
  {
    var (outRead, outWrite) := NewPipe(s);
    PipeRolledBack(s);
    var outEnvironment := BaseEnvironment(flags, sandboxDirectory, executorInfoJson)[StreamKey(flags) := "STDOUT"];
    var outRequest := LoggerRequest(flags, outRead, outEnvironment, LoggerParentHooks(systemdEnabled), [Setsid]);
    if Step(Stdout, CreatePipe) !in faults && Step(Stdout, SetCloexec) !in faults && Step(Stdout, SpawnLogger) !in faults {
      var u := Spawned(Flagged(PipeOpened(s), outWrite), outRead, outRequest);
      LaunchedState(s, outRequest);
      StderrFailureReleasesAll(flags, u, outEnvironment, LoggerParentHooks(systemdEnabled), [Setsid], outWrite, NewPid(s), faults);
    }
  }

  /** The call succeeds exactly when no step fails, and otherwise reports the
      first step that fails, with its reason. */
  lemma PrepareStopsAtFirstFault(flags: FlagValues, s: OsState, executorInfoJson: string, sandboxDirectory: string,
                                 systemdEnabled: bool, faults: Faults)
    ensures var (r, _) := PrepareOutcome(flags, s, executorInfoJson, sandboxDirectory, systemdEnabled, faults);
      && (r.Success? <==> faults == map[])
      && (r.Failure? ==>
            && FirstFault(faults, 0).Some?
            && var first := ProgramOrder[FirstFault(faults, 0).value];
               r.error == FailureMessage(first.action, faults[first]))
  {
    FirstFaultExists(faults);
    var i := FirstFault(faults, 0);
    if i.Some? {
      var k := i.value;
      assert ProgramOrder[k] in faults;
      assert forall j :: 0 <= j < k ==> ProgramOrder[j] !in faults;
      if k == 0 {
      } else if k == 1 {
        assert ProgramOrder[0] !in faults;
      } else if k == 2 {
        assert ProgramOrder[0] !in faults && ProgramOrder[1] !in faults;
      } else if k == 3 {
        assert ProgramOrder[0] !in faults && ProgramOrder[1] !in faults && ProgramOrder[2] !in faults;
      } else if k == 4 {
        assert ProgramOrder[0] !in faults && ProgramOrder[1] !in faults && ProgramOrder[2] !in faults;
        assert ProgramOrder[3] !in faults;
      } else {
        assert ProgramOrder[0] !in faults && ProgramOrder[1] !in faults && ProgramOrder[2] !in faults;
        assert ProgramOrder[3] !in faults && ProgramOrder[4] !in faults;
      }
    }
  }

  /** The standard-error half, whatever fails, keeps the bookkeeping consistent. */
  lemma StderrKeepsValid(flags: FlagValues, s: OsState, environment: map<string, string>,
                         parentHooks: seq<ParentHook>, childHooks: seq<ChildHook>,
                         outWrite: Fd, outProcess: Pid, faults: Faults)
    requires Valid(s)
    ensures Valid(StderrOutcome(flags, s, environment, parentHooks, childHooks, outWrite, outProcess, faults).1)
  {
    if Step(Stderr, CreatePipe) in faults {
    } else if Step(Stderr, SetCloexec) in faults {
    } else if Step(Stderr, SpawnLogger) in faults {
    } else {
      var (errRead, errWrite) := NewPipe(s);
      LaunchedState(s, LoggerRequest(flags, errRead, environment[StreamKey(flags) := "STDERR"], parentHooks, childHooks));
    }
  }

  /** Every call, whatever fails, keeps the bookkeeping consistent. */
  lemma PrepareKeepsValid(flags: FlagValues, s: OsState, executorInfoJson: string, sandboxDirectory: string,
                          systemdEnabled: bool, faults: Faults)
    requires Valid(s)
    ensures Valid(PrepareOutcome(flags, s, executorInfoJson, sandboxDirectory, systemdEnabled, faults).1)
  {
    if Step(Stdout, CreatePipe) in faults {
    } else if Step(Stdout, SetCloexec) in faults {
    } else if Step(Stdout, SpawnLogger) in faults {
    } else {
      var (outRead, outWrite) := NewPipe(s);
      var outEnvironment := BaseEnvironment(flags, sandboxDirectory, executorInfoJson)[StreamKey(flags) := "STDOUT"];
      var outRequest := LoggerRequest(flags, outRead, outEnvironment, LoggerParentHooks(systemdEnabled), [Setsid]);
      var u := Spawned(Flagged(PipeOpened(s), outWrite), outRead, outRequest);
      LaunchedState(s, outRequest);
      StderrKeepsValid(flags, u, outEnvironment, LoggerParentHooks(systemdEnabled), [Setsid], outWrite, NewPid(s), faults);
    }
  }

  /** On success the agent holds exactly two new descriptors, the write ends of
      two new pipes, both close-on-exec; the read ends are no longer the agent's. */
  lemma PrepareSuccessDescriptors(flags: FlagValues, s: OsState, executorInfoJson: string, sandboxDirectory: string,
                                  systemdEnabled: bool)
    requires Valid(s)
    ensures var (r, t) := PrepareOutcome(flags, s, executorInfoJson, sandboxDirectory, systemdEnabled, map[]);
      && r.Success?
      && var out, err := r.value.out, r.value.err;
      && out in t.readEndOf && err in t.readEndOf
      && var outRead, errRead := t.readEndOf[out], t.readEndOf[err];
      && outRead !in s.created && out !in s.created && errRead !in s.created && err !in s.created
      && outRead != out && outRead != errRead && outRead != err && out != errRead && out != err && errRead != err
      && t.created == s.created + {outRead, out, errRead, err}
      && t.open == s.open + {out, err}
      && t.cloexec == s.cloexec + {out, err}
  {
    var outRequest, u, errRequest, t := SuccessfulRun(flags, s, executorInfoJson, sandboxDirectory, systemdEnabled);
  }

  /** On success two new loggers run, each holding one pipe's read end and
      launched with the logger request for its stream. Neither inherits a
      write end, nor the other's read end. */
  lemma PrepareSuccessLoggers(flags: FlagValues, s: OsState, executorInfoJson: string, sandboxDirectory: string,
                              systemdEnabled: bool)
    requires Valid(s)
    ensures var (r, t) := PrepareOutcome(flags, s, executorInfoJson, sandboxDirectory, systemdEnabled, map[]);
      && r.Success?
      && var out, err := r.value.out, r.value.err;
      && out in t.readEndOf && err in t.readEndOf
      && var outRead, errRead := t.readEndOf[out], t.readEndOf[err];
      && outRead in t.heldBy && errRead in t.heldBy
      && var outLogger, errLogger := t.heldBy[outRead], t.heldBy[errRead];
      && outLogger != errLogger && outLogger !in s.children && errLogger !in s.children
      && t.live == s.live + {outLogger, errLogger}
      && outLogger in t.children && errLogger in t.children
      && t.children == s.children[outLogger := t.children[outLogger]][errLogger := t.children[errLogger]]
      && IsLoggerRequest(t.children[outLogger].request, flags, systemdEnabled, outRead,
                         LoggerEnvironment(flags, sandboxDirectory, executorInfoJson, Stdout))
      && IsLoggerRequest(t.children[errLogger].request, flags, systemdEnabled, errRead,
                         LoggerEnvironment(flags, sandboxDirectory, executorInfoJson, Stderr))
      && t.children[outLogger].inherited == (s.open - s.cloexec) + {outRead}
      && t.children[errLogger].inherited == (s.open - s.cloexec) + {errRead}
      && {out, err, errRead} !! t.children[outLogger].inherited
      && {out, err, outRead} !! t.children[errLogger].inherited
  {
    var outRequest, u, errRequest, t := SuccessfulRun(flags, s, executorInfoJson, sandboxDirectory, systemdEnabled);
    var env := BaseEnvironment(flags, sandboxDirectory, executorInfoJson);
    assert env[StreamKey(flags) := "STDOUT"][StreamKey(flags) := "STDERR"] == env[StreamKey(flags) := "STDERR"];
  }

  /** The intermediate states of a call in which no step fails. */
  lemma SuccessfulRun(flags: FlagValues, s: OsState, executorInfoJson: string, sandboxDirectory: string,
                      systemdEnabled: bool)
    returns (outRequest: SpawnRequest, u: OsState, errRequest: SpawnRequest, t: OsState)
    requires Valid(s)
    ensures var (outRead, outWrite) := NewPipe(s);
      var env := BaseEnvironment(flags, sandboxDirectory, executorInfoJson);
      var parentHooks := LoggerParentHooks(systemdEnabled);
      && outRequest == LoggerRequest(flags, outRead, env[StreamKey(flags) := "STDOUT"], parentHooks, [Setsid])
      && u == Spawned(Flagged(PipeOpened(s), outWrite), outRead, outRequest)
      && var (errRead, errWrite) := NewPipe(u);
      && errRequest == LoggerRequest(flags, errRead, env[StreamKey(flags) := "STDOUT"][StreamKey(flags) := "STDERR"],
                                     parentHooks, [Setsid])
      && t == Spawned(Flagged(PipeOpened(u), errWrite), errRead, errRequest)
      && PrepareOutcome(flags, s, executorInfoJson, sandboxDirectory, systemdEnabled, map[])
           == (Success(SubprocessInfo(outWrite, errWrite)), t)
      && Valid(u) && u.open == s.open + {outWrite} && u.cloexec == s.cloexec + {outWrite}
      && u.created == s.created + {outRead, outWrite} && u.readEndOf == s.readEndOf[outWrite := outRead]
      && u.heldBy == s.heldBy[outRead := NewPid(s)] && u.live == s.live + {NewPid(s)}
      && u.children == s.children[NewPid(s) := Child(outRequest, (s.open - s.cloexec) + {outRead})]
      && Valid(t) && t.open == u.open + {errWrite} && t.cloexec == u.cloexec + {errWrite}
      && t.created == u.created + {errRead, errWrite} && t.readEndOf == u.readEndOf[errWrite := errRead]
      && t.heldBy == u.heldBy[errRead := NewPid(u)] && t.live == u.live + {NewPid(u)}
      && t.children == u.children[NewPid(u) := Child(errRequest, (u.open - u.cloexec) + {errRead})]
      && u.open - u.cloexec == s.open - s.cloexec
  {
    var (outRead, outWrite) := NewPipe(s);
    var env := BaseEnvironment(flags, sandboxDirectory, executorInfoJson);
    var parentHooks := LoggerParentHooks(systemdEnabled);
    outRequest := LoggerRequest(flags, outRead, env[StreamKey(flags) := "STDOUT"], parentHooks, [Setsid]);
    u := Spawned(Flagged(PipeOpened(s), outWrite), outRead, outRequest);
    LaunchedState(s, outRequest);
    var (errRead, errWrite) := NewPipe(u);
    errRequest := LoggerRequest(flags, errRead, env[StreamKey(flags) := "STDOUT"][StreamKey(flags) := "STDERR"],
                                parentHooks, [Setsid]);
    t := Spawned(Flagged(PipeOpened(u), errWrite), errRead, errRequest);
    LaunchedState(u, errRequest);
    assert outWrite !in s.open;
  }

  class ExternalContainerLoggerProcess {
    const flags: FlagValues

    constructor (flags: FlagValues)
      ensures this.flags == flags
    {
      this.flags := flags;
    }

    /** Launches the two loggers for one executor and returns the two write
        ends. The serialized executor description, the systemd check and the
        operating system's answers are inputs; `user` is not used. */
    method Prepare(os: Os, executorInfoJson: string, sandboxDirectory: string, user: Option<string>,
                   systemdEnabled: bool, faults: Faults) returns (r: Result<SubprocessInfo, string>)
      requires Valid(os.state)
      modifies os
      ensures (r, os.state) == PrepareOutcome(flags, old(os.state), executorInfoJson, sandboxDirectory, systemdEnabled, faults)
      ensures Valid(os.state)
    {
      PrepareKeepsValid(flags, os.state, executorInfoJson, sandboxDirectory, systemdEnabled, faults);
      var environment: map<string, string> := map[];
      environment := Insert(environment, SandboxKey(flags), sandboxDirectory);
      if flags.executorInfoJsonField != "" {
        environment := environment[JsonKey(flags) := executorInfoJson];
      }

      var outPipe := os.Pipe(Injected(faults, Step(Stdout, CreatePipe)));
      if outPipe.Failure? {
        return Failure(FailureMessage(CreatePipe, outPipe.error));
      }
      var (outRead, outWrite) := outPipe.value;

      // The write end must not reach either logger.
      var cloexec := os.Cloexec(outWrite, Injected(faults, Step(Stdout, SetCloexec)));
      if cloexec.Fail? {
        os.Close(outRead);
        os.Close(outWrite);
        return Failure(FailureMessage(SetCloexec, cloexec.error));
      }

      var parentHooks := LoggerParentHooks(systemdEnabled);
      var childHooks := [Setsid];

      environment := environment[StreamKey(flags) := "STDOUT"];
      var outProcess := os.Spawn(LoggerRequest(flags, outRead, environment, parentHooks, childHooks),
                                 Injected(faults, Step(Stdout, SpawnLogger)));
      if outProcess.Failure? {
        os.Close(outWrite);
        return Failure(FailureMessage(SpawnLogger, outProcess.error));
      }

      r := LaunchStderr(os, environment, parentHooks, childHooks, outWrite, outProcess.value, faults);
    }

    /** The second half of `prepare`: the standard-error logger, launched while
        the standard-output logger runs and its write end is held. */
    method LaunchStderr(os: Os, environment: map<string, string>, parentHooks: seq<ParentHook>,
                        childHooks: seq<ChildHook>, outWrite: Fd, outProcess: Pid, faults: Faults)
      returns (r: Result<SubprocessInfo, string>)
      requires Valid(os.state) && outWrite in os.state.open && outProcess in os.state.live
      modifies os
      ensures (r, os.state) == StderrOutcome(flags, old(os.state), environment, parentHooks, childHooks,
                                             outWrite, outProcess, faults)
      ensures Valid(os.state)
    {
      StderrKeepsValid(flags, os.state, environment, parentHooks, childHooks, outWrite, outProcess, faults);
      var errPipe := os.Pipe(Injected(faults, Step(Stderr, CreatePipe)));
      if errPipe.Failure? {
        os.Close(outWrite);
        os.Killtree(outProcess);
        return Failure(FailureMessage(CreatePipe, errPipe.error));
      }
      var (errRead, errWrite) := errPipe.value;

      var cloexec := os.Cloexec(errWrite, Injected(faults, Step(Stderr, SetCloexec)));
      if cloexec.Fail? {
        os.Close(outWrite);
        os.Close(errRead);
        os.Close(errWrite);
        os.Killtree(outProcess);
        return Failure(FailureMessage(SetCloexec, cloexec.error));
      }

      var errEnvironment := environment[StreamKey(flags) := "STDERR"];
      var errProcess := os.Spawn(LoggerRequest(flags, errRead, errEnvironment, parentHooks, childHooks),
                                 Injected(faults, Step(Stderr, SpawnLogger)));
      if errProcess.Failure? {
        os.Close(outWrite);
        os.Close(errWrite);
        os.Killtree(outProcess);
        return Failure(FailureMessage(SpawnLogger, errProcess.error));
      }

      // Ownership of both write ends passes to the caller.
      r := Success(SubprocessInfo(outWrite, errWrite));
    }
  }

  /** The module exposed to the agent. */
  class ExternalContainerLogger {
    const flags: FlagValues
    const process: ExternalContainerLoggerProcess

    constructor (flags: FlagValues)
      ensures this.flags == flags && process.flags == flags
    {
      this.flags := flags;
      process := new ExternalContainerLoggerProcess(flags);
    }

    /** Nothing to set up: always succeeds and changes nothing. */
    method Initialize() returns (r: Outcome<string>)
      ensures r == Pass
    {
      r := Pass;
    }
  }
}
