# External container logger, modelled in Dafny

The Mesos external container logger is an agent module. For each executor it
starts two logger processes, one for the executor's standard output and one
for its standard error. Each logger reads its stream from a pipe. The
module's `prepare` call creates the two pipes, launches the two loggers on
their read ends, and hands the two write ends back to the agent. The call is
all or nothing. Either both loggers run and both write ends are returned, or
the call fails with a message and everything it acquired is released, as
long as the `close` and `killtree` calls of its cleanup succeed.

The project has four modules:

- `Wrappers` (`wrappers.dfy`): an option type, a value-or-error result, and a
  pass/fail outcome.
- `LoggerFlags` (`flags.dfy`) models the module's `Flags` structure:
  - the four fields;
  - the registrations its constructor makes with `add`: names, the alias of
    the binary's path, and the defaults;
  - which registration a flag name loads;
  - the validator that checks the logger binary's path.
- `Syscalls` (`syscalls.dfy`) models the part of the operating system the
  call uses. It is an `OsState` value:
  - the agent's open descriptors and which of them are close-on-exec;
  - every descriptor ever created, and each pipe's write end with its read end;
  - which read end each launched process holds;
  - the launched processes that still run, and what each was launched with,
    including the descriptors it inherited.

  A pure function per primitive gives the state that primitive leaves:
  `pipe`, `cloexec`, `close`, spawn with an owned standard input, and
  `killtree`. A class `Os` holds the state, with one method per primitive.
  A method that can fail takes its outcome as an input. The methods that
  release or use a descriptor or process require that the agent still holds
  it. So the proofs of `Prepare` also show that no descriptor is closed twice,
  no read end is closed after a logger took it, and no process is killed
  that was never launched.
- `ExternalLogger` (`logger.dfy`) models the call itself:
  - the environment both loggers are given;
  - the shape of the two spawn requests;
  - `PrepareOutcome`, the result and final state of a call, taken step by step
    in the source's order, given which steps the operating system fails;
  - the `Prepare` method over an `Os` object, proved to end in exactly that
    result and state;
  - lemmas on `PrepareOutcome`. They cover: success exactly when no step
    fails; the first failing step setting the message; no leak on failure;
    what is handed over on success; what each logger inherits; and that the
    bookkeeping stays consistent.

Descriptor and process numbers come from counters that never reuse a number,
which makes "never seen before" easy to state. The call's `user` argument
takes no part in `PrepareOutcome`, so the result does not depend on it.

## Model

| member | source | states |
|---|---|---|
| `LoggerFlags.ApplyDefault` | src/lib_externallogger.hpp:71-87 | after a registration, its field holds its default when it has one, and every other field is unchanged |
| `LoggerFlags.Resolve` | src/lib_externallogger.hpp:48-50 | a flag name loads the first registration whose name or alias it is; there is no result exactly when no registration answers to it |
| `LoggerFlags.BinaryFlagNames` | src/lib_externallogger.hpp:48-53 | `external_logger_binary` and its alias `external_logger_script` both load the binary's path; that path has no default and is the only validated flag |
| `LoggerFlags.DefaultsByName` | src/lib_externallogger.hpp:71-87 | the other three flags load under their own names, with defaults `MESOS_LOG_`, `STREAM` and `EXECUTORINFO_JSON` |
| `LoggerFlags.Flags.constructor` | src/lib_externallogger.hpp:46-94 | the constructor registers the four flags in source order; afterwards the three fields with defaults hold them and the binary's path is empty |
| `LoggerFlags.Flags.Add` | src/lib_externallogger.hpp:48-87 | a registration is appended and its default, if any, is stored in its field alone |
| `LoggerFlags.ValidateExecutable` | src/lib_externallogger.hpp:53-69 | the path is accepted exactly when it exists and the execute check says yes; a missing path is refused with `Cannot find: ` and the path |
| `LoggerFlags.RejectsNonExecutable` | src/lib_externallogger.hpp:59-63 | an existing path the execute check refuses gets `Not executable by Mesos: ` and the path |
| `LoggerFlags.RejectsFailedAccessCheck` | src/lib_externallogger.hpp:64-66 | an existing path whose execute check errs gets `Cannot stat for access check: ` and the path |
| `LoggerFlags.MissingPathIgnoresAccess` | src/lib_externallogger.hpp:54-58 | for a missing path, the verdict is the same whatever the execute check would answer on any path, that one included; the check is not reached |
| `Syscalls.NewPipe` | src/lib_externallogger.cpp:99-106 | a pipe's two ends are distinct descriptors that were never handed out before |
| `Syscalls.PipeOpened` | src/lib_externallogger.cpp:100 | a successful pipe keeps the descriptor bookkeeping consistent |
| `Syscalls.Flagged` | src/lib_externallogger.cpp:111 | flagging an open descriptor close-on-exec keeps the bookkeeping consistent |
| `Syscalls.Closed` | src/lib_externallogger.cpp:113-114 | a close keeps the bookkeeping consistent |
| `Syscalls.NewPid` | src/lib_externallogger.cpp:137-147 | a launched process gets a number no earlier process had |
| `Syscalls.Spawned` | src/lib_externallogger.cpp:137-147 | a spawn on an open owned descriptor keeps the bookkeeping consistent |
| `Syscalls.Killed` | src/lib_externallogger.cpp:159 | a kill keeps the bookkeeping consistent |
| `Syscalls.Os.Pipe` | src/lib_externallogger.cpp:100-102 | on failure, the reason and no change; on success, the new pipe's ends and the state `PipeOpened` gives |
| `Syscalls.Os.Cloexec` | src/lib_externallogger.cpp:111-112 | on failure, the reason and no change; on success, the descriptor is flagged |
| `Syscalls.Os.Close` | src/lib_externallogger.cpp:113-114 | only a held descriptor can be closed; afterwards it is neither open nor flagged |
| `Syscalls.Os.Spawn` | src/lib_externallogger.cpp:137-149 | the owned standard input must be held; it is closed in the agent whatever the outcome; on success the new process holds it, runs, and inherits the open descriptors that are not close-on-exec |
| `Syscalls.Os.Killtree` | src/lib_externallogger.cpp:159 | only a running launched process can be killed; afterwards it no longer runs |
| `ExternalLogger.StreamName` | src/lib_externallogger.cpp:135 | the stream key's value is one of `STDOUT` and `STDERR`, and `STDOUT` exactly for the standard-output logger (also src/lib_externallogger.cpp:179) |
| `ExternalLogger.FailureMessage` | src/lib_externallogger.cpp:101-198 | every failure message ends with the failing call's own reason, after a non-empty prefix naming the step: `Failed to create pipe: `, `Failed to cloexec: ` or `Failed to create logger process: ` (lines 101, 115, 151-152, 160, 175 and 197-198) |
| `ExternalLogger.Insert` | src/lib_externallogger.cpp:80-83 | map insertion as `std::map::insert` does it: the key is present afterwards, no existing entry changes, and the value is stored only when the key was absent |
| `ExternalLogger.LoggerParentHooks` | src/lib_externallogger.cpp:121-129 | at most one parent hook, and the lifetime extension is among them exactly under systemd |
| `ExternalLogger.LoggerRequest` | src/lib_externallogger.cpp:137-147 | the request's standard input is the given descriptor, owned by the child; built with the call's child hooks and the parent hooks for some systemd answer, it has the shape `IsLoggerRequest` states for that answer (also src/lib_externallogger.cpp:181-191) |
| `ExternalLogger.IsLoggerRequest` | src/lib_externallogger.cpp:121-147 | reference predicate with no contract of its own: the binary as path and sole argument, the owned read end as input, `/dev/null` as output, the agent's standard error, the given environment, the lifetime hook exactly under systemd, and `SETSID`; `LoggerRequest` and `PrepareSuccessLoggers` are stated in its terms (also src/lib_externallogger.cpp:181-191) |
| `ExternalLogger.PrepareOutcome` | src/lib_externallogger.cpp:74-205 | reference function with no contract of its own: the result and final state of a call, step by step in the source's order, with the cleanup each of the standard-output failures does; the lemmas `PrepareStopsAtFirstFault`, `PrepareFailureReleasesAll`, `PrepareKeepsValid`, `PrepareSuccessDescriptors` and `PrepareSuccessLoggers` state its properties |
| `ExternalLogger.StderrOutcome` | src/lib_externallogger.cpp:155-205 | reference function with no contract of its own: the standard-error half of `PrepareOutcome`, with the cleanup each of its three failures does; `StderrFailureReleasesAll` and `StderrKeepsValid` state its properties |
| `ExternalLogger.FirstFault` | src/lib_externallogger.cpp:99-199 | the first step, in the call's order, that the operating system fails; none exactly when no step fails |
| `ExternalLogger.FirstFaultExists` | src/lib_externallogger.cpp:99-199 | some step fails first exactly when any step fails |
| `ExternalLogger.BaseEnvironment` | src/lib_externallogger.cpp:76-91 | from an empty map: the sandbox key, plus the JSON key exactly when its field name is not empty, with the serialized executor under it |
| `ExternalLogger.LoggerEnvironment` | src/lib_externallogger.cpp:76-135 | a logger's environment has the sandbox key, the stream key and, when configured, the JSON key, and no other key; the stream key holds the stream's name; the sandbox and JSON values survive unless a later key overwrites them |
| `ExternalLogger.StreamEnvironmentsDiffer` | src/lib_externallogger.cpp:135-179 | the standard-error logger's environment is the standard-output logger's with only the stream key changed |
| `ExternalLogger.DefaultEnvironment` | src/lib_externallogger.cpp:80-135 | with the default flags the three keys are distinct: `MESOS_LOG_SANDBOX_DIRECTORY`, `MESOS_LOG_EXECUTORINFO_JSON` and `MESOS_LOG_STREAM` |
| `ExternalLogger.PrepareStopsAtFirstFault` | src/lib_externallogger.cpp:99-205 | the call succeeds exactly when no step fails; otherwise its message is the first failing step's, with that step's reason |
| `ExternalLogger.LaunchedState` | src/lib_externallogger.cpp:99-147 | after one stream's three steps, the agent holds the new write end flagged, and the new logger holds the read end, runs, and inherits, of the pipe, only the read end |
| `ExternalLogger.PipeRolledBack` | src/lib_externallogger.cpp:111-153 | closing both ends of a new pipe, flagged or not, restores the agent's open and flagged descriptors |
| `ExternalLogger.StderrFailureReleasesAll` | src/lib_externallogger.cpp:157-199 | a failure in the standard-error half closes the first write end, kills the first logger, and keeps nothing of its own pipe |
| `ExternalLogger.PrepareFailureReleasesAll` | src/lib_externallogger.cpp:99-199 | after a failed call the agent's open descriptors, close-on-exec flags and running loggers are exactly what they were before the call |
| `ExternalLogger.StderrKeepsValid` | src/lib_externallogger.cpp:157-205 | the standard-error half keeps the bookkeeping consistent, whatever fails |
| `ExternalLogger.PrepareKeepsValid` | src/lib_externallogger.cpp:99-205 | every call keeps the bookkeeping consistent, whatever fails |
| `ExternalLogger.SuccessfulRun` | src/lib_externallogger.cpp:99-205 | the states a call passes through when nothing fails, each with its descriptors, loggers and inherited sets |
| `ExternalLogger.PrepareSuccessDescriptors` | src/lib_externallogger.cpp:201-205 | on success, the agent newly holds exactly the two returned write ends, both flagged close-on-exec; these are the write ends of two new pipes, and the four pipe ends are distinct and new. The distinctness is of pipe ends over the whole call: the model never reuses a descriptor number, where POSIX would normally give the second read end the number of the first, closed at the first spawn |
| `ExternalLogger.PrepareSuccessLoggers` | src/lib_externallogger.cpp:121-191 | on success, two distinct new loggers run, each holding one read end; each request has the binary as path and only argument, the owned read end as input, `/dev/null` as output, the agent's standard error, the stream's environment, `SETSID`, and the lifetime hook exactly under systemd; neither logger inherits a write end or the other's read end |
| `ExternalLogger.ExternalContainerLoggerProcess.constructor` | src/lib_externallogger.cpp:65 | the process keeps its copy of the flags |
| `ExternalLogger.ExternalContainerLoggerProcess.Prepare` | src/lib_externallogger.cpp:69-153 | builds the environment, then takes the standard-output steps with their cleanups and hands over to `LaunchStderr`; ends in exactly the result and state `PrepareOutcome` gives |
| `ExternalLogger.ExternalContainerLoggerProcess.LaunchStderr` | src/lib_externallogger.cpp:157-205 | the standard-error steps with their cleanups; ends in exactly the result and state `StderrOutcome` gives |
| `ExternalLogger.ExternalContainerLogger.constructor` | src/lib_externallogger.cpp:212-217 | the module and its process are built with the same flags |
| `ExternalLogger.ExternalContainerLogger.Initialize` | src/lib_externallogger.cpp:227-230 | always succeeds and changes nothing |

## Left out

- The real system calls are not modelled; `Syscalls` is an abstract state. Each call's failure, and its reason, is an input.
- `close` and `killtree` are modelled as always succeeding, because the source ignores their results. As a consequence, the guarantee that a failed call leaves no descriptor open and no logger running (`PrepareFailureReleasesAll`, `StderrFailureReleasesAll`) assumes that these calls succeed. The source does not check them, so a failed `killtree` would leave the standard-output logger running after a reported failure.
- Reaping is not modelled. A killed logger is recorded as no longer running, and nothing is waited for.
- Descriptors that a logger's own descendants hold, and loggers that die by themselves, are not modelled.
- Descriptor numbers are never reused, where POSIX would give the lowest free number. The model proves freshness, "a number not handed out before", rather than particular numbers.
- Whether the close-on-exec flag is set atomically against forks made by other threads is not modelled. It is a concurrency question.
- JSON serialization of the executor description is not modelled. The serialized string is an input, and serialization is taken never to fail.
- The systemd check, and the `__linux__` condition around it, are a boolean input.
- Flag parsing is not modelled: `flags.load`, the parameter loop, the help strings, and the flag library's own checks on names. Only the registrations and what a name resolves to are modelled.
- The module registration glue (src/lib_externallogger.cpp:250-280) is not modelled.
- The asynchronous dispatch of `ExternalContainerLogger::prepare` to its process is not modelled. Nor are the spawn, terminate and wait calls of the constructor and destructor of the module class.
- The filesystem probes `os::exists` and `os::access` are not modelled. They are the `Filesystem` input of `ValidateExecutable`: a set of existing paths and an answer function for the execute check.
- The second half of `prepare`, from the second pipe on, is the method `LaunchStderr`, called by `Prepare`. The steps and their order are the source's.
- The environment map is updated in place, as in the source, and the stream key is overwritten once per logger.
