/** The agent's view of the operating system, as far as the logger uses it:
    its descriptor table, close-on-exec flags, the logger processes it has
    launched, and the five primitives (pipe, cloexec, spawn, close, killtree).
    Each primitive's effect is a function on the state; each primitive that can
    fail takes its outcome as an input: `None` for success, `Some(reason)` for
    a failure with that reason. */
module Syscalls {
  import opened Wrappers

  type Fd = int
  type Pid = int

  /** The agent's own standard error. */
  const STDERR_FILENO: Fd := 2

  /** How a child's standard stream is bound: to a descriptor whose ownership
      passes to the child, to a descriptor the agent keeps, or to a file path. */
  datatype StdIo = OwnedFd(fd: Fd) | SharedFd(fd: Fd) | Path(path: string)

  /** Run in the agent right after the fork: exempt the child from the
      supervising init system's cleanup of the agent's scope. */
  datatype ParentHook = ExtendLifetime

  /** Run in the child before exec: start a new session. */
  datatype ChildHook = Setsid

  /** Everything a spawn is asked to do. */
  datatype SpawnRequest = SpawnRequest(
    path: string,
    argv: seq<string>,
    stdin: StdIo,
    stdout: StdIo,
    stderr: StdIo,
    environment: map<string, string>,
    parentHooks: seq<ParentHook>,
    childHooks: seq<ChildHook>)

  /** A launched process: its request, and the agent descriptors that were open
      and not flagged close-on-exec when it was launched (those survive exec). */
  datatype Child = Child(request: SpawnRequest, inherited: set<Fd>)

  /** What the agent's process holds. Descriptor and process numbers are
      handed out upwards from `nextFd` and `nextPid` and never reused. */
  datatype OsState = OsState(
    open: set<Fd>,            // descriptors open in the agent
    cloexec: set<Fd>,         // open descriptors flagged close-on-exec
    created: set<Fd>,         // every descriptor ever opened in the agent
    readEndOf: map<Fd, Fd>,   // each pipe's write end, with its read end
    heldBy: map<Fd, Pid>,     // read ends passed to a child as its owned stdin
    live: set<Pid>,           // launched processes not killed since
    children: map<Pid, Child>, // every process launched, with how
    nextFd: Fd,
    nextPid: Pid)

  /** The bookkeeping is consistent: flags only on open descriptors, open ones
      were created, a descriptor given away is no longer open, and the counters
      are above every number handed out. */
  ghost predicate Valid(s: OsState)
  {
    && s.cloexec <= s.open <= s.created
    && s.readEndOf.Keys <= s.created && s.readEndOf.Values <= s.created
    && s.heldBy.Keys <= s.created - s.open
    && s.live <= s.children.Keys
    && (forall fd :: fd in s.created ==> fd < s.nextFd)
    && (forall p :: p in s.children ==> p < s.nextPid)
  }

  /** An agent holding only its three standard streams, none close-on-exec. */
  function Initial(): (s: OsState)
    ensures Valid(s)
    ensures s.open == {0, 1, 2} && s.cloexec == {} && s.live == {} && s.children == map[]
  {
    OsState({0, 1, 2}, {}, {0, 1, 2}, map[], map[], {}, map[], 3, 1)
  }

  /** The descriptors the next successful `pipe` returns: (read end, write end),
      two numbers never handed out before. */
  function NewPipe(s: OsState): (p: (Fd, Fd))
    ensures Valid(s) ==> p.0 != p.1 && p.0 !in s.created && p.1 !in s.created
  {
    (s.nextFd, s.nextFd + 1)
  }

  /** The state after a successful `pipe`: both ends open, neither close-on-exec. */
  function PipeOpened(s: OsState): (t: OsState)
    ensures Valid(s) ==> Valid(t)
  {
    var (rd, wr) := NewPipe(s);
    s.(open := s.open + {rd, wr},
       created := s.created + {rd, wr},
       readEndOf := s.readEndOf[wr := rd],
       nextFd := s.nextFd + 2)
  }

  /** The state after a successful `cloexec` of `fd`. */
  function Flagged(s: OsState, fd: Fd): (t: OsState)
    ensures Valid(s) && fd in s.open ==> Valid(t)
  {
    s.(cloexec := s.cloexec + {fd})
  }

  /** The state after `close` of `fd`. */
  function Closed(s: OsState, fd: Fd): (t: OsState)
    ensures Valid(s) ==> Valid(t)
  {
    s.(open := s.open - {fd}, cloexec := s.cloexec - {fd})
  }

  /** The number the next successful spawn gives its process, never handed out before. */
  function NewPid(s: OsState): (p: Pid)
    ensures Valid(s) ==> p !in s.children
  {
    s.nextPid
  }

  /** The state after a successful spawn whose standard input is the owned
      descriptor `fd`: the agent's copy of `fd` is closed, the new process
      holds it, runs, and keeps every descriptor that was open and not
      close-on-exec. */
  function Spawned(s: OsState, fd: Fd, request: SpawnRequest): (t: OsState)
    ensures Valid(s) && fd in s.open ==> Valid(t)
  {
    var pid := NewPid(s);
    s.(open := s.open - {fd},
       cloexec := s.cloexec - {fd},
       heldBy := s.heldBy[fd := pid],
       live := s.live + {pid},
       children := s.children[pid := Child(request, s.open - s.cloexec)],
       nextPid := s.nextPid + 1)
  }

  /** The state after `killtree` of `pid`: the process no longer runs. It is not reaped. */
  function Killed(s: OsState, pid: Pid): (t: OsState)
    ensures Valid(s) ==> Valid(t)
  {
    s.(live := s.live - {pid})
  }

  /** The operating system as the agent's process sees it. */
  class Os {
    var state: OsState

    constructor ()
      ensures state == Initial()
    {
      state := Initial();
    }

    /** `pipe`. */
    method Pipe(failure: Option<string>) returns (r: Result<(Fd, Fd), string>)
      modifies this
      ensures failure.Some? ==> r == Failure(failure.value) && state == old(state)
      ensures failure.None? ==> r == Success(NewPipe(old(state))) && state == PipeOpened(old(state))
    {
      if failure.Some? {
        return Failure(failure.value);
      }
      r := Success(NewPipe(state));
      state := PipeOpened(state);
    }

    /** `cloexec` of a descriptor the agent holds. */
    method Cloexec(fd: Fd, failure: Option<string>) returns (r: Outcome<string>)
      requires fd in state.open
      modifies this
      ensures failure.Some? ==> r == Fail(failure.value) && state == old(state)
      ensures failure.None? ==> r == Pass && state == Flagged(old(state), fd)
    {
      if failure.Some? {
        return Fail(failure.value);
      }
      state := Flagged(state, fd);
      r := Pass;
    }

    /** `close` of a descriptor the agent holds. */
    method Close(fd: Fd)
      requires fd in state.open
      modifies this
      ensures state == Closed(old(state), fd)
    {
      state := Closed(state, fd);
    }

    /** `subprocess` with an owned standard input: the agent's copy of that
        descriptor is closed whether the launch succeeds or fails. */
    method Spawn(request: SpawnRequest, failure: Option<string>) returns (r: Result<Pid, string>)
      requires request.stdin.OwnedFd? && request.stdin.fd in state.open
      modifies this
      ensures failure.Some? ==> r == Failure(failure.value) && state == Closed(old(state), request.stdin.fd)
      ensures failure.None? ==> r == Success(NewPid(old(state))) && state == Spawned(old(state), request.stdin.fd, request)
    {
      var fd := request.stdin.fd;
      if failure.Some? {
        state := Closed(state, fd);
        return Failure(failure.value);
      }
      r := Success(NewPid(state));
      state := Spawned(state, fd, request);
    }

    /** `killtree` with SIGKILL of a running process. */
    method Killtree(pid: Pid)
      requires pid in state.live
      modifies this
      ensures state == Killed(old(state), pid)
    {
      state := Killed(state, pid);
    }
  }
}
