/** The QEMU executors: an in-process and a fork-isolated executor that wrap
    an inner executor and drive the QEMU helper hooks around every run.
    The helpers, the inner executor and the signal handlers are outside the
    model: their effects appear as events in a ghost trace, the inner run's
    outcome is a parameter, and `post_exec_all`'s rewriting of the exit kind
    is a function parameter. */
module QemuExecutors {
  import opened Common

  // ===================================================================
  // The run lifecycle
  // ===================================================================

  /** What an executor does during `run_target`, as seen from outside. */
  datatype Event =
    | FirstExecAll
    | PreExecAll(input: Input)
    | InnerRunTarget(input: Input, outcome: Result<ExitKind, EngineError>)
    | PostExecAll(input: Input, raw: ExitKind, rewritten: ExitKind)

  /** The events of one `run_target` call, given whether it is the first
      call, the inner executor's outcome and the post hooks' rewriting. */
  function RunEvents(firstExec: bool, input: Input, inner: Result<ExitKind, EngineError>,
                     post: ExitKind -> ExitKind): seq<Event>
  {
    (if firstExec then [FirstExecAll] else [])
    + [PreExecAll(input), InnerRunTarget(input, inner)]
    + (if inner.Success? then [PostExecAll(input, inner.value, post(inner.value))] else [])
  }

  /** The neighbours event `i` of a trace must have: the one-time setup
      only at the very start; pre hooks directly followed by the inner run on
      the same input; an inner run directly preceded by the pre hooks for its
      input and, when it succeeded, directly followed by the post hooks on its
      exit kind, when it failed by nothing of its own call; post hooks
      directly preceded by the successful inner run they rewrite. */
  ghost predicate OrderedAt(t: seq<Event>, i: nat)
    requires i < |t|
  {
    match t[i]
    case FirstExecAll => i == 0
    case PreExecAll(x) => i + 1 < |t| && t[i + 1].InnerRunTarget? && t[i + 1].input == x
    case InnerRunTarget(x, outcome) =>
      && 0 < i && t[i - 1] == PreExecAll(x)
      && if outcome.Success? then
           i + 1 < |t| && t[i + 1].PostExecAll? && t[i + 1].input == x && t[i + 1].raw == outcome.value
         else
           i + 1 == |t| || t[i + 1].PreExecAll?
    case PostExecAll(x, raw, _) => 0 < i && t[i - 1] == InnerRunTarget(x, Success(raw))
  }

  /** The order every trace of an executor keeps: it starts with the one-time
      setup, and every event has the neighbours OrderedAt asks for. */
  ghost predicate WellOrdered(t: seq<Event>) {
    && (t != [] ==> t[0] == FirstExecAll)
    && (forall i: nat :: i < |t| ==> OrderedAt(t, i))
  }

  /** Appending one call's events to a trace keeps it well ordered, provided
      the setup event is emitted exactly when nothing has run yet. */
  lemma WellOrderedAppend(t: seq<Event>, firstExec: bool, input: Input,
                          inner: Result<ExitKind, EngineError>, post: ExitKind -> ExitKind)
    requires WellOrdered(t) && (firstExec <==> t == [])
    ensures WellOrdered(t + RunEvents(firstExec, input, inner, post))
  {
    var block := RunEvents(firstExec, input, inner, post);
    var u := t + block;
    var f := if firstExec then 1 else 0;
    var n := |t|;
    assert |block| == f + 2 + (if inner.Success? then 1 else 0);
    assert block[f] == PreExecAll(input);
    assert block[f + 1] == InnerRunTarget(input, inner);
    assert inner.Success? ==> block[f + 2] == PostExecAll(input, inner.value, post(inner.value));
    forall i: nat | i < |u|
      ensures OrderedAt(u, i)
    {
      if i + 1 < n {
        // Events wholly inside the old trace keep their old neighbours.
        assert OrderedAt(t, i);
        assert u[i] == t[i] && u[i + 1] == t[i + 1];
        assert 0 < i ==> u[i - 1] == t[i - 1];
      } else if i + 1 == n {
        // The old trace ends at a call boundary, and the new call begins
        // with its pre hooks.
        assert OrderedAt(t, i);
        assert u[i] == t[i] && u[i + 1] == block[0] == PreExecAll(input);
        assert 0 < i ==> u[i - 1] == t[i - 1];
      } else {
        assert u[i] == block[i - n];
        assert i - n == 0 && firstExec ==> i == 0;
        assert i - n == f ==> u[i + 1] == block[f + 1];
        assert i - n == f + 1 ==> u[i - 1] == block[f];
        assert i - n == f + 1 && inner.Success? ==> u[i + 1] == block[f + 2];
        assert i - n == f + 2 ==> u[i - 1] == block[f + 1];
      }
    }
  }

  // ===================================================================
  // Handlers and the break-on-timeout flag
  // ===================================================================

  /** Which emulation the crate is built for (a compile-time choice). */
  datatype EmulationMode = UserMode | SystemMode

  /** The crash handler installed in the inner in-process executor. */
  datatype CrashHandler = GenericCrashHandler | QemuCrashHandler

  /** The timeout handler installed in the inner in-process executor. */
  datatype TimeoutHandler = GenericTimeoutHandler | QemuTimeoutHandler

  /** What a timeout signal leads to. */
  datatype TimeoutAction = DebugRequest | GenericTimeout

  /** The process-wide `BREAK_ON_TMOUT` flag of system mode. */
  class BreakFlag {
    var breakOnTmout: bool

    constructor ()
      ensures !breakOnTmout
    {
      breakOnTmout := false;
    }
  }

  /** The system-mode timeout handler: ask QEMU for a debugger break when
      the flag is set, otherwise hand the timeout to the generic handler. */
  function QemuTimeoutDispatch(breakOnTmout: bool): (a: TimeoutAction)
    ensures a == DebugRequest <==> breakOnTmout
  {
    if breakOnTmout then DebugRequest else GenericTimeout
  }

  /** What the process does to the flag: set it, or take a timeout. The
      static `BREAK_ON_TMOUT` is private to its module, whose only writer is
      `break_on_timeout` and whose only reader is the timeout handler, so a
      sequence of these operations is its whole history;
      `QemuExecutor.BreakOnTimeout` and `QemuExecutor.OnTimeout` are tied to
      `FlagAfter` by their contracts. */
  datatype FlagOp = BreakOnTimeoutCall | TimeoutSignal

  /** The flag after a sequence of operations; only a call to
      `break_on_timeout` writes it. */
  function FlagAfter(breakOnTmout: bool, ops: seq<FlagOp>): bool
    decreases |ops|
  {
    if ops == [] then breakOnTmout
    else FlagAfter(if ops[0] == BreakOnTimeoutCall then true else breakOnTmout, ops[1..])
  }

  /** The flag never goes back: after any operations it is set exactly when
      it was set before or `break_on_timeout` was called among them. */
  lemma {:induction false} FlagOnlyRises(breakOnTmout: bool, ops: seq<FlagOp>)
    ensures FlagAfter(breakOnTmout, ops) <==> breakOnTmout || BreakOnTimeoutCall in ops
    decreases |ops|
  {
    if ops != [] {
      FlagOnlyRises(if ops[0] == BreakOnTimeoutCall then true else breakOnTmout, ops[1..]);
      assert ops == [ops[0]] + ops[1..];
    }
  }

  /** A timeout that fires after some operations of a system-mode executor
      breaks into the debugger exactly when `break_on_timeout` was called
      before it (the flag starts unset). */
  lemma TimeoutAfterOps(ops: seq<FlagOp>)
    ensures QemuTimeoutDispatch(FlagAfter(false, ops)) == DebugRequest
            <==> BreakOnTimeoutCall in ops
  {
    FlagOnlyRises(false, ops);
  }

  // ===================================================================
  // The in-process QEMU executor
  // ===================================================================

  /** `QemuExecutor`: an in-process executor whose runs are wrapped by the
      QEMU helper hooks. */
  class QemuExecutor {
    const mode: EmulationMode
    /** The crash handler of the inner executor. */
    const crashHandler: CrashHandler
    /** The timeout handler of the inner executor. */
    const timeoutHandler: TimeoutHandler
    /** Whether a crash closure was registered with the QEMU hooks. */
    const crashClosureRegistered: bool
    var firstExec: bool
    ghost var trace: seq<Event>

    ghost predicate Valid()
      reads this
    {
      && WellOrdered(trace) && (firstExec <==> trace == [])
      && crashHandler == (if mode == UserMode then QemuCrashHandler else GenericCrashHandler)
      && crashClosureRegistered == (mode == UserMode)
      && timeoutHandler == (if mode == SystemMode then QemuTimeoutHandler else GenericTimeoutHandler)
    }

    /** Wraps an inner executor that was built: user mode replaces the crash
        handler and registers a crash closure, system mode replaces the
        timeout handler. Nothing has run yet. */
    constructor (mode: EmulationMode)
      ensures Valid() && firstExec && trace == [] && this.mode == mode
      ensures crashHandler == if mode == UserMode then QemuCrashHandler else GenericCrashHandler
      ensures crashClosureRegistered == (mode == UserMode)
      ensures timeoutHandler == if mode == SystemMode then QemuTimeoutHandler else GenericTimeoutHandler
    {
      this.mode := mode;
      if mode == UserMode {
        crashHandler := QemuCrashHandler;
        crashClosureRegistered := true;
        timeoutHandler := GenericTimeoutHandler;
      } else {
        crashHandler := GenericCrashHandler;
        crashClosureRegistered := false;
        timeoutHandler := QemuTimeoutHandler;
      }
      firstExec := true;
      trace := [];
    }

    /** `new`: an error building the inner executor is returned as is;
        otherwise the executor is wrapped. */
    static method New(mode: EmulationMode, innerError: Option<EngineError>)
        returns (r: Result<QemuExecutor, EngineError>)
      ensures innerError.Some? ==> r == Failure(innerError.value)
      ensures innerError.None? ==>
                r.Success? && fresh(r.value) && r.value.Valid() && r.value.firstExec && r.value.mode == mode
    {
      if innerError.Some? {
        return Failure(innerError.value);
      }
      var executor := new QemuExecutor(mode);
      r := Success(executor);
    }

    /** `break_on_timeout`, which exists in system mode only: sets the flag
        and nothing else. */
    method BreakOnTimeout(flag: BreakFlag)
      requires mode == SystemMode
      modifies flag
      ensures flag.breakOnTmout
      ensures flag.breakOnTmout == FlagAfter(old(flag.breakOnTmout), [BreakOnTimeoutCall])
    {
      flag.breakOnTmout := true;
    }

    /** What the inner executor's timeout handler does when a timeout fires:
        only the QEMU handler installed in system mode can break into the
        debugger, and only with the flag set. */
    method OnTimeout(flag: BreakFlag) returns (a: TimeoutAction)
      requires Valid()
      ensures a == DebugRequest <==> timeoutHandler == QemuTimeoutHandler && flag.breakOnTmout
      ensures mode == SystemMode ==> a == QemuTimeoutDispatch(flag.breakOnTmout)
    {
      if timeoutHandler == QemuTimeoutHandler {
        a := QemuTimeoutDispatch(flag.breakOnTmout);
      } else {
        a := GenericTimeout;
      }
    }

    /** `run_target`: on the first call only, the one-time setup hooks; then
        the pre hooks, the inner run and, if the inner run succeeded, the post
        hooks, whose rewritten exit kind is returned. An inner error is
        returned unchanged, after the pre hooks and with the first-call flag
        already cleared, and the post hooks do not run. */
    method RunTarget(input: Input, inner: Result<ExitKind, EngineError>, post: ExitKind -> ExitKind)
        returns (r: Result<ExitKind, EngineError>)
      requires Valid()
      modifies this`firstExec, this`trace
      ensures Valid() && !firstExec
      ensures trace == old(trace) + RunEvents(old(firstExec), input, inner, post)
      ensures inner.Failure? ==> r == inner
      ensures inner.Success? ==> r == Success(post(inner.value))
    {
      ghost var before, wasFirst := trace, firstExec;
      WellOrderedAppend(before, wasFirst, input, inner, post);
      if firstExec {
        trace := trace + [FirstExecAll];
        firstExec := false;
      }
      trace := trace + [PreExecAll(input)];
      trace := trace + [InnerRunTarget(input, inner)];
      if inner.Failure? {
        assert trace == before + RunEvents(wasFirst, input, inner, post);
        return inner;
      }
      var exitKind := inner.value;
      var rewritten := post(exitKind);
      trace := trace + [PostExecAll(input, exitKind, rewritten)];
      assert trace == before + RunEvents(wasFirst, input, inner, post);
      exitKind := rewritten;
      r := Success(exitKind);
    }
  }

  // ===================================================================
  // The fork-isolated QEMU executor
  // ===================================================================

  /** The outcome of a constructor that can panic as well as fail. */
  datatype Construction<T> = Panicked(message: string) | Failed(error: EngineError) | Built(executor: T)

  const SIDE_EFFECTS_MESSAGE: string :=
    "When using QemuForkExecutor, the hooks must not do any side effect as they will happen in the child process and then discarded"

  /** `QemuForkExecutor`: the same lifecycle around an executor that runs the
      target in a forked child. */
  class QemuForkExecutor {
    var firstExec: bool
    ghost var trace: seq<Event>

    ghost predicate Valid()
      reads this
    {
      WellOrdered(trace) && (firstExec <==> trace == [])
    }

    constructor ()
      ensures Valid() && firstExec && trace == []
    {
      firstExec := true;
      trace := [];
    }

    /** `new`: a helper tuple whose hooks have side effects is refused with a
        panic before the inner fork executor is built, whatever building it
        would have given; otherwise an error building the inner executor is
        returned as is. */
    static method New(hooksDoSideEffects: bool, innerError: Option<EngineError>)
        returns (r: Construction<QemuForkExecutor>)
      ensures r.Panicked? <==> hooksDoSideEffects
      ensures r.Failed? <==> !hooksDoSideEffects && innerError.Some?
      ensures r.Failed? ==> r.error == innerError.value
      ensures r.Built? ==> fresh(r.executor) && r.executor.Valid() && r.executor.firstExec
    {
      if hooksDoSideEffects {
        return Panicked(SIDE_EFFECTS_MESSAGE);
      }
      if innerError.Some? {
        return Failed(innerError.value);
      }
      var executor := new QemuForkExecutor();
      r := Built(executor);
    }

    /** `run_target`, with the same lifecycle as the in-process executor. */
    method RunTarget(input: Input, inner: Result<ExitKind, EngineError>, post: ExitKind -> ExitKind)
        returns (r: Result<ExitKind, EngineError>)
      requires Valid()
      modifies this`firstExec, this`trace
      ensures Valid() && !firstExec
      ensures trace == old(trace) + RunEvents(old(firstExec), input, inner, post)
      ensures inner.Failure? ==> r == inner
      ensures inner.Success? ==> r == Success(post(inner.value))
    {
      ghost var before, wasFirst := trace, firstExec;
      WellOrderedAppend(before, wasFirst, input, inner, post);
      if firstExec {
        trace := trace + [FirstExecAll];
        firstExec := false;
      }
      trace := trace + [PreExecAll(input)];
      trace := trace + [InnerRunTarget(input, inner)];
      if inner.Failure? {
        assert trace == before + RunEvents(wasFirst, input, inner, post);
        return inner;
      }
      var exitKind := inner.value;
      var rewritten := post(exitKind);
      trace := trace + [PostExecAll(input, exitKind, rewritten)];
      assert trace == before + RunEvents(wasFirst, input, inner, post);
      exitKind := rewritten;
      r := Success(exitKind);
    }
  }
}
