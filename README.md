# LibAFL feedback bookkeeping and QEMU executor lifecycle, in Dafny

This project models two pieces of LibAFL:

- The feedbacks of the libFuzzer compatibility runtime (`feedbacks.dfy`, module `Feedbacks`):
  - The user-feature feedback. Slots 0 to 7 each keep the set of every `u64` value seen. Slots 8 to 15 each keep a running maximum that starts at 0. `is_interesting` updates every slot of the observed vector and reports whether any slot saw something new.
  - The keep latch. `is_interesting` returns the latch and never writes it.
  - The crash-cause feedback. It remembers the last exit kind. When a testcase is kept, it picks a cause category from a first-match table, files the testcase under `dir/<filename prefix><category>-<base name>` and attaches the cause metadata.
- The QEMU executors (`executor.dfy`, module `QemuExecutors`):
  - `QemuExecutor` (in-process) and `QemuForkExecutor` (fork-isolated). Each wraps an inner executor and drives the QEMU helper hooks around it. The one-time setup hooks run on the first call only. Then come the pre hooks, the inner run and the post hooks, which may rewrite the exit kind. An inner error skips the post hooks.
  - The fork executor's constructor refuses a helper tuple whose hooks have side effects.
  - The system-mode timeout handler breaks into the debugger once `break_on_timeout` has set a process-wide flag.

`common.dfy` (module `Common`) holds what both share: `ExitKind`, `Result`, `Option`, `U64`, `Input`, and `EngineError`.

The helpers, the inner executors and the signal handlers are not part of this model. Their effects appear as events in a ghost trace (`QemuExecutors.Event`). The inner run's outcome is a parameter of `RunTarget`. The post hooks' rewriting of the exit kind is a function parameter. The out-of-memory probe `OomFeedback::oomed()` is a `bool` parameter of `AppendMetadata`. The name an input generates is a field of the testcase.

The user-feature loop has a specification `Observe`, a fold of `Step` over the vector. The method `UserFeatureFeedback.IsInteresting` is proved against `Observe`. The lemmas `ObserveSetSlot`, `ObserveGrowthSlot` and `ObserveVerdict` turn `Observe` into per-slot closed forms: set ∪ {value}, max(old, value), and "some slot was new". The executors keep the invariant `WellOrdered` on their trace, an event-by-event statement of the hook order. `WellOrderedAppend` proves that every call preserves it.

The oom arm of the crash-cause table (`feedbacks.rs:230`) matches `Crash | Oom` when the probe says so. A `Timeout` is always filed as `timeout`, whatever the probe says. An `Oom` that the probe does not confirm goes to `uncategorized` and records kind `Oom`. `Classify` states both.

## Model

| member | source | states |
|---|---|---|
| `Feedbacks.UserFeatureFeedback.constructor` | libafl_libfuzzer/libafl_libfuzzer_runtime/src/feedbacks.rs:33-48 | the two tables built by the loops are exactly `Fresh()`: an empty set for each of slots 0 to 7, maximum 0 for each of slots 8 to 15, no other keys |
| `Feedbacks.Fresh` | libafl_libfuzzer/libafl_libfuzzer_runtime/src/feedbacks.rs:33-48 | the fresh tables have the fixed slot layout, every set empty and every maximum 0 |
| `Feedbacks.Step` | libafl_libfuzzer/libafl_libfuzzer_runtime/src/feedbacks.rs:80-96 | one loop iteration keeps the slot layout (slots 0 to 7 in the set table, 8 to 15 in the maximum table) |
| `Feedbacks.Observe` | libafl_libfuzzer/libafl_libfuzzer_runtime/src/feedbacks.rs:77-103 | visiting every feature in order keeps the slot layout |
| `Feedbacks.ObserveSetSlot` | libafl_libfuzzer/libafl_libfuzzer_runtime/src/feedbacks.rs:79-86 | after the loop, each set slot i < 8 holds its old set ∪ {feature[i]} (or the old set when the vector is shorter), however early the verdict became true |
| `Feedbacks.ObserveGrowthSlot` | libafl_libfuzzer/libafl_libfuzzer_runtime/src/feedbacks.rs:87-95 | after the loop, each growth slot 8 ≤ i < 16 holds max(old, feature[i]); a value at or below the maximum leaves it unchanged |
| `Feedbacks.ObserveVerdict` | libafl_libfuzzer/libafl_libfuzzer_runtime/src/feedbacks.rs:77-103 | the verdict is true if and only if some i < 8 has feature[i] not in the old set or some i ≥ 8 has feature[i] above the old maximum |
| `Feedbacks.ObserveOnlyGrows` | libafl_libfuzzer/libafl_libfuzzer_runtime/src/feedbacks.rs:79-95 | sets never shrink and maxima never decrease |
| `Feedbacks.TwoExecutions` | libafl_libfuzzer/libafl_libfuzzer_runtime/src/feedbacks.rs:77-103 | against fresh tables, a vector with a value in slot 0 and a positive slot 8 is interesting; a second vector repeating slot 0 (now not new) with a larger slot 8 is interesting too |
| `Feedbacks.UserFeatureFeedback.IsInteresting` | libafl_libfuzzer/libafl_libfuzzer_runtime/src/feedbacks.rs:61-104 | the loop's new tables and verdict are `Observe` of the old tables; every slot gets its closed-form update and the verdict its iff; vectors longer than 16 are excluded because the slot lookup's `unwrap` panics on them |
| `Feedbacks.LibfuzzerKeepFeedback.constructor` | libafl_libfuzzer/libafl_libfuzzer_runtime/src/feedbacks.rs:113-117 | the latch starts unset |
| `Feedbacks.LibfuzzerKeepFeedback.IsInteresting` | libafl_libfuzzer/libafl_libfuzzer_runtime/src/feedbacks.rs:134-147 | returns exactly the latch and changes nothing |
| `Feedbacks.LibfuzzerCrashCauseFeedback.constructor` | libafl_libfuzzer/libafl_libfuzzer_runtime/src/feedbacks.rs:170-175 | a new feedback keeps the artifact prefix it is given and stores exit kind `Ok` |
| `Feedbacks.LibfuzzerCrashCauseFeedback.IsInteresting` | libafl_libfuzzer/libafl_libfuzzer_runtime/src/feedbacks.rs:204-218 | never interesting; the stored exit kind becomes the argument |
| `Feedbacks.Classify` | libafl_libfuzzer/libafl_libfuzzer_runtime/src/feedbacks.rs:229-254 | the first-match table as four if-and-only-if statements: oom iff (Crash or Oom) and oomed; crash iff Crash and not oomed; timeout iff Timeout; uncategorized iff Ok, or Oom not oomed. The recorded kind is `Oom` for the oom category and the stored kind otherwise |
| `Feedbacks.BaseName` | libafl_libfuzzer/libafl_libfuzzer_runtime/src/feedbacks.rs:186-191 | the base is the testcase's file name when it has one, else the input's generated name |
| `Feedbacks.ArtifactPathInjective` | libafl_libfuzzer/libafl_libfuzzer_runtime/src/feedbacks.rs:192-195 | two artifact paths built under the same prefix are equal only when their category and base name are equal, so the path records the cause |
| `Feedbacks.LibfuzzerCrashCauseFeedback.SetFilename` | libafl_libfuzzer/libafl_libfuzzer_runtime/src/feedbacks.rs:185-197 | writes only the testcase's file path, which becomes `dir / (filename_prefix ++ prefix ++ "-" ++ base)`; with neither a file name nor a loaded input the source panics, which the precondition excludes |
| `Feedbacks.LibfuzzerCrashCauseFeedback.AppendMetadata` | libafl_libfuzzer/libafl_libfuzzer_runtime/src/feedbacks.rs:220-256 | writes only the file path and the cause metadata: the path names `Classify`'s category, the metadata holds `Classify`'s kind; the feedback itself is not changed |
| `Feedbacks.AppendMetadataIdempotent` | libafl_libfuzzer/libafl_libfuzzer_runtime/src/feedbacks.rs:185-197 | classifying the same testcase twice with the same stored kind and probe answer gives the same path and the same metadata both times, and that metadata is `Classify`'s kind |
| `QemuExecutors.QemuExecutor.constructor` | libafl_qemu/src/executor.rs:143-176 | a new executor has `first_exec` set and an empty trace; user mode installs the QEMU crash handler and registers a crash closure, system mode installs the QEMU timeout handler |
| `QemuExecutors.QemuExecutor.New` | libafl_qemu/src/executor.rs:125-177 | an error building the inner executor is returned unchanged; otherwise a fresh executor with `first_exec` set |
| `QemuExecutors.QemuExecutor.RunTarget` | libafl_qemu/src/executor.rs:216-237 | appends setup (first call only), pre hooks and inner run, then post hooks only when the inner run succeeded; returns the post hooks' rewriting of the inner exit kind, or the inner error unchanged; `first_exec` is cleared afterwards, and the trace stays well ordered |
| `QemuExecutors.WellOrderedAppend` | libafl_qemu/src/executor.rs:224-236 | appending one call's events to a well-ordered trace, with setup emitted exactly when nothing ran before, keeps it well ordered: setup only at the start, each inner run right after its pre hooks, post hooks right after each successful inner run and never after a failed one |
| `QemuExecutors.QemuForkExecutor.constructor` | libafl_qemu/src/executor.rs:336-338 | a new fork executor has `first_exec` set and an empty trace |
| `QemuExecutors.QemuForkExecutor.New` | libafl_qemu/src/executor.rs:318-349 | panics exactly when the helper hooks have side effects, whatever building the inner fork executor would give; otherwise returns the inner error unchanged or a fresh executor with `first_exec` set |
| `QemuExecutors.QemuForkExecutor.RunTarget` | libafl_qemu/src/executor.rs:383-404 | the same lifecycle, result and trace invariant as the in-process executor |
| `QemuExecutors.BreakFlag.constructor` | libafl_qemu/src/executor.rs:89 | the process-wide flag starts unset |
| `QemuExecutors.QemuExecutor.BreakOnTimeout` | libafl_qemu/src/executor.rs:183-188 | sets the flag (system mode only); the new flag is `FlagAfter` of the old one and a `break_on_timeout` call |
| `QemuExecutors.QemuTimeoutDispatch` | libafl_qemu/src/executor.rs:109-115 | the system-mode timeout handler requests a debugger break if and only if the flag is set, and otherwise delegates to the generic handler |
| `QemuExecutors.QemuExecutor.OnTimeout` | libafl_qemu/src/executor.rs:166-171 | a timeout breaks into the debugger exactly when the QEMU timeout handler is installed (system mode) and the flag is set |
| `QemuExecutors.FlagOnlyRises` | libafl_qemu/src/executor.rs:183-188 | after any sequence of flag operations the flag is set iff it was set before or `break_on_timeout` was among them: nothing clears it |
| `QemuExecutors.TimeoutAfterOps` | libafl_qemu/src/executor.rs:109-115 | starting from an unset flag, a timeout breaks into the debugger iff `break_on_timeout` was called before it |

## Left out

- The user-mode crash handler's foreign call `libafl_qemu_handle_crash`, the `siginfo_t`/`ucontext_t` pointer handling, and the crash closure that prints the CPU context (`executor.rs:62-86`, `149-164`). These are foreign calls and OS signals. The model records only which handler is installed and that a closure is registered.
- The internals of `InProcessExecutor`, `InProcessForkExecutor`, `QemuHooks` and the helper tuple: fork, shared memory, timers, and the generic timeout handler. These are library code outside the model, so each helper stage is one event. The order of individual helpers inside the tuple is the tuple's own code, so it is not modelled.
- `Emulator::get().unwrap()` at the start of `run_target` is taken to succeed. The emulator handle passed to the hooks is not modelled.
- `OomFeedback::oomed()` is a parameter. `Input::generate_name(0)` is the testcase field `generatedName`, which is `None` when no input is loaded.
- `PathBuf::join` is modelled as `dir + "/" + name`. Its special cases are not modelled: an absolute name replacing the directory, a directory that already ends in a separator, and an empty directory.
- The observer lookup `match_name(...).unwrap()`: the feature vector is the input of `IsInteresting`, and a missing observer's panic is not modelled.
- The `Rc<RefCell<bool>>` sharing of the keep latch and the `keep()` accessor. The latch is a public field that the holder of the handle may assign.
- Testcase metadata other than the crash-cause entry. `add_metadata` replaces an entry of the same type, so the entry is an `Option` that is overwritten.
- The `println!`/`eprintln!` output, the `Debug`, `Named`, `UsesState`, `UsesObservers` and `HasObservers` implementations, and the accessors `inner`, `inner_mut`, `hooks`, `hooks_mut` and `emulator`.
- The `ShrinkMapFeedback` alias (`feedbacks.rs:259`). It names a feedback defined elsewhere.
- `harness_wrap.cpp` is not part of this model. It is a C++ shim that returns -2 when the harness throws.
- `ExitKind` is defined in the library, not in these files. The model uses the four kinds `Ok`, `Crash`, `Oom` and `Timeout`.
- The compile-time choices `emulation_mode` and the `fork` feature are modelled as a constructor parameter and as separate classes. `BreakOnTimeout` requires system mode because it does not exist in user mode.
- Wall-clock timeouts and the executor's behaviour after a timeout are not modelled. They live in the inner executors.
