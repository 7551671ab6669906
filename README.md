# GeekOS user-process lifecycle in Dafny

This project models the common user-mode process code of the GeekOS teaching
kernel (`project2/src/geekos/user.c`), which has four parts:

- **Context binding.** `Attach_User_Context` and `Detach_User_Context` link
  a `User_Context` to a `Kernel_Thread` under a reference count. The count
  changes only while interrupts are disabled, and the context is torn down
  when the count reaches 0.
- **Spawn.** `Spawn` reads an executable, parses it as ELF, builds a user
  context from it and starts a user thread in that context. A failing step
  jumps to a `fail:` cleanup block.
- **Address-space switch.** `Switch_To_User_Context` runs before every
  dispatch. It keeps a one-slot cache, `s_currentUserContext`, of the
  context whose address space is loaded. It reloads the hardware address
  space and the kernel stack pointer only when the thread has a context and
  that context differs, by identity, from the cached one.
- **Collaborators.** The code calls `Read_Fully`, `Parse_ELF_Executable`,
  `Load_User_Program`, `Start_User_Thread`, `Destroy_User_Context`, `Free`,
  `Switch_To_Address_Space` and `Set_Kernel_Stack_Pointer`. Their bodies
  are not part of this model. Each one is a method of class `Kernel`.
  `Read_Fully`, `Parse_ELF_Executable`, `Load_User_Program` and
  `Start_User_Thread` take their outcome from an `Environment` value (the
  answers the filesystem, parser, builder and scheduler give) and append
  their call to the ghost call log. `Free` and `Destroy_User_Context` act
  only on their argument: they append to the call log and remove the buffer
  or context from the ghost set of live ones, and refuse one that is not
  live. `Switch_To_Address_Space` sets the loaded address space and counts
  the switch in a ghost counter. `Set_Kernel_Stack_Pointer` only sets the
  kernel stack pointer.

Files:

- `context.dfy` (module `Context`): the objects (`UserContext`,
  `KernelThread`, `ExeBuffer`, `ThreadSlot` for `*pThread`) and the
  constants `PAGE_SIZE`, `ENOTFOUND`, `ENOMEM`.
- `activation.dfy` (module `Activation`): the switch decision as pure
  functions and lemmas over sequences of dispatches.
- `spawn_protocol.dfy` (module `SpawnProtocol`): Spawn's return code and
  call sequence as pure functions of the `Environment`.
- `user.dfy` (module `User`): class `Kernel`. It holds the interrupt flag,
  the cache, the hardware state, and ghost bookkeeping of calls and of live
  buffers and contexts. Its methods are the four functions of `user.c`,
  the collaborators above, and two compositions that state properties
  across calls (`AttachThenDetach`, `DispatchTwice`). `Spawn` and
  `SwitchToUserContext` are proved against the pure functions of the other
  two modules. `AttachUserContext`, `DetachUserContext` and the
  collaborators state their effect on the state directly.

### Where the code does not compile, and what is modelled instead

- `Spawn` assigns `result`, which is never declared (user.c:107, 112, 117).
  It returns `rc`, which is only assigned on the thread-start failure path
  (user.c:101, 132, 134, 139). The model returns the failing call's code.
  Success returns 0, as the comment at user.c:98-99 asks. The comment at
  user.c:81 speaks of a process id; the model follows lines 98-99.
- `exeFormat` is used but `Exe_Format` is declared (user.c:106, 112, 117).
  `&UserContext` is passed but `userContext` is declared (user.c:104, 117).
  The model uses one variable for each.
- `KASSERT(process->refCount==2)` (user.c:127) checks the **thread's**
  count, not the context's. A non-detached thread starts with one
  reference for itself and one for its owner. The new context's own count
  is 1. The model proves both.
- On the thread-start failure path (user.c:130-133) the context built by
  `Load_User_Program` is neither destroyed nor handed on. The model keeps
  this behaviour: `Kernel.Spawn` states that the context stays in
  `liveContexts` in that case, and `CallsMade` states that it is not
  destroyed.
- The fail block destroys a context only if the `userContext` variable is
  set (user.c:138). This can only happen if `Load_User_Program` stored a
  context and still failed. The model lets the `Environment` choose this
  (`loadLeavesContext`), so that the guarded path is reachable.

## Model

| member | source | states |
|---|---|---|
| `Activation.CacheAfter` | project2/src/geekos/user.c:161-176 | after dispatching a user thread the cache names that thread's context; a kernel-only thread leaves the cache as it was |
| `Activation.Switches` | project2/src/geekos/user.c:162-176 | over a run of dispatches, at most one hardware switch per user-thread dispatch, and none at all exactly when every user thread runs in the cached context |
| `Activation.DispatchAppend` | project2/src/geekos/user.c:159-176 | the cache is a static that survives between calls: dispatching xs then ys costs the switches of xs plus those of ys started from the cache xs left |
| `Activation.CacheIsLastUserContext` | project2/src/geekos/user.c:163-175 | the cache is never stale: after any run of dispatches it names the context of the last user thread dispatched, else its initial value |
| `Activation.RedispatchIsFree` | project2/src/geekos/user.c:167-176 | dispatching the same thread n times in a row switches once if its context was not cached, else never |
| `Activation.AlternationSwitchesOnEveryChange` | project2/src/geekos/user.c:163-175 | identity comparison: A, B, A switches twice from a cache holding A and three times otherwise; a kernel-only thread in between costs nothing |
| `SpawnProtocol.ReturnCode` | project2/src/geekos/user.c:107-134 | Spawn returns 0 exactly when all four steps succeed; otherwise it returns the first failing call's code in the order read, parse, load, and ENOMEM when no thread can be started |
| `SpawnProtocol.CallsMade` | project2/src/geekos/user.c:107-139 | calls run in step order; parse runs iff the read succeeded, load iff the parse did, start iff the load did; the buffer is freed iff it was read; a context is destroyed iff the load failed after building one |
| `SpawnProtocol.InStepOrderCallsOnce` | project2/src/geekos/user.c:107-139 | a call sequence in step order contains no call twice |
| `SpawnProtocol.SpawnReleasesEachResourceOnce` | project2/src/geekos/user.c:122-139 | on every path the buffer is freed exactly once if it was read and never otherwise; a context is destroyed at most once, and only on the failure path |
| `SpawnProtocol.NotFoundMeansMissingFile` | project2/src/geekos/user.c:81-84 | a missing executable gives ENOTFOUND; when no collaborator uses that code for anything else, ENOTFOUND means exactly that the file does not exist |
| `User.Kernel.constructor` | project2/src/geekos/user.c:159 | the cache starts empty, no address space is loaded, nothing is allocated |
| `User.Kernel.DisableInterrupts` | project2/src/geekos/user.c:35 | interrupts are off afterwards |
| `User.Kernel.EnableInterrupts` | project2/src/geekos/user.c:44 | interrupts are on afterwards |
| `User.Kernel.AttachUserContext` | project2/src/geekos/user.c:30-45 | requires a non-null context with count 0; afterwards the thread's context is that context, its count is exactly 1, interrupts are on, and nothing else changes |
| `User.Kernel.DetachUserContext` | project2/src/geekos/user.c:52-70 | requires that a context about to reach count 0 is still live. The thread's context is always cleared. With no context nothing else changes. Otherwise the count drops by exactly one, interrupts are on, and the context is destroyed, once, exactly when the count reaches 0 |
| `User.Kernel.AttachThenDetach` | project2/src/geekos/user.c:30-70 | attaching a fresh live context and detaching it returns its count to 0 and destroys it exactly once |
| `User.Kernel.DestroyUserContext` | project2/src/geekos/user.c:68 | only a live context may be destroyed (no double teardown); it is recorded as destroyed and is no longer live |
| `User.Kernel.Free` | project2/src/geekos/user.c:122 | only a live buffer may be freed (no double free); it is no longer live afterwards |
| `User.Kernel.ReadFully` | project2/src/geekos/user.c:107 | a missing file gives ENOTFOUND; a fresh buffer is allocated exactly when the code is 0 |
| `User.Kernel.ParseElfExecutable` | project2/src/geekos/user.c:112 | works on a live buffer; returns the parser's code and format |
| `User.Kernel.LoadUserProgram` | project2/src/geekos/user.c:117 | works on a live buffer; on success returns a fresh context with count 0; on failure returns no context unless the builder left one |
| `User.Kernel.StartUserThread` | project2/src/geekos/user.c:124 | on success returns a fresh thread with the context attached (context count 1, thread count 2 when not detached) and interrupts on; otherwise returns null, and the context and the interrupt flag are untouched |
| `User.Kernel.Spawn` | project2/src/geekos/user.c:86-141 | the calls made and the code returned are CallsMade and ReturnCode; every buffer read is freed once; only a context built by a failed load is destroyed; on success `*pThread` holds a fresh thread with the new context and count 2; on failure `*pThread` is not written and any context built keeps count 0; interrupts are on afterwards exactly when they were before or a thread started |
| `User.Kernel.SwitchToAddressSpace` | project2/src/geekos/user.c:171 | the hardware runs in the given address space; one more switch is counted |
| `User.Kernel.SetKernelStackPointer` | project2/src/geekos/user.c:172-174 | the kernel stack pointer is the given address |
| `User.Kernel.SwitchToUserContext` | project2/src/geekos/user.c:152-182 | requires interrupts off. With no context, or with the cached context, nothing changes. Otherwise exactly one switch, the kernel stack pointer becomes stackPage + PAGE_SIZE (32-bit), and the cache names the context. Any user thread runs in its own address space afterwards. No reference count changes |
| `User.Kernel.DispatchTwice` | project2/src/geekos/user.c:159-176 | two dispatches in a row perform the number of switches `Switches` gives for their contexts; the same thread twice switches at most once |

## Left out

- `project0/src/geekos/main.c` is not part of this model. It is a boot
  sequence of subsystem initialisations and endless console-echo and print
  loops, with no state to specify.
- The bodies of `Read_Fully`, `Parse_ELF_Executable`, `Load_User_Program`,
  `Start_User_Thread`, `Destroy_User_Context`, `Free`,
  `Switch_To_Address_Space` and `Set_Kernel_Stack_Pointer` are not modelled.
  Each is a method whose outcome comes from the `Environment` parameter or
  from its argument. The bytes of the image, the command line and the
  format's contents are opaque.
- Interrupts are a boolean flag that methods set and check. Preemption and
  interleavings are not modelled. Nor is the check that
  `Disable_Interrupts` makes on entry, which lives in the interrupt code.
- `Print` and `userDebug` diagnostics (user.c:109, 114, 119, 170, 173) are
  output only and are left out.
- The `state` parameter of `Switch_To_User_Context` is never read by the
  code and is omitted.
- Dafny objects are never reallocated at the address of a destroyed one.
  So the model cannot show a new context that reuses the address of a
  destroyed context still named by `s_currentUserContext`. In C that reuse
  would skip a needed switch.
- DetachUserContext: the count is an unbounded integer, so the wrap of a C
  `int` below its minimum is not modelled. Only a context detached far more
  often than attached could reach it.
- Spawn returns 0 on success rather than a process id (see above).
