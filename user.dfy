/**
 * The user-process lifecycle of GeekOS (geekos/user.c): binding a user
 * context to a kernel thread under a reference count, spawning a process
 * from an executable file with rollback on failure, and switching address
 * spaces on dispatch behind a one-slot cache.
 *
 * `Kernel` holds the state these functions share: the interrupt flag, the
 * cache `s_currentUserContext`, the hardware state the switch primitives
 * set, and ghost bookkeeping of the collaborator calls and of which buffers
 * and contexts are allocated.
 */
module User {
  import opened Context
  import opened Activation
  import opened SpawnProtocol

  class Kernel {
    /** Whether the CPU accepts interrupts; turning them off is the only lock on one CPU. */
    var interruptsEnabled: bool
    /** The static `s_currentUserContext`: the context whose address space was loaded last. */
    var currentUserContext: UserContext?
    /** The address space the hardware runs in, as set by Switch_To_Address_Space. */
    var loadedAddressSpace: UserContext?
    /** The kernel stack pointer (esp0) held in the TSS, as set by Set_Kernel_Stack_Pointer. */
    var kernelStackPointer: nat

    /** How many times the hardware address space was switched. */
    ghost var switchCount: nat
    /** The collaborator calls made so far, in order. */
    ghost var calls: seq<Call>
    /** Every context Destroy_User_Context tore down, in order. */
    ghost var destroyed: seq<UserContext>
    /** Executable buffers allocated and not yet freed. */
    ghost var liveBuffers: set<ExeBuffer>
    /** Contexts built and not yet destroyed. */
    ghost var liveContexts: set<UserContext>

    /** The cache never names a context whose address space is not the loaded one. */
    ghost predicate Valid()
      reads this
    {
      currentUserContext != null ==> loadedAddressSpace == currentUserContext
    }

    /** The kernel as it comes up: nothing cached, nothing allocated. */
    constructor ()
      ensures Valid()
      ensures currentUserContext == null && loadedAddressSpace == null
      ensures interruptsEnabled
      ensures switchCount == 0 && calls == [] && destroyed == []
      ensures liveBuffers == {} && liveContexts == {}
    {
      interruptsEnabled := true;
      currentUserContext := null;
      loadedAddressSpace := null;
      kernelStackPointer := 0;
      switchCount := 0;
      calls := [];
      destroyed := [];
      liveBuffers := {};
      liveContexts := {};
    }

    method DisableInterrupts()
      modifies this`interruptsEnabled
      ensures !interruptsEnabled
    {
      interruptsEnabled := false;
    }

    method EnableInterrupts()
      modifies this`interruptsEnabled
      ensures interruptsEnabled
    {
      interruptsEnabled := true;
    }

    // ---------------------------------------------------------------
    // Context binding
    // ---------------------------------------------------------------

    /**
     * Attach_User_Context: make `kthread` a user process running in
     * `context`. A null context, or one that another thread already holds,
     * is a caller bug (a kernel assertion), so both are preconditions. The
     * count is raised with interrupts off and they are on again afterwards.
     */
    method AttachUserContext(kthread: KernelThread, context: UserContext?)
      requires context != null
      requires context.refCount == 0
      modifies kthread`userContext, context`refCount, this`interruptsEnabled
      ensures kthread.userContext == context
      ensures context.refCount == 1
      ensures interruptsEnabled
    {
      kthread.userContext := context;
      DisableInterrupts();
      context.refCount := context.refCount + 1;
      EnableInterrupts();
    }

    /**
     * Detach_User_Context: the thread loses its context, if it had one; the
     * context's count drops by one and the context is destroyed exactly when
     * the count reaches 0. A thread without a context changes nothing else.
     */
    method DetachUserContext(kthread: KernelThread)
      requires kthread.userContext != null && kthread.userContext.refCount == 1 ==> kthread.userContext in liveContexts
      modifies kthread`userContext, (if kthread.userContext == null then {} else {kthread.userContext})`refCount
      modifies this`interruptsEnabled, this`destroyed, this`liveContexts, this`calls
      ensures kthread.userContext == null
      ensures old(kthread.userContext) == null ==> unchanged(this)
      ensures var prev := old(kthread.userContext);
        prev != null ==>
          && prev.refCount == old(prev.refCount) - 1
          && interruptsEnabled
          && (prev.refCount == 0 ==>
                destroyed == old(destroyed) + [prev] && liveContexts == old(liveContexts) - {prev}
                && calls == old(calls) + [DestroyCall])
          && (prev.refCount != 0 ==>
                destroyed == old(destroyed) && liveContexts == old(liveContexts) && calls == old(calls))
    {
      var prev := kthread.userContext;
      kthread.userContext := null;
      if prev != null {
        DisableInterrupts();
        prev.refCount := prev.refCount - 1;
        var refCount := prev.refCount;
        EnableInterrupts();
        if refCount == 0 {
          DestroyUserContext(prev);
        }
      }
    }

    /** Attaching a fresh context and detaching it again brings its count back to 0 and destroys it exactly once. */
    method AttachThenDetach(kthread: KernelThread, context: UserContext)
      requires context.refCount == 0
      requires context in liveContexts
      modifies kthread`userContext, context`refCount
      modifies this`interruptsEnabled, this`destroyed, this`liveContexts, this`calls
      ensures kthread.userContext == null
      ensures context.refCount == 0
      ensures destroyed == old(destroyed) + [context]
      ensures liveContexts == old(liveContexts) - {context}
    {
      AttachUserContext(kthread, context);
      DetachUserContext(kthread);
    }

    // ---------------------------------------------------------------
    // Collaborators of Spawn and Detach: outcome-only models
    // ---------------------------------------------------------------

    /** Destroy_User_Context: tear down a context's memory and the context itself; tearing down one that is not live is not allowed. */
    method DestroyUserContext(context: UserContext)
      requires context in liveContexts
      modifies this`destroyed, this`liveContexts, this`calls
      ensures destroyed == old(destroyed) + [context]
      ensures liveContexts == old(liveContexts) - {context}
      ensures calls == old(calls) + [DestroyCall]
    {
      destroyed := destroyed + [context];
      liveContexts := liveContexts - {context};
      calls := calls + [DestroyCall];
    }

    /** Free: release a heap buffer; releasing one that is not allocated is not allowed. */
    method Free(buffer: ExeBuffer)
      requires buffer in liveBuffers
      modifies this`liveBuffers, this`calls
      ensures liveBuffers == old(liveBuffers) - {buffer}
      ensures calls == old(calls) + [FreeCall]
    {
      liveBuffers := liveBuffers - {buffer};
      calls := calls + [FreeCall];
    }

    /** Read_Fully: on success a fresh buffer holds the whole file; on failure nothing is allocated. */
    method ReadFully(program: string, env: Environment) returns (rc: int, data: ExeBuffer?, length: nat)
      modifies this`liveBuffers, this`calls
      ensures rc == env.ReadCode()
      ensures calls == old(calls) + [ReadCall]
      ensures rc == 0 ==> data != null && fresh(data) && length == data.length && liveBuffers == old(liveBuffers) + {data}
      ensures rc != 0 ==> data == null && liveBuffers == old(liveBuffers)
    {
      calls := calls + [ReadCall];
      rc := env.ReadCode();
      if rc == 0 {
        data := new ExeBuffer(env.fileLength);
        length := data.length;
        liveBuffers := liveBuffers + {data};
      } else {
        data, length := null, 0;
      }
    }

    /** Parse_ELF_Executable: validate the image in a live buffer and describe how to load it. */
    method ParseElfExecutable(data: ExeBuffer, length: nat, env: Environment) returns (rc: int, format: ExeFormat)
      requires data in liveBuffers
      modifies this`calls
      ensures rc == env.parseRc
      ensures rc == 0 ==> format == env.format
      ensures calls == old(calls) + [ParseCall]
    {
      calls := calls + [ParseCall];
      rc, format := env.parseRc, env.format;
    }

    /**
     * Load_User_Program: on success a fresh context that no thread holds
     * yet. On failure there is no context, unless the builder stored one in
     * its out-parameter before failing; the caller must then destroy it.
     */
    method LoadUserProgram(data: ExeBuffer, length: nat, format: ExeFormat, command: string, env: Environment)
      returns (rc: int, context: UserContext?)
      requires data in liveBuffers
      modifies this`liveContexts, this`calls
      ensures rc == env.loadRc
      ensures calls == old(calls) + [LoadCall]
      ensures rc == 0 ==> context != null && fresh(context) && context.refCount == 0 && liveContexts == old(liveContexts) + {context}
      ensures rc != 0 && env.loadLeavesContext ==>
        context != null && fresh(context) && context.refCount == 0 && liveContexts == old(liveContexts) + {context}
      ensures rc != 0 && !env.loadLeavesContext ==> context == null && liveContexts == old(liveContexts)
    {
      calls := calls + [LoadCall];
      rc := env.loadRc;
      if rc == 0 || env.loadLeavesContext {
        context := new UserContext();
        liveContexts := liveContexts + {context};
      } else {
        context := null;
      }
    }

    /**
     * Start_User_Thread: create a thread and attach the context to it.
     * A thread starts with one reference for itself and, unless detached,
     * one for its owner. Without memory for a thread it returns null and
     * leaves the context alone.
     */
    method StartUserThread(context: UserContext, detached: bool, env: Environment) returns (kthread: KernelThread?)
      requires context.refCount == 0
      modifies this`calls, this`interruptsEnabled, context`refCount
      ensures calls == old(calls) + [StartCall]
      ensures env.threadAvailable ==>
        && kthread != null && fresh(kthread)
        && kthread.userContext == context && context.refCount == 1
        && kthread.refCount == (if detached then 1 else 2)
        && kthread.stackPage == env.stackPage
        && interruptsEnabled
      ensures !env.threadAvailable ==>
        kthread == null && context.refCount == old(context.refCount) && interruptsEnabled == old(interruptsEnabled)
    {
      calls := calls + [StartCall];
      if env.threadAvailable {
        kthread := new KernelThread(env.stackPage, if detached then 1 else 2);
        AttachUserContext(kthread, context);
      } else {
        kthread := null;
      }
    }

    // ---------------------------------------------------------------
    // Spawn
    // ---------------------------------------------------------------

    /**
     * Spawn: read the executable, parse it, build its context and start a
     * thread in it; a failing step jumps to the cleanup at `fail`. The
     * collaborator calls and the return code are those of CallsMade and
     * ReturnCode. Every buffer read is freed exactly once, a context is
     * destroyed only when the load failed after building it, and
     * `*pThread` is written only on success, with a thread that holds the
     * new context and two references. When no thread can be started the
     * code is ENOMEM and the context built stays allocated: it is neither
     * destroyed nor handed to anyone.
     */
    method Spawn(program: string, command: string, pThread: ThreadSlot, env: Environment)
      returns (rc: int, ghost built: UserContext?)
      modifies this`calls, this`liveBuffers, this`liveContexts, this`destroyed, this`interruptsEnabled
      modifies pThread`thread
      ensures rc == ReturnCode(env)
      ensures calls == old(calls) + CallsMade(env)
      ensures liveBuffers == old(liveBuffers)
      ensures built != null <==> env.Builds()
      ensures built != null ==> fresh(built)
      ensures destroyed == old(destroyed) + if env.Builds() && !env.Loads() then [built] else []
      ensures liveContexts == old(liveContexts) + if env.Loads() then {built} else {}
      ensures rc == 0 ==>
        && built != null && built.refCount == 1
        && pThread.thread != null && fresh(pThread.thread)
        && pThread.thread.userContext == built && pThread.thread.refCount == 2
      ensures rc != 0 ==> pThread.thread == old(pThread.thread)
      ensures env.Builds() && !env.Starts() ==> built != null && built.refCount == 0
      ensures interruptsEnabled == (old(interruptsEnabled) || env.Starts())
    {
      ghost var spec := CallsMade(env);
      built := null;
      var exeFileData: ExeBuffer? := null;
      var exeFileLength: nat := 0;
      var exeFormat: ExeFormat;
      var userContext: UserContext? := null;
      var process: KernelThread? := null;
      label fail: {
        rc, exeFileData, exeFileLength := ReadFully(program, env);
        if rc != 0 {
          assert spec == [ReadCall];
          break fail;
        }
        rc, exeFormat := ParseElfExecutable(exeFileData, exeFileLength, env);
        if rc != 0 {
          assert spec == [ReadCall, ParseCall, FreeCall];
          break fail;
        }
        rc, userContext := LoadUserProgram(exeFileData, exeFileLength, exeFormat, command, env);
        built := userContext;
        if rc != 0 {
          assert spec == if env.Builds() then [ReadCall, ParseCall, LoadCall, FreeCall, DestroyCall]
                         else [ReadCall, ParseCall, LoadCall, FreeCall];
          break fail;
        }
        assert spec == [ReadCall, ParseCall, LoadCall, FreeCall, StartCall];
        Free(exeFileData);
        exeFileData := null;
        process := StartUserThread(userContext, false, env);
        if process != null {
          assert process.refCount == 2;
          pThread.thread := process;
        } else {
          rc := ENOMEM;
        }
        return;
      }
      // fail:
      if exeFileData != null {
        Free(exeFileData);
      }
      if userContext != null {
        DestroyUserContext(userContext);
      }
    }

    // ---------------------------------------------------------------
    // Address-space switch
    // ---------------------------------------------------------------

    /** Switch_To_Address_Space: the hardware now runs in `context`'s address space. */
    method SwitchToAddressSpace(context: UserContext)
      modifies this`loadedAddressSpace, this`switchCount
      ensures loadedAddressSpace == context
      ensures switchCount == old(switchCount) + 1
    {
      loadedAddressSpace := context;
      switchCount := switchCount + 1;
    }

    /** Set_Kernel_Stack_Pointer: the stack the CPU uses on the next trap from user mode. */
    method SetKernelStackPointer(esp0: nat)
      modifies this`kernelStackPointer
      ensures kernelStackPointer == esp0
    {
      kernelStackPointer := esp0;
    }

    /**
     * Switch_To_User_Context: called with interrupts off just before
     * `kthread` runs. A kernel-only thread, or one whose context is the
     * cached one, changes nothing. Otherwise the address space is switched
     * once, the kernel stack pointer is set to the top of the thread's stack
     * page and the cache names the thread's context. Either way a user
     * thread runs in its own address space. No reference count is touched.
     */
    method SwitchToUserContext(kthread: KernelThread)
      requires Valid()
      requires !interruptsEnabled
      modifies this`currentUserContext, this`loadedAddressSpace, this`kernelStackPointer, this`switchCount
      ensures Valid()
      ensures currentUserContext == CacheAfter(old(currentUserContext), kthread.userContext)
      ensures kthread.userContext != null ==> loadedAddressSpace == kthread.userContext
      ensures SwitchNeeded(old(currentUserContext), kthread.userContext) ==>
        && switchCount == old(switchCount) + 1
        && kernelStackPointer == StackTop(kthread.stackPage)
      ensures !SwitchNeeded(old(currentUserContext), kthread.userContext) ==> unchanged(this)
    {
      var userContext := kthread.userContext;
      if userContext == null {
        return;
      }
      if userContext != currentUserContext {
        SwitchToAddressSpace(userContext);
        var esp0 := StackTop(kthread.stackPage);
        SetKernelStackPointer(esp0);
        currentUserContext := userContext;
      }
    }

    /**
     * Two dispatches in a row cost what SwitchNeeded predicts for the
     * sequence of their contexts; dispatching the same thread twice
     * switches at most once.
     */
    method DispatchTwice(first: KernelThread, second: KernelThread)
      requires Valid()
      requires !interruptsEnabled
      modifies this`currentUserContext, this`loadedAddressSpace, this`kernelStackPointer, this`switchCount
      ensures Valid()
      ensures switchCount == old(switchCount) + Switches(old(currentUserContext), [first.userContext, second.userContext])
      ensures currentUserContext == FinalCache(old(currentUserContext), [first.userContext, second.userContext])
      ensures first == second ==> switchCount <= old(switchCount) + 1
    {
      ghost var c0, a, b := currentUserContext, first.userContext, second.userContext;
      assert [a, b][1..] == [b] && [b][1..] == [];
      assert [a, b][0] == a && [b][0] == b;
      assert FinalCache(c0, [a, b]) == FinalCache(CacheAfter(c0, a), [b]);
      assert FinalCache(CacheAfter(c0, a), [b]) == CacheAfter(CacheAfter(c0, a), b);
      SwitchToUserContext(first);
      SwitchToUserContext(second);
      if first == second {
        assert [a, b] == seq(2, _ => a);
        RedispatchIsFree(c0, a, 2);
      }
    }
  }
}
