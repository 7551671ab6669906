/**
 * The kernel objects that the user-mode process code of GeekOS works on:
 * the per-process memory context (User_Context), the kernel thread that may
 * own one (Kernel_Thread), the memory buffer holding an executable image,
 * the out-parameter through which Spawn hands back the new thread, and the
 * constants the code uses.
 */
module Context {

  /** Size of a page; a kernel thread's stack is one page (geekos/mem.h). */
  const PAGE_SIZE: nat := 4096

  /** Addresses are 32-bit `ulong_t` values: arithmetic on them wraps. */
  const ADDRESS_LIMIT: nat := 0x1_0000_0000

  /** Error codes of geekos/errno.h that the core returns itself. */
  const ENOTFOUND: int := -2
  const ENOMEM: int := -7

  /** The top of a kernel stack page: `stackPage + PAGE_SIZE` as a 32-bit address. */
  function StackTop(stackPage: nat): nat
  {
    (stackPage + PAGE_SIZE) % ADDRESS_LIMIT
  }

  /** A process's memory context; only its reference count is read or written here. */
  class UserContext {
    var refCount: int

    /** Load_User_Program builds a context that no thread references yet. */
    constructor ()
      ensures refCount == 0
    {
      refCount := 0;
    }
  }

  /** A kernel thread: the fields of Kernel_Thread that the core reads or writes. */
  class KernelThread {
    var userContext: UserContext?
    var refCount: int
    const stackPage: nat

    constructor (stackPage: nat, refCount: int)
      ensures this.stackPage == stackPage && this.refCount == refCount
      ensures userContext == null
    {
      this.stackPage := stackPage;
      this.refCount := refCount;
      userContext := null;
    }
  }

  /** A heap buffer holding an executable file's bytes, as filled by Read_Fully. */
  class ExeBuffer {
    const length: nat

    constructor (length: nat)
      ensures this.length == length
    {
      this.length := length;
    }
  }

  /** The caller's `struct Kernel_Thread *` variable that Spawn writes through `pThread`. */
  class ThreadSlot {
    var thread: KernelThread?

    constructor ()
      ensures thread == null
    {
      thread := null;
    }
  }

  /** What Parse_ELF_Executable extracts from an image: where to start and how many segments to load. */
  datatype ExeFormat = ExeFormat(entryAddr: nat, numSegments: nat)
}
