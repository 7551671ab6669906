/**
 * What Spawn does, as a function of what its collaborators answer: the
 * filesystem read (Read_Fully), the ELF parser (Parse_ELF_Executable), the
 * address-space builder (Load_User_Program) and the scheduler
 * (Start_User_Thread). Their bodies lie outside this model; an
 * `Environment` value fixes their answers for one call of Spawn.
 */
module SpawnProtocol {
  import opened Context

  /**
   * A call Spawn makes into a collaborator; FreeCall is the release of the
   * executable buffer, DestroyCall the teardown of a user context.
   */
  datatype Call = ReadCall | ParseCall | LoadCall | FreeCall | StartCall | DestroyCall

  /** The answers the collaborators give to one Spawn. A code of 0 means success. */
  datatype Environment = Environment(
    fileExists: bool,      // the program path names a file
    fileLength: nat,       // its length, when it is read
    readRc: int,           // Read_Fully's code for an existing file
    parseRc: int,          // Parse_ELF_Executable's code
    format: ExeFormat,     // what the parser fills in on success
    loadRc: int,           // Load_User_Program's code
    loadLeavesContext: bool, // on failure, it still stored a context it built
    threadAvailable: bool, // Start_User_Thread can allocate a thread
    stackPage: nat)        // the stack page the new thread gets
  {
    /** Read_Fully answers ENOTFOUND for a missing file. */
    function ReadCode(): int
    {
      if fileExists then readRc else ENOTFOUND
    }

    predicate Reads() { ReadCode() == 0 }
    predicate Parses() { Reads() && parseRc == 0 }
    predicate Loads() { Parses() && loadRc == 0 }
    /** Spawn ends up holding a user context, whether or not the load succeeded. */
    predicate Builds() { Parses() && (loadRc == 0 || loadLeavesContext) }
    predicate Starts() { Loads() && threadAvailable }

    /** Only a missing file makes a collaborator answer ENOTFOUND. */
    predicate ReservesNotFound()
    {
      (fileExists ==> readRc != ENOTFOUND) && parseRc != ENOTFOUND && loadRc != ENOTFOUND
    }
  }

  /** The position of each call in Spawn's fixed sequence of steps. */
  function Rank(c: Call): nat
  {
    match c
    case ReadCall => 0
    case ParseCall => 1
    case LoadCall => 2
    case FreeCall => 3
    case StartCall => 4
    case DestroyCall => 5
  }

  /** Every call is ranked after the call before it: the steps run in their fixed order. */
  predicate InStepOrder(calls: seq<Call>)
  {
    |calls| < 2 || (Rank(calls[0]) < Rank(calls[1]) && InStepOrder(calls[1..]))
  }

  /** How many times `calls` contains `c`. */
  function Occurrences(calls: seq<Call>, c: Call): nat
  {
    if calls == [] then 0
    else (if calls[0] == c then 1 else 0) + Occurrences(calls[1..], c)
  }

  /** A call sequence in step order makes no call twice; in particular the buffer is never released twice. */
  lemma {:induction false} InStepOrderCallsOnce(calls: seq<Call>, c: Call)
    requires InStepOrder(calls)
    ensures Occurrences(calls, c) == if c in calls then 1 else 0
    ensures forall i :: 0 < i < |calls| ==> Rank(calls[0]) < Rank(calls[i])
  {
    if calls != [] {
      var rest := calls[1..];
      InStepOrderCallsOnce(rest, c);
      forall i | 0 < i < |calls| ensures Rank(calls[0]) < Rank(calls[i]) {
        assert calls[i] == rest[i - 1];
      }
      if calls[0] == c {
        assert c !in rest by {
          forall i | 0 <= i < |rest| ensures rest[i] != c {
            assert Rank(calls[0]) < Rank(calls[i + 1]);
          }
        }
      }
      assert c in calls <==> calls[0] == c || c in rest;
    }
  }

  /**
   * The code Spawn returns in `env`. Read, parse and load run in that
   * order and the first non-zero code is returned; when the thread cannot
   * be started the code is ENOMEM; success returns 0.
   */
  function ReturnCode(env: Environment): (rc: int)
    ensures rc == 0 <==> env.Starts()
    ensures !env.Reads() ==> rc == env.ReadCode()
    ensures env.Reads() && !env.Parses() ==> rc == env.parseRc
    ensures env.Parses() && !env.Loads() ==> rc == env.loadRc
    ensures env.Loads() && !env.Starts() ==> rc == ENOMEM
  {
    if !env.Reads() then env.ReadCode()
    else if !env.Parses() then env.parseRc
    else if !env.Loads() then env.loadRc
    else if env.threadAvailable then 0
    else ENOMEM
  }

  /**
   * The collaborator calls Spawn makes in `env`, in order. A failing step
   * stops the sequence. The buffer is released exactly when it was read; a
   * context is destroyed only on the failure path and only when the
   * builder left one behind. When no thread can be started the context
   * built is neither destroyed nor handed on.
   */
  function CallsMade(env: Environment): (calls: seq<Call>)
    ensures InStepOrder(calls)
    ensures ReadCall in calls
    ensures ParseCall in calls <==> env.Reads()
    ensures LoadCall in calls <==> env.Parses()
    ensures StartCall in calls <==> env.Loads()
    ensures FreeCall in calls <==> env.Reads()
    ensures DestroyCall in calls <==> env.Builds() && !env.Loads()
  {
    if !env.Reads() then [ReadCall]
    else if !env.Parses() then [ReadCall, ParseCall, FreeCall]
    else if !env.Loads() && env.Builds() then [ReadCall, ParseCall, LoadCall, FreeCall, DestroyCall]
    else if !env.Loads() then [ReadCall, ParseCall, LoadCall, FreeCall]
    else [ReadCall, ParseCall, LoadCall, FreeCall, StartCall]
  }

  /**
   * Every path through Spawn releases the executable buffer exactly as
   * often as it was read, and destroys a context at most once: exactly when
   * one was built and the load failed.
   */
  lemma SpawnReleasesEachResourceOnce(env: Environment)
    ensures Occurrences(CallsMade(env), ReadCall) == 1
    ensures Occurrences(CallsMade(env), FreeCall) == if env.Reads() then 1 else 0
    ensures Occurrences(CallsMade(env), DestroyCall) == if env.Builds() && !env.Loads() then 1 else 0
  {
    InStepOrderCallsOnce(CallsMade(env), ReadCall);
    InStepOrderCallsOnce(CallsMade(env), FreeCall);
    InStepOrderCallsOnce(CallsMade(env), DestroyCall);
  }

  /**
   * A missing executable makes Spawn answer ENOTFOUND; when no collaborator
   * uses that code for anything else, ENOTFOUND means exactly that the file
   * does not exist.
   */
  lemma NotFoundMeansMissingFile(env: Environment)
    ensures !env.fileExists ==> ReturnCode(env) == ENOTFOUND
    ensures env.ReservesNotFound() ==> (ReturnCode(env) == ENOTFOUND <==> !env.fileExists)
  {
  }
}
