/**
 * The decision Switch_To_User_Context makes on every dispatch, as functions
 * of the cached context (the function-local static `s_currentUserContext`)
 * and the context of the thread about to run. A kernel-only thread has no
 * context (null) and leaves whatever address space is loaded; a user thread
 * causes a hardware switch exactly when its context is not, by identity, the
 * cached one.
 */
module Activation {
  import opened Context

  /** A dispatch needs a hardware address-space switch. */
  predicate SwitchNeeded(cache: UserContext?, ctx: UserContext?)
  {
    ctx != null && ctx != cache
  }

  /** The cache after one dispatch. */
  function CacheAfter(cache: UserContext?, ctx: UserContext?): (c: UserContext?)
    ensures ctx != null ==> c == ctx
    ensures ctx == null ==> c == cache
  {
    if SwitchNeeded(cache, ctx) then ctx else cache
  }

  /** Every user thread in `ctxs` runs in the cached context already. */
  ghost predicate AllCached(cache: UserContext?, ctxs: seq<UserContext?>)
  {
    forall i :: 0 <= i < |ctxs| && ctxs[i] != null ==> ctxs[i] == cache
  }

  /** The number of dispatches of user threads (threads with a context) in `ctxs`. */
  function UserDispatches(ctxs: seq<UserContext?>): nat
  {
    if ctxs == [] then 0
    else (if ctxs[0] != null then 1 else 0) + UserDispatches(ctxs[1..])
  }

  /**
   * The number of hardware address-space switches when threads whose
   * contexts are `ctxs` are dispatched one after the other, starting from
   * `cache`. There is at most one per user-thread dispatch, and none at all
   * exactly when every user thread runs in the cached context.
   */
  function Switches(cache: UserContext?, ctxs: seq<UserContext?>): (n: nat)
    ensures n <= UserDispatches(ctxs)
    ensures n == 0 <==> AllCached(cache, ctxs)
    decreases |ctxs|
  {
    if ctxs == [] then 0
    else
      var rest := Switches(CacheAfter(cache, ctxs[0]), ctxs[1..]);
      assert AllCached(cache, ctxs) <==> !SwitchNeeded(cache, ctxs[0]) && AllCached(cache, ctxs[1..]) by {
        if !SwitchNeeded(cache, ctxs[0]) && AllCached(cache, ctxs[1..]) {
          forall i | 0 < i < |ctxs| && ctxs[i] != null ensures ctxs[i] == cache {
            assert ctxs[1..][i - 1] == ctxs[i];
          }
        }
      }
      (if SwitchNeeded(cache, ctxs[0]) then 1 else 0) + rest
  }

  /** The cache after dispatching `ctxs` one after the other. */
  function FinalCache(cache: UserContext?, ctxs: seq<UserContext?>): UserContext?
    decreases |ctxs|
  {
    if ctxs == [] then cache else FinalCache(CacheAfter(cache, ctxs[0]), ctxs[1..])
  }

  /** Reference definition: the context of the last user thread dispatched, else the initial cache. */
  function LastContext(cache: UserContext?, ctxs: seq<UserContext?>): UserContext?
  {
    if ctxs == [] then cache
    else if ctxs[|ctxs| - 1] != null then ctxs[|ctxs| - 1]
    else LastContext(cache, ctxs[..|ctxs| - 1])
  }

  /** Dispatching `xs` and then `ys` is dispatching `ys` from the cache `xs` left behind. */
  lemma {:induction false} DispatchAppend(cache: UserContext?, xs: seq<UserContext?>, ys: seq<UserContext?>)
    ensures Switches(cache, xs + ys) == Switches(cache, xs) + Switches(FinalCache(cache, xs), ys)
    ensures FinalCache(cache, xs + ys) == FinalCache(FinalCache(cache, xs), ys)
    decreases |xs|
  {
    if xs == [] {
      assert xs + ys == ys;
    } else {
      assert (xs + ys)[0] == xs[0];
      assert (xs + ys)[1..] == xs[1..] + ys;
      DispatchAppend(CacheAfter(cache, xs[0]), xs[1..], ys);
    }
  }

  /**
   * The cache is never stale: after any run of dispatches it names the
   * context of the last user thread dispatched, and it keeps its initial
   * value only while kernel-only threads run.
   */
  lemma {:induction false} CacheIsLastUserContext(cache: UserContext?, ctxs: seq<UserContext?>)
    ensures FinalCache(cache, ctxs) == LastContext(cache, ctxs)
  {
    if ctxs != [] {
      var init, last := ctxs[..|ctxs| - 1], ctxs[|ctxs| - 1];
      assert ctxs == init + [last];
      DispatchAppend(cache, init, [last]);
      CacheIsLastUserContext(cache, init);
    }
  }

  /** Dispatching the same thread n times in a row switches at most once: only the first time, if at all. */
  lemma RedispatchIsFree(cache: UserContext?, ctx: UserContext?, n: nat)
    ensures Switches(cache, seq(n, _ => ctx)) == if n > 0 && SwitchNeeded(cache, ctx) then 1 else 0
  {
  }

  /** The cache is compared by identity and survives between dispatches: alternating between two contexts switches on every change. */
  lemma AlternationSwitchesOnEveryChange(cache: UserContext?, a: UserContext, b: UserContext)
    requires a != b
    ensures Switches(cache, [a, b, a]) == if cache == a then 2 else 3
    ensures Switches(cache, [a, null, a]) == if cache == a then 0 else 1
  {
    assert [a, b, a][1..] == [b, a] && [b, a][1..] == [a] && [a][1..] == [];
    assert [a, null, a][1..] == [null, a] && [null, a][1..] == [a];
    assert Switches(a, [a]) == 0 && Switches(b, [a]) == 1;
    assert Switches(a, [b, a]) == 2;
  }
}
