/** coro::ConditionVariable as SharedMutex and CountingSemaphore use it: every method runs with the
    caller's lock held, so nothing moves between the load of `_awaiters` and the compare-exchange, which
    may still fail `spurious` times for no reason. */
module ConditionVariables {
  import opened Sequences

  class Awaiter {
    const continuation: nat   // names the coroutine
    var next: Awaiter?

    constructor (continuation: nat)
      ensures this.continuation == continuation
    {
      this.continuation := continuation;
      next := null;
    }
  }

  class ConditionVariable {
    var awaiters: Awaiter?
    ghost var stack: seq<Awaiter>   // the list at `awaiters`, newest first
    ghost var woken: seq<nat>       // the coroutines resumed so far, in order

    ghost predicate Valid()
      reads this, stack
    {
      NoDup(stack) && Linked(awaiters, stack)
    }

    static ghost function At(xs: seq<Awaiter>, i: int): Awaiter? {
      if 0 <= i < |xs| then xs[i] else null
    }

    static ghost predicate Linked(p: Awaiter?, xs: seq<Awaiter>)
      reads xs
    {
      p == At(xs, 0) && forall i :: 0 <= i < |xs| ==> xs[i].next == At(xs, i + 1)
    }

    static ghost function Names(xs: seq<Awaiter>): (r: seq<nat>)
      ensures |r| == |xs|
      ensures forall i :: 0 <= i < |xs| ==> r[i] == xs[i].continuation
    {
      seq(|xs|, i requires 0 <= i < |xs| => xs[i].continuation)
    }

    constructor ()
      ensures Valid() && stack == [] && woken == []
    {
      awaiters, stack, woken := null, [], [];
    }

    /** await_suspend, up to the release of the lock. */
    method Suspend(a: Awaiter, spurious: nat)
      requires Valid() && a !in stack
      modifies this, a
      ensures Valid() && stack == [a] + old(stack) && woken == old(woken)
    {
      var awaitings, left := awaiters, spurious;
      while true
        invariant awaitings == awaiters == old(awaiters) && stack == old(stack) && woken == old(woken)
        invariant Linked(awaiters, stack)
        decreases left
      {
        a.next := awaitings;
        if left == 0 {
          awaiters, stack := a, [a] + stack;
          return;
        }
        left, awaitings := left - 1, awaiters;
      }
    }

    /** `_continuation.resume()`: the awaiter is part of the coroutine's frame, so nothing is known about
        it afterwards. */
    method Resume(a: Awaiter, leftover: Awaiter?)
      modifies a, this`woken
      ensures woken == old(woken) + [a.continuation]
    {
      a.next := leftover;
      woken := woken + [a.continuation];
    }

    /** resumeWaiters walks a list that is no longer at `_awaiters`. */
    method ResumeWaiters(first: Awaiter?, ghost xs: seq<Awaiter>, leftover: Awaiter?)
      requires Valid() && NoDup(xs) && Linked(first, xs)
      requires forall i, j :: 0 <= i < |xs| && 0 <= j < |stack| ==> xs[i] != stack[j]
      modifies xs, this`woken
      ensures Valid() && woken == old(woken) + Names(xs)
    {
      var list := first;
      ghost var k := 0;
      while list != null
        invariant 0 <= k <= |xs| && list == At(xs, k)
        invariant forall i :: k <= i < |xs| ==> xs[i].next == At(xs, i + 1)
        invariant woken == old(woken) + Names(xs)[..k]
        invariant Linked(awaiters, stack)
        decreases |xs| - k
      {
        var prev := list;
        list := list.next;
        Resume(prev, leftover);
        assert Names(xs)[..k + 1] == Names(xs)[..k] + [prev.continuation];
        k := k + 1;
      }
    }

    /** Wakes the coroutine that went to sleep last, if any sleeps. */
    method NotifyOne(spurious: nat, leftover: Awaiter?)
      requires Valid()
      modifies this, stack
      ensures Valid()
      ensures old(stack) == [] ==> stack == [] && woken == old(woken)
      ensures old(stack) != [] ==> stack == old(stack)[1..] && woken == old(woken) + [old(stack)[0].continuation]
    {
      var awaitings, left := awaiters, spurious;
      if awaitings == null {
        return;
      }
      while left != 0
        invariant awaitings == awaiters
      {
        left, awaitings := left - 1, awaiters;
      }
      awaiters, stack := awaitings.next, stack[1..];
      awaitings.next := null;
      ResumeWaiters(awaitings, [awaitings], leftover);
    }

    /** Wakes every coroutine that sleeps, the one that went to sleep last first. */
    method NotifyAll(spurious: nat, leftover: Awaiter?)
      requires Valid()
      modifies this, stack
      ensures Valid() && stack == [] && woken == old(woken) + Names(old(stack))
    {
      var awaitings, left := awaiters, spurious;
      while left != 0
        invariant awaitings == awaiters
      {
        left, awaitings := left - 1, awaiters;
      }
      ghost var xs := stack;
      awaiters, stack := null, [];
      ResumeWaiters(awaitings, xs, leftover);
    }
  }
}
