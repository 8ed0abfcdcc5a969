/** coro::Mutex as its fields in memory: the packed word, the private batch, and the awaiters linked
    through `next`.  Each method is one call that no other coroutine interrupts; MutexProtocol
    interleaves the atomic steps. */
module Mutex {
  import opened Sequences

  class LockAwaiter {
    var next: LockAwaiter?

    constructor () {
      next := null;
    }
  }

  datatype Word = Unlocked | Waiters(head: LockAwaiter?)

  class Mutex {
    var state: Word
    var waiters: LockAwaiter?
    ghost var pushed: seq<LockAwaiter>  // the list at `state`, newest first
    ghost var batch: seq<LockAwaiter>   // the list at `waiters`, oldest first

    ghost predicate Valid()
      reads this, pushed, batch
    {
      && NoDup(pushed) && NoDup(batch) && (forall x :: x in pushed ==> x !in batch)
      && Linked(waiters, batch)
      && match state
         case Unlocked => pushed == batch == []
         case Waiters(head) => Linked(head, pushed)
    }

    static ghost predicate Linked(p: LockAwaiter?, xs: seq<LockAwaiter>)
      reads xs
    {
      p == At(xs, 0) && forall i :: 0 <= i < |xs| ==> xs[i].next == At(xs, i + 1)
    }

    static ghost function At(xs: seq<LockAwaiter>, i: int): LockAwaiter? {
      if 0 <= i < |xs| then xs[i] else null
    }

    ghost function Queue(): seq<LockAwaiter>
      reads this
    {
      batch + Reverse(pushed)
    }

    ghost predicate Locked()
      reads this
    {
      state != Unlocked
    }

    constructor ()
      ensures Valid() && !Locked() && Queue() == []
    {
      state, waiters := Unlocked, null;
      pushed, batch := [], [];
    }

    method TryLock() returns (ok: bool)
      requires Valid()
      modifies this`state
      ensures Valid() && Locked() && Queue() == old(Queue())
      ensures ok <==> !old(Locked())
    {
      ok := state == Unlocked;
      if ok {
        state := Waiters(null);
      }
    }

    /** Joins the queue at its end, or takes the free lock.  The weak compare-exchange may fail
        `spurious` times before it does what it compares for. */
    method LockAsyncImpl(awaiter: LockAwaiter, spurious: nat) returns (suspend: bool)
      requires Valid() && awaiter !in pushed && awaiter !in batch
      modifies this`state, this`pushed, awaiter
      ensures Valid() && Locked()
      ensures suspend <==> old(Locked())
      ensures Queue() == if suspend then old(Queue()) + [awaiter] else []
    {
      var oldValue, left := state, spurious;
      while true
        invariant Valid() && state == old(state) == oldValue && pushed == old(pushed)
        decreases left
      {
        var newValue: Word;
        if oldValue == Unlocked {
          newValue := Waiters(null);
        } else {
          newValue := Waiters(awaiter);
          awaiter.next := oldValue.head;
        }
        if left == 0 {
          state := newValue;
          suspend := oldValue != Unlocked;
          if suspend {
            pushed := [awaiter] + pushed;
            assert pushed[1..] == old(pushed);
          }
          return;
        }
        left, oldValue := left - 1, state;
      }
    }

    /** Frees the lock if nobody waits; otherwise the longest waiting awaiter is resumed as owner. */
    method Unlock() returns (resumed: LockAwaiter?)
      requires Valid() && Locked()
      modifies this, pushed
      ensures Valid()
      ensures old(Queue()) == [] ==> resumed == null && !Locked() && Queue() == []
      ensures old(Queue()) != [] ==> resumed == old(Queue())[0] && Locked() && Queue() == old(Queue())[1..]
    {
      var waitersHead := waiters;
      if waitersHead == null {
        if state.head == null {
          state := Unlocked;
          return null;
        }
        waitersHead := ReverseBatch();
      }
      ResumeFirst(waitersHead);
      resumed := waitersHead;
    }

    /** The first of the batch leaves it. */
    method ResumeFirst(waitersHead: LockAwaiter)
      requires Locked() && batch != [] && Linked(waitersHead, batch) && Linked(state.head, pushed)
      requires NoDup(pushed) && NoDup(batch) && forall x :: x in pushed ==> x !in batch
      modifies this`waiters, this`batch
      ensures Valid() && old(Queue()) != [] && waitersHead == old(Queue())[0] && Queue() == old(Queue())[1..]
    {
      FirstLeaves(batch, Reverse(pushed));
      waiters := waitersHead.next;
      batch := batch[1..];
    }

    /** The exchange and the loop of unlock: the pushed list becomes the batch, oldest first. */
    method ReverseBatch() returns (waitersHead: LockAwaiter)
      requires Valid() && Locked() && batch == [] && pushed != []
      modifies this`state, this`pushed, this`batch, pushed
      ensures NoDup(batch) && Linked(waitersHead, batch)
      ensures state == Waiters(null) && pushed == [] && batch == Reverse(old(pushed)) != []
      ensures Queue() == old(Queue())
    {
      ReverseAlone(pushed);
      ghost var xs := pushed;
      var waiter := state.head;
      state, pushed, batch := Waiters(null), [], Reverse(pushed);
      waitersHead := ReverseList(waiter, xs);
    }

    static method ReverseList(first: LockAwaiter, ghost xs: seq<LockAwaiter>) returns (last: LockAwaiter)
      requires NoDup(xs) && xs != [] && Linked(first, xs)
      modifies xs
      ensures NoDup(Reverse(xs)) && Linked(last, Reverse(xs))
    {
      last := ReverseInPlace(first, xs);
      ReverseMirrors(xs);
      MirrorIsLinked(xs, Reverse(xs));
    }

    static method ReverseInPlace(first: LockAwaiter, ghost xs: seq<LockAwaiter>) returns (last: LockAwaiter)
      requires NoDup(xs) && xs != [] && Linked(first, xs)
      modifies xs
      ensures last == xs[|xs| - 1]
      ensures forall i :: 0 <= i < |xs| ==> xs[i].next == At(xs, i - 1)
    {
      var waiter, head: LockAwaiter? := first, null;
      ghost var k := 0;
      while waiter != null
        invariant 0 <= k <= |xs|
        invariant waiter == At(xs, k) && head == At(xs, k - 1)
        invariant forall i :: 0 <= i < k ==> xs[i].next == At(xs, i - 1)
        invariant forall i :: k <= i < |xs| ==> xs[i].next == At(xs, i + 1)
        decreases |xs| - k
      {
        var temp := waiter.next;
        waiter.next := head;
        head := waiter;
        waiter := temp;
        k := k + 1;
      }
      last := head;
    }

    static lemma MirrorIsLinked(xs: seq<LockAwaiter>, ys: seq<LockAwaiter>)
      requires xs != [] && NoDup(xs) && Mirror(xs, ys)
      requires forall i :: 0 <= i < |xs| ==> xs[i].next == At(xs, i - 1)
      ensures NoDup(ys) && Linked(xs[|xs| - 1], ys)
    {
      MirrorNoDup(xs, ys);
      forall i | 0 <= i < |ys| ensures ys[i].next == At(ys, i + 1) {
        var j := |xs| - 1 - i;
        assert ys[i] == xs[j] && xs[j].next == At(xs, j - 1);
        if i + 1 < |ys| {
          assert ys[i + 1] == xs[j - 1];
        }
      }
    }
  }
}
