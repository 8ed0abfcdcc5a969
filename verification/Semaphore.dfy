/** coro::CountingSemaphore as the interleaving of its lock-protected sections, for any number of
    coroutines.  A coroutine that was woken has to take the lock again and may find the count gone. */
module SemaphoreProtocol {
  import opened Sequences

  type Cid = nat

  datatype Pc = Idle | Asleep | Woken

  /** `acquired` and `released` are histories: what all calls so far took and gave. */
  datatype State = State(count: nat, cv: seq<Cid>, pc: map<Cid, Pc>, acquired: nat, released: nat)

  datatype Action = Acquire(c: Cid) | TryAcquire(c: Cid) | Release(c: Cid, update: nat)

  ghost predicate Init(s: State, desired: nat) {
    s.count == desired && s.cv == [] && s.acquired == s.released == 0 && forall c :: c in s.pc ==> s.pc[c] == Idle
  }

  function Take(s: State, c: Cid): State
    requires s.count > 0
  {
    s.(count := s.count - 1, pc := s.pc[c := Idle], acquired := s.acquired + 1)
  }

  /** From the start of acquire, or after a wake-up. */
  ghost predicate AcquireStep(s: State, c: Cid, s': State)
    requires c in s.pc
  {
    s.pc[c] != Asleep &&
    s' == if s.count > 0 then Take(s, c) else s.(cv := [c] + s.cv, pc := s.pc[c := Asleep])
  }

  ghost predicate TryAcquireStep(s: State, c: Cid, s': State)
    requires c in s.pc
  {
    s.pc[c] == Idle && s' == if s.count > 0 then Take(s, c) else s
  }

  /** Whom release wakes: everybody, or the one who fell asleep last. */
  function Notified(cv: seq<Cid>, update: nat): seq<Cid> {
    if update > 1 || cv == [] then cv else cv[..1]
  }

  function WakeThem(pc: map<Cid, Pc>, them: seq<Cid>): map<Cid, Pc> {
    map d | d in pc :: if d in them then Woken else pc[d]
  }

  /** `limit` is LeastMaxValue; the asserts of release are demands on its caller. */
  ghost predicate ReleaseStep(s: State, c: Cid, update: nat, limit: nat, s': State)
    requires c in s.pc
  {
    && s.pc[c] == Idle && 0 < update <= limit && s.count <= limit - update
    && s' == s.(count := s.count + update, released := s.released + update,
                cv := s.cv[|Notified(s.cv, update)|..], pc := WakeThem(s.pc, Notified(s.cv, update)))
  }

  ghost predicate Next(s: State, a: Action, limit: nat, s': State) {
    a.c in s.pc &&
    match a
    case Acquire(c) => AcquireStep(s, c, s')
    case TryAcquire(c) => TryAcquireStep(s, c, s')
    case Release(c, update) => ReleaseStep(s, c, update, limit, s')
  }

  datatype Run = Start(s: State) | Then(run: Run, a: Action, s: State)

  ghost predicate IsRun(r: Run, desired: nat, limit: nat) {
    match r
    case Start(s) => Init(s, desired)
    case Then(run, a, s') => IsRun(run, desired, limit) && Next(run.s, a, limit, s')
  }

  ghost function OnTheWay(s: State): set<Cid> {
    set c | c in s.pc && s.pc[c] == Woken
  }

  ghost predicate Sleepers(s: State) {
    NoDup(s.cv) && forall c :: c in s.cv <==> c in s.pc && s.pc[c] == Asleep
  }

  ghost predicate Inv(s: State, desired: nat) {
    && Sleepers(s)
    && desired + s.released == s.count + s.acquired
    && (s.cv != [] ==> s.count <= |OnTheWay(s)|)
  }

  lemma AcquireKeeps(s: State, c: Cid, s': State, desired: nat)
    requires Inv(s, desired) && c in s.pc && AcquireStep(s, c, s')
    ensures Inv(s', desired)
  {
    assert OnTheWay(s') == OnTheWay(s) - {c};
    if s.count == 0 {
      assert s.cv == s'.cv[1..];
    }
  }

  lemma ReleaseKeeps(s: State, c: Cid, update: nat, limit: nat, s': State, desired: nat)
    requires Inv(s, desired) && c in s.pc && ReleaseStep(s, c, update, limit, s')
    ensures Inv(s', desired)
  {
    var woken := Notified(s.cv, update);
    assert s.cv == woken + s'.cv;
    if s'.cv != [] {
      assert woken == [s.cv[0]];
      assert OnTheWay(s') == OnTheWay(s) + {s.cv[0]};
    } else {
      assert woken == s.cv;
    }
  }

  lemma {:induction false} RunInv(r: Run, desired: nat, limit: nat)
    requires IsRun(r, desired, limit)
    ensures Inv(r.s, desired)
  {
    match r
    case Start(_) =>
    case Then(run, a, s') =>
      RunInv(run, desired, limit);
      match a
      case Acquire(c) => AcquireKeeps(run.s, c, s', desired);
      case TryAcquire(c) => assert s'.pc == run.s.pc; assert OnTheWay(s') == OnTheWay(run.s);
      case Release(c, update) => ReleaseKeeps(run.s, c, update, limit, s', desired);
  }

  /** Nothing is lost and nothing is made up: what was there and what was released is what is left and what
      was acquired. */
  lemma {:induction false} Conservation(r: Run, desired: nat, limit: nat)
    requires IsRun(r, desired, limit)
    ensures desired + r.s.released == r.s.count + r.s.acquired
  {
    RunInv(r, desired, limit);
  }

  /** No wake-up is lost, even when newcomers take the count first: while somebody sleeps, every unit of
      the count has a woken coroutine that has yet to look.  So when nobody is on the way and somebody
      sleeps, the count is zero. */
  lemma NoLostWakeUp(r: Run, desired: nat, limit: nat, c: Cid)
    requires IsRun(r, desired, limit) && c in r.s.pc && r.s.pc[c] == Asleep
    ensures r.s.count <= |OnTheWay(r.s)|
    ensures (forall d :: d in r.s.pc ==> r.s.pc[d] != Woken) ==> r.s.count == 0
  {
    RunInv(r, desired, limit);
    assert c in r.s.cv;
    assert OnTheWay(r.s) == {} || exists d :: d in OnTheWay(r.s);
  }

  /** The count stays below what it started with or LeastMaxValue. */
  lemma {:induction false} CountBounded(r: Run, desired: nat, limit: nat)
    requires IsRun(r, desired, limit)
    ensures r.s.count <= if desired > limit then desired else limit
  {
    if r.Then? {
      CountBounded(r.run, desired, limit);
    }
  }
}

/** coro::CountingSemaphore in memory; each method is one section under `lock_`. */
module Semaphores {
  import opened ConditionVariables
  import opened SemaphoreProtocol
  import opened Sequences

  class CountingSemaphore {
    const cv: ConditionVariable
    const limit: nat
    var count: nat
    ghost var pc: map<Cid, Pc>
    ghost var acquired: nat
    ghost var released: nat

    ghost predicate Valid()
      reads this, cv, cv.stack
    {
      cv.Valid() && forall i :: 0 <= i < |cv.stack| ==> cv.stack[i].continuation in pc
    }

    ghost function Abs(): State
      reads this, cv
    {
      State(count, ConditionVariable.Names(cv.stack), pc, acquired, released)
    }

    constructor (desired: nat, limit: nat, coroutines: set<Cid>)
      ensures Valid() && Init(Abs(), desired) && pc.Keys == coroutines && fresh(cv) && this.limit == limit
    {
      cv := new ConditionVariable();
      this.limit, count, acquired, released := limit, desired, 0, 0;
      pc := map c | c in coroutines :: Idle;
    }

    /** acquire up to where it sleeps or has its unit; `a` is the awaiter it would sleep with. */
    method Acquire(a: Awaiter, spurious: nat)
      requires Valid() && a !in cv.stack && a.continuation in pc && pc[a.continuation] != Asleep
      modifies this, cv, a
      ensures Valid() && Next(old(Abs()), Action.Acquire(a.continuation), limit, Abs())
    {
      if count > 0 {
        count, acquired, pc := count - 1, acquired + 1, pc[a.continuation := Idle];
      } else {
        cv.Suspend(a, spurious);
        pc := pc[a.continuation := Asleep];
      }
    }

    method TryAcquire(c: Cid) returns (ok: bool)
      requires Valid() && c in pc && pc[c] == Idle
      modifies this
      ensures Valid() && Next(old(Abs()), Action.TryAcquire(c), limit, Abs())
      ensures ok <==> old(count) > 0
    {
      ok := count > 0;
      if ok {
        count, acquired, pc := count - 1, acquired + 1, pc[c := Idle];
      }
    }

    method Release(c: Cid, update: nat, spurious: nat, leftover: Awaiter?)
      requires Valid() && c in pc && pc[c] == Idle && 0 < update <= limit && count <= limit - update
      modifies this, cv, cv.stack
      ensures Valid() && Next(old(Abs()), Action.Release(c, update), limit, Abs())
    {
      pc := WakeThem(pc, Notified(ConditionVariable.Names(cv.stack), update));
      count, released := count + update, released + update;
      if update > 1 {
        cv.NotifyAll(spurious, leftover);
      } else {
        cv.NotifyOne(spurious, leftover);
      }
    }
  }
}
