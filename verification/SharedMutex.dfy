/** coro::SharedMutex in memory: the packed word and the two gates.  Each method is one section under
    `mut_` and is proved to be the step of SharedMutexProtocol that it stands for. */
module SharedMutexes {
  import opened ConditionVariables
  import opened SharedMutexProtocol
  import opened Sequences

  lemma NamesPush(a: Awaiter, xs: seq<Awaiter>)
    ensures ConditionVariable.Names([a] + xs) == [a.continuation] + ConditionVariable.Names(xs)
  {}

  class SharedMutex {
    const gate1: ConditionVariable
    const gate2: ConditionVariable
    var state: nat
    ghost var pc: map<Cid, Pc>    // where every coroutine is

    ghost predicate Valid()
      reads this, gate1, gate2, gate1.stack, gate2.stack
    {
      && gate1 != gate2 && gate1.Valid() && gate2.Valid()
      && (forall i, j :: 0 <= i < |gate1.stack| && 0 <= j < |gate2.stack| ==> gate1.stack[i] != gate2.stack[j])
      && (forall i :: 0 <= i < |gate1.stack| ==> gate1.stack[i].continuation in pc)
      && (forall i :: 0 <= i < |gate2.stack| ==> gate2.stack[i].continuation in pc)
    }

    ghost function Abs(): State
      reads this, gate1, gate2
    {
      State(state, ConditionVariable.Names(gate1.stack), ConditionVariable.Names(gate2.stack), pc)
    }

    ghost predicate Free(a: Awaiter)
      reads gate1, gate2
    {
      a !in gate1.stack && a !in gate2.stack
    }

    constructor (coroutines: set<Cid>)
      ensures Valid() && Init(Abs()) && pc.Keys == coroutines
      ensures fresh(gate1) && fresh(gate2)
    {
      gate1 := new ConditionVariable();
      gate2 := new ConditionVariable();
      state := 0;
      pc := map c | c in coroutines :: Idle;
    }

    /** The awaiter's coroutine goes to sleep on a gate; it is at `p` then. */
    method FallAsleep(gate: ConditionVariable, a: Awaiter, spurious: nat, p: Pc)
      requires Valid() && Free(a) && a.continuation in pc && (gate == gate1 || gate == gate2)
      modifies this`pc, gate, a
      ensures Valid() && pc == old(pc)[a.continuation := p]
      ensures Abs() == if gate == gate1 then old(Abs()).(gate1 := [a.continuation] + old(Abs()).gate1, pc := pc)
                       else old(Abs()).(gate2 := [a.continuation] + old(Abs()).gate2, pc := pc)
    {
      NamesPush(a, gate.stack);
      gate.Suspend(a, spurious);
      pc := pc[a.continuation := p];
    }

    /** coLock up to where it sleeps or owns the lock; `a` is the awaiter it would sleep with. */
    method CoLock(a: Awaiter, spurious: nat)
      requires Valid() && Free(a) && a.continuation in pc
      requires pc[a.continuation] == Idle || pc[a.continuation] == Woken1(true)
      modifies this, gate1, gate2, a
      ensures Valid() && Next(old(Abs()), Action.CoLock(a.continuation), Abs())
    {
      hide SetFlag, Readers, WriteEntered;
      if WriteEntered(state) {
        FallAsleep(gate1, a, spurious, AtGate1(true));
        return;
      }
      state := SetFlag(state);
      if Readers(state) != 0 {
        FallAsleep(gate2, a, spurious, AtGate2);
        return;
      }
      pc := pc[a.continuation := Writing];
    }

    /** coLock after gate2_ resumed it. */
    method Recheck(a: Awaiter, spurious: nat)
      requires Valid() && Free(a) && a.continuation in pc && pc[a.continuation] == Woken2
      modifies this, gate2, a
      ensures Valid() && Next(old(Abs()), Action.Recheck(a.continuation), Abs())
    {
      if Readers(state) != 0 {
        FallAsleep(gate2, a, spurious, AtGate2);
      } else {
        pc := pc[a.continuation := Writing];
      }
    }

    method TryLock(c: Cid, contended: bool) returns (ok: bool)
      requires Valid() && c in pc && pc[c] == Idle
      modifies this
      ensures Valid() && Next(old(Abs()), Action.TryLock(c, contended), Abs())
      ensures ok <==> pc[c] == Writing
    {
      if contended {
        return false;
      }
      ok := state == 0;
      if ok {
        state := FLAG;
        pc := pc[c := Writing];
      }
    }

    method Unlock(c: Cid, spurious: nat, leftover: Awaiter?)
      requires Valid() && c in pc && pc[c] == Writing
      modifies this, gate1, gate1.stack
      ensures Valid() && Next(old(Abs()), Action.Unlock(c), Abs())
    {
      state := 0;
      pc := WakeAll(ConditionVariable.Names(gate1.stack), pc[c := Idle]);
      gate1.NotifyAll(spurious, leftover);
    }

    method CoLockShared(a: Awaiter, spurious: nat)
      requires Valid() && Free(a) && a.continuation in pc
      requires pc[a.continuation] == Idle || pc[a.continuation] == Woken1(false)
      modifies this, gate1, a
      ensures Valid() && Next(old(Abs()), Action.CoLockShared(a.continuation), Abs())
    {
      if state >= MAX {
        FallAsleep(gate1, a, spurious, AtGate1(false));
      } else {
        state := state + 1;
        pc := pc[a.continuation := Reading];
      }
    }

    method TryLockShared(c: Cid, contended: bool) returns (ok: bool)
      requires Valid() && c in pc && pc[c] == Idle
      modifies this
      ensures Valid() && Next(old(Abs()), Action.TryLockShared(c, contended), Abs())
      ensures ok <==> pc[c] == Reading
    {
      if contended {
        return false;
      }
      ok := state < MAX;
      if ok {
        state := state + 1;
        pc := pc[c := Reading];
      }
    }

    method UnlockShared(c: Cid, spurious: nat, leftover: Awaiter?)
      requires Valid() && c in pc && pc[c] == Reading
      modifies this, gate1, gate2, gate1.stack, gate2.stack
      ensures Valid() && Next(old(Abs()), Action.UnlockShared(c), Abs())
    {
      var prev := state;
      state := Decrement(state);
      pc := pc[c := Idle];
      if WriteEntered(state) {
        if Readers(state) == 0 {
          NotifyOne(gate2, spurious, leftover);
        }
      } else if prev == MAX {
        NotifyOne(gate1, spurious, leftover);
      }
    }

    method NotifyOne(gate: ConditionVariable, spurious: nat, leftover: Awaiter?)
      requires Valid() && (gate == gate1 || gate == gate2)
      modifies this`pc, gate, gate.stack
      ensures Valid()
      ensures var woken := WakeOne(old(ConditionVariable.Names(gate.stack)), old(pc));
              pc == woken.1 && Abs() == if gate == gate1 then old(Abs()).(gate1 := woken.0, pc := pc)
                                        else old(Abs()).(gate2 := woken.0, pc := pc)
    {
      pc := WakeOne(ConditionVariable.Names(gate.stack), pc).1;
      gate.NotifyOne(spurious, leftover);
    }
  }
}
