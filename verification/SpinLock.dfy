/** coro::SpinLock as the interleaving of its exchanges, loads and stores: what makes the sections of
    SharedMutexProtocol and SemaphoreProtocol single steps. */
module SpinLock {
  import opened Options

  type Cid = nat

  datatype Pc =
    | Outside
    | Trying(counter: int)      // before the exchange of the outer loop of lock or coLock
    | Spinning(counter: int)    // in the inner loop of loads
    | Yielding                  // the counter is used up
    | Holding

  datatype State = State(locked: bool, pc: map<Cid, Pc>)

  datatype Action = TryLock(c: Cid) | Lock(c: Cid) | Exchange(c: Cid) | Load(c: Cid) | Resume(c: Cid) | Unlock(c: Cid)

  ghost predicate Init(s: State) {
    !s.locked && forall c :: c in s.pc ==> s.pc[c] == Outside
  }

  /** `spin` is `_spinCount`. */
  ghost predicate Next(s: State, a: Action, spin: int, s': State) {
    a.c in s.pc &&
    match a
    case TryLock(c) => s.pc[c] == Outside && s' == State(true, s.pc[c := if s.locked then Outside else Holding])
    case Lock(c) => s.pc[c] == Outside && s' == s.(pc := s.pc[c := Trying(spin)])
    case Exchange(c) =>
      s.pc[c].Trying? && s' == State(true, s.pc[c := if s.locked then Spinning(s.pc[c].counter) else Holding])
    case Load(c) =>
      && s.pc[c].Spinning?
      && var n := s.pc[c].counter;
         s' == s.(pc := s.pc[c := if !s.locked then Trying(n) else if n <= 0 then Yielding else Spinning(n - 1)])
    case Resume(c) => s.pc[c] == Yielding && s' == s.(pc := s.pc[c := Spinning(spin)])
    case Unlock(c) => s.pc[c] == Holding && s' == State(false, s.pc[c := Outside])
  }

  datatype Run = Start(s: State) | Then(run: Run, a: Action, s: State)

  ghost predicate IsRun(r: Run, spin: int) {
    match r
    case Start(s) => Init(s)
    case Then(run, a, s') => IsRun(run, spin) && Next(run.s, a, spin, s')
  }

  ghost predicate HeldBy(s: State, holder: Option<Cid>) {
    && (s.locked <==> holder.Some?)
    && (holder.Some? ==> holder.value in s.pc && s.pc[holder.value] == Holding)
    && forall c :: c in s.pc && s.pc[c] == Holding ==> holder == Some(c)
  }

  lemma {:induction false} RunHolder(r: Run, spin: int) returns (holder: Option<Cid>)
    requires IsRun(r, spin)
    ensures HeldBy(r.s, holder)
  {
    match r
    case Start(_) => holder := None;
    case Then(run, a, s') =>
      var h := RunHolder(run, spin);
      holder := if s'.pc[a.c] == Holding then Some(a.c) else if a.Unlock? then None else h;
  }

  /** At most one holder; locked exactly if there is one, as unlock asserts. */
  lemma Exclusion(r: Run, spin: int)
    requires IsRun(r, spin)
    ensures forall c, d :: c in r.s.pc && d in r.s.pc && r.s.pc[c] == Holding && r.s.pc[d] == Holding ==> c == d
    ensures r.s.locked <==> exists c :: c in r.s.pc && r.s.pc[c] == Holding
  {
    var h := RunHolder(r, spin);
  }
}
