/** coro::Mutex as the interleaving of its atomic steps, for any number of coroutines.

    A coroutine waits through the LockAwaiter in its own frame, so one number names both.
    The heap is `next`, the `_next` field of every awaiter.  Pointers are compared as pointers:
    a stale value that happens to name the current head passes the compare-exchange here too. */
module MutexProtocol {
  import opened Options
  import opened Sequences
  import Q = QueueLock

  type Cid = nat
  type Pointer = Option<Cid>

  /** `_state`: the mutex's own address, or a possibly null pointer to the newest waiter. */
  datatype Word = Unlocked | Waiters(head: Pointer)

  datatype Pc =
    | Idle
    | Loading                                   // tryLock failed in await_ready; lockAsyncImpl starts
    | Trying(seen: Word)                        // in the loop of lockAsyncImpl, with `oldValue`
    | Suspended                                 // queued; await_suspend returned true
    | Holding                                   // owns the lock
    | Releasing                                 // unlock saw no waiters; the compare-exchange is next
    | Draining                                  // unlock saw new waiters; the exchange is next
    | Reversing(waiter: Pointer, done: Pointer) // the loop of unlock, with `waiter` and `waitersHead`

  datatype State = State(word: Word, fifo: Pointer, next: map<Cid, Pointer>, pc: map<Cid, Pc>)

  datatype Action =
    | TryLock(c: Cid, co: bool)     // tryLock itself, or (co) the tryLock inside coLock's await_ready
    | Load(c: Cid)
    | Cas(c: Cid, spurious: bool)   // compare_exchange_weak may fail for no reason
    | Unlock(c: Cid)
    | ReleaseCas(c: Cid)
    | Exchange(c: Cid)
    | ReverseOne(c: Cid)
    | HandOver(c: Cid)

  predicate Owns(p: Pc) {
    p.Holding? || p.Releasing? || p.Draining? || p.Reversing?
  }

  ghost predicate Init(s: State) {
    s.word == Unlocked && s.fifo == None && s.next.Keys == s.pc.Keys &&
    forall c :: c in s.pc ==> s.pc[c] == Idle
  }

  /** `_waiters = waitersHead->_next; waitersHead->_awaitingCoroutine.resume()` */
  ghost predicate Resumes(s: State, c: Cid, head: Pointer, s': State) {
    head != None && head.value in s.pc && head.value in s.next &&
    s' == s.(fifo := s.next[head.value], pc := s.pc[c := Idle][head.value := Holding])
  }

  ghost predicate TryLockStep(s: State, c: Cid, co: bool, s': State)
    requires c in s.pc && c in s.next
  {
    s.pc[c] == Idle &&
    s' == if s.word == Unlocked then s.(word := Waiters(None), pc := s.pc[c := Holding])
          else s.(pc := s.pc[c := if co then Loading else Idle])
  }

  ghost predicate LoadStep(s: State, c: Cid, s': State)
    requires c in s.pc && c in s.next
  {
    s.pc[c] == Loading && s' == s.(pc := s.pc[c := Trying(s.word)])
  }

  ghost predicate CasStep(s: State, c: Cid, spurious: bool, s': State)
    requires c in s.pc && c in s.next
  {
    s.pc[c].Trying? &&
    var seen := s.pc[c].seen;
    var hit := s.word == seen && !spurious;
    if seen == Unlocked then
      s' == if hit then s.(word := Waiters(None), pc := s.pc[c := Holding])
            else s.(pc := s.pc[c := Trying(s.word)])
    else
      s' == if hit then State(Waiters(Some(c)), s.fifo, s.next[c := seen.head], s.pc[c := Suspended])
            else s.(next := s.next[c := seen.head], pc := s.pc[c := Trying(s.word)])
  }

  ghost predicate UnlockStep(s: State, c: Cid, s': State)
    requires c in s.pc && c in s.next
  {
    s.pc[c] == Holding &&
    if s.fifo != None then Resumes(s, c, s.fifo, s')
    else s' == s.(pc := s.pc[c := if s.word == Waiters(None) then Releasing else Draining])
  }

  ghost predicate ReleaseCasStep(s: State, c: Cid, s': State)
    requires c in s.pc && c in s.next
  {
    s.pc[c] == Releasing &&
    s' == if s.word == Waiters(None) then s.(word := Unlocked, pc := s.pc[c := Idle])
          else s.(pc := s.pc[c := Draining])
  }

  ghost predicate ExchangeStep(s: State, c: Cid, s': State)
    requires c in s.pc && c in s.next
  {
    s.pc[c] == Draining && s.word.Waiters? &&
    s' == s.(word := Waiters(None), pc := s.pc[c := Reversing(s.word.head, None)])
  }

  ghost predicate ReverseOneStep(s: State, c: Cid, s': State)
    requires c in s.pc && c in s.next
  {
    s.pc[c].Reversing? &&
    var Reversing(waiter, done) := s.pc[c];
    waiter != None && waiter.value in s.next &&
    s' == s.(next := s.next[waiter.value := done],
             pc := s.pc[c := Reversing(s.next[waiter.value], waiter)])
  }

  ghost predicate HandOverStep(s: State, c: Cid, s': State)
    requires c in s.pc && c in s.next
  {
    s.pc[c].Reversing? && s.pc[c].waiter == None && Resumes(s, c, s.pc[c].done, s')
  }

  ghost predicate Next(s: State, a: Action, s': State) {
    a.c in s.pc && a.c in s.next &&
    match a
    case TryLock(c, co) => TryLockStep(s, c, co, s')
    case Load(c) => LoadStep(s, c, s')
    case Cas(c, spurious) => CasStep(s, c, spurious, s')
    case Unlock(c) => UnlockStep(s, c, s')
    case ReleaseCas(c) => ReleaseCasStep(s, c, s')
    case Exchange(c) => ExchangeStep(s, c, s')
    case ReverseOne(c) => ReverseOneStep(s, c, s')
    case HandOver(c) => HandOverStep(s, c, s')
  }

  /** A run, last step outermost. */
  datatype Run = Start(s: State) | Then(run: Run, a: Action, s: State)

  ghost predicate IsRun(r: Run) {
    match r
    case Start(s) => Init(s)
    case Then(run, a, s') => IsRun(run) && Next(run.s, a, s')
  }

  // ---------------------------------------------------------------- the linked lists

  ghost predicate Chain(next: map<Cid, Pointer>, p: Pointer, xs: seq<Cid>)
    decreases |xs|
  {
    if xs == [] then p == None
    else p == Some(xs[0]) && xs[0] in next && Chain(next, next[xs[0]], xs[1..])
  }

  lemma {:induction false} ChainFrame(next: map<Cid, Pointer>, p: Pointer, xs: seq<Cid>, c: Cid, q: Pointer)
    requires Chain(next, p, xs) && c !in xs
    ensures Chain(next[c := q], p, xs)
    decreases |xs|
  {
    if xs != [] {
      ChainFrame(next, next[xs[0]], xs[1..], c, q);
    }
  }

  // ---------------------------------------------------------------- the abstraction

  /** What a state stands for: the owner, the queue, and the four lists that make up the queue;
      `pushed` and `todo` run from the newest waiter to the oldest, `done` and `fifo` the other way. */
  datatype View = View(owner: Option<Cid>, queue: seq<Cid>,
                       pushed: seq<Cid>, todo: seq<Cid>, done: seq<Cid>, fifo: seq<Cid>)

  ghost function Abs(v: View): Q.Lock<Cid> {
    Q.Lock(v.owner, v.queue)
  }

  ghost predicate Split(v: View) {
    v.queue == v.fifo + Reverse(v.todo) + v.done + Reverse(v.pushed)
  }

  ghost predicate OwnerRep(s: State, v: View) {
    match v.owner
    case None => s.word == Unlocked && v.pushed == v.todo == v.done == v.fifo == []
    case Some(o) =>
      s.word.Waiters? && Chain(s.next, s.word.head, v.pushed) && o in s.pc &&
      match s.pc[o]
      case Holding => v.todo == v.done == []
      case Releasing => v.todo == v.done == v.fifo == []
      case Draining => v.todo == v.done == v.fifo == [] && v.pushed != []
      case Reversing(w, d) =>
        Chain(s.next, w, v.todo) && Chain(s.next, d, v.done) && v.fifo == [] && v.todo + v.done != []
      case _ => false
  }

  ghost predicate Memory(s: State, v: View) {
    && s.next.Keys == s.pc.Keys
    && Chain(s.next, s.fifo, v.fifo)
    && OwnerRep(s, v)
    && (forall c :: c in s.pc && Owns(s.pc[c]) ==> v.owner == Some(c))
  }

  /** `q` lists the suspended coroutines, each once. */
  ghost predicate Asleep(pc: map<Cid, Pc>, q: seq<Cid>) {
    NoDup(q) && forall c :: c in q <==> c in pc && pc[c] == Suspended
  }

  ghost predicate Rep(s: State, v: View) {
    Memory(s, v) && Split(v) && Asleep(s.pc, v.queue)
  }

  /** The event of the queue lock that c performs by moving from p to p'. */
  ghost function EventOf(c: Cid, p: Pc, p': Pc): Q.Event<Cid> {
    if Owns(p) then if Owns(p') then Q.Internal else Q.Release
    else if Owns(p') then Q.Acquire(c)
    else if p' == Suspended then Q.Join(c)
    else Q.Internal
  }

  // ---------------------------------------------------------------- who sleeps

  lemma OthersAsleep(pc: map<Cid, Pc>, c: Cid, p: Pc, q: seq<Cid>)
    requires Asleep(pc, q) && c in pc && pc[c] != Suspended && p != Suspended
    ensures Asleep(pc[c := p], q)
  {}

  lemma FallsAsleep(pc: map<Cid, Pc>, c: Cid, q: seq<Cid>)
    requires Asleep(pc, q) && c in pc && pc[c] != Suspended
    ensures c !in q && Asleep(pc[c := Suspended], q + [c])
  {}

  lemma WakesFirst(pc: map<Cid, Pc>, c: Cid, q: seq<Cid>)
    requires Asleep(pc, q) && q != [] && c in pc && pc[c] != Suspended
    ensures q[0] in pc && pc[q[0]] == Suspended && Asleep(pc[c := Idle][q[0] := Holding], q[1..])
  {
    assert q == [q[0]] + q[1..];
  }

  // ---------------------------------------------------------------- what the lists hold

  lemma Members(v: View, x: Cid)
    requires Split(v)
    ensures x in v.queue <==> x in v.pushed || x in v.todo || x in v.done || x in v.fifo
  {
    ReverseHas(v.todo, x);
    ReverseHas(v.pushed, x);
  }

  lemma WriteOutsideLists(s: State, c: Cid, q: Pointer, v: View)
    requires Memory(s, v) && Split(v) && c !in v.queue && c in s.next
    ensures Memory(s.(next := s.next[c := q]), v)
  {
    Members(v, c);
    var s' := s.(next := s.next[c := q]);
    ChainFrame(s.next, s.fifo, v.fifo, c, q);
    if v.owner != None {
      ChainFrame(s.next, s.word.head, v.pushed, c, q);
      if s.pc[v.owner.value].Reversing? {
        ChainFrame(s.next, s.pc[v.owner.value].waiter, v.todo, c, q);
        ChainFrame(s.next, s.pc[v.owner.value].done, v.done, c, q);
      }
    }
  }

  lemma Push(v: View, c: Cid) returns (v': View)
    requires Split(v)
    ensures v' == v.(pushed := [c] + v.pushed, queue := v.queue + [c]) && Split(v')
  {
    v' := v.(pushed := [c] + v.pushed, queue := v.queue + [c]);
    assert v'.pushed[1..] == v.pushed;
  }

  lemma Pop(v: View, rest: seq<Cid>) returns (v': View)
    requires Split(v) && v.todo == [] && rest == v.fifo + v.done && rest != []
    ensures v.queue != [] && v.queue[0] == rest[0] && Split(v')
    ensures v' == View(Some(rest[0]), v.queue[1..], v.pushed, [], [], rest[1..])
  {
    v' := View(Some(rest[0]), v.queue[1..], v.pushed, [], [], rest[1..]);
    assert v.queue == rest + Reverse(v.pushed);
    FirstLeaves(rest, Reverse(v.pushed));
  }

  lemma Move(v: View) returns (v': View)
    requires Split(v) && v.todo != []
    ensures v' == v.(todo := v.todo[1..], done := [v.todo[0]] + v.done) && Split(v')
  {
    v' := v.(todo := v.todo[1..], done := [v.todo[0]] + v.done);
    Regroup(v.fifo, Reverse(v'.todo), [v.todo[0]], v.done);
  }

  lemma Regroup(a: seq<Cid>, b: seq<Cid>, c: seq<Cid>, d: seq<Cid>)
    ensures a + (b + c) + d == a + b + (c + d)
  {}

  lemma OnlyOnce(before: seq<Cid>, w: Cid, after: seq<Cid>)
    requires NoDup(before + [w] + after)
    ensures w !in before && w !in after
  {
    var all := before + [w] + after;
    assert all[|before|] == w;
    assert forall i :: 0 <= i < |before| ==> all[i] == before[i];
    assert forall i :: 0 <= i < |after| ==> all[|before| + 1 + i] == after[i];
  }

  lemma MovedOnce(v: View)
    requires Split(v) && v.todo != [] && NoDup(v.queue)
    ensures v.todo[0] !in v.todo[1..] && v.todo[0] !in v.done && v.todo[0] !in v.pushed
  {
    var w := v.todo[0];
    var before, after := v.fifo + Reverse(v.todo[1..]), v.done + Reverse(v.pushed);
    assert v.queue == before + [w] + after;
    OnlyOnce(before, w, after);
    ReverseHas(v.todo[1..], w);
    ReverseHas(v.pushed, w);
  }

  // ---------------------------------------------------------------- one step

  ghost predicate Refines(s: State, c: Cid, s': State, v: View, v': View)
    requires c in s.pc
  {
    Rep(s', v') && c in s'.pc && Q.Step(Abs(v), EventOf(c, s.pc[c], s'.pc[c]), Abs(v'))
  }

  lemma EnqueueMemory(t: State, c: Cid, v: View, v': View)
    requires Memory(t, v) && c in t.pc && t.pc[c].Trying? && t.word.Waiters? && t.next[c] == t.word.head
    requires v'.pushed == [c] + v.pushed && v' == v.(pushed := v'.pushed, queue := v'.queue)
    ensures Memory(State(Waiters(Some(c)), t.fifo, t.next, t.pc[c := Suspended]), v')
    ensures v.owner != None
  {
    assert v'.pushed[1..] == v.pushed;
  }

  lemma EnqueueRefines(s: State, c: Cid, s': State, v: View) returns (v': View)
    requires Rep(s, v) && c in s.pc && CasStep(s, c, false, s') && s.pc[c].seen == s.word != Unlocked
    ensures Refines(s, c, s', v, v')
  {
    FallsAsleep(s.pc, c, v.queue);
    WriteOutsideLists(s, c, s.word.head, v);
    v' := Push(v, c);
    EnqueueMemory(s.(next := s.next[c := s.word.head]), c, v, v');
  }

  /** The compare-exchange fails: the awaiter's own `_next` was written, and the word is read again. */
  lemma RetryRefines(s: State, c: Cid, s': State, v: View)
    requires Rep(s, v) && c in s.pc && s.pc[c].Trying? && s.pc[c].seen.Waiters?
    requires s' == s.(next := s.next[c := s.pc[c].seen.head], pc := s.pc[c := Trying(s.word)])
    ensures Refines(s, c, s', v, v)
  {
    FallsAsleep(s.pc, c, v.queue);
    WriteOutsideLists(s, c, s.pc[c].seen.head, v);
    OthersAsleep(s.pc, c, s'.pc[c], v.queue);
  }

  /** Both ways of waking a sleeper: off the private list, or off the freshly reversed batch. */
  lemma ResumeRefines(s: State, c: Cid, head: Pointer, s': State, v: View, rest: seq<Cid>) returns (v': View)
    requires Rep(s, v) && v.owner == Some(c) && Resumes(s, c, head, s') && Owns(s.pc[c])
    requires v.todo == [] && rest == v.fifo + v.done && rest != [] && Chain(s.next, head, rest)
    ensures Refines(s, c, s', v, v')
  {
    v' := Pop(v, rest);
    WakesFirst(s.pc, c, v.queue);
  }

  lemma ReverseOneMemory(s: State, c: Cid, s': State, v: View, v': View)
    requires Memory(s, v) && c in s.pc && v.owner == Some(c) && ReverseOneStep(s, c, s') && v.todo != []
    requires v.todo[0] !in v.todo[1..] && v.todo[0] !in v.done && v.todo[0] !in v.pushed
    requires v' == v.(todo := v.todo[1..], done := [v.todo[0]] + v.done)
    ensures Memory(s', v')
  {
    var w, d := v.todo[0], s.pc[c].done;
    assert v'.done[1..] == v.done;
    ChainFrame(s.next, s.next[w], v.todo[1..], w, d);
    ChainFrame(s.next, d, v.done, w, d);
    ChainFrame(s.next, s.word.head, v.pushed, w, d);
  }

  lemma ReverseOneRefines(s: State, c: Cid, s': State, v: View) returns (v': View)
    requires Rep(s, v) && c in s.pc && ReverseOneStep(s, c, s')
    ensures Refines(s, c, s', v, v')
  {
    v' := Move(v);
    OthersAsleep(s.pc, c, s'.pc[c], v.queue);
    MovedOnce(v);
    ReverseOneMemory(s, c, s', v, v');
  }

  lemma ReleaseRefines(s: State, c: Cid, s': State, v: View) returns (v': View)
    requires Rep(s, v) && c in s.pc && ReleaseCasStep(s, c, s')
    ensures Refines(s, c, s', v, v')
  {
    v' := if s.word == Waiters(None) then v.(owner := None) else v;
    assert v' == v || v.queue == [];
    OthersAsleep(s.pc, c, s'.pc[c], v.queue);
  }

  lemma ExchangeRefines(s: State, c: Cid, s': State, v: View) returns (v': View)
    requires Rep(s, v) && c in s.pc && ExchangeStep(s, c, s')
    ensures Refines(s, c, s', v, v')
  {
    v' := v.(pushed := [], todo := v.pushed);
    OthersAsleep(s.pc, c, s'.pc[c], v.queue);
  }

  lemma UnlockRefines(s: State, c: Cid, s': State, v: View) returns (v': View)
    requires Rep(s, v) && c in s.pc && UnlockStep(s, c, s')
    ensures Refines(s, c, s', v, v')
  {
    if s.fifo != None {
      assert v.fifo + [] == v.fifo;
      v' := ResumeRefines(s, c, s.fifo, s', v, v.fifo);
    } else {
      v' := v;
      OthersAsleep(s.pc, c, s'.pc[c], v.queue);
    }
  }

  lemma TakeFreeRefines(s: State, c: Cid, v: View) returns (v': View)
    requires Rep(s, v) && c in s.pc && s.word == Unlocked && (s.pc[c] == Idle || s.pc[c].Trying?)
    ensures Refines(s, c, s.(word := Waiters(None), pc := s.pc[c := Holding]), v, v')
  {
    v' := v.(owner := Some(c));
    OthersAsleep(s.pc, c, Holding, v.queue);
  }

  lemma LookRefines(s: State, c: Cid, p: Pc, v: View)
    requires Rep(s, v) && c in s.pc && !Owns(s.pc[c]) && s.pc[c] != Suspended
    requires !Owns(p) && p != Suspended
    ensures Refines(s, c, s.(pc := s.pc[c := p]), v, v)
  {
    OthersAsleep(s.pc, c, p, v.queue);
  }

  lemma CasRefines(s: State, c: Cid, spurious: bool, s': State, v: View) returns (v': View)
    requires Rep(s, v) && c in s.pc && CasStep(s, c, spurious, s')
    ensures Refines(s, c, s', v, v')
  {
    if s.word == s.pc[c].seen && !spurious {
      if s.word == Unlocked {
        v' := TakeFreeRefines(s, c, v);
      } else {
        v' := EnqueueRefines(s, c, s', v);
      }
    } else {
      v' := v;
      if s.pc[c].seen == Unlocked {
        LookRefines(s, c, s'.pc[c], v);
      } else {
        RetryRefines(s, c, s', v);
      }
    }
  }

  lemma TryLockRefines(s: State, c: Cid, co: bool, s': State, v: View) returns (v': View)
    requires Rep(s, v) && c in s.pc && TryLockStep(s, c, co, s')
    ensures Refines(s, c, s', v, v')
  {
    if s.word == Unlocked {
      v' := TakeFreeRefines(s, c, v);
    } else {
      v' := v;
      LookRefines(s, c, s'.pc[c], v);
    }
  }

  lemma HandOverRefines(s: State, c: Cid, s': State, v: View) returns (v': View)
    requires Rep(s, v) && c in s.pc && HandOverStep(s, c, s')
    ensures Refines(s, c, s', v, v')
  {
    assert [] + v.done == v.done;
    v' := ResumeRefines(s, c, s.pc[c].done, s', v, v.done);
  }

  /** Each atomic step is one step of the queue lock, or no step at all. */
  lemma StepRefines(s: State, a: Action, s': State, v: View) returns (v': View)
    requires Rep(s, v) && Next(s, a, s')
    ensures Refines(s, a.c, s', v, v')
  {
    match a
    case TryLock(c, co) => v' := TryLockRefines(s, c, co, s', v);
    case Load(c) => v' := v; LookRefines(s, c, s'.pc[c], v);
    case Cas(c, spurious) => v' := CasRefines(s, c, spurious, s', v);
    case Unlock(c) => v' := UnlockRefines(s, c, s', v);
    case ReleaseCas(c) => v' := ReleaseRefines(s, c, s', v);
    case Exchange(c) => v' := ExchangeRefines(s, c, s', v);
    case ReverseOne(c) => v' := ReverseOneRefines(s, c, s', v);
    case HandOver(c) => v' := HandOverRefines(s, c, s', v);
  }

  // ---------------------------------------------------------------- whole runs

  /** What the queue lock sees of a run. */
  ghost function Trace(r: Run): seq<Q.Event<Cid>> {
    match r
    case Start(_) => []
    case Then(run, a, s') =>
      Trace(run) + (if a.c in run.s.pc && a.c in s'.pc then [EventOf(a.c, run.s.pc[a.c], s'.pc[a.c])] else [])
  }

  /** Every run of the protocol is a run of the queue lock. */
  lemma {:induction false} RunRefines(r: Run) returns (v: View)
    requires IsRun(r)
    ensures Rep(r.s, v) && Q.Reaches(Trace(r), Abs(v))
  {
    match r
    case Start(s) => v := View(None, [], [], [], [], []);
    case Then(run, a, s') =>
      var v0 := RunRefines(run);
      v := StepRefines(run.s, a, s', v0);
      var n := |Trace(run)|;
      assert Trace(r)[..n] == Trace(run) && |Trace(r)| == n + 1;
  }

  /** `c` owns the lock although it was asleep: somebody woke it as the new owner. */
  ghost predicate WakesUp(s: State, s': State, c: Cid) {
    c in s.pc && s.pc[c] == Suspended && c in s'.pc && Owns(s'.pc[c])
  }

  ghost function Slept(s: State, c: Cid, s': State): seq<Cid> {
    if c in s.pc && s.pc[c] != Suspended && c in s'.pc && s'.pc[c] == Suspended then [c] else []
  }

  ghost function Woken(s: State, s': State): seq<Cid> {
    if exists c :: WakesUp(s, s', c) then var c :| WakesUp(s, s', c); [c] else []
  }

  /** The coroutines that went to sleep during a run, in order. */
  ghost function Arrivals(r: Run): seq<Cid> {
    match r
    case Start(_) => []
    case Then(run, a, s') => Arrivals(run) + Slept(run.s, a.c, s')
  }

  /** The coroutines that were woken as owners during a run, in order. */
  ghost function Served(r: Run): seq<Cid> {
    match r
    case Start(_) => []
    case Then(run, a, s') => Served(run) + Woken(run.s, s')
  }

  ghost predicate OwnerIs(s: State, owner: Option<Cid>) {
    forall c :: c in s.pc && Owns(s.pc[c]) ==> owner == Some(c)
  }

  lemma OneSleeperMoves(s: State, c: Cid, s': State, l: Q.Lock<Cid>, l': Q.Lock<Cid>)
    requires c in s.pc && s'.pc.Keys == s.pc.Keys
    requires Asleep(s.pc, l.queue) && Asleep(s'.pc, l'.queue) && OwnerIs(s, l.owner) && OwnerIs(s', l'.owner)
    requires l'.owner != None ==> l'.owner.value in s'.pc && Owns(s'.pc[l'.owner.value])
    requires Q.Step(l, EventOf(c, s.pc[c], s'.pc[c]), l')
    ensures l.queue + Slept(s, c, s') == Woken(s, s') + l'.queue
  {
    match EventOf(c, s.pc[c], s'.pc[c])
    case Release =>
      if l.queue == [] {
        assert forall d :: !WakesUp(s, s', d);
      } else {
        assert l.queue[0] in l.queue && WakesUp(s, s', l.queue[0]);
        assert forall d :: WakesUp(s, s', d) ==> d == l.queue[0];
        assert c !in l.queue;
      }
    case Join(_) =>
      forall d ensures !WakesUp(s, s', d) {
        assert d in l.queue ==> d in l'.queue;
      }
    case _ =>
      assert forall d :: !WakesUp(s, s', d);
  }

  lemma HistoryStep(s: State, a: Action, s': State, v: View, v': View)
    requires Rep(s, v) && Next(s, a, s') && Refines(s, a.c, s', v, v')
    ensures v.queue + Slept(s, a.c, s') == Woken(s, s') + v'.queue
  {
    StepKeepsKeys(s, a, s');
    OneSleeperMoves(s, a.c, s', Abs(v), Abs(v'));
  }

  lemma StepKeepsKeys(s: State, a: Action, s': State)
    requires Next(s, a, s') && s.next.Keys == s.pc.Keys
    ensures s'.pc.Keys == s.pc.Keys
  {}

  lemma {:induction false} RunHistory(r: Run) returns (v: View)
    requires IsRun(r)
    ensures Rep(r.s, v) && Arrivals(r) == Served(r) + v.queue
  {
    match r
    case Start(s) => v := View(None, [], [], [], [], []);
    case Then(run, a, s') =>
      var v0 := RunHistory(run);
      v := StepRefines(run.s, a, s', v0);
      HistoryStep(run.s, a, s', v0, v);
      MoveAcross(Served(run), v0.queue, Slept(run.s, a.c, s'), Woken(run.s, s'), v.queue);
  }

  lemma MoveAcross(served: seq<Cid>, q: seq<Cid>, slept: seq<Cid>, woken: seq<Cid>, q': seq<Cid>)
    requires q + slept == woken + q'
    ensures served + q + slept == served + woken + q'
  {
    assert served + q + slept == served + (q + slept);
  }

  /** First come, first served: the sleepers of a run are woken in the order in which they queued,
      each exactly once and as owner, and those not woken yet are exactly the suspended ones. */
  lemma FirstComeFirstServed(r: Run) returns (waiting: seq<Cid>)
    requires IsRun(r)
    ensures Arrivals(r) == Served(r) + waiting
    ensures Asleep(r.s.pc, waiting)
  {
    var v := RunHistory(r);
    waiting := v.queue;
  }

  /** At most one coroutine is past a successful lock and before the end of its unlock; the word says
      "unlocked" only if there is none, and then nobody sleeps, so tryLock never overtakes a sleeper. */
  lemma MutualExclusion(r: Run)
    requires IsRun(r)
    ensures forall c, d :: c in r.s.pc && d in r.s.pc && Owns(r.s.pc[c]) && Owns(r.s.pc[d]) ==> c == d
    ensures r.s.word == Unlocked <==> forall c :: c in r.s.pc ==> !Owns(r.s.pc[c])
    ensures r.s.word == Unlocked ==> forall c :: c in r.s.pc ==> r.s.pc[c] != Suspended
  {
    var v := RunRefines(r);
    if v.owner == None {
      assert v.queue == [];
    }
  }

  /** The asserts of unlock: the word is never "unlocked" while somebody owns the lock, the exchange
      never takes an empty list, and the loop never ends with nobody to resume. */
  lemma UnlockAsserts(r: Run, c: Cid)
    requires IsRun(r) && c in r.s.pc && Owns(r.s.pc[c])
    ensures r.s.word != Unlocked
    ensures r.s.pc[c] == Draining ==> r.s.word.head != None
    ensures r.s.pc[c].Reversing? ==> r.s.pc[c].waiter != None || r.s.pc[c].done != None
  {
    var v := RunRefines(r);
  }

  /** No lost wake-up: while anybody sleeps, an owner exists and can take a step towards waking it. */
  lemma SleepersHaveAnOwner(r: Run, c: Cid)
    requires IsRun(r) && c in r.s.pc && r.s.pc[c] == Suspended
    ensures exists a, s' :: Next(r.s, a, s') && Owns(r.s.pc[a.c])
  {
    var v := RunRefines(r);
    forall x ensures x in v.fifo + v.done ==> x in r.s.pc { Members(v, x); }
    Members(v, c);
    var a, s' := OwnerStep(r.s, v);
  }

  lemma OwnerStep(s: State, v: View) returns (a: Action, s': State)
    requires Memory(s, v) && v.owner != None && (forall x :: x in v.fifo + v.done ==> x in s.pc)
    ensures Next(s, a, s') && Owns(s.pc[a.c])
  {
    var o := v.owner.value;
    var head := s.fifo;
    match s.pc[o] {
    case Holding =>
      a := Unlock(o);
      if head == None {
        return a, s.(pc := s.pc[o := if s.word == Waiters(None) then Releasing else Draining]);
      }
      assert head.value in v.fifo + v.done;
    case Releasing =>
      return ReleaseCas(o), if s.word == Waiters(None) then s.(word := Unlocked, pc := s.pc[o := Idle])
                            else s.(pc := s.pc[o := Draining]);
    case Draining =>
      return Exchange(o), s.(word := Waiters(None), pc := s.pc[o := Reversing(s.word.head, None)]);
    case Reversing(w, d) =>
      if w != None {
        return ReverseOne(o), s.(next := s.next[w.value := d], pc := s.pc[o := Reversing(s.next[w.value], w)]);
      }
      a, head := HandOver(o), d;
      assert head.value in v.fifo + v.done;
    }
    s' := s.(fifo := s.next[head.value], pc := s.pc[o := Idle][head.value := Holding]);
  }
}
