/** coro::SharedMutex as the interleaving of its lock-protected sections, for any number of coroutines.
    A section runs from taking `mut_` to giving it back, at the end of the call or in the await_suspend of
    a condition variable.  A gate is the stack of the coroutines asleep on it, newest first. */
module SharedMutexProtocol {
  import opened Options
  import opened Sequences

  type Cid = nat

  // ---------------------------------------------------------------- the packed word

  const FLAG: nat := 0x8000_0000        // write_entered_flag
  const MAX: nat := 0x7fff_ffff         // max_readers

  /** The word is below 2 to the 32nd, so its highest bit is set from FLAG on. */
  predicate WriteEntered(w: nat) { FLAG <= w }

  function Readers(w: nat): nat { w % FLAG }

  function SetFlag(w: nat): nat { if FLAG <= w then w else w + FLAG }

  /** `state_--` on an unsigned of 32 bits. */
  function Decrement(w: nat): nat { if w == 0 then 0xffff_ffff else w - 1 }

  lemma FlagSet(w: bv32)
    ensures (w | 0x8000_0000) as int == if w as int >= 0x8000_0000 then w as int else w as int + 0x8000_0000
  {}

  lemma FlagAdded(w: bv32)
    ensures (w + 0x8000_0000) as int ==
              if w as int >= 0x8000_0000 then w as int - 0x8000_0000 else w as int + 0x8000_0000
  {}

  lemma AlreadySet(w: bv32)
    ensures if w & 0x8000_0000 != 0 then w | 0x8000_0000 == w else w | 0x8000_0000 == w + 0x8000_0000
  {}

  lemma FlagBit(w: bv32)
    ensures (w & 0x8000_0000 != 0) <==> w as int >= 0x8000_0000
  {
    FlagSet(w);
    FlagAdded(w);
    AlreadySet(w);
  }

  lemma WithoutFlag(w: bv32)
    ensures (w & 0x7fff_ffff) & 0x8000_0000 == 0
    ensures w & 0x8000_0000 == 0 ==> w & 0x7fff_ffff == w
    ensures w & 0x8000_0000 != 0 ==> (w & 0x7fff_ffff) | 0x8000_0000 == w
  {}

  lemma LowBits(w: bv32, v: bv32)
    requires v == w & 0x7fff_ffff
    ensures v as int == if w as int >= 0x8000_0000 then w as int - 0x8000_0000 else w as int
  {
    FlagBit(w);
    FlagBit(v);
    WithoutFlag(w);
    FlagSet(v);
  }

  lemma Pieces(n: nat)
    requires n < 0x1_0000_0000
    ensures WriteEntered(n) <==> n >= 0x8000_0000
    ensures SetFlag(n) == if n >= 0x8000_0000 then n else n + 0x8000_0000
    ensures Readers(n) == if n >= 0x8000_0000 then n - 0x8000_0000 else n
  {}

  /** What the bit operations of the code do to the number n that a word of 32 bits is. */
  lemma WordOperations(w: bv32, n: nat)
    requires n == w as int && n < 0x1_0000_0000
    ensures (w & 0x8000_0000 != 0) <==> WriteEntered(n)
    ensures (w | 0x8000_0000) as int == SetFlag(n)
    ensures (w & 0x7fff_ffff) as int == Readers(n)
  {
    hide WriteEntered, SetFlag, Readers;
    Pieces(n);
    FlagBit(w);
    FlagSet(w);
    LowBits(w, w & 0x7fff_ffff);
  }

  // ---------------------------------------------------------------- the steps

  datatype Pc =
    | Idle
    | AtGate1(write: bool)    // asleep on gate1_, in coLock or in coLockShared
    | Woken1(write: bool)     // resumed by gate1_, on its way to take mut_ again
    | AtGate2                 // set the flag and sleeps until the readers are gone
    | Woken2
    | Writing
    | Reading

  datatype State = State(word: nat, gate1: seq<Cid>, gate2: seq<Cid>, pc: map<Cid, Pc>)

  datatype Action =
    | CoLock(c: Cid)          // from the start, or after a wake-up at gate1_
    | Recheck(c: Cid)         // coLock after a wake-up at gate2_
    | TryLock(c: Cid, contended: bool)
    | Unlock(c: Cid)
    | CoLockShared(c: Cid)
    | TryLockShared(c: Cid, contended: bool)
    | UnlockShared(c: Cid)

  ghost predicate Init(s: State) {
    s.word == 0 && s.gate1 == [] && s.gate2 == [] && forall c :: c in s.pc ==> s.pc[c] == Idle
  }

  function Wake(p: Pc): Pc {
    match p case AtGate1(w) => Woken1(w) case AtGate2 => Woken2 case _ => p
  }

  /** notifyOne of a condition variable. */
  function WakeOne(gate: seq<Cid>, pc: map<Cid, Pc>): (r: (seq<Cid>, map<Cid, Pc>)) {
    if gate == [] || gate[0] !in pc then (gate, pc) else (gate[1..], pc[gate[0] := Wake(pc[gate[0]])])
  }

  /** notifyAll of a condition variable. */
  function WakeAll(gate: seq<Cid>, pc: map<Cid, Pc>): map<Cid, Pc> {
    map d | d in pc :: if d in gate then Wake(pc[d]) else pc[d]
  }

  ghost predicate CoLockStep(s: State, c: Cid, s': State)
    requires c in s.pc
  {
    && (s.pc[c] == Idle || s.pc[c] == Woken1(true))
    && s' == if WriteEntered(s.word) then s.(gate1 := [c] + s.gate1, pc := s.pc[c := AtGate1(true)])
             else if Readers(SetFlag(s.word)) != 0 then
               s.(word := SetFlag(s.word), gate2 := [c] + s.gate2, pc := s.pc[c := AtGate2])
             else s.(word := SetFlag(s.word), pc := s.pc[c := Writing])
  }

  ghost predicate RecheckStep(s: State, c: Cid, s': State)
    requires c in s.pc
  {
    && s.pc[c] == Woken2
    && s' == if Readers(s.word) != 0 then s.(gate2 := [c] + s.gate2, pc := s.pc[c := AtGate2])
             else s.(pc := s.pc[c := Writing])
  }

  ghost predicate TryLockStep(s: State, c: Cid, contended: bool, s': State)
    requires c in s.pc
  {
    && s.pc[c] == Idle
    && s' == if !contended && s.word == 0 then s.(word := FLAG, pc := s.pc[c := Writing]) else s
  }

  ghost predicate UnlockStep(s: State, c: Cid, s': State)
    requires c in s.pc
  {
    && s.pc[c] == Writing
    && s' == s.(word := 0, gate1 := [], pc := WakeAll(s.gate1, s.pc[c := Idle]))
  }

  ghost predicate CoLockSharedStep(s: State, c: Cid, s': State)
    requires c in s.pc
  {
    && (s.pc[c] == Idle || s.pc[c] == Woken1(false))
    && s' == if s.word >= MAX then s.(gate1 := [c] + s.gate1, pc := s.pc[c := AtGate1(false)])
             else s.(word := s.word + 1, pc := s.pc[c := Reading])
  }

  ghost predicate TryLockSharedStep(s: State, c: Cid, contended: bool, s': State)
    requires c in s.pc
  {
    && s.pc[c] == Idle
    && s' == if !contended && s.word < MAX then s.(word := s.word + 1, pc := s.pc[c := Reading]) else s
  }

  ghost predicate UnlockSharedStep(s: State, c: Cid, s': State)
    requires c in s.pc
  {
    && s.pc[c] == Reading
    && var w, pc := Decrement(s.word), s.pc[c := Idle];
       s' == if WriteEntered(w) then
               if Readers(w) == 0 then
                 var (gate, pc') := WakeOne(s.gate2, pc);
                 s.(word := w, gate2 := gate, pc := pc')
               else s.(word := w, pc := pc)
             else if s.word == MAX then
               var (gate, pc') := WakeOne(s.gate1, pc);
               s.(word := w, gate1 := gate, pc := pc')
             else s.(word := w, pc := pc)
  }

  ghost predicate Next(s: State, a: Action, s': State) {
    a.c in s.pc &&
    match a
    case CoLock(c) => CoLockStep(s, c, s')
    case Recheck(c) => RecheckStep(s, c, s')
    case TryLock(c, contended) => TryLockStep(s, c, contended, s')
    case Unlock(c) => UnlockStep(s, c, s')
    case CoLockShared(c) => CoLockSharedStep(s, c, s')
    case TryLockShared(c, contended) => TryLockSharedStep(s, c, contended, s')
    case UnlockShared(c) => UnlockSharedStep(s, c, s')
  }

  datatype Run = Start(s: State) | Then(run: Run, a: Action, s: State)

  ghost predicate IsRun(r: Run) {
    match r
    case Start(s) => Init(s)
    case Then(run, a, s') => IsRun(run) && Next(run.s, a, s')
  }

  lemma Extend(run: Run, a: Action, s': State) returns (r: Run)
    requires IsRun(run) && Next(run.s, a, s')
    ensures IsRun(r) && r == Then(run, a, s')
  {
    r := Then(run, a, s');
  }

  // ---------------------------------------------------------------- who is where

  /** The coroutine past the first gate of coLock, if any, and the coroutines holding a shared lock. */
  datatype View = View(writer: Option<Cid>, readers: set<Cid>)

  predicate Entered(p: Pc) {
    p == AtGate2 || p == Woken2 || p == Writing
  }

  ghost predicate Parties(pc: map<Cid, Pc>, v: View) {
    && (forall c :: c in pc && Entered(pc[c]) ==> v.writer == Some(c))
    && (v.writer.Some? ==> v.writer.value in pc && Entered(pc[v.writer.value]))
    && (forall c :: c in v.readers <==> c in pc && pc[c] == Reading)
  }

  /** The flag is the writer, the low 31 bits are the number of readers. */
  ghost predicate Packed(word: nat, v: View) {
    |v.readers| <= MAX && word == |v.readers| + if v.writer.Some? then FLAG else 0
  }

  ghost predicate Gate1Ok(gate1: seq<Cid>, pc: map<Cid, Pc>) {
    NoDup(gate1) && forall c :: c in gate1 <==> c in pc && pc[c].AtGate1?
  }

  ghost predicate Gate2Ok(gate2: seq<Cid>, pc: map<Cid, Pc>, v: View)
    requires Parties(pc, v)
  {
    match v.writer
    case None => gate2 == []
    case Some(w) =>
      && gate2 == (if pc[w] == AtGate2 then [w] else [])
      && (pc[w] == AtGate2 <==> v.readers != {})
  }

  ghost predicate Inv(s: State, v: View) {
    Parties(s.pc, v) && Packed(s.word, v) && Gate1Ok(s.gate1, s.pc) && Gate2Ok(s.gate2, s.pc, v)
  }

  // ---------------------------------------------------------------- every step keeps that

  lemma Sleep1Keeps(s: State, c: Cid, write: bool, v: View)
    requires Inv(s, v) && c in s.pc && (s.pc[c] == Idle || s.pc[c].Woken1?)
    ensures Inv(s.(gate1 := [c] + s.gate1, pc := s.pc[c := AtGate1(write)]), v)
  {}

  lemma CoLockKeeps(s: State, c: Cid, s': State, v: View) returns (v': View)
    requires Inv(s, v) && c in s.pc && CoLockStep(s, c, s')
    ensures Inv(s', v')
  {
    if WriteEntered(s.word) {
      v' := v;
      Sleep1Keeps(s, c, true, v);
    } else {
      v' := v.(writer := Some(c));
    }
  }

  lemma TryLockKeeps(s: State, c: Cid, contended: bool, s': State, v: View) returns (v': View)
    requires Inv(s, v) && c in s.pc && TryLockStep(s, c, contended, s')
    ensures Inv(s', v')
  {
    v' := if s' == s then v else v.(writer := Some(c));
  }

  lemma RecheckKeeps(s: State, c: Cid, s': State, v: View)
    requires Inv(s, v) && c in s.pc && RecheckStep(s, c, s')
    ensures Inv(s', v)
  {}

  lemma UnlockKeeps(s: State, c: Cid, s': State, v: View) returns (v': View)
    requires Inv(s, v) && c in s.pc && UnlockStep(s, c, s')
    ensures Inv(s', v')
  {
    v' := v.(writer := None);
  }

  lemma ReadKeeps(s: State, c: Cid, v: View) returns (v': View)
    requires Inv(s, v) && c in s.pc && (s.pc[c] == Idle || s.pc[c].Woken1?) && s.word < MAX
    ensures Inv(s.(word := s.word + 1, pc := s.pc[c := Reading]), v')
  {
    v' := v.(readers := v.readers + {c});
  }

  lemma NotifyKeeps(gate1: seq<Cid>, pc: map<Cid, Pc>)
    requires Gate1Ok(gate1, pc) && gate1 != []
    ensures Gate1Ok(gate1[1..], pc[gate1[0] := Wake(pc[gate1[0]])])
  {
    forall c ensures c in gate1[1..] <==> c in gate1 && c != gate1[0] {}
  }

  lemma UnlockSharedKeeps(s: State, c: Cid, s': State, v: View) returns (v': View)
    requires Inv(s, v) && c in s.pc && UnlockSharedStep(s, c, s')
    ensures Inv(s', v')
  {
    v' := v.(readers := v.readers - {c});
    assert |v'.readers| == |v.readers| - 1;
    if v.writer == None && s.word == MAX && s.gate1 != [] {
      NotifyKeeps(s.gate1, s.pc[c := Idle]);
    }
  }

  lemma StepKeeps(s: State, a: Action, s': State, v: View) returns (v': View)
    requires Inv(s, v) && Next(s, a, s')
    ensures Inv(s', v')
  {
    match a
    case CoLock(c) => v' := CoLockKeeps(s, c, s', v);
    case Recheck(c) => v' := v; RecheckKeeps(s, c, s', v);
    case TryLock(c, contended) => v' := TryLockKeeps(s, c, contended, s', v);
    case Unlock(c) => v' := UnlockKeeps(s, c, s', v);
    case CoLockShared(c) =>
      if s.word >= MAX {
        v' := v;
        Sleep1Keeps(s, c, false, v);
      } else {
        v' := ReadKeeps(s, c, v);
      }
    case TryLockShared(c, contended) =>
      if s' == s {
        v' := v;
      } else {
        v' := ReadKeeps(s, c, v);
      }
    case UnlockShared(c) => v' := UnlockSharedKeeps(s, c, s', v);
  }

  lemma {:induction false} RunInv(r: Run) returns (v: View)
    requires IsRun(r)
    ensures Inv(r.s, v)
  {
    match r
    case Start(_) => v := View(None, {});
    case Then(run, a, s') =>
      var v0 := RunInv(run);
      v := StepKeeps(run.s, a, s', v0);
  }

  // ---------------------------------------------------------------- what it is good for

  ghost function Holders(s: State): set<Cid> {
    set c | c in s.pc && s.pc[c] == Reading
  }

  /** A writer excludes readers and other writers, from any number of coroutines. */
  lemma Exclusion(r: Run, c: Cid, d: Cid)
    requires IsRun(r) && c in r.s.pc && d in r.s.pc && c != d && r.s.pc[c] == Writing
    ensures r.s.pc[d] != Writing && r.s.pc[d] != Reading
  {
    var v := RunInv(r);
    assert d !in v.readers;
  }

  /** The word always says how many readers there are and whether a writer is on its way or in. */
  lemma WordIsExact(r: Run)
    requires IsRun(r)
    ensures Readers(r.s.word) == |Holders(r.s)| <= MAX
    ensures WriteEntered(r.s.word) <==> exists c :: c in r.s.pc && Entered(r.s.pc[c])
    ensures forall c, d :: c in r.s.pc && d in r.s.pc && Entered(r.s.pc[c]) && Entered(r.s.pc[d]) ==> c == d
  {
    var v := RunInv(r);
    CountReaders(r.s, v);
    assert v.writer.Some? ==> Entered(r.s.pc[v.writer.value]);
  }

  lemma CountReaders(s: State, v: View)
    requires Parties(s.pc, v) && Packed(s.word, v)
    ensures Readers(s.word) == |Holders(s)| <= MAX && (WriteEntered(s.word) <==> v.writer.Some?)
  {
    assert Holders(s) == v.readers;
  }

  /** The asserts of unlock and unlockShared. */
  lemma Asserts(r: Run, c: Cid)
    requires IsRun(r) && c in r.s.pc
    ensures r.s.pc[c] == Writing ==> r.s.word == FLAG
    ensures r.s.pc[c] == Reading ==> Readers(r.s.word) > 0
  {
    var v := RunInv(r);
    assert v.readers != {} ==> |v.readers| > 0;
    assert r.s.pc[c] == Reading ==> c in v.readers;
  }

  /** The assert of the destructor: when everybody is done nothing is left. */
  lemma NothingLeft(r: Run)
    requires IsRun(r) && forall c :: c in r.s.pc ==> r.s.pc[c] == Idle
    ensures r.s.word == 0 && r.s.gate1 == r.s.gate2 == []
  {
    assert r.s.gate1 == [] || r.s.gate1[0] in r.s.gate1;
    var v := RunInv(r);
    assert v.readers == {};
  }

  /** While a writer waits for the readers to leave, no reader comes in, and when the writer is woken they
      are gone: it never goes back to sleep. */
  lemma WriterPreference(r: Run, a: Action, s': State, w: Cid)
    requires IsRun(Then(r, a, s')) && w in r.s.pc && Entered(r.s.pc[w])
    ensures Holders(s') <= Holders(r.s)
    ensures a == Recheck(w) ==> s'.pc[w] == Writing
  {
    var v := RunInv(r);
    var v' := StepKeeps(r.s, a, s', v);
  }

  // ---------------------------------------------------------------- nobody sleeps alone

  predicate Asleep(p: Pc) {
    p.AtGate1? || p == AtGate2
  }

  /** Somebody sleeps and nobody is left who would ever wake him. */
  ghost predicate Stranded(s: State) {
    && (exists c :: c in s.pc && Asleep(s.pc[c]))
    && forall c :: c in s.pc ==> s.pc[c] == Idle || Asleep(s.pc[c])
  }

  /** Whoever sleeps at the first gate waits for a writer or for the last of MAX readers. */
  ghost predicate Watched(s: State, v: View) {
    s.gate1 != [] ==> v.writer.Some? || |v.readers| == MAX
  }

  /** Readers and sleepers at the first gate are different coroutines. */
  lemma {:induction false} RoomFor(keys: set<Cid>, readers: set<Cid>, gate: seq<Cid>)
    requires NoDup(gate) && readers <= keys && forall c :: c in gate ==> c in keys && c !in readers
    ensures |readers| + |gate| <= |keys|
    decreases |gate|
  {
    if gate == [] {
      assert |keys| == |readers| + |keys - readers|;
    } else {
      var c := gate[0];
      assert c in gate && forall d :: d in gate[1..] ==> d in gate && d != c;
      RoomFor(keys - {c}, readers, gate[1..]);
    }
  }

  lemma StepKeepsWatch(s: State, a: Action, s': State, v: View, v': View)
    requires Inv(s, v) && Watched(s, v) && Next(s, a, s') && Inv(s', v') && |s.pc| <= MAX + 1
    ensures Watched(s', v')
  {
    if a.UnlockShared? && v.writer == None && s.word == MAX {
      assert v.readers <= s.pc.Keys;
      RoomFor(s.pc.Keys, v.readers, s.gate1);
    }
  }

  lemma StepKeepsKeys(s: State, a: Action, s': State)
    requires Next(s, a, s')
    ensures s'.pc.Keys == s.pc.Keys
  {}

  lemma {:induction false} RunWatched(r: Run) returns (v: View)
    requires IsRun(r) && |r.s.pc| <= MAX + 1
    ensures Inv(r.s, v) && Watched(r.s, v)
  {
    match r
    case Start(_) => v := View(None, {});
    case Then(run, a, s') =>
      StepKeepsKeys(run.s, a, s');
      assert |run.s.pc| == |run.s.pc.Keys| && |s'.pc| == |s'.pc.Keys|;
      var v0 := RunWatched(run);
      v := StepKeeps(run.s, a, s', v0);
      StepKeepsWatch(run.s, a, s', v0, v);
  }

  /** With at most one coroutine more than max_readers, whoever sleeps is waited on: a holder of the lock
      or the woken writer is left to go on and to wake the next. */
  lemma NobodyStranded(r: Run)
    requires IsRun(r) && |r.s.pc| <= MAX + 1
    ensures !Stranded(r.s)
  {
    var v := RunWatched(r);
    if c :| c in r.s.pc && Asleep(r.s.pc[c]) {
      assert r.s.pc[c].AtGate1? ==> c in r.s.gate1;
      if v.readers != {} {
        var d :| d in v.readers;
        assert r.s.pc[d] == Reading;
      } else {
        var w := v.writer.value;
        assert r.s.pc[w] == Writing || r.s.pc[w] == Woken2;
      }
    }
  }

  // ---------------------------------------------------------------- one coroutine more can be stranded

  /** The first k coroutines have come and gone as readers; those up to m read; `sleepers` sleep. */
  function Crowd(n: nat, k: nat, m: nat, sleepers: seq<Cid>): State
    requires k <= m <= n
  {
    State(m - k, sleepers, [],
      map c | 0 <= c < n :: if k <= c < m then Reading else if c in sleepers then AtGate1(false) else Idle)
  }

  lemma {:induction false} Fill(n: nat, m: nat) returns (r: Run)
    requires m <= MAX && m <= n
    ensures IsRun(r) && r.s == Crowd(n, 0, m, [])
  {
    var s := Crowd(n, 0, m, []);
    if m == 0 {
      r := Start(s);
    } else {
      var r0 := Fill(n, m - 1);
      assert s.pc == r0.s.pc[m - 1 := Reading];
      r := Then(r0, CoLockShared(m - 1), s);
    }
  }

  lemma FallAsleep(r0: Run, n: nat) returns (r: Run)
    requires n >= MAX + 2 && IsRun(r0) && r0.s == Crowd(n, 0, MAX, [])
    ensures IsRun(r) && r.s == Crowd(n, 0, MAX, [MAX + 1, MAX])
  {
    var s1, s2 := Crowd(n, 0, MAX, [MAX]), Crowd(n, 0, MAX, [MAX + 1, MAX]);
    assert s1.pc == r0.s.pc[MAX := AtGate1(false)];
    assert s2.pc == s1.pc[MAX + 1 := AtGate1(false)];
    assert s2.gate1 == [MAX + 1] + s1.gate1;
    r := Then(Then(r0, CoLockShared(MAX), s1), CoLockShared(MAX + 1), s2);
  }

  /** Two readers leave before the one coroutine that the first of them woke gets in: there are never
      max_readers again, and the other sleeper is not woken. */
  lemma Barge(r0: Run, n: nat) returns (r: Run)
    requires n >= MAX + 2 && IsRun(r0) && r0.s == Crowd(n, 0, MAX, [MAX + 1, MAX])
    ensures IsRun(r) && r.s == Crowd(n, 2, MAX, [MAX])
  {
    var s0 := r0.s;
    var s1 := State(MAX - 1, [MAX], [], s0.pc[0 := Idle][MAX + 1 := Woken1(false)]);
    var s2 := State(MAX - 2, [MAX], [], s1.pc[1 := Idle]);
    var s3 := State(MAX - 1, [MAX], [], s2.pc[MAX + 1 := Reading]);
    var s4 := Crowd(n, 2, MAX, [MAX]);
    assert s0.gate1[1..] == [MAX];
    assert s4.pc == s3.pc[MAX + 1 := Idle];
    r := Extend(r0, UnlockShared(0), s1);
    r := Extend(r, UnlockShared(1), s2);
    r := Extend(r, CoLockShared(MAX + 1), s3);
    r := Extend(r, UnlockShared(MAX + 1), s4);
  }

  lemma {:induction false} Empty(r0: Run, n: nat, k: nat) returns (r: Run)
    requires 2 <= k <= MAX && n >= MAX + 2 && IsRun(r0) && r0.s == Crowd(n, k, MAX, [MAX])
    ensures IsRun(r) && r.s == Crowd(n, MAX, MAX, [MAX])
    decreases MAX - k
  {
    if k == MAX {
      r := r0;
    } else {
      var s := Crowd(n, k + 1, MAX, [MAX]);
      assert s.pc == r0.s.pc[k := Idle];
      r := Empty(Then(r0, UnlockShared(k), s), n, k + 1);
    }
  }

  ghost predicate CanStrand(n: nat) {
    exists r :: IsRun(r) && r.s.pc.Keys == Below(n) && Stranded(r.s)
  }

  /** The bound is exact: n coroutines can leave one of them asleep with nobody to wake it, until a later
      writer unlocks, if and only if there are at least two more than max_readers. */
  lemma StrandedFrom(n: nat)
    ensures CanStrand(n) <==> n >= MAX + 2
  {
    if r :| IsRun(r) && r.s.pc.Keys == Below(n) && Stranded(r.s) {
      assert |r.s.pc| == |r.s.pc.Keys|;
      if n < MAX + 2 {
        NobodyStranded(r);
      }
    }
    if n >= MAX + 2 {
      var r := Fill(n, MAX);
      r := FallAsleep(r, n);
      r := Barge(r, n);
      r := Empty(r, n, 2);
      assert r.s.pc[MAX] == AtGate1(false);
      assert r.s.pc.Keys == Below(n);
    }
  }
}
