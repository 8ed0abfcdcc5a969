/** What FutureState promises, in every run. */
module FutureStateTheorems {
  import opened Options
  import opened FutureState
  import opened FutureStateInvariant
  import opened FutureStateProofs

  // ---------------------------------------------------------------- what the class promises

  /** The rendezvous: no transfer error, at most one call of the continuation, with the stored result and
      only when both sides have arrived, and one destruction, after the call. */
  lemma OneCall(r: Run)
    requires IsRun(r) && AtMost(r, 256)
    ensures !r.s.error
    ensures |r.s.runs| <= 1 && (r.s.runs != [] ==> r.s.st == DONE && r.s.value != None && r.s.runs == [r.s.value])
    ensures r.s.destroys <= 1 && (r.s.destroys == 1 ==> r.s.cont == Destroyed && |r.s.runs| == 1)
    ensures r.s.runs == [] && r.s.sched != NotYet && r.s.task.phase == NotGiven ==> r.s.cont == Built
  {
    var w := RunInv(r);
    CallsOnce(r.s, w);
  }

  lemma CallsOnce(s: State, w: Roles)
    requires Meeting(s, w) && Calls(s)
    ensures |s.runs| <= 1 && (s.runs != [] ==> s.st == DONE && s.value != None && s.runs == [s.value])
    ensures s.destroys <= 1 && (s.destroys == 1 ==> s.cont == Destroyed && |s.runs| == 1)
    ensures s.runs == [] && s.sched != NotYet && s.task.phase == NotGiven ==> s.cont == Built
  {}

  /** A visible result never changes again. */
  lemma ResultIsFinal(r: Run, a: Action, s': State)
    requires IsRun(r) && Next(r.s, a, s') && AtMost(r, 256) && HasResult(r.s.st)
    ensures HasResult(s'.st) && s'.value == r.s.value
  {
    var w := RunInv(r);
    ResultStays(r.s, a, s', w);
  }

  lemma NobodySets(s: State, w: Roles, p: Id)
    requires Cast(s, w) && Meeting(s, w) && HasResult(s.st) && p in s.promises && InSetResult(s.promises[p].pc)
    ensures s.promises[p].pc.SetScheduling?
  {}

  lemma NobodyStores(s: State, p: Id, s': State, w: Roles)
    requires Cast(s, w) && Meeting(s, w) && HasResult(s.st) && p in s.promises
    ensures !SetStepNext(s, p, s')
  {
    if InSetResult(s.promises[p].pc) {
      NobodySets(s, w, p);
    }
  }

  lemma ResultStays(s: State, a: Action, s': State, w: Roles)
    requires Cast(s, w) && Meeting(s, w) && Next(s, a, s') && HasResult(s.st)
    ensures HasResult(s'.st) && s'.value == s.value
  {
    hide Cast, Meeting, SetStepNext, ContStepNext, ScheduleStepNext;
    if a.SetStep? {
      NobodyStores(s, a.p, s', w);
    } else if a.ContStep? {
      ContKeepsResult(s, a.f, s');
    } else if a.ScheduleStep? {
      ScheduleKeepsResult(s, a.inExecutor, a.accepted, s');
    }
  }

  lemma ContKeepsResult(s: State, f: Id, s': State)
    requires f in s.futures && ContStepNext(s, f, s') && HasResult(s.st)
    ensures HasResult(s'.st) && s'.value == s.value
  {}

  lemma ScheduleKeepsResult(s: State, x: bool, y: bool, s': State)
    requires ScheduleStepNext(s, x, y, s')
    ensures s'.st == s.st && s'.value == s.value
  {
    if s.sched != Guard2 {
      ScheduleLeavesHandles(s, x, y, s');
    }
  }

  /** The state goes when the last handle does, and not before. */
  lemma FreedWithTheLast(r: Run)
    requires IsRun(r) && AtMost(r, 256)
    ensures r.s.freed <==> Handles(r.s) == 0
  {
    var w := RunInv(r);
  }

  /** Nothing touches the state once it is freed; in particular it is freed once. */
  lemma NoUseAfterFree(r: Run, a: Action, s': State)
    requires IsRun(r) && AtMost(r, 256) && r.s.freed
    ensures !Next(r.s, a, s')
  {
    var w := RunInv(r);
    assert r.s.promises == map[] && r.s.futures == map[];
  }

  /** When the state is freed, a result was stored; it is "broken promise" exactly if a promise broke,
      which happens at most once; and a continuation, if there was one, has been called with that result
      and destroyed, whether in place, by the executor, or after the executor refused it. */
  lemma FreedIsSettled(r: Run)
    requires IsRun(r) && AtMost(r, 256) && r.s.freed
    ensures HasResult(r.s.st) && r.s.value != None
    ensures r.s.breaks == if r.s.value == Some(Broken) then 1 else 0
    ensures HasContinuation(r.s.st) ==> r.s.runs == [r.s.value] && r.s.cont == Destroyed && r.s.destroys == 1
  {
    var w := RunInv(r);
    assert r.s.promises == map[] && r.s.futures == map[];
  }

  /** A broken promise is stored only after the last handle was given up with no setValue under way. */
  lemma BreaksOnlyWhenAbandoned(r: Run)
    requires IsRun(r) && AtMost(r, 256) && r.s.value == Some(Broken)
    ensures r.s.promiseRef == 0 && forall p :: p in r.s.promises ==> !Holds(r.s.promises[p].pc)
  {
    var w := RunInv(r);
    forall p | p in r.s.promises ensures !Holds(r.s.promises[p].pc) {
      if Holds(r.s.promises[p].pc) {
        HolderCounts(r.s, p);
      }
    }
  }

  // ---------------------------------------------------------------- what the guard of scheduleContinuation is for

  lemma Extend(run: Run, a: Action, s': State) returns (r: Run)
    requires IsRun(run) && Next(run.s, a, s')
    ensures IsRun(r) && r.s == s'
  {
    r := Then(run, a, s');
  }

  const START_STATE := State(START, 1, 0, 1, None, Unbuilt, false, false, map[0 := Promise(Live, false)], map[],
                             NotYet, Task(NotGiven, 0, 0, 0), false, false, [], 0, 0)

  /** The same with a future, in the course of setValue(7). */
  function Fulfilling(st: St, pc: PromisePc): State {
    START_STATE.(st := st, attached := 2, value := Some(Value(7)), promises := map[0 := Promise(pc, true)],
                 futures := map[0 := Idle])
  }

  lemma Fulfil() returns (r: Run)
    ensures IsRun(r) && r.s == Fulfilling(START, SetCasStart(false))
  {
    var s := START_STATE.(attached := 2, promises := map[0 := Promise(Live, true)], futures := map[0 := Idle]);
    r := Extend(Start(START_STATE), GetFuture(0, 0), s);
    r := Extend(r, SetValue(0, Value(7)), Fulfilling(START, SetLoad(false)));
    r := Extend(r, SetStep(0), Fulfilling(START, SetCasStart(false)));
  }

  lemma Fulfilled() returns (r: Run)
    ensures IsRun(r) && r.s == Fulfilling(ONLY_RESULT, Live)
  {
    r := Fulfil();
    r := Extend(r, SetStep(0), Fulfilling(ONLY_RESULT, Live));
  }

  lemma GiveUpPromise() returns (r: Run)
    ensures IsRun(r) && r.s == Fulfilling(ONLY_RESULT, Dropping(true)).(promiseRef := 0)
  {
    r := Fulfilled();
    var s := Fulfilling(ONLY_RESULT, Dropping(true)).(promiseRef := 0);
    assert DropPromiseStep(r.s, 0, s);
    hide DropPromiseStep;
    r := Extend(r, DropPromise(0), s);
  }

  lemma LeavePromise() returns (r: Run)
    ensures IsRun(r) && r.s == Fulfilling(ONLY_RESULT, Detaching).(promiseRef := 0)
  {
    r := GiveUpPromise();
    var s := Fulfilling(ONLY_RESULT, Detaching).(promiseRef := 0);
    assert DropStepNext(r.s, 0, s);
    hide DropStepNext;
    r := Extend(r, DropStep(0), s);
  }

  /** A future whose promise is gone, in the course of setContinuation. */
  function Attached(st: St, pc: FuturePc, sched: Sched): State {
    START_STATE.(st := st, promiseRef := 0, value := Some(Value(7)), cont := Built, promises := map[],
                 futures := map[0 := pc], sched := sched)
  }

  lemma SetContinuationLate() returns (r: Run)
    ensures IsRun(r) && r.s == Attached(ONLY_RESULT, ContLoad, NotYet)
  {
    r := LeavePromise();
    assert r.s.promises - {0} == map[];
    r := Extend(r, DropStep(0), Attached(ONLY_RESULT, Idle, NotYet).(cont := Unbuilt));
    r := Extend(r, SetContinuation(0), Attached(ONLY_RESULT, ContLoad, NotYet));
  }

  lemma EnterSchedule() returns (r: Run)
    ensures IsRun(r) && r.s == Attached(DONE, ContScheduling, Place1)
  {
    r := SetContinuationLate();
    r := Extend(r, ContStep(0), Attached(ONLY_RESULT, ContCasResult(ONLY_RESULT), NotYet));
    r := Extend(r, ContStep(0), Attached(DONE, ContScheduling, Entered(true)));
    r := Extend(r, ScheduleStep(false, false), Attached(DONE, ContScheduling, Place1));
  }

  lemma TakeGuard() returns (r: Run)
    ensures IsRun(r) && r.s == Attached(DONE, ContScheduling, Place3).(attached := 2, contRef := 1)
  {
    r := EnterSchedule();
    r := Extend(r, ScheduleStep(false, false), Attached(DONE, ContScheduling, Place2).(attached := 2));
    r := Extend(r, ScheduleStep(false, false), Attached(DONE, ContScheduling, Place3).(attached := 2, contRef := 1));
  }

  lemma CallInPlace() returns (r: Run)
    ensures IsRun(r)
    ensures r.s == Attached(DONE, ContScheduling, Guard1).(attached := 2, contRef := 1, runs := [Some(Value(7))])
  {
    r := TakeGuard();
    r := Extend(r, ScheduleStep(false, false),
                Attached(DONE, ContScheduling, Guard1).(attached := 2, contRef := 1, runs := [Some(Value(7))]));
  }

  lemma DropInCall(s: State, s': State)
    requires s.futures.Keys == {0} && s.futures[0] == ContScheduling && s.runs != [] && s.attached == 2
    requires s' == s.(attached := 1, futures := map[])
    ensures DropFutureStep(s, 0, s')
  {
    assert s.futures - {0} == map[];
  }

  /** The continuation may drop the future whose setContinuation is calling it: then the guard is the only
      handle left, and the state is still there for the way back. */
  lemma OnlyTheGuard() returns (r: Run)
    ensures IsRun(r) && !r.s.freed && r.s.promises == map[] && r.s.futures == map[] && Handles(r.s) == 1
    ensures r.s.sched == Guard1 && r.s.runs == [Some(Value(7))]
  {
    var r0 := CallInPlace();
    var s := r0.s.(attached := 1, futures := map[]);
    DropInCall(r0.s, s);
    hide DropFutureStep;
    r := Extend(r0, DropFuture(0), s);
  }

  // ---------------------------------------------------------------- the limit of the counter

  /** `_attached` is the number of live handles, at every time. */
  ghost predicate CountsRight(r: Run) {
    r.s.attached == Handles(r.s) && (r.Then? ==> CountsRight(r.run))
  }

  lemma ResumeKeepsByte(s: State, s': State)
    requires Resumes(s, s')
    ensures s'.attached == s.attached
  {}

  lemma ScheduleKeepsByte(s: State, x: bool, y: bool, s': State)
    requires ScheduleStepNext(s, x, y, s') && s.attached <= 255
    ensures s'.attached <= 255
  {
    if s.sched == Guard2 {
      ResumeKeepsByte(DetachOne(s).(sched := Over), s');
    }
  }

  lemma ContKeepsByte(s: State, f: Id, s': State)
    requires f in s.futures && ContStepNext(s, f, s')
    ensures s'.attached == s.attached
  {}

  lemma SetKeepsByte(s: State, p: Id, s': State)
    requires p in s.promises && SetStepNext(s, p, s')
    ensures s'.attached == s.attached
  {}

  lemma StepKeepsByte(s: State, a: Action, s': State)
    requires Next(s, a, s') && s.attached <= 255
    ensures s'.attached <= 255
  {
    hide ScheduleStepNext, ContStepNext, SetStepNext, SetterIdle, ConsumerIdle;
    if a.ScheduleStep? {
      ScheduleKeepsByte(s, a.inExecutor, a.accepted, s');
    } else if a.ContStep? {
      ContKeepsByte(s, a.f, s');
    } else if a.SetStep? {
      SetKeepsByte(s, a.p, s');
    }
  }

  lemma {:induction false} ByteRange(r: Run)
    requires IsRun(r)
    ensures r.s.attached <= 255
  {
    if r.Then? {
      ByteRange(r.run);
      StepKeepsByte(r.run.s, r.a, r.s);
    }
  }

  lemma {:induction false} AtMostMore(r: Run, m: nat, n: nat)
    requires AtMost(r, m) && m <= n
    ensures AtMost(r, n)
  {
    if r.Then? {
      AtMostMore(r.run, m, n);
    }
  }

  /** The counter is right throughout a run if and only if there are never more than 255 live handles. */
  lemma {:induction false} CountsHandles(r: Run)
    requires IsRun(r)
    ensures CountsRight(r) <==> AtMost(r, 255)
  {
    if r.Then? {
      CountsHandles(r.run);
    }
    ByteRange(r);
    if AtMost(r, 255) {
      AtMostMore(r, 255, 256);
      var w := RunInv(r);
    }
  }

  ghost function LivePromises(n: nat): (m: map<Id, Promise>)
    ensures forall i: Id :: i in m <==> i <= n
    ensures m[0] == Promise(Live, false) && |m| == n + 1
  {
    if n == 0 then map[0 := Promise(Live, false)] else LivePromises(n - 1)[n := Promise(Live, false)]
  }

  ghost function Crowd(n: nat): State {
    State(START, (1 + n) % 256, 0, 1 + n, None, Unbuilt, false, false, LivePromises(n), map[],
          NotYet, Task(NotGiven, 0, 0, 0), false, false, [], 0, 0)
  }

  /** n + 1 promise handles, one copied after the other. */
  ghost predicate IsCrowd(r: Run, n: nat) {
    IsRun(r) && AtMost(r, n + 1) && r.s == Crowd(n)
  }

  lemma {:induction false} LiveOnly(n: nat)
    ensures forall i :: i in LivePromises(n) ==> LivePromises(n)[i] == Promise(Live, false)
  {
    if n > 0 {
      LiveOnly(n - 1);
    }
  }

  lemma CopyOne(n: nat, q: Id, s1: State)
    requires q == n + 1 && s1 == Move(Crowd(n).(promiseRef := n + 2), 0, Copying(q))
    ensures Next(Crowd(n), CopyPromise(0, q), s1) && Handles(s1) == n + 1
  {
    LiveOnly(n);
  }

  lemma Wraps(n: nat)
    ensures Increment((1 + n) % 256) == (2 + n) % 256
  {}

  lemma Attaches(n: nat, s1: State)
    requires s1 == Move(Crowd(n).(promiseRef := n + 2), 0, Copying(n + 1))
    ensures CopyAttachStep(s1, 0, Crowd(n + 1))
  {
    Wraps(n);
    var m := LivePromises(n);
    assert s1.promises == m[0 := Promise(Copying(n + 1), false)];
    assert s1.promises[0 := Promise(Live, false)] == m;
    assert LivePromises(n + 1) == m[n + 1 := Promise(Live, false)];
    hide LivePromises, Increment;
  }

  lemma Arrives(n: nat, s1: State)
    requires s1 == Move(Crowd(n).(promiseRef := n + 2), 0, Copying(n + 1))
    ensures Next(s1, CopyAttach(0), Crowd(n + 1)) && Handles(Crowd(n + 1)) == n + 2
  {
    Attaches(n, s1);
    hide CopyAttachStep;
  }

  lemma ExtendAtMost(run: Run, a: Action, s': State, n: nat) returns (r: Run)
    requires IsRun(run) && Next(run.s, a, s') && AtMost(run, n) && Handles(s') <= n
    ensures IsRun(r) && AtMost(r, n) && r.s == s'
  {
    r := Then(run, a, s');
  }

  lemma OneMorePromise(n: nat, r: Run) returns (r': Run)
    requires IsCrowd(r, n)
    ensures IsCrowd(r', n + 1)
  {
    var s1 := Move(Crowd(n).(promiseRef := n + 2), 0, Copying(n + 1));
    CopyOne(n, n + 1, s1);
    Arrives(n, s1);
    AtMostMore(r, n + 1, n + 2);
    hide Handles, Next, IsRun, AtMost, Crowd;
    r' := ExtendAtMost(r, CopyPromise(0, n + 1), s1, n + 2);
    r' := ExtendAtMost(r', CopyAttach(0), Crowd(n + 1), n + 2);
  }

  lemma {:induction false} CopyMany(n: nat) returns (r: Run)
    ensures IsCrowd(r, n)
  {
    if n == 0 {
      r := Start(Crowd(0));
    } else {
      r := CopyMany(n - 1);
      r := OneMorePromise(n - 1, r);
    }
  }

  /** Where a promise handle of a crowd goes: detachPromise up to the fetch_sub of detachOne. */
  lemma AboutToDetach(n: nat) returns (r: Run)
    requires n > 0
    ensures IsRun(r) && AtMost(r, n + 1) && r.s == Move(Crowd(n).(promiseRef := n), 0, Detaching)
  {
    r := CopyMany(n);
    var s0 := Crowd(n);
    var s1 := Move(s0.(promiseRef := n), 0, Dropping(false));
    var s2 := Move(s1, 0, Detaching);
    assert s1.promises.Keys == s2.promises.Keys == s0.promises.Keys;
    assert |s0.promises| == n + 1 && |s1.promises| == |s1.promises.Keys| && |s2.promises| == |s2.promises.Keys|;
    assert DropPromiseStep(s0, 0, s1);
    r := Then(r, DropPromise(0), s1);
    assert DropStepNext(s1, 0, s2);
    assert s2.promises == s0.promises[0 := s0.promises[0].(pc := Detaching)];
    r := Then(r, DropStep(0), s2);
  }

  lemma DetachFirst(n: nat) returns (r: Run)
    requires n > 0
    ensures IsRun(r) && AtMost(r, n + 1) && Handles(r.s) == n && (r.s.freed <==> (1 + n) % 256 == 1)
  {
    var r0 := AboutToDetach(n);
    var s := DetachOne(r0.s).(promises := r0.s.promises - {0});
    OneLess(r0.s.promises, 0);
    assert |r0.s.promises| == |r0.s.promises.Keys| == |LivePromises(n).Keys| by {
      assert r0.s.promises.Keys == LivePromises(n).Keys;
    }
    assert DropStepNext(r0.s, 0, s);
    r := Then(r0, DropStep(0), s);
  }

  /** A run with at most n live handles that frees the state while some are left. */
  ghost predicate CanFreeEarly(n: nat) {
    exists r :: IsRun(r) && AtMost(r, n) && r.s.freed && Handles(r.s) > 0
  }

  /** The state is safe with 256 live handles and not with 257. */
  lemma FreesEarlyFrom(n: nat)
    ensures CanFreeEarly(n) <==> n >= 257
  {
    if n >= 257 {
      var r := DetachFirst(256);
      AtMostMore(r, 257, n);
    } else if r :| IsRun(r) && AtMost(r, n) && r.s.freed && Handles(r.s) > 0 {
      AtMostMore(r, n, 256);
      FreedWithTheLast(r);
    }
  }

  /** The steps that are a call of detachOne, with its `assert(old >= 1u)`. */
  ghost predicate Detaches(s: State, a: Action) {
    match a
    case DropStep(p) => p in s.promises && s.promises[p].pc == Detaching
    case DropFuture(_) => true
    case ScheduleStep(_, _) => s.sched == Reject2 || s.sched == Guard2
    case TaskDropDetach => true
    case _ => false
  }

  lemma DetachHasHandle(s: State, a: Action, s': State)
    requires Next(s, a, s') && Detaches(s, a)
    ensures Handles(s) > 0
  {
    if a.DropStep? {
      assert a.p in s.promises.Keys;
    } else if a.DropFuture? {
      assert a.f in s.futures.Keys;
    }
  }

  /** A run with at most n live handles that goes on to fail the assert. */
  ghost predicate CanFailAssert(n: nat) {
    exists r, a, s' :: IsRun(r) && AtMost(r, n) && Next(r.s, a, s') && Detaches(r.s, a) && r.s.attached == 0
  }

  /** At exactly 256 the counter is zero: the next handle to go fails the assert; where asserts are off the
      counter goes on to 255 and is right again, which is why 256 handles are still safe. */
  lemma AssertFailsFrom(n: nat)
    ensures CanFailAssert(n) <==> n >= 256
  {
    if n >= 256 {
      var r := AboutToDetach(255);
      AtMostMore(r, 256, n);
      var s := DetachOne(r.s).(promises := r.s.promises - {0});
      assert Next(r.s, DropStep(0), s) && Detaches(r.s, DropStep(0));
    } else if r, a, s' :|
        IsRun(r) && AtMost(r, n) && Next(r.s, a, s') && Detaches(r.s, a) && r.s.attached == 0 {
      AtMostMore(r, n, 255);
      CountsHandles(r);
      DetachHasHandle(r.s, a, s');
    }
  }
}
