/** Every step of FutureState keeps its invariant, with up to 256 live handles. */
module FutureStateProofs {
  import opened Options
  import opened FutureState
  import opened FutureStateInvariant

  // ---------------------------------------------------------------- every step keeps it: promise handles

  lemma HolderCounts(s: State, p: Id)
    requires Counts(s) && p in s.promises && Holds(s.promises[p].pc)
    ensures s.promiseRef > 0
  {
    assert p in Holders(s.promises);
  }

  /** The roles after the promise handle p has gone on to pc. */
  function Recast(w: Roles, p: Id, pc: PromisePc): Roles {
    w.(setter := if InSetResult(pc) then Some(p) else if w.setter == Some(p) then None else w.setter,
       last := if Last(pc) then Some(p) else if w.last == Some(p) then None else w.last)
  }

  lemma MovedCast(s: State, p: Id, x: Promise, s': State, w: Roles)
    requires Cast(s, w) && s'.promises == s.promises[p := x] && s'.futures == s.futures
    requires InSetResult(x.pc) ==> w.setter == None || w.setter == Some(p)
    requires Last(x.pc) ==> w.last == None || w.last == Some(p)
    ensures Cast(s', Recast(w, p, x.pc))
  {
    hide InSetResult, Last;
  }

  lemma RolesOf(s: State, w: Roles, p: Id)
    requires Cast(s, w) && p in s.promises
    ensures InSetResult(s.promises[p].pc) <==> w.setter == Some(p)
    ensures Last(s.promises[p].pc) <==> w.last == Some(p)
  {}

  lemma CopyFlow(s: State, p: Id, q: Id, s': State, w: Roles)
    requires Inv(s, w) && p in s.promises && CopyPromiseStep(s, p, q, s')
    ensures Flow(s', w)
  {
    HolderCounts(s, p);
    RolesOf(s, w, p);
    MovedCast(s, p, s'.promises[p], s', w);
    hide Cast, Counts;
  }

  lemma GetFutureFlow(s: State, p: Id, f: Id, s': State, w: Roles)
    requires Inv(s, w) && p in s.promises && GetFutureStep(s, p, f, s')
    ensures Flow(s', w)
  {
    RolesOf(s, w, p);
    var t := s.(promises := s.promises[p := s'.promises[p]]);
    MovedCast(s, p, s'.promises[p], t, w);
    NewFutureCast(t, f, s', w);
    hide Cast, Counts;
  }

  lemma NewFutureCast(s: State, f: Id, s': State, w: Roles)
    requires Cast(s, w) && f !in s.futures && s'.promises == s.promises && s'.futures == s.futures[f := Idle]
    ensures Cast(s', w)
  {}

  lemma CopyAttachCast(s: State, p: Id, s': State, w: Roles)
    requires Cast(s, w) && p in s.promises && CopyAttachStep(s, p, s')
    ensures Cast(s', w) && w.setter != Some(p)
  {
    var q := s.promises[p].pc.copy;
    RolesOf(s, w, p);
    assert w.setter != Some(q) && w.last != Some(q);
    hide Cast;
    var t := Move(s, p, Live);
    MovedCast(s, p, t.promises[p], t, w);
    MovedCast(t, q, s'.promises[q], s', w);
  }

  lemma CopyAttachFlow(s: State, p: Id, s': State, w: Roles)
    requires Inv(s, w) && p in s.promises && CopyAttachStep(s, p, s')
    ensures Flow(s', w)
  {
    HolderCounts(s, p);
    CopyAttachCast(s, p, s', w);
    assert w.setter != None ==> w.setter.value in s.promises;
    hide Cast, Counts;
  }

  lemma SetValueFlow(s: State, p: Id, v: Try, s': State, w: Roles) returns (w': Roles)
    requires Inv(s, w) && p in s.promises && SetValueStep(s, p, v, s')
    ensures Flow(s', w')
  {
    HolderCounts(s, p);
    w' := if HasResult(s.st) then w else w.(setter := Some(p));
  }

  lemma SetLoadFlow(s: State, p: Id, s': State, w: Roles)
    requires Flow(s, w) && p in s.promises && SetStepNext(s, p, s') && s.promises[p].pc.SetLoad?
    ensures Flow(s', w)
  {
    if s.st == START {
      assert s' == Move(s, p, SetCasStart(s.promises[p].pc.dying));
    } else {
      assert s' == Move(s, p, SetCasContinuation(s.promises[p].pc.dying, ONLY_CONTINUATION));
    }
  }

  lemma StoreResultFlow(s: State, p: Id, dying: bool, s': State, w: Roles)
    requires Inv(s, w) && p in s.promises && s.promises[p].pc == SetCasStart(dying) && s.st == START
    requires s' == Move(s.(st := ONLY_RESULT), p, if dying then Detaching else Live)
    ensures Flow(s', Recast(w, p, s'.promises[p].pc))
  {
    RolesOf(s, w, p);
    MovedCast(s, p, s'.promises[p], s', w);
    hide Cast, Counts;
  }

  lemma FoundContinuationFlow(s: State, p: Id, dying: bool, s': State, w: Roles)
    requires Inv(s, w) && p in s.promises && s.promises[p].pc == SetCasStart(dying) && s.st != START
    requires s' == Move(s, p, SetCasContinuation(dying, s.st))
    ensures Flow(s', Recast(w, p, s'.promises[p].pc))
  {
    RolesOf(s, w, p);
    MovedCast(s, p, s'.promises[p], s', w);
    hide Cast, Counts;
  }

  lemma SetCasStartFlow(s: State, p: Id, s': State, w: Roles) returns (w': Roles)
    requires Inv(s, w) && p in s.promises && SetStepNext(s, p, s') && s.promises[p].pc.SetCasStart?
    ensures Flow(s', w')
  {
    hide Inv, Flow;
    w' := Recast(w, p, s'.promises[p].pc);
    if s.st == START {
      StoreResultFlow(s, p, s.promises[p].pc.dying, s', w);
    } else {
      FoundContinuationFlow(s, p, s.promises[p].pc.dying, s', w);
    }
  }

  lemma SetCasContinuationFlow(s: State, p: Id, s': State, w: Roles)
    requires Inv(s, w) && p in s.promises && SetStepNext(s, p, s') && s.promises[p].pc.SetCasContinuation?
    ensures Flow(s', w)
  {
    RolesOf(s, w, p);
    assert s.st == ONLY_CONTINUATION;
    MovedCast(s, p, s'.promises[p], s', w);
    hide Cast, Counts;
  }

  lemma DropPromiseFlow(s: State, p: Id, s': State, w: Roles) returns (w': Roles)
    requires Inv(s, w) && p in s.promises && DropPromiseStep(s, p, s')
    ensures Flow(s', w')
  {
    RolesOf(s, w, p);
    w' := Recast(w, p, Dropping(s.promiseRef == 1));
    MovedCast(s, p, s'.promises[p], s', w);
    hide Cast, Counts;
  }

  /** The broken promise is stored only when nobody is inside setResult. */
  lemma BreakFlow(s: State, p: Id, s': State, w: Roles) returns (w': Roles)
    requires Inv(s, w) && p in s.promises && s.promises[p].pc == Dropping(true) && !HasResult(s.st)
    requires s' == Move(s.(value := Some(Broken), breaks := s.breaks + 1), p, SetLoad(true))
    ensures Flow(s', w')
  {
    if w.setter != None {
      var q := w.setter.value;
      assert !Last(s.promises[q].pc);
      HolderCounts(s, q);
    }
    w' := w.(setter := Some(p));
  }

  lemma NoBreakFlow(s: State, p: Id, last: bool, s': State, w: Roles) returns (w': Roles)
    requires Inv(s, w) && p in s.promises && s.promises[p].pc == Dropping(last) && (HasResult(s.st) || !last)
    requires s' == Move(s, p, Detaching)
    ensures Flow(s', w')
  {
    RolesOf(s, w, p);
    w' := Recast(w, p, Detaching);
    MovedCast(s, p, s'.promises[p], s', w);
    hide Cast, Counts;
  }

  lemma DetachFlow(s: State, p: Id, s': State, w: Roles)
    requires Inv(s, w) && p in s.promises && DropStepNext(s, p, s') && s.promises[p].pc.Detaching?
    ensures Flow(s', w)
  {}

  // ---------------------------------------------------------------- every step keeps it: futures

  lemma SetContinuationFlow(s: State, f: Id, s': State, w: Roles) returns (w': Roles)
    requires Inv(s, w) && f in s.futures && SetContinuationStep(s, f, s')
    ensures Flow(s', w')
  {
    w' := if HasContinuation(s.st) then w else w.(consumer := Some(f));
  }

  lemma ContLoadFlow(s: State, f: Id, s': State, w: Roles)
    requires Inv(s, w) && f in s.futures && ContStepNext(s, f, s') && s.futures[f] == ContLoad
    ensures Flow(s', w)
  {
    hide Counts;
    assert ConsumerOk(s.st, s.cont, s.futures[f]);
    if s.st == START {
      assert s' == s.(futures := s.futures[f := ContCasStart]);
    } else {
      assert s' == s.(futures := s.futures[f := ContCasResult(ONLY_RESULT)]);
    }
  }

  lemma ContCasStartFlow(s: State, f: Id, s': State, w: Roles) returns (w': Roles)
    requires Inv(s, w) && f in s.futures && ContStepNext(s, f, s') && s.futures[f] == ContCasStart
    ensures Flow(s', w')
  {
    w' := if s.st == START then w.(consumer := None) else w;
  }

  lemma ContCasResultFlow(s: State, f: Id, s': State, w: Roles)
    requires Inv(s, w) && f in s.futures && ContStepNext(s, f, s') && s.futures[f].ContCasResult?
    ensures Flow(s', w)
  {}

  lemma DropFutureFlow(s: State, f: Id, s': State, w: Roles) returns (w': Roles)
    requires Inv(s, w) && f in s.futures && DropFutureStep(s, f, s')
    ensures Flow(s', w')
  {
    w' := if s.futures[f] == Idle then w else w.(consumer := None);
  }

  // ---------------------------------------------------------------- every step keeps it: the schedule and the task

  lemma ScheduleFlow(s: State, x: bool, y: bool, s': State, w: Roles)
    requires Inv(s, w) && ScheduleStepNext(s, x, y, s') && s.sched != Guard2
    ensures Flow(s', w)
  {
    hide ScheduleStepNext, Meeting, Calls, Bytes, Held, LeavesHandles, Cast, Promised;
    ScheduleCalls(s, x, y, s');
    ScheduleLeavesHandles(s, x, y, s');
    ScheduleMeeting(s, s', w);
    SameParts(s, s', w);
  }

  lemma SameParts(s: State, s': State, w: Roles)
    requires Cast(s, w) && Promised(s, w) && LeavesHandles(s, s')
    ensures Cast(s', w) && Promised(s', w)
  {}

  lemma ScheduleMeeting(s: State, s': State, w: Roles)
    requires Meeting(s, w) && Calls(s) && LeavesHandles(s, s')
    ensures Meeting(s', w)
  {}

  lemma ScheduleCalls(s: State, x: bool, y: bool, s': State)
    requires Calls(s) && Bytes(s) && ScheduleStepNext(s, x, y, s') && s.sched != Guard2
    ensures Calls(s')
  {
    hide Resumes, Handles;
    if s.sched.Reject1? || s.sched.Guard1? {
      ScheduleDerefCalls(s, x, y, s');
    } else {
      ScheduleOtherCalls(s, x, y, s');
    }
  }

  lemma ScheduleDerefCalls(s: State, x: bool, y: bool, s': State)
    requires Calls(s) && s.contRef == Wrapped(SchedRefs(s.sched) + s.task.live) && ScheduleStepNext(s, x, y, s')
    requires s.sched.Reject1? || s.sched.Guard1?
    ensures Calls(s')
  {
    hide Resumes;
  }

  lemma ScheduleOtherCalls(s: State, x: bool, y: bool, s': State)
    requires Calls(s) && ScheduleStepNext(s, x, y, s')
    requires s.sched != Guard2 && !s.sched.Reject1? && !s.sched.Guard1?
    ensures Calls(s')
  {
    hide Resumes;
  }

  /** Inside scheduleContinuation handles, `_state` and the result stay as they are. */
  ghost predicate LeavesHandles(s: State, s': State) {
    && s'.promises == s.promises && s'.futures == s.futures && Active(s.sched) && Active(s'.sched)
    && s'.st == s.st && s'.value == s.value && s'.breaks == s.breaks && s'.promiseRef == s.promiseRef
    && (s'.cont == s.cont || s'.cont == Destroyed) && s.runs <= s'.runs
  }

  lemma ScheduleLeavesHandles(s: State, x: bool, y: bool, s': State)
    requires ScheduleStepNext(s, x, y, s') && s.sched != Guard2
    ensures LeavesHandles(s, s')
  {
    hide Resumes;
  }

  lemma ResumeSetterFlow(s: State, p: Id, s': State, w: Roles) returns (w': Roles)
    requires Inv(s, w) && s.sched == Guard2 && ResumesSetter(DetachOne(s).(sched := Over), p, s')
    ensures Flow(s', w')
  {
    w' := w.(setter := None, last := if s.promises[p].pc.dying then None else w.last);
  }

  lemma ResumeConsumerFlow(s: State, f: Id, s': State, w: Roles) returns (w': Roles)
    requires Inv(s, w) && s.sched == Guard2 && ResumesConsumer(DetachOne(s).(sched := Over), f, s')
    ensures Flow(s', w')
  {
    w' := w.(consumer := None);
  }

  lemma ResumeNobodyFlow(s: State, s': State, w: Roles)
    requires Inv(s, w) && s.sched == Guard2 && NobodySchedules(s) && s' == DetachOne(s).(sched := Over)
    ensures Flow(s', w)
  {}

  lemma ResumeFlow(s: State, s': State, w: Roles) returns (w': Roles)
    requires Inv(s, w) && s.sched == Guard2 && Resumes(DetachOne(s).(sched := Over), s')
    ensures Flow(s', w')
  {
    var t := DetachOne(s).(sched := Over);
    if p :| ResumesSetter(t, p, s') {
      w' := ResumeSetterFlow(s, p, s', w);
    } else if f :| ResumesConsumer(t, f, s') {
      w' := ResumeConsumerFlow(s, f, s', w);
    } else {
      ResumeNobodyFlow(s, s', w);
      w' := w;
    }
  }

  lemma TaskRunFlow(s: State, s': State, w: Roles)
    requires Inv(s, w) && TaskRunStep(s, s')
    ensures Flow(s', w)
  {}

  lemma TaskRefFlow(s: State, s': State, w: Roles)
    requires Inv(s, w) && (TaskCopyAttachStep(s, s') || TaskCopyRefStep(s, s') || TaskDropDetachStep(s, s'))
    ensures Flow(s', w)
  {}

  lemma TaskDropRefCalls(s: State, s': State)
    requires Calls(s) && Bytes(s) && TaskDropRefStep(s, s')
    ensures Calls(s')
  {}

  lemma TaskDropRefFlow(s: State, s': State, w: Roles)
    requires Inv(s, w) && TaskDropRefStep(s, s')
    ensures Flow(s', w)
  {
    TaskDropRefCalls(s, s');
    assert s'.promises == s.promises && s'.futures == s.futures && s'.st == DONE;
  }

  // ---------------------------------------------------------------- every step keeps it: the counters

  lemma InOrOut(before: set<Id>, after: set<Id>, p: Id)
    requires forall x :: x != p ==> (x in after <==> x in before)
    ensures |after| == |before| + (if p in after then 1 else 0) - (if p in before then 1 else 0)
  {
    var rest := before - {p};
    assert rest == after - {p};
    assert |rest| == |before| - (if p in before then 1 else 0);
    assert |rest| == |after| - (if p in after then 1 else 0);
  }

  lemma Moved(promises: map<Id, Promise>, p: Id, x: Promise)
    ensures |Holders(promises[p := x])| ==
      |Holders(promises)| + (if Holds(x.pc) then 1 else 0) - (if p in Holders(promises) then 1 else 0)
    ensures |Copiers(promises[p := x])| ==
      |Copiers(promises)| + (if x.pc.Copying? then 1 else 0) - (if p in Copiers(promises) then 1 else 0)
  {
    InOrOut(Holders(promises), Holders(promises[p := x]), p);
    InOrOut(Copiers(promises), Copiers(promises[p := x]), p);
  }

  /** A promise handle that goes on without being created, copied or dropped. */
  lemma MovedHeld(s: State, p: Id, pc: PromisePc)
    requires Held(s.promises, s.promiseRef) && p in s.promises
    requires Holds(pc) == Holds(s.promises[p].pc) && pc.Copying? == s.promises[p].pc.Copying?
    ensures Held(s.promises[p := s.promises[p].(pc := pc)], s.promiseRef)
  {
    Moved(s.promises, p, s.promises[p].(pc := pc));
  }

  lemma HeldAfter(promises: map<Id, Promise>, promiseRef: nat, p: Id, x: Promise, promiseRef': nat)
    requires Held(promises, promiseRef) && p in promises && Holds(promises[p].pc) && !promises[p].pc.Copying?
    requires promiseRef' + 1 == promiseRef + (if Holds(x.pc) then 1 else 0) + (if x.pc.Copying? then 1 else 0)
    ensures Held(promises[p := x], promiseRef')
  {
    Moved(promises, p, x);
    assert p in Holders(promises) && p !in Copiers(promises);
  }

  lemma CopyHeld(s: State, p: Id, q: Id, s': State)
    requires Held(s.promises, s.promiseRef) && p in s.promises
    requires CopyPromiseStep(s, p, q, s') || GetFutureStep(s, p, q, s') || DropPromiseStep(s, p, s')
    ensures Held(s'.promises, s'.promiseRef)
  {
    HeldAfter(s.promises, s.promiseRef, p, s'.promises[p], s'.promiseRef);
    hide Held, Holds;
  }

  lemma CopyAttachHeld(promises: map<Id, Promise>, promiseRef: nat, p: Id, q: Id, x: Promise, y: Promise)
    requires Held(promises, promiseRef) && p in promises && promises[p].pc.Copying? && q !in promises
    requires x.pc == y.pc == Live
    ensures Held(promises[p := x][q := y], promiseRef)
  {
    Moved(promises, p, x);
    Moved(promises[p := x], q, y);
    assert p in Holders(promises) && p in Copiers(promises);
    assert q !in Holders(promises[p := x]) && q !in Copiers(promises[p := x]);
  }

  lemma DetachHeld(promises: map<Id, Promise>, p: Id, promiseRef: nat)
    requires Held(promises, promiseRef) && p in promises && promises[p].pc == Detaching
    ensures Held(promises - {p}, promiseRef) && |promises - {p}| == |promises| - 1
  {
    assert Holders(promises - {p}) == Holders(promises) && Copiers(promises - {p}) == Copiers(promises);
    assert (promises - {p}).Keys == promises.Keys - {p};
  }

  lemma CopyBytes(s: State, p: Id, q: Id, s': State)
    requires Bytes(s) && Handles(s) <= 256 && Handles(s') <= 256 && p in s.promises
    requires CopyPromiseStep(s, p, q, s') || CopyAttachStep(s, p, s') || GetFutureStep(s, p, q, s')
    ensures Bytes(s')
  {}

  /** Steps that neither create nor drop a handle. */
  lemma SameBytes(s: State, s': State)
    requires Bytes(s) && |s'.promises| == |s.promises| && |s'.futures| == |s.futures|
    requires s'.attached == s.attached && s'.contRef == s.contRef && s'.freed == s.freed
    requires SchedRefs(s'.sched) == SchedRefs(s.sched) && SchedAttached(s'.sched) == SchedAttached(s.sched)
    requires s'.task == s.task
    ensures Bytes(s')
  {}

  lemma OneLess<T>(m: map<Id, T>, p: Id)
    requires p in m
    ensures |m - {p}| == |m| - 1
  {
    assert (m - {p}).Keys == m.Keys - {p};
  }

  lemma DropPromiseBytes(s: State, p: Id)
    requires Bytes(s) && Handles(s) <= 256 && p in s.promises
    ensures Bytes(DetachOne(s).(promises := s.promises - {p}))
  {
    OneLess(s.promises, p);
  }

  lemma DropFutureBytes(s: State, f: Id)
    requires Bytes(s) && Handles(s) <= 256 && f in s.futures
    ensures Bytes(DetachOne(s).(futures := s.futures - {f}))
  {
    OneLess(s.futures, f);
  }

  lemma AttachBytes(s: State, sched: Sched)
    requires Bytes(s) && 0 < |s.promises| + |s.futures| && Handles(s) <= 255
    requires SchedAttached(sched) == SchedAttached(s.sched) + 1 && SchedRefs(sched) == SchedRefs(s.sched)
    ensures Bytes(AttachOne(s).(sched := sched))
  {}

  lemma DetachBytes(s: State, sched: Sched)
    requires Bytes(s) && Handles(s) <= 256
    requires SchedAttached(sched) + 1 == SchedAttached(s.sched) && SchedRefs(sched) == SchedRefs(s.sched)
    ensures Bytes(DetachOne(s).(sched := sched))
  {}

  lemma RefBytes(s: State, sched: Sched)
    requires Bytes(s) && Handles(s) <= 256
    requires SchedAttached(sched) == SchedAttached(s.sched) > SchedRefs(s.sched)
    requires SchedRefs(sched) == SchedRefs(s.sched) + 1
    ensures Bytes(RefContinuation(s).(sched := sched))
  {}

  lemma DerefBytes(s: State, sched: Sched)
    requires Bytes(s) && Handles(s) <= 256
    requires SchedAttached(sched) == SchedAttached(s.sched) && SchedRefs(sched) + 1 == SchedRefs(s.sched)
    ensures Bytes(DerefContinuation(s).(sched := sched))
  {}

  /** The remaining turns: choosing the way, calling, and giving the task away. */
  lemma CallBytes(s: State, x: bool, y: bool, s': State)
    requires Bytes(s) && Calls(s) && ScheduleStepNext(s, x, y, s')
    requires s.sched.Entered? || s.sched.Place3? || s.sched.Reject3? || s.sched.Exec5?
    ensures Bytes(s')
  {}

  lemma ScheduleRefBytes(s: State, x: bool, y: bool, s': State)
    requires Bytes(s) && Handles(s) <= 256 && Handles(s') <= 256 && |s.promises| + |s.futures| > 0
    requires ScheduleStepNext(s, x, y, s')
    requires s.sched.Place1? || s.sched.Place2? || s.sched.Exec1? || s.sched.Exec2? || s.sched.Exec3? || s.sched.Exec4?
    ensures Bytes(s')
  {
    match s.sched
    case Place1 => AttachBytes(s, Place2);
    case Place2 => RefBytes(s, Place3);
    case Exec1 => AttachBytes(s, Exec2);
    case Exec2 => RefBytes(s, Exec3);
    case Exec3 => AttachBytes(s, Exec4);
    case Exec4 => RefBytes(s, Exec5);
  }

  lemma ScheduleDerefBytes(s: State, x: bool, y: bool, s': State)
    requires Bytes(s) && Handles(s) <= 256 && ScheduleStepNext(s, x, y, s')
    requires s.sched.Reject1? || s.sched.Reject2? || s.sched.Guard1?
    ensures Bytes(s')
  {
    match s.sched
    case Reject1 => DerefBytes(s, Reject2);
    case Reject2 => DetachBytes(s, Reject3);
    case Guard1 => DerefBytes(s, Guard2);
  }

  lemma ResumeBytes(s: State, s': State)
    requires Bytes(s) && Handles(s) <= 256 && s.sched == Guard2
    requires Resumes(DetachOne(s).(sched := Over), s')
    ensures Bytes(s')
  {
    DetachBytes(s, Over);
    var t := DetachOne(s).(sched := Over);
    assert t.promises == s.promises && t.futures == s.futures;
    if p :| ResumesSetter(t, p, s') {
      SameBytes(t, s');
    } else if f :| ResumesConsumer(t, f, s') {
      SameBytes(t, s');
    }
  }

  lemma TaskCopyBytes(s: State, s': State)
    requires Bytes(s) && Handles(s) <= 256 && Handles(s') <= 256
    requires TaskCopyAttachStep(s, s') || TaskCopyRefStep(s, s')
    ensures Bytes(s')
  {}

  lemma TaskDropBytes(s: State, s': State)
    requires Bytes(s) && Handles(s) <= 256 && (TaskDropRefStep(s, s') || TaskDropDetachStep(s, s'))
    ensures Bytes(s')
  {}

  lemma TaskBytes(s: State, a: Action, s': State)
    requires Bytes(s) && Handles(s) <= 256 && Handles(s') <= 256 && Next(s, a, s')
    requires a.TaskRun? || a.TaskCopyAttach? || a.TaskCopyRef? || a.TaskDropRef? || a.TaskDropDetach?
    ensures Bytes(s')
  {
    if a.TaskCopyAttach? || a.TaskCopyRef? {
      TaskCopyBytes(s, s');
    } else if a.TaskDropRef? || a.TaskDropDetach? {
      TaskDropBytes(s, s');
    }
  }

  // ---------------------------------------------------------------- all steps, all runs

  /** Until the continuation is called, the handle that schedules it is there. */
  lemma SomeHandle(s: State, w: Roles)
    requires Cast(s, w) && Meeting(s, w) && Active(s.sched) && s.runs == []
    ensures |s.promises| + |s.futures| > 0
  {
    if w.setter != None {
      assert w.setter.value in s.promises;
    } else {
      assert w.consumer.value in s.futures;
    }
  }

  lemma SetStepFlow(s: State, p: Id, s': State, w: Roles) returns (w': Roles)
    requires Inv(s, w) && p in s.promises && SetStepNext(s, p, s')
    ensures Flow(s', w')
  {
    w' := w;
    match s.promises[p].pc {
      case SetLoad(_) => SetLoadFlow(s, p, s', w);
      case SetCasStart(_) => w' := SetCasStartFlow(s, p, s', w);
      case _ => SetCasContinuationFlow(s, p, s', w);
    }
  }

  lemma SetStepCounts(s: State, p: Id, s': State, w: Roles)
    requires Counts(s) && Cast(s, w) && Meeting(s, w) && Calls(s) && p in s.promises && SetStepNext(s, p, s')
    ensures Counts(s')
  {
    assert SetterOk(s.st, s.value, s.promises[p].pc);
    var pc := SetStepMoves(s, p, s');
    MovedHeld(s, p, pc);
    SameBytes(s, s');
  }

  /** A step of setResult moves its own handle and, at most, `_state` and the schedule. */
  lemma SetStepMoves(s: State, p: Id, s': State) returns (pc: PromisePc)
    requires p in s.promises && SetterOk(s.st, s.value, s.promises[p].pc) && SetStepNext(s, p, s')
    requires s.sched == NotYet <==> s.st != DONE
    ensures s' == Move(s.(st := s'.st, sched := s'.sched), p, pc)
    ensures Holds(pc) == Holds(s.promises[p].pc) && !pc.Copying?
    ensures s'.sched == s.sched || (s.sched == NotYet && s'.sched == Entered(false))
  {
    var dying := s.promises[p].pc.dying;
    match s.promises[p].pc
    case SetLoad(_) =>
      pc := if s.st == START then SetCasStart(dying) else SetCasContinuation(dying, ONLY_CONTINUATION);
    case SetCasStart(_) =>
      pc := if s.st != START then SetCasContinuation(dying, s.st) else if dying then Detaching else Live;
    case SetCasContinuation(_, _) =>
      pc := SetScheduling(dying);
  }

  lemma DropFlow(s: State, p: Id, s': State, w: Roles) returns (w': Roles)
    requires Inv(s, w) && p in s.promises && DropStepNext(s, p, s')
    ensures Flow(s', w')
  {
    w' := w;
    if s.promises[p].pc == Detaching {
      DetachFlow(s, p, s', w);
    } else if !HasResult(s.st) && s.promises[p].pc.last {
      w' := BreakFlow(s, p, s', w);
    } else {
      w' := NoBreakFlow(s, p, s.promises[p].pc.last, s', w);
    }
  }

  lemma DropCounts(s: State, p: Id, s': State)
    requires Counts(s) && p in s.promises && DropStepNext(s, p, s') && Handles(s) <= 256
    ensures Counts(s')
  {
    if s.promises[p].pc == Detaching {
      DetachCounts(s, p);
    } else {
      MovedHeld(s, p, s'.promises[p].pc);
      SameBytes(s, s');
    }
  }

  lemma DetachCounts(s: State, p: Id)
    requires Counts(s) && p in s.promises && s.promises[p].pc == Detaching && Handles(s) <= 256
    ensures Counts(DetachOne(s).(promises := s.promises - {p}))
  {
    DetachHeld(s.promises, p, s.promiseRef);
    DropPromiseBytes(s, p);
  }

  lemma ContFlow(s: State, f: Id, s': State, w: Roles) returns (w': Roles)
    requires Inv(s, w) && f in s.futures && ContStepNext(s, f, s')
    ensures Flow(s', w')
  {
    w' := w;
    match s.futures[f] {
      case ContLoad => ContLoadFlow(s, f, s', w);
      case ContCasStart => w' := ContCasStartFlow(s, f, s', w);
      case _ => ContCasResultFlow(s, f, s', w);
    }
  }

  lemma ContCounts(s: State, f: Id, s': State, w: Roles)
    requires Counts(s) && Cast(s, w) && Meeting(s, w) && Calls(s) && f in s.futures && ContStepNext(s, f, s')
    ensures Counts(s')
  {
    ContMoves(s, f, s', w);
    SameBytes(s, s');
  }

  lemma ContMoves(s: State, f: Id, s': State, w: Roles)
    requires Cast(s, w) && Meeting(s, w) && Calls(s) && f in s.futures && ContStepNext(s, f, s')
    ensures s'.promises == s.promises && s'.futures.Keys == s.futures.Keys && |s'.futures| == |s.futures|
    ensures s'.sched == s.sched || (s.sched == NotYet && s'.sched == Entered(true))
    ensures s'.attached == s.attached && s'.contRef == s.contRef && s'.freed == s.freed && s'.task == s.task
    ensures s'.promiseRef == s.promiseRef
  {}

  lemma ScheduleStepFlow(s: State, x: bool, y: bool, s': State, w: Roles) returns (w': Roles)
    requires Inv(s, w) && ScheduleStepNext(s, x, y, s')
    ensures Flow(s', w')
  {
    w' := w;
    if s.sched == Guard2 {
      w' := ResumeFlow(s, s', w);
    } else {
      ScheduleFlow(s, x, y, s', w);
    }
  }

  lemma ScheduleStepCounts(s: State, x: bool, y: bool, s': State, w: Roles)
    requires Inv(s, w) && ScheduleStepNext(s, x, y, s') && Handles(s) <= 256 && Handles(s') <= 256
    ensures Counts(s')
  {
    if s.sched == Guard2 {
      ResumeBytes(s, s');
      ResumeHeld(s, s');
    } else {
      ScheduleLeavesHandles(s, x, y, s');
      if s.sched.Reject1? || s.sched.Reject2? || s.sched.Guard1? {
        ScheduleDerefBytes(s, x, y, s');
      } else if s.sched.Entered? || s.sched.Place3? || s.sched.Exec5? || s.sched.Reject3? {
        CallBytes(s, x, y, s');
      } else {
        SomeHandle(s, w);
        ScheduleRefBytes(s, x, y, s');
      }
    }
  }

  lemma ResumeHeld(s: State, s': State)
    requires Held(s.promises, s.promiseRef) && Resumes(DetachOne(s).(sched := Over), s')
    ensures Held(s'.promises, s'.promiseRef)
  {
    var t := DetachOne(s).(sched := Over);
    if p :| ResumesSetter(t, p, s') {
      MovedHeld(s, p, s'.promises[p].pc);
    }
  }

  lemma StepFlow(s: State, a: Action, s': State, w: Roles) returns (w': Roles)
    requires Inv(s, w) && Next(s, a, s')
    ensures Flow(s', w')
  {
    hide Inv, Flow, CopyPromiseStep, CopyAttachStep, GetFutureStep, SetValueStep, SetStepNext, DropPromiseStep,
      DropStepNext, SetContinuationStep, ContStepNext, DropFutureStep, ScheduleStepNext;
    w' := w;
    match a {
      case CopyPromise(p, q) => CopyFlow(s, p, q, s', w);
      case CopyAttach(p) => CopyAttachFlow(s, p, s', w);
      case GetFuture(p, f) => GetFutureFlow(s, p, f, s', w);
      case SetValue(p, v) => w' := SetValueFlow(s, p, v, s', w);
      case SetStep(p) => w' := SetStepFlow(s, p, s', w);
      case DropPromise(p) => w' := DropPromiseFlow(s, p, s', w);
      case DropStep(p) => w' := DropFlow(s, p, s', w);
      case SetContinuation(f) => w' := SetContinuationFlow(s, f, s', w);
      case ContStep(f) => w' := ContFlow(s, f, s', w);
      case DropFuture(f) => w' := DropFutureFlow(s, f, s', w);
      case ScheduleStep(x, y) => w' := ScheduleStepFlow(s, x, y, s', w);
      case TaskRun => TaskRunFlow(s, s', w);
      case TaskDropRef => TaskDropRefFlow(s, s', w);
      case _ => TaskRefFlow(s, s', w);
    }
  }

  lemma CopyCounts(s: State, a: Action, s': State)
    requires Counts(s) && Next(s, a, s') && Handles(s) <= 256 && Handles(s') <= 256
    requires a.CopyPromise? || a.CopyAttach? || a.GetFuture?
    ensures Counts(s')
  {
    match a
    case CopyPromise(p, q) => CopyHeld(s, p, q, s'); CopyBytes(s, p, q, s');
    case CopyAttach(p) =>
      var q := s.promises[p].pc.copy;
      CopyAttachHeld(s.promises, s.promiseRef, p, q, s'.promises[p], s'.promises[q]);
      CopyBytes(s, p, q, s');
    case GetFuture(p, f) => CopyHeld(s, p, f, s'); CopyBytes(s, p, f, s');
  }

  lemma SetValueCounts(s: State, p: Id, v: Try, s': State)
    requires Counts(s) && p in s.promises && SetValueStep(s, p, v, s')
    ensures Counts(s')
  {
    MovedHeld(s, p, SetLoad(false));
    SameBytes(s, s');
  }

  lemma DropPromiseCounts(s: State, p: Id, s': State)
    requires Counts(s) && p in s.promises && DropPromiseStep(s, p, s')
    ensures Counts(s')
  {
    CopyHeld(s, p, p, s');
    SameBytes(s, s');
  }

  lemma HandleCounts(s: State, a: Action, s': State)
    requires Counts(s) && Next(s, a, s') && Handles(s) <= 256
    requires a.SetValue? || a.DropPromise? || a.SetContinuation? || a.DropFuture?
    ensures Counts(s')
  {
    if a.SetValue? {
      SetValueCounts(s, a.p, a.v, s');
    } else if a.DropPromise? {
      DropPromiseCounts(s, a.p, s');
    } else if a.SetContinuation? {
      SameBytes(s, s');
    } else {
      DropFutureBytes(s, a.f);
    }
  }

  lemma StepCounts(s: State, a: Action, s': State, w: Roles)
    requires Inv(s, w) && Next(s, a, s') && Handles(s) <= 256 && Handles(s') <= 256
    ensures Counts(s')
  {
    if a.CopyPromise? || a.CopyAttach? || a.GetFuture? {
      CopyCounts(s, a, s');
    } else if a.SetValue? || a.DropPromise? || a.SetContinuation? || a.DropFuture? {
      HandleCounts(s, a, s');
    } else if a.SetStep? {
      SetStepCounts(s, a.p, s', w);
    } else if a.DropStep? {
      DropCounts(s, a.p, s');
    } else if a.ContStep? {
      ContCounts(s, a.f, s', w);
    } else if a.ScheduleStep? {
      ScheduleStepCounts(s, a.inExecutor, a.accepted, s', w);
    } else {
      TaskBytes(s, a, s');
    }
  }

  /** At no time are there more than n live handles. */
  ghost predicate AtMost(r: Run, n: nat) {
    Handles(r.s) <= n && (r.Then? ==> AtMost(r.run, n))
  }

  lemma StepKeeps(s: State, a: Action, s': State, w: Roles) returns (w': Roles)
    requires Inv(s, w) && Next(s, a, s') && Handles(s) <= 256 && Handles(s') <= 256
    ensures Inv(s', w')
  {
    hide Flow, Counts, Next, Handles;
    w' := StepFlow(s, a, s', w);
    StepCounts(s, a, s', w);
  }

  lemma StartKeeps(s: State)
    requires Init(s)
    ensures Inv(s, Roles(None, None, None))
  {
    assert Holders(s.promises) == {0} && Copiers(s.promises) == {};
  }

  lemma {:induction false} RunInv(r: Run) returns (w: Roles)
    requires IsRun(r) && AtMost(r, 256)
    ensures Inv(r.s, w)
  {
    hide Inv, Next, Init, Handles;
    match r
    case Start(s) =>
      StartKeeps(s);
      w := Roles(None, None, None);
    case Then(run, a, s') =>
      var w0 := RunInv(run);
      w := StepKeeps(run.s, a, s', w0);
  }
}
