/** FutureState between its promise handles, its futures and the executor: every load,
    compare-exchange, fetch_add and fetch_sub is a step of its own.

    Calls of setValue do not overlap, nor do calls of setContinuation: the class is for one producer and
    one consumer.  The executor keeps the contract of Executor.h: a function it rejects never runs. */
module FutureState {
  import opened Options

  type Id = nat

  datatype Try = Value(v: int) | Error(e: int) | Broken

  /** `_state`. */
  datatype St = START | ONLY_RESULT | ONLY_CONTINUATION | DONE

  predicate HasResult(st: St) { st == ONLY_RESULT || st == DONE }
  predicate HasContinuation(st: St) { st == ONLY_CONTINUATION || st == DONE }

  /** A promise handle; `dying` marks the setResult inside detachPromise. */
  datatype PromisePc =
    | Live
    | Copying(copy: Id)                      // attachPromise: counted in _promiseRef, not attached yet
    | SetLoad(dying: bool)                   // setResult has written _try_value
    | SetCasStart(dying: bool)
    | SetCasContinuation(dying: bool, expected: St)
    | SetScheduling(dying: bool)             // inside scheduleContinuation
    | Dropping(last: bool)                   // detachPromise has decremented _promiseRef
    | Detaching

  datatype Promise = Promise(pc: PromisePc, hasFuture: bool)

  datatype FuturePc =
    | Idle
    | ContLoad                               // setContinuation has built _continuation
    | ContCasStart
    | ContCasResult(expected: St)
    | ContScheduling

  /** scheduleContinuation: in place, or through the executor, and the guard both end with. */
  datatype Sched =
    | NotYet
    | Entered(byContinuation: bool)
    | Place1 | Place2 | Place3               // attach, ref, run
    | Exec1 | Exec2 | Exec3 | Exec4 | Exec5  // attach and ref twice, then schedule
    | Reject1 | Reject2 | Reject3            // the lambda's guard goes, then run in place
    | Guard1 | Guard2                        // deref, detach
    | Over

  datatype Phase = NotGiven | Waiting | Ran

  /** The task in the executor: copies of the lambda, each a reference, come and go around the call. */
  datatype Task = Task(phase: Phase, live: nat, copying: nat, dropping: nat)

  /** `_continuation`. */
  datatype Cont = Unbuilt | Built | Destroyed

  /** `runs` collects what the continuation was called with, `destroys` and `breaks` count. */
  datatype State = State(
    st: St, attached: nat, contRef: nat, promiseRef: nat, value: Option<Try>, cont: Cont,
    executor: bool, forceSched: bool,
    promises: map<Id, Promise>, futures: map<Id, FuturePc>, sched: Sched, task: Task,
    freed: bool, error: bool, runs: seq<Option<Try>>, destroys: nat, breaks: nat)

  datatype Action =
    | CopyPromise(p: Id, q: Id) | CopyAttach(p: Id) | GetFuture(p: Id, f: Id)
    | SetValue(p: Id, v: Try) | SetStep(p: Id) | DropPromise(p: Id) | DropStep(p: Id)
    | SetContinuation(f: Id) | ContStep(f: Id) | DropFuture(f: Id)
    | ScheduleStep(inExecutor: bool, accepted: bool)
    | TaskRun | TaskCopyAttach | TaskCopyRef | TaskDropRef | TaskDropDetach

  ghost predicate Init(s: State) {
    s == State(START, 1, 0, 1, None, Unbuilt, s.executor, s.forceSched, map[0 := Promise(Live, false)], map[],
               NotYet, Task(NotGiven, 0, 0, 0), false, false, [], 0, 0)
    && (s.forceSched ==> s.executor)
  }

  // ---------------------------------------------------------------- the counters, one byte wide where they are

  function Increment(n: nat): nat { if n == 255 then 0 else n + 1 }

  function Decrement(n: nat): nat { if n == 0 then 255 else n - 1 }

  function AttachOne(s: State): State { s.(attached := Increment(s.attached)) }

  function DetachOne(s: State): State {
    s.(attached := Decrement(s.attached), freed := s.freed || s.attached == 1)
  }

  function RefContinuation(s: State): State { s.(contRef := Increment(s.contRef)) }

  function DerefContinuation(s: State): State {
    var s1 := s.(contRef := Decrement(s.contRef));
    if s.contRef == 1 then s1.(cont := Destroyed, destroys := s.destroys + 1) else s1
  }

  function CallContinuation(s: State): State { s.(runs := s.runs + [s.value]) }

  // ---------------------------------------------------------------- promise handles

  function Move(s: State, p: Id, pc: PromisePc): State
    requires p in s.promises
  {
    s.(promises := s.promises[p := s.promises[p].(pc := pc)])
  }

  predicate InSetResult(pc: PromisePc) {
    pc.SetLoad? || pc.SetCasStart? || pc.SetCasContinuation? || pc.SetScheduling?
  }

  ghost predicate SetterIdle(s: State) {
    forall p :: p in s.promises ==> !InSetResult(s.promises[p].pc)
  }

  ghost predicate CopyPromiseStep(s: State, p: Id, q: Id, s': State)
    requires p in s.promises
  {
    s.promises[p].pc == Live && q !in s.promises &&
    (forall x :: x in s.promises ==> s.promises[x].pc != Copying(q)) &&
    s' == Move(s.(promiseRef := s.promiseRef + 1), p, Copying(q))
  }

  ghost predicate CopyAttachStep(s: State, p: Id, s': State)
    requires p in s.promises
  {
    s.promises[p].pc.Copying? &&
    var q := s.promises[p].pc.copy;
    q !in s.promises &&
    var s1 := AttachOne(Move(s, p, Live));
    s' == s1.(promises := s1.promises[q := Promise(Live, s.promises[p].hasFuture)])
  }

  ghost predicate GetFutureStep(s: State, p: Id, f: Id, s': State)
    requires p in s.promises
  {
    s.promises[p] == Promise(Live, false) && f !in s.futures &&
    s' == AttachOne(s).(promises := s.promises[p := Promise(Live, true)], futures := s.futures[f := Idle])
  }

  /** setResult up to its first load of `_state`; a second result is refused by the logicAssert. */
  ghost predicate SetValueStep(s: State, p: Id, v: Try, s': State)
    requires p in s.promises
  {
    s.promises[p].pc == Live && SetterIdle(s) && v != Broken &&
    s' == if HasResult(s.st) then s else Move(s.(value := Some(v)), p, SetLoad(false))
  }

  ghost predicate SetStepNext(s: State, p: Id, s': State)
    requires p in s.promises
  {
    match s.promises[p].pc
    case SetLoad(dying) =>
      s' == (match s.st
             case START => Move(s, p, SetCasStart(dying))
             case ONLY_CONTINUATION => Move(s, p, SetCasContinuation(dying, ONLY_CONTINUATION))
             case _ => s.(error := true))
    case SetCasStart(dying) =>
      s' == (if s.st == START then Move(s.(st := ONLY_RESULT), p, if dying then Detaching else Live)
             else Move(s, p, SetCasContinuation(dying, s.st)))
    case SetCasContinuation(dying, expected) =>
      s' == (if s.st == expected then Move(s.(st := DONE, sched := Entered(false)), p, SetScheduling(dying))
             else s.(error := true))
    case _ => false
  }

  /** The continuation, once it is called, may drop the very handle whose call schedules it. */
  ghost predicate Droppable(s: State, p: Id)
    requires p in s.promises
  {
    s.promises[p].pc == Live || (s.promises[p].pc == SetScheduling(false) && s.runs != [])
  }

  ghost predicate DropPromiseStep(s: State, p: Id, s': State)
    requires p in s.promises
  {
    Droppable(s, p) && s.promiseRef > 0 &&
    s' == Move(s.(promiseRef := s.promiseRef - 1), p, Dropping(s.promiseRef == 1))
  }

  ghost predicate DropStepNext(s: State, p: Id, s': State)
    requires p in s.promises
  {
    match s.promises[p].pc
    case Dropping(last) =>
      s' == (if !HasResult(s.st) && last then Move(s.(value := Some(Broken), breaks := s.breaks + 1), p, SetLoad(true))
             else Move(s, p, Detaching))
    case Detaching =>
      s' == DetachOne(s).(promises := s.promises - {p})
    case _ => false
  }

  // ---------------------------------------------------------------- futures

  ghost predicate ConsumerIdle(s: State) {
    forall f :: f in s.futures ==> s.futures[f] == Idle
  }

  ghost predicate SetContinuationStep(s: State, f: Id, s': State)
    requires f in s.futures
  {
    ConsumerIdle(s) &&
    s' == if HasContinuation(s.st) then s else s.(cont := Built, futures := s.futures[f := ContLoad])
  }

  ghost predicate ContStepNext(s: State, f: Id, s': State)
    requires f in s.futures
  {
    match s.futures[f]
    case ContLoad =>
      s' == (match s.st
             case START => s.(futures := s.futures[f := ContCasStart])
             case ONLY_RESULT => s.(futures := s.futures[f := ContCasResult(ONLY_RESULT)])
             case _ => s.(error := true))
    case ContCasStart =>
      s' == (if s.st == START then s.(st := ONLY_CONTINUATION, futures := s.futures[f := Idle])
             else s.(futures := s.futures[f := ContCasResult(s.st)]))
    case ContCasResult(expected) =>
      s' == (if s.st == expected
             then s.(st := DONE, sched := Entered(true), futures := s.futures[f := ContScheduling])
             else s.(error := true))
    case _ => false
  }

  ghost predicate DropFutureStep(s: State, f: Id, s': State)
    requires f in s.futures
  {
    (s.futures[f] == Idle || (s.futures[f] == ContScheduling && s.runs != [])) &&
    s' == DetachOne(s).(futures := s.futures - {f})
  }

  // ---------------------------------------------------------------- scheduleContinuation and the executor

  ghost predicate ResumesSetter(s: State, p: Id, s': State) {
    p in s.promises && s.promises[p].pc.SetScheduling? &&
    s' == Move(s, p, if s.promises[p].pc.dying then Detaching else Live)
  }

  ghost predicate ResumesConsumer(s: State, f: Id, s': State) {
    f in s.futures && s.futures[f] == ContScheduling && s' == s.(futures := s.futures[f := Idle])
  }

  /** The handle that called scheduleContinuation is gone: the continuation dropped it. */
  ghost predicate NobodySchedules(s: State) {
    && (forall p :: p in s.promises ==> !s.promises[p].pc.SetScheduling?)
    && (forall f :: f in s.futures ==> s.futures[f] != ContScheduling)
  }

  /** scheduleContinuation returns to its caller, if that is still there. */
  ghost predicate Resumes(s: State, s': State) {
    || (exists p :: ResumesSetter(s, p, s'))
    || (exists f :: ResumesConsumer(s, f, s'))
    || (NobodySchedules(s) && s' == s)
  }

  ghost predicate ScheduleStepNext(s: State, inExecutor: bool, accepted: bool, s': State) {
    match s.sched
    case Entered(byContinuation) =>
      var inPlace := !s.forceSched && (!s.executor || byContinuation || inExecutor);
      s' == s.(sched := if inPlace then Place1 else Exec1)
    case Place1 => s' == AttachOne(s).(sched := Place2)
    case Place2 => s' == RefContinuation(s).(sched := Place3)
    case Place3 => s' == CallContinuation(s).(sched := Guard1)
    case Exec1 => s' == AttachOne(s).(sched := Exec2)
    case Exec2 => s' == RefContinuation(s).(sched := Exec3)
    case Exec3 => s' == AttachOne(s).(sched := Exec4)
    case Exec4 => s' == RefContinuation(s).(sched := Exec5)
    case Exec5 => s' == if accepted then s.(sched := Guard1, task := Task(Waiting, 1, 0, 0)) else s.(sched := Reject1)
    case Reject1 => s' == DerefContinuation(s).(sched := Reject2)
    case Reject2 => s' == DetachOne(s).(sched := Reject3)
    case Reject3 => s' == CallContinuation(s).(sched := Guard1)
    case Guard1 => s' == DerefContinuation(s).(sched := Guard2)
    case Guard2 => Resumes(DetachOne(s).(sched := Over), s')
    case _ => false
  }

  ghost predicate TaskRunStep(s: State, s': State) {
    s.task.phase == Waiting && s' == CallContinuation(s).(task := s.task.(phase := Ran))
  }

  /** Copying the lambda copies its guard, from a copy that stays. */
  ghost predicate TaskCopyAttachStep(s: State, s': State) {
    s.task.live > 0 && s' == AttachOne(s).(task := s.task.(copying := s.task.copying + 1))
  }

  ghost predicate TaskCopyRefStep(s: State, s': State) {
    s.task.copying > 0 &&
    s' == RefContinuation(s).(task := s.task.(live := s.task.live + 1, copying := s.task.copying - 1))
  }

  /** The last copy goes only after the call and when nobody copies from it. */
  ghost predicate TaskDropRefStep(s: State, s': State) {
    s.task.live > 0 && (s.task.live > 1 || (s.task.phase == Ran && s.task.copying == 0)) &&
    s' == DerefContinuation(s).(task := s.task.(live := s.task.live - 1, dropping := s.task.dropping + 1))
  }

  ghost predicate TaskDropDetachStep(s: State, s': State) {
    s.task.dropping > 0 && s' == DetachOne(s).(task := s.task.(dropping := s.task.dropping - 1))
  }

  ghost predicate Next(s: State, a: Action, s': State) {
    match a
    case CopyPromise(p, q) => p in s.promises && CopyPromiseStep(s, p, q, s')
    case CopyAttach(p) => p in s.promises && CopyAttachStep(s, p, s')
    case GetFuture(p, f) => p in s.promises && GetFutureStep(s, p, f, s')
    case SetValue(p, v) => p in s.promises && SetValueStep(s, p, v, s')
    case SetStep(p) => p in s.promises && SetStepNext(s, p, s')
    case DropPromise(p) => p in s.promises && DropPromiseStep(s, p, s')
    case DropStep(p) => p in s.promises && DropStepNext(s, p, s')
    case SetContinuation(f) => f in s.futures && SetContinuationStep(s, f, s')
    case ContStep(f) => f in s.futures && ContStepNext(s, f, s')
    case DropFuture(f) => f in s.futures && DropFutureStep(s, f, s')
    case ScheduleStep(inExecutor, accepted) => ScheduleStepNext(s, inExecutor, accepted, s')
    case TaskRun => TaskRunStep(s, s')
    case TaskCopyAttach => TaskCopyAttachStep(s, s')
    case TaskCopyRef => TaskCopyRefStep(s, s')
    case TaskDropRef => TaskDropRefStep(s, s')
    case TaskDropDetach => TaskDropDetachStep(s, s')
  }

  /** A run, last step outermost. */
  datatype Run = Start(s: State) | Then(run: Run, a: Action, s: State)

  ghost predicate IsRun(r: Run) {
    match r
    case Start(s) => Init(s)
    case Then(run, a, s') => IsRun(run) && Next(run.s, a, s')
  }
}
