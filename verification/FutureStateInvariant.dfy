/** What holds between the atomic steps of FutureState: who is where, and what the counters count. */
module FutureStateInvariant {
  import opened Options
  import opened FutureState

  // ---------------------------------------------------------------- the invariant: who is where

  predicate Active(sched: Sched) { sched != NotYet && sched != Over }

  /** The continuation has been called or handed to the executor. */
  predicate Delivered(sched: Sched) { sched == Guard1 || sched == Guard2 || sched == Over }

  /** Counted in `_promiseRef`. */
  predicate Holds(pc: PromisePc) {
    match pc
    case Live => true
    case Copying(_) => true
    case Dropping(_) => false
    case Detaching => false
    case _ => !pc.dying
  }

  /** The last promise handle on its way out, with the broken promise still to be settled. */
  predicate Last(pc: PromisePc) {
    pc == Dropping(true) || (InSetResult(pc) && pc.dying)
  }

  /** Which promise handle is inside setResult, which is the last one on its way out, and which future
      is inside setContinuation. */
  datatype Roles = Roles(setter: Option<Id>, last: Option<Id>, consumer: Option<Id>)

  ghost predicate Cast(s: State, w: Roles) {
    && (w.setter != None ==> w.setter.value in s.promises)
    && (w.last != None ==> w.last.value in s.promises)
    && (w.consumer != None ==> w.consumer.value in s.futures)
    && (forall p :: p in s.promises ==>
          (InSetResult(s.promises[p].pc) <==> w.setter == Some(p)) && (Last(s.promises[p].pc) <==> w.last == Some(p)))
    && (forall f :: f in s.futures ==> (s.futures[f] != Idle <==> w.consumer == Some(f)))
  }

  predicate SetterOk(st: St, value: Option<Try>, pc: PromisePc) {
    value != None &&
    match pc
    case SetLoad(_) => !HasResult(st)
    case SetCasStart(_) => !HasResult(st)
    case SetCasContinuation(_, expected) => expected == ONLY_CONTINUATION == st
    case _ => st == DONE
  }

  predicate ConsumerOk(st: St, cont: Cont, pc: FuturePc) {
    match pc
    case ContLoad => !HasContinuation(st) && cont == Built
    case ContCasStart => !HasContinuation(st) && cont == Built
    case ContCasResult(expected) => expected == ONLY_RESULT == st && cont == Built
    case _ => st == DONE
  }

  /** The two ends meet at `_state`; one of them, and only one, then schedules the continuation. */
  ghost predicate Meeting(s: State, w: Roles) {
    && (w.setter != None && w.setter.value in s.promises ==> SetterOk(s.st, s.value, s.promises[w.setter.value].pc))
    && (w.consumer != None && w.consumer.value in s.futures ==> ConsumerOk(s.st, s.cont, s.futures[w.consumer.value]))
    && (HasResult(s.st) ==> s.value != None)
    && (HasContinuation(s.st) ==> s.cont != Unbuilt)
    && !(Setting(s, w) && Continuing(s, w))
    && (Setting(s, w) || Continuing(s, w) ==> Active(s.sched))
    && (Active(s.sched) ==> Setting(s, w) || Continuing(s, w) || s.runs != [])
  }

  /** setResult, or setContinuation, is inside scheduleContinuation and its handle still there. */
  ghost predicate Setting(s: State, w: Roles) {
    w.setter != None && w.setter.value in s.promises && s.promises[w.setter.value].pc.SetScheduling?
  }

  ghost predicate Continuing(s: State, w: Roles) {
    w.consumer != None && w.consumer.value in s.futures && s.futures[w.consumer.value] == ContScheduling
  }

  /** Where the continuation is, and whether it has been called. */
  ghost predicate Calls(s: State) {
    && (s.sched == NotYet <==> s.st != DONE)
    && (s.task.copying > 0 ==> s.task.live > 0)
    && (match s.task.phase
        case NotGiven => s.task == Task(NotGiven, 0, 0, 0) && s.runs == if Delivered(s.sched) then [s.value] else []
        case Waiting => s.task.live > 0 && Delivered(s.sched) && s.runs == []
        case Ran => Delivered(s.sched) && s.runs == [s.value])
    && (s.cont == Destroyed <==> (s.sched == Guard2 || s.sched == Over) && s.task.live == 0)
    && s.destroys == (if s.cont == Destroyed then 1 else 0)
    && !s.error
  }

  /** A result comes, if need be from the last promise handle, which then stores the one broken promise. */
  ghost predicate Promised(s: State, w: Roles) {
    && (w.last != None ==> s.promiseRef == 0)
    && (HasResult(s.st) || s.promiseRef > 0 || w.last != None)
    && s.breaks == (if s.value == Some(Broken) then 1 else 0)
    && (s.value == Some(Broken) ==> s.promiseRef == 0)
    && (s.value == Some(Broken) && !HasResult(s.st) ==> w.setter != None && w.setter == w.last)
  }

  // ---------------------------------------------------------------- the invariant: the counters

  function SchedAttached(sched: Sched): nat {
    match sched
    case Place2 => 1 case Place3 => 1
    case Exec2 => 1 case Exec3 => 1 case Exec4 => 2 case Exec5 => 2
    case Reject1 => 2 case Reject2 => 2 case Reject3 => 1
    case Guard1 => 1 case Guard2 => 1
    case _ => 0
  }

  function SchedRefs(sched: Sched): nat {
    match sched
    case Place3 => 1
    case Exec3 => 1 case Exec4 => 1 case Exec5 => 2
    case Reject1 => 2 case Reject2 => 1 case Reject3 => 1
    case Guard1 => 1
    case _ => 0
  }

  /** The live handles: promises, futures, and continuation references. */
  ghost function Handles(s: State): nat {
    |s.promises| + |s.futures| + SchedAttached(s.sched) + s.task.live + s.task.copying + s.task.dropping
  }

  ghost function Holders(promises: map<Id, Promise>): set<Id> {
    set p | p in promises && Holds(promises[p].pc)
  }

  ghost function Copiers(promises: map<Id, Promise>): set<Id> {
    set p | p in promises && promises[p].pc.Copying?
  }

  ghost predicate Held(promises: map<Id, Promise>, promiseRef: nat) {
    promiseRef == |Holders(promises)| + |Copiers(promises)|
  }

  /** What a byte shows of a number up to 256. */
  function Wrapped(n: nat): nat { if n == 256 then 0 else n }

  ghost predicate Bytes(s: State) {
    && s.contRef == Wrapped(SchedRefs(s.sched) + s.task.live)
    && s.attached == Wrapped(Handles(s))
    && (s.freed <==> Handles(s) == 0)
  }

  ghost predicate Counts(s: State) {
    Held(s.promises, s.promiseRef) && Bytes(s)
  }

  ghost predicate Flow(s: State, w: Roles) {
    Cast(s, w) && Meeting(s, w) && Calls(s) && Promised(s, w)
  }

  ghost predicate Inv(s: State, w: Roles) {
    Flow(s, w) && Counts(s)
  }
}
