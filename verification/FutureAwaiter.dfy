/** Awaiting a future that can be cancelled: the future's continuation and the cancellation handler exchange
    one flag, and the first of them resumes the coroutine.  The result type is not void, and the slot's
    filter lets Terminate pass. */
module FutureAwaiter {
  import opened Options

  /** What await_resume gives: the Try of the future, or the exception stored beforehand. */
  datatype Outcome = Result(t: int) | Cancelled

  datatype Racer = Completion | Handler

  datatype Pc =
    | Away
    | Ready             // the continuation or the handler runs
    | Won               // its exchange saw true
    | Moved             // `future_` is what it should be; about to resume
    | Over

  datatype Caller =
    | Suspending        // await_suspend_cancellable, up to tryEmplace
    | Setting           // the handler is in the slot; setContinuation is next
    | Waiting           // the continuation is set as well
    | Resumed

  /** `future` is what `future_` of the awaiter holds, `first` who exchanged first. */
  datatype State = State(
    caller: Caller, flag: bool, future: Outcome, completion: Pc, handler: Pc, first: Option<Racer>,
    terminated: bool, emplaced: bool, continued: bool, resumes: nat)
  {
    function At(x: Racer): Pc { if x == Completion then completion else handler }

    function Go(x: Racer, p: Pc): State { if x == Completion then this.(completion := p) else this.(handler := p) }
  }

  datatype Action =
    | Emplace(ok: bool) | SetContinuation | Emit
    | Come(x: Racer) | Exchange(x: Racer) | Move(x: Racer) | Resume(x: Racer)

  /** await_suspend_cancellable has put the exception into `future_` and made the flag. */
  ghost predicate Init(s: State) {
    s == State(Suspending, true, Cancelled, Away, Away, None, s.terminated, false, false, 0)
  }

  ghost predicate RacerStep(s: State, a: Action, result: int, s': State) {
    match a
    case Come(x) =>
      && s.At(x) == Away && (if x == Completion then s.continued else s.emplaced && s.terminated)
      && s' == s.Go(x, Ready)
    case Exchange(x) =>
      && s.At(x) == Ready
      && s' == s.Go(x, if s.flag then Won else Over)
                .(flag := false, first := if s.first == None then Some(x) else s.first)
    case Move(x) =>
      && s.At(x) == Won
      && s' == s.Go(x, Moved).(future := if x == Completion then Result(result) else s.future)
    case Resume(x) =>
      s.At(x) == Moved && s' == s.Go(x, Over).(caller := Resumed, resumes := s.resumes + 1)
    case _ => false
  }

  /** A refused emplace makes await_suspend return false: the coroutine goes on at once.  The handler may
      resume it even before the continuation is set, which uses nothing of the awaiter. */
  ghost predicate Next(s: State, a: Action, result: int, s': State) {
    match a
    case Emplace(ok) =>
      && s.caller == Suspending && (!ok ==> s.terminated)
      && s' == if ok then s.(caller := Setting, emplaced := true) else s.(caller := Resumed)
    case SetContinuation =>
      && s.emplaced && !s.continued
      && s' == s.(continued := true, caller := if s.caller == Setting then Waiting else s.caller)
    case Emit => s' == s.(terminated := true)
    case _ => RacerStep(s, a, result, s')
  }

  datatype Run = Start(s: State) | Then(run: Run, a: Action, s: State)

  ghost predicate IsRun(r: Run, result: int) {
    match r
    case Start(s) => Init(s)
    case Then(run, a, s') => IsRun(run, result) && Next(run.s, a, result, s')
  }

  predicate Early(p: Pc) { p == Away || p == Ready }

  predicate Winning(p: Pc) { p == Won || p == Moved }

  ghost predicate Inv(s: State, result: int) {
    && (s.flag <==> s.first == None)
    && (s.first == None ==> Early(s.completion) && Early(s.handler))
    && (s.first != None ==> !Early(s.At(s.first.value)))
    && (Winning(s.completion) ==> s.first == Some(Completion)) && (Winning(s.handler) ==> s.first == Some(Handler))
    && s.resumes == (if s.first != None && s.At(s.first.value) == Over then 1 else 0)
    && s.future == (if s.first == Some(Completion) && s.completion != Won then Result(result) else Cancelled)
    && (s.handler != Away ==> s.emplaced && s.terminated) && (s.completion != Away ==> s.continued)
    && (s.continued ==> s.emplaced)
    && (s.caller == Suspending ==> !s.emplaced)
    && (s.emplaced ==> (s.caller == Resumed <==> s.resumes == 1))
    && (!s.emplaced && s.caller == Resumed ==> s.terminated)
  }

  lemma RacerKeeps(s: State, a: Action, result: int, s': State)
    requires Inv(s, result) && RacerStep(s, a, result, s')
    ensures Inv(s', result)
  {}

  lemma {:induction false} RunInv(r: Run, result: int)
    requires IsRun(r, result)
    ensures Inv(r.s, result)
  {
    if r.Then? {
      RunInv(r.run, result);
      if r.a.Come? || r.a.Exchange? || r.a.Move? || r.a.Resume? {
        RacerKeeps(r.run.s, r.a, result, r.s);
      }
    }
  }

  /** One racer at most resumes the coroutine, the first to exchange the flag, and only that one uses the
      awaiter, while the coroutine has not gone on. */
  lemma OneResumes(r: Run, result: int)
    requires IsRun(r, result)
    ensures r.s.resumes <= 1 && (r.s.resumes == 1 ==> r.s.first != None && r.s.caller == Resumed)
    ensures forall x: Racer :: Winning(r.s.At(x)) ==> r.s.first == Some(x) && r.s.caller != Resumed
  {
    RunInv(r, result);
  }

  /** The coroutine that goes on sees the future's result if and only if completion exchanged first, and
      the cancellation exception otherwise. */
  lemma WhatTheCallerSees(r: Run, result: int)
    requires IsRun(r, result) && r.s.caller == Resumed
    ensures r.s.future == if r.s.first == Some(Completion) then Result(result) else Cancelled
    ensures r.s.first != Some(Completion) ==> r.s.terminated
  {
    RunInv(r, result);
  }

  /** Once somebody has come and everybody who came is over, the coroutine goes on. */
  lemma SomebodyResumes(r: Run, result: int)
    requires IsRun(r, result) && (r.s.completion == Over || r.s.handler == Over)
    requires (r.s.completion == Over || r.s.completion == Away) && (r.s.handler == Over || r.s.handler == Away)
    ensures r.s.resumes == 1 && r.s.caller == Resumed
  {
    RunInv(r, result);
  }
}
