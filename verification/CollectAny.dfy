/** collectAny: n inputs and the cancellation handler of the awaiting coroutine's slot count down one
    counter, which starts at n + 1; the first of them resumes the coroutine, which then looks at its slot.
    The handler is contender number n.  The slot's filter lets Terminate pass. */
module CollectAny {
  import opened Options
  import opened Sequences

  type Try = int

  datatype Pc =
    | Away
    | Running             // an input that was started
    | Ready               // the callback or the handler runs
    | Counted(was: nat)   // downCount gave `was`
    | Won                 // `was` is n + 1
    | Filled              // has written what it has to write into the awaiter
    | Over

  /** The coroutine that awaits; what await_resume gives it. */
  datatype Caller =
    | Checking            // await_ready
    | Suspending          // await_suspend, up to tryEmplace
    | Waiting
    | Clearing            // checkHasCanceled: the clear
    | Judging             // checkHasCanceled: the clear failed, canceled() is next
    | Returned(result: Option<(nat, Try)>)
    | Threw               // SignalException

  /** The handler's cell in the slot; SlotRace has its steps one by one. */
  datatype Cell = Vacant | Handler | Tag

  /** `order` is the order of the fetch_subs, `resumes` who resumed; `cleared` remembers a clear that found
      the handler. */
  datatype State = State(
    caller: Caller, launching: bool, started: nat, count: nat, pc: seq<Pc>, order: seq<nat>,
    filled: Option<(nat, Try)>, resumes: seq<nat>, terminated: bool, cell: Cell, cleared: bool)

  datatype Action =
    | Check | Emplace(ok: bool) | Start | Complete(i: nat)
    | Emit | Visit
    | Down(i: nat) | Branch(i: nat) | Fill(i: nat) | Resume(i: nat)
    | Clear | Judge

  ghost predicate Init(s: State, n: nat, slot: bool) {
    && s == State(Checking, false, 0, n + 1, s.pc, [], None, [], s.terminated, s.cell, false)
    && |s.pc| == n + 1 && (forall i :: 0 <= i <= n ==> s.pc[i] == Away)
    && (s.terminated ==> slot) && (s.cell == Tag ==> s.terminated) && s.cell != Handler
  }

  /** emplace is refused only after Terminate was emitted, and never accepted once the emission has been at
      the cell. */
  ghost predicate EmplaceStep(s: State, ok: bool, slot: bool, s': State) {
    && s.caller == Suspending && (if ok then s.cell != Tag else slot && s.terminated)
    && s' == if ok then s.(caller := Waiting, launching := true, cell := if slot then Handler else s.cell)
             else s.(caller := Clearing)
  }

  ghost predicate Next(s: State, a: Action, n: nat, slot: bool, result: nat -> Try, s': State) {
    |s.pc| == n + 1 &&
    match a
    case Check =>
      s.caller == Checking && s' == s.(caller := if n == 0 || (slot && s.terminated) then Clearing else Suspending)
    case Emplace(ok) => EmplaceStep(s, ok, slot, s')
    case Start =>
      s.launching && s.started < n && s.pc[s.started] == Away &&
      s' == s.(started := s.started + 1, pc := s.pc[s.started := Running])
    case Complete(i) => i < n && s.pc[i] == Running && s' == s.(pc := s.pc[i := Ready])
    case Emit => slot && s' == s.(terminated := true)
    case Visit =>
      slot && s.terminated && s.cell != Tag && (s.cell == Handler ==> s.pc[n] == Away) &&
      s' == s.(cell := Tag, pc := if s.cell == Handler then s.pc[n := Ready] else s.pc)
    case Down(i) =>
      i <= n && s.pc[i] == Ready && s.count > 0 &&
      s' == s.(count := s.count - 1, pc := s.pc[i := Counted(s.count)], order := s.order + [i])
    case Branch(i) =>
      i <= n && s.pc[i].Counted? && s' == s.(pc := s.pc[i := if s.pc[i].was == n + 1 then Won else Over])
    case Fill(i) =>
      i <= n && s.pc[i] == Won &&
      s' == s.(pc := s.pc[i := Filled], filled := if i < n then Some((i, result(i))) else s.filled)
    case Resume(i) =>
      i <= n && s.pc[i] == Filled && s' == s.(pc := s.pc[i := Over], resumes := s.resumes + [i], caller := Clearing)
    case Clear =>
      s.caller == Clearing &&
      s' == if !slot then s.(caller := Returned(s.filled))
            else if s.cell == Handler then s.(caller := Returned(s.filled), cell := Vacant, cleared := true)
            else s.(caller := Judging)
    case Judge => s.caller == Judging && s' == s.(caller := if s.terminated then Threw else Returned(s.filled))
  }

  datatype Run = Launch(s: State) | Then(run: Run, a: Action, s: State)

  ghost predicate IsRun(r: Run, n: nat, slot: bool, result: nat -> Try) {
    match r
    case Launch(s) => Init(s, n, slot)
    case Then(run, a, s') => IsRun(run, n, slot, result) && Next(run.s, a, n, slot, result, s')
  }

  // ---------------------------------------------------------------- the invariant: the counter

  predicate Past(p: Pc) { p.Counted? || p == Won || p == Filled || p == Over }

  /** The k-th fetch_sub saw n + 1 - k; so the first alone sees n + 1. */
  ghost predicate Counting(s: State, n: nat) {
    && |s.pc| == n + 1 && NoDup(s.order) && s.count + |s.order| == n + 1
    && (forall k :: 0 <= k < |s.order| ==> s.order[k] <= n && Past(s.pc[s.order[k]]))
    && (forall i :: 0 <= i <= n && Past(s.pc[i]) ==> i in s.order)
    && (forall k :: 0 <= k < |s.order| && s.pc[s.order[k]].Counted? ==> s.pc[s.order[k]].was == n + 1 - k)
    && (forall k :: 0 < k < |s.order| ==> s.pc[s.order[k]] != Won && s.pc[s.order[k]] != Filled)
  }

  ghost predicate Winner(s: State, n: nat, p: Pc)
    requires Counting(s, n)
  {
    s.order != [] && s.pc[s.order[0]] == p
  }

  /** What the winner has done. */
  ghost predicate Ends(s: State, n: nat, result: nat -> Try)
    requires Counting(s, n)
  {
    && s.resumes == (if Winner(s, n, Over) then [s.order[0]] else [])
    && s.filled == (if (Winner(s, n, Filled) || Winner(s, n, Over)) && s.order[0] < n
                    then Some((s.order[0], result(s.order[0]))) else None)
  }

  // ---------------------------------------------------------------- the invariant: the caller and the slot

  predicate Done(c: Caller) { c.Returned? || c == Threw }

  ghost predicate Phases(s: State) {
    && (!s.launching ==> s.order == [] && s.resumes == [] && forall i :: 0 <= i < |s.pc| ==> s.pc[i] == Away)
    && (s.caller == Checking || s.caller == Suspending ==> !s.launching)
    && (s.launching ==> (s.caller == Waiting <==> s.resumes == []))
    && (s.caller == Waiting ==> s.launching)
  }

  ghost predicate Slots(s: State, n: nat, slot: bool) {
    && |s.pc| == n + 1 && (s.cell == Tag ==> s.terminated) && (s.terminated ==> slot) && (s.cell != Vacant ==> slot)
    && (s.pc[n] != Away ==> s.cell == Tag && s.launching && !s.cleared)
    && (s.cell == Handler ==> s.launching && !s.cleared)
    && (s.launching && slot && !s.cleared ==> s.cell != Vacant)
    && (s.cleared ==> slot && s.launching && s.caller.Returned?)
  }

  ghost predicate Outcome(s: State, n: nat, slot: bool) {
    && (!s.launching && !s.caller.Checking? && !s.caller.Suspending? ==> n == 0 || (slot && s.terminated))
    && (s.launching ==> n > 0)
    && (s.caller == Suspending ==> n > 0)
    && (s.caller == Judging ==> slot && !s.cleared && (s.launching ==> s.cell == Tag))
    && (s.caller == Threw ==> slot && s.terminated && !s.cleared && (s.launching ==> s.cell == Tag))
    && (s.caller.Returned? ==> s.caller.result == s.filled)
    && (s.caller.Returned? && n > 0 ==> s.launching && (slot ==> s.cleared))
  }

  ghost predicate Inv(s: State, n: nat, slot: bool, result: nat -> Try) {
    Counting(s, n) && Ends(s, n, result) && Side(s, n, slot)
  }

  /** The counter is not needed for these. */
  ghost predicate Side(s: State, n: nat, slot: bool) {
    Phases(s) && Slots(s, n, slot) && Outcome(s, n, slot)
  }

  lemma Place(s: State, n: nat, i: nat) returns (k: nat)
    requires Counting(s, n) && i <= n && Past(s.pc[i])
    ensures k < |s.order| && s.order[k] == i
  {
    k :| 0 <= k < |s.order| && s.order[k] == i;
  }

  /** Contenders that are not past the counter do not matter to it. */
  lemma EarlyCounting(s: State, i: nat, p: Pc, n: nat, result: nat -> Try)
    requires Counting(s, n) && Ends(s, n, result) && i <= n && !Past(s.pc[i]) && !Past(p)
    ensures var s' := s.(pc := s.pc[i := p]); Counting(s', n) && Ends(s', n, result)
  {
    assert forall k :: 0 <= k < |s.order| ==> s.order[k] != i;
    hide Past;
  }

  lemma SameCounting(s: State, s': State, n: nat, result: nat -> Try)
    requires Counting(s, n) && Ends(s, n, result) && s'.pc == s.pc && s'.order == s.order && s'.count == s.count
    requires s'.resumes == s.resumes && s'.filled == s.filled
    ensures Counting(s', n) && Ends(s', n, result)
  {}

  lemma DownCounting(s: State, i: nat, s': State, n: nat, result: nat -> Try)
    requires Counting(s, n) && Ends(s, n, result) && i <= n && s.pc[i] == Ready
    requires s.count > 0
    requires s' == s.(count := s.count - 1, pc := s.pc[i := Counted(s.count)], order := s.order + [i])
    ensures Counting(s', n) && Ends(s', n, result)
  {
    hide Ends;
    DownCounts(s, i, s', n);
    DownEnds(s, i, s', n, result);
  }

  lemma DownEnds(s: State, i: nat, s': State, n: nat, result: nat -> Try)
    requires Counting(s, n) && Ends(s, n, result) && i <= n && s.pc[i] == Ready && s.count > 0 && Counting(s', n)
    requires s' == s.(count := s.count - 1, pc := s.pc[i := Counted(s.count)], order := s.order + [i])
    ensures Ends(s', n, result)
  {
    assert s.order != [] ==> s'.order[0] == s.order[0] && s.order[0] != i;
  }

  lemma DownCounts(s: State, i: nat, s': State, n: nat)
    requires Counting(s, n) && i <= n && s.pc[i] == Ready && s.count > 0
    requires s' == s.(count := s.count - 1, pc := s.pc[i := Counted(s.count)], order := s.order + [i])
    ensures Counting(s', n)
  {
    assert i !in s.order;
    assert forall k :: 0 <= k < |s.order| ==> s'.order[k] == s.order[k];
    assert s'.order[|s.order|] == i;
    forall j | 0 <= j <= n && Past(s'.pc[j]) ensures j in s'.order {
      if j != i {
        var k := Place(s, n, j);
        assert s'.order[k] == j;
      }
    }
  }

  lemma DownKeeps(s: State, i: nat, n: nat, slot: bool, result: nat -> Try, s': State)
    requires Inv(s, n, slot, result) && Next(s, Down(i), n, slot, result, s')
    ensures Inv(s', n, slot, result)
  {
    DownCounting(s, i, s', n, result);
    hide Counting, Ends;
  }

  lemma BranchKeeps(s: State, i: nat, n: nat, slot: bool, result: nat -> Try, s': State)
    requires Inv(s, n, slot, result) && Next(s, Branch(i), n, slot, result, s')
    ensures Inv(s', n, slot, result)
  {
    var k := Place(s, n, i);
  }

  lemma WinnerCounting(s: State, a: Action, n: nat, slot: bool, result: nat -> Try, s': State)
    requires Counting(s, n) && Ends(s, n, result) && Next(s, a, n, slot, result, s') && (a.Fill? || a.Resume?)
    ensures Counting(s', n) && Ends(s', n, result)
  {
    var k := Place(s, n, a.i);
  }

  lemma WinnerSide(s: State, a: Action, n: nat, slot: bool, result: nat -> Try, s': State)
    requires Side(s, n, slot) && Next(s, a, n, slot, result, s') && (a.Fill? || a.Resume?)
    requires s.order != [] && s.resumes == [] && a.i <= n
    ensures Side(s', n, slot)
  {}

  lemma WinnerKeeps(s: State, a: Action, n: nat, slot: bool, result: nat -> Try, s': State)
    requires Inv(s, n, slot, result) && Next(s, a, n, slot, result, s') && (a.Fill? || a.Resume?)
    ensures Inv(s', n, slot, result)
  {
    hide Side;
    WinnerCounting(s, a, n, slot, result, s');
    var k := Place(s, n, a.i);
    assert s.order != [] && s.order[0] == a.i && s.resumes == [];
    hide Next, Counting, Ends;
    WinnerSide(s, a, n, slot, result, s');
  }

  lemma StartSide(s: State, a: Action, n: nat, slot: bool, result: nat -> Try, s': State)
    requires Side(s, n, slot) && Next(s, a, n, slot, result, s') && (a.Start? || a.Complete?)
    ensures Side(s', n, slot)
  {}

  lemma VisitSide(s: State, n: nat, slot: bool, result: nat -> Try, s': State)
    requires Side(s, n, slot) && Next(s, Visit, n, slot, result, s')
    ensures Side(s', n, slot)
  {}

  lemma EarlyKeeps(s: State, a: Action, n: nat, slot: bool, result: nat -> Try, s': State)
    requires Inv(s, n, slot, result) && Next(s, a, n, slot, result, s') && (a.Start? || a.Complete? || a.Visit?)
    ensures Inv(s', n, slot, result)
  {
    hide Ends, Counting, Side;
    if a.Visit? {
      VisitSide(s, n, slot, result, s');
    } else {
      StartSide(s, a, n, slot, result, s');
    }
    EarlySteps(s, a, n, slot, result, s');
  }

  lemma EarlySteps(s: State, a: Action, n: nat, slot: bool, result: nat -> Try, s': State)
    requires Counting(s, n) && Ends(s, n, result)
    requires Next(s, a, n, slot, result, s') && (a.Start? || a.Complete? || a.Visit?)
    ensures Counting(s', n) && Ends(s', n, result)
  {
    hide Ends, Counting;
    var i := if a.Start? then s.started else if a.Complete? then a.i else n;
    if !Past(s.pc[i]) {
      EarlyCounting(s, i, s'.pc[i], n, result);
      SameCounting(s.(pc := s.pc[i := s'.pc[i]]), s', n, result);
    } else {
      SameCounting(s, s', n, result);
    }
  }

  lemma CallerSide(s: State, a: Action, n: nat, slot: bool, result: nat -> Try, s': State)
    requires Side(s, n, slot) && Next(s, a, n, slot, result, s')
    requires a.Check? || a.Emplace? || a.Emit? || a.Clear? || a.Judge?
    ensures Side(s', n, slot)
  {}

  lemma CallerKeeps(s: State, a: Action, n: nat, slot: bool, result: nat -> Try, s': State)
    requires Inv(s, n, slot, result) && Next(s, a, n, slot, result, s')
    requires a.Check? || a.Emplace? || a.Emit? || a.Clear? || a.Judge?
    ensures Inv(s', n, slot, result)
  {
    hide Ends, Counting, Side;
    SameCounting(s, s', n, result);
    CallerSide(s, a, n, slot, result, s');
  }

  lemma {:induction false} RunInv(r: Run, n: nat, slot: bool, result: nat -> Try)
    requires IsRun(r, n, slot, result)
    ensures Inv(r.s, n, slot, result)
  {
    if r.Then? {
      RunInv(r.run, n, slot, result);
      match r.a
      case Down(i) => DownKeeps(r.run.s, i, n, slot, result, r.s);
      case Branch(i) => BranchKeeps(r.run.s, i, n, slot, result, r.s);
      case Fill(_) => WinnerKeeps(r.run.s, r.a, n, slot, result, r.s);
      case Resume(_) => WinnerKeeps(r.run.s, r.a, n, slot, result, r.s);
      case Start => EarlyKeeps(r.run.s, r.a, n, slot, result, r.s);
      case Complete(_) => EarlyKeeps(r.run.s, r.a, n, slot, result, r.s);
      case Visit => EarlyKeeps(r.run.s, r.a, n, slot, result, r.s);
      case _ => CallerKeeps(r.run.s, r.a, n, slot, result, r.s);
    }
  }

  // ---------------------------------------------------------------- what it is good for

  /** What the fetch_subs of a run saw, in order. */
  ghost function Saw(r: Run): seq<nat> {
    match r
    case Launch(_) => []
    case Then(run, a, _) => Saw(run) + if a.Down? then [run.s.count] else []
  }

  lemma OneDown(s: State, a: Action, n: nat, slot: bool, result: nat -> Try, s': State)
    requires Next(s, a, n, slot, result, s')
    ensures a.Down? ==> s.count > 0 && s'.count == s.count - 1 && |s'.order| == |s.order| + 1
    ensures !a.Down? ==> s'.count == s.count && |s'.order| == |s.order|
  {}

  /** Every value of the counter is seen by one contender only, from n + 1 down. */
  lemma {:induction false} EachCountOnce(r: Run, n: nat, slot: bool, result: nat -> Try)
    requires IsRun(r, n, slot, result)
    ensures |Saw(r)| == |r.s.order| <= n + 1 && r.s.count == n + 1 - |Saw(r)|
    ensures forall k :: 0 <= k < |Saw(r)| ==> Saw(r)[k] == n + 1 - k
  {
    if r.Then? {
      EachCountOnce(r.run, n, slot, result);
      OneDown(r.run.s, r.a, n, slot, result, r.s);
      hide Next;
      assert Saw(r)[..|Saw(r.run)|] == Saw(r.run);
    }
  }

  /** Exactly one contender resumes the awaiting coroutine, and it is the first at the counter; what it
      leaves in the awaiter is its own result, or nothing if it is the handler. */
  lemma OneWinner(r: Run, n: nat, slot: bool, result: nat -> Try)
    requires IsRun(r, n, slot, result)
    ensures |r.s.resumes| <= 1 && (r.s.resumes != [] ==> r.s.order != [] && r.s.resumes[0] == r.s.order[0] <= n)
    ensures r.s.resumes != [] ==>
      r.s.filled == if r.s.order[0] < n then Some((r.s.order[0], result(r.s.order[0]))) else None
  {
    RunInv(r, n, slot, result);
  }

  /** Only the winner uses the awaiter, and only while the coroutine still waits. */
  lemma OnlyTheWinnerTouches(r: Run, n: nat, slot: bool, result: nat -> Try, a: Action, s': State)
    requires IsRun(r, n, slot, result) && Next(r.s, a, n, slot, result, s') && (a.Fill? || a.Resume?)
    ensures r.s.caller == Waiting && r.s.order != [] && a.i == r.s.order[0]
  {
    RunInv(r, n, slot, result);
    var k := Place(r.s, n, a.i);
  }

  /** Once somebody has come and everybody who came is over, the coroutine has been resumed. */
  lemma SomebodyResumes(r: Run, n: nat, slot: bool, result: nat -> Try)
    requires IsRun(r, n, slot, result) && (exists i :: 0 <= i < |r.s.pc| && r.s.pc[i] == Over)
    requires forall i :: 0 <= i < |r.s.pc| ==> r.s.pc[i] == Over || r.s.pc[i] == Away || r.s.pc[i] == Running
    ensures |r.s.resumes| == 1
  {
    RunInv(r, n, slot, result);
    var i :| 0 <= i < |r.s.pc| && r.s.pc[i] == Over;
    var k := Place(r.s, n, i);
    assert Past(r.s.pc[r.s.order[0]]);
  }

  /** What the caller sees: the winner's result, if and only if an input won and the caller, back again,
      still found the handler in its slot (or has no slot); otherwise the exception. */
  lemma WhatTheCallerSees(r: Run, n: nat, slot: bool, result: nat -> Try)
    requires IsRun(r, n, slot, result) && n > 0 && Done(r.s.caller)
    ensures r.s.caller.Returned? <==> r.s.order != [] && r.s.order[0] < n && (slot ==> r.s.cleared)
    ensures r.s.caller.Returned? ==> r.s.caller.result == Some((r.s.order[0], result(r.s.order[0])))
    ensures r.s.caller == Threw ==> slot && r.s.terminated && (r.s.launching ==> r.s.cell == Tag)
  {
    RunInv(r, n, slot, result);
    var s := r.s;
    if s.caller.Returned? {
      assert s.pc[s.order[0]] == Over;
      assert s.pc[n] == Away;
    }
  }

  lemma Extend(run: Run, a: Action, n: nat, slot: bool, result: nat -> Try, s': State) returns (r: Run)
    requires IsRun(run, n, slot, result) && Next(run.s, a, n, slot, result, s')
    ensures IsRun(r, n, slot, result) && r.s == s'
  {
    r := Then(run, a, s');
  }

  /** One input, with a slot. */
  function One(caller: Caller, pc: Pc, order: seq<nat>): State {
    State(caller, true, 1, if order == [] then 2 else 1, [pc, Away], order, None, [], false, Handler, false)
  }

  lemma InputCompletes(result: nat -> Try) returns (r: Run)
    ensures IsRun(r, 1, true, result) && r.s == One(Waiting, Ready, [])
  {
    var s := State(Checking, false, 0, 2, [Away, Away], [], None, [], false, Vacant, false);
    r := Extend(Launch(s), Check, 1, true, result, s.(caller := Suspending));
    r := Extend(r, Emplace(true), 1, true, result, One(Waiting, Away, []).(started := 0));
    r := Extend(r, Start, 1, true, result, One(Waiting, Running, []));
    r := Extend(r, Complete(0), 1, true, result, One(Waiting, Ready, []));
  }

  lemma InputWins(result: nat -> Try) returns (r: Run)
    ensures IsRun(r, 1, true, result)
    ensures r.s == One(Waiting, Filled, [0]).(filled := Some((0, result(0))))
  {
    r := InputCompletes(result);
    r := Extend(r, Down(0), 1, true, result, One(Waiting, Counted(2), [0]));
    r := Extend(r, Branch(0), 1, true, result, One(Waiting, Won, [0]));
    r := Extend(r, Fill(0), 1, true, result, One(Waiting, Filled, [0]).(filled := Some((0, result(0)))));
  }

  lemma TerminateComes(result: nat -> Try) returns (r: Run)
    ensures IsRun(r, 1, true, result)
    ensures r.s == One(Clearing, Over, [0]).(filled := Some((0, result(0))), resumes := [0], terminated := true,
                                             cell := Tag, pc := [Over, Ready])
  {
    r := InputWins(result);
    var s := One(Clearing, Over, [0]).(filled := Some((0, result(0))), resumes := [0]);
    r := Extend(r, Resume(0), 1, true, result, s);
    r := Extend(r, Emit, 1, true, result, s.(terminated := true));
    r := Extend(r, Visit, 1, true, result, s.(terminated := true, cell := Tag, pc := [Over, Ready]));
  }

  /** An input can win and its result be lost all the same, to a Terminate that comes before the coroutine
      looks at its slot. */
  lemma WinnerCanLose(result: nat -> Try) returns (r: Run)
    ensures IsRun(r, 1, true, result) && r.s.order == [0] && r.s.filled == Some((0, result(0))) && r.s.caller == Threw
  {
    r := TerminateComes(result);
    var s := r.s;
    r := Extend(r, Clear, 1, true, result, s.(caller := Judging));
    r := Extend(r, Judge, 1, true, result, s.(caller := Threw));
  }
}
