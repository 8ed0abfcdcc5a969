/** util::ThreadPool as the interleaving of its atomic loads and of the sections under each queue's mutex:
    any number of callers of scheduleById, the workers, and the destructor. */
module ThreadPool {
  type Pid = nat

  /** `late` says that the item was pushed although the destructor had started. */
  datatype Item = Item(task: nat, canSteal: bool, late: bool)

  datatype Worker =
    | Stealing(n: nat)        // in the loop of try_pop_if
    | Popping                 // pop of its own queue, or blocked in it
    | Running(item: Item)
    | Stopping                // pop returned false
    | Exited

  datatype Caller =
    | Outside
    | Trying(item: Item, n: nat)     // in the loop of try_push
    | Pushing(item: Item, q: nat)

  /** `pushed` and `ran` are histories: what went into each queue, what each worker ran. */
  datatype State = State(
    steal: bool, queues: seq<seq<Item>>, stop: bool, stopped: nat,
    workers: seq<Worker>, callers: map<Pid, Caller>,
    pushed: seq<seq<Item>>, ran: seq<seq<Item>>)
  {
    function Size(): nat { |queues| }

    function Fresh(): Worker { if steal then Stealing(0) else Popping }
  }

  datatype Action =
    | Schedule(p: Pid, task: nat, pinned: bool, q: nat)   // q is the given id, or what rand() gives
    | TryPush(p: Pid, contended: bool, q: nat)
    | Push(p: Pid)
    | TrySteal(w: nat, contended: bool)
    | Pop(w: nat)
    | CheckStop(w: nat)
    | Finish(w: nat)
    | SetStop
    | StopQueue

  ghost predicate Init(s: State) {
    && s.Size() > 0 && |s.workers| == |s.pushed| == |s.ran| == s.Size() && !s.stop && s.stopped == 0
    && (forall q :: 0 <= q < s.Size() ==> s.queues[q] == s.pushed[q] == s.ran[q] == [] && s.workers[q] == s.Fresh())
    && forall p :: p in s.callers ==> s.callers[p] == Outside
  }

  ghost predicate Shape(s: State) {
    s.Size() > 0 && |s.workers| == |s.pushed| == |s.ran| == s.Size()
  }

  // ---------------------------------------------------------------- callers

  function PushOn(s: State, p: Pid, item: Item, q: nat): State
    requires Shape(s) && q < s.Size()
  {
    var x := item.(late := s.stop);
    s.(queues := s.queues[q := s.queues[q] + [x]], pushed := s.pushed[q := s.pushed[q] + [x]],
       callers := s.callers[p := Outside])
  }

  ghost predicate ScheduleStep(s: State, p: Pid, task: nat, pinned: bool, q: nat, s': State)
    requires Shape(s) && p in s.callers
  {
    && s.callers[p] == Outside && q < s.Size()
    && s' == if s.stop then s
             else if !pinned && s.steal then s.(callers := s.callers[p := Trying(Item(task, true, false), 0)])
             else s.(callers := s.callers[p := Pushing(Item(task, false, false), q)])
  }

  ghost predicate TryPushStep(s: State, p: Pid, contended: bool, q: nat, s': State)
    requires Shape(s) && p in s.callers
  {
    && s.callers[p].Trying? && q < s.Size()
    && var Trying(item, n) := s.callers[p];
       s' == if n == 2 * s.Size() then s.(callers := s.callers[p := Pushing(item, q)])
             else if contended then s.(callers := s.callers[p := Trying(item, n + 1)])
             else PushOn(s, p, item, n % s.Size())
  }

  ghost predicate PushStep(s: State, p: Pid, s': State)
    requires Shape(s) && p in s.callers
  {
    s.callers[p].Pushing? && s.callers[p].q < s.Size() && s' == PushOn(s, p, s.callers[p].item, s.callers[p].q)
  }

  // ---------------------------------------------------------------- workers

  function PopFrom(s: State, w: nat, q: nat): State
    requires Shape(s) && w < s.Size() && q < s.Size() && s.queues[q] != []
  {
    s.(queues := s.queues[q := s.queues[q][1..]], workers := s.workers[w := Running(s.queues[q][0])])
  }

  ghost predicate TryStealStep(s: State, w: nat, contended: bool, s': State)
    requires Shape(s) && w < s.Size()
  {
    && s.workers[w].Stealing?
    && var n := s.workers[w].n;
       var q := (w + n) % s.Size();
       s' == if n == 2 * s.Size() then s.(workers := s.workers[w := Popping])
             else if contended || s.queues[q] == [] || !s.queues[q][0].canSteal
             then s.(workers := s.workers[w := Stealing(n + 1)])
             else PopFrom(s, w, q)
  }

  /** pop blocks on an empty queue that is not stopped. */
  ghost predicate PopStep(s: State, w: nat, s': State)
    requires Shape(s) && w < s.Size()
  {
    && s.workers[w].Popping? && (s.queues[w] != [] || w < s.stopped)
    && s' == if s.queues[w] == [] then s.(workers := s.workers[w := Stopping]) else PopFrom(s, w, w)
  }

  ghost predicate CheckStopStep(s: State, w: nat, s': State)
    requires Shape(s) && w < s.Size()
  {
    s.workers[w].Stopping? && s' == s.(workers := s.workers[w := if s.stop then Exited else s.Fresh()])
  }

  ghost predicate FinishStep(s: State, w: nat, s': State)
    requires Shape(s) && w < s.Size()
  {
    && s.workers[w].Running?
    && s' == s.(workers := s.workers[w := s.Fresh()], ran := s.ran[w := s.ran[w] + [s.workers[w].item]])
  }

  ghost predicate Next(s: State, a: Action, s': State)
    requires Shape(s)
  {
    match a
    case Schedule(p, task, pinned, q) => p in s.callers && ScheduleStep(s, p, task, pinned, q, s')
    case TryPush(p, contended, q) => p in s.callers && TryPushStep(s, p, contended, q, s')
    case Push(p) => p in s.callers && PushStep(s, p, s')
    case TrySteal(w, contended) => w < s.Size() && TryStealStep(s, w, contended, s')
    case Pop(w) => w < s.Size() && PopStep(s, w, s')
    case CheckStop(w) => w < s.Size() && CheckStopStep(s, w, s')
    case Finish(w) => w < s.Size() && FinishStep(s, w, s')
    case SetStop => !s.stop && s' == s.(stop := true)
    case StopQueue => s.stop && s.stopped < s.Size() && s' == s.(stopped := s.stopped + 1)
  }

  datatype Run = Start(s: State) | Then(run: Run, a: Action, s: State)

  ghost predicate IsRun(r: Run) {
    match r
    case Start(s) => Init(s)
    case Then(run, a, s') => IsRun(run) && Shape(run.s) && Next(run.s, a, s')
  }

  // ---------------------------------------------------------------- counting

  function Total(xs: seq<seq<Item>>): multiset<Item> {
    if xs == [] then multiset{} else multiset(xs[0]) + Total(xs[1..])
  }

  function Held(ws: seq<Worker>): seq<seq<Item>>
    ensures |Held(ws)| == |ws|
    ensures forall w :: 0 <= w < |ws| ==> Held(ws)[w] == HeldBy(ws[w])
  {
    seq(|ws|, w requires 0 <= w < |ws| => HeldBy(ws[w]))
  }

  function HeldBy(w: Worker): seq<Item> {
    if w.Running? then [w.item] else []
  }

  /** The tasks that only the queue's own worker may take. */
  function Fixed(xs: seq<Item>): seq<Item> {
    if xs == [] then [] else Fixed(xs[..|xs| - 1]) + if xs[|xs| - 1].canSteal then [] else [xs[|xs| - 1]]
  }

  lemma {:induction false} TotalUpdate(xs: seq<seq<Item>>, q: nat, x: seq<Item>)
    requires q < |xs|
    ensures Total(xs[q := x]) + multiset(xs[q]) == Total(xs) + multiset(x)
  {
    var ys := xs[q := x];
    assert Total(ys) == multiset(ys[0]) + Total(ys[1..]);
    if q == 0 {
      assert ys[1..] == xs[1..];
    } else {
      assert ys[1..] == xs[1..][q - 1 := x] && ys[0] == xs[0];
      TotalUpdate(xs[1..], q - 1, x);
      assert Total(ys[1..]) + multiset(xs[1..][q - 1]) == Total(xs[1..]) + multiset(x);
      assert xs[1..][q - 1] == xs[q];
      Shuffle(multiset(xs[0]), Total(ys[1..]), multiset(xs[q]), Total(xs[1..]), multiset(x));
    }
  }

  lemma Shuffle(a: multiset<Item>, b: multiset<Item>, c: multiset<Item>, d: multiset<Item>, e: multiset<Item>)
    requires b + c == d + e
    ensures a + b + c == a + d + e
  {
    assert a + b + c == a + (b + c) && a + d + e == a + (d + e);
  }

  lemma TotalAdd(xs: seq<seq<Item>>, q: nat, x: Item)
    requires q < |xs|
    ensures Total(xs[q := xs[q] + [x]]) == Total(xs) + multiset{x}
  {
    TotalUpdate(xs, q, xs[q] + [x]);
    Cancel(Total(xs[q := xs[q] + [x]]), multiset(xs[q]), Total(xs) + multiset{x});
  }

  lemma TotalDrop(xs: seq<seq<Item>>, q: nat)
    requires q < |xs| && xs[q] != []
    ensures Total(xs) == Total(xs[q := xs[q][1..]]) + multiset{xs[q][0]}
  {
    var rest := xs[q][1..];
    TotalUpdate(xs, q, rest);
    assert xs[q] == [xs[q][0]] + rest;
    Cancel(Total(xs), multiset(rest), Total(xs[q := rest]) + multiset{xs[q][0]});
  }

  lemma Cancel(a: multiset<Item>, b: multiset<Item>, c: multiset<Item>)
    requires a + b == c + b
    ensures a == c
  {
    forall x ensures a[x] == c[x] {
      assert (a + b)[x] == a[x] + b[x] && (c + b)[x] == c[x] + b[x];
    }
  }

  lemma HeldAdd(ws: seq<Worker>, w: nat, x: Item)
    requires w < |ws| && !ws[w].Running?
    ensures Total(Held(ws[w := Running(x)])) == Total(Held(ws)) + multiset{x}
  {
    assert Held(ws)[w] + [x] == [x];
    assert Held(ws[w := Running(x)]) == Held(ws)[w := [x]];
    TotalAdd(Held(ws), w, x);
  }

  lemma HeldDrop(ws: seq<Worker>, w: nat, x: Worker)
    requires w < |ws| && ws[w].Running? && !x.Running?
    ensures Total(Held(ws)) == Total(Held(ws[w := x])) + multiset{ws[w].item}
  {
    assert Held(ws)[w][1..] == [];
    assert Held(ws[w := x]) == Held(ws)[w := []];
    TotalDrop(Held(ws), w);
  }

  lemma HeldSame(ws: seq<Worker>, w: nat, x: Worker)
    requires w < |ws| && !ws[w].Running? && !x.Running?
    ensures Held(ws[w := x]) == Held(ws)
  {}

  lemma {:induction false} FixedPlus(xs: seq<Item>, ys: seq<Item>)
    ensures Fixed(xs + ys) == Fixed(xs) + Fixed(ys)
  {
    if ys == [] {
      assert xs + ys == xs;
    } else {
      var n := |ys| - 1;
      assert (xs + ys)[..|xs| + n] == xs + ys[..n];
      FixedPlus(xs, ys[..n]);
    }
  }

  // ---------------------------------------------------------------- what every step keeps

  /** Nothing is lost, doubled or made up. */
  ghost predicate Conserved(s: State) {
    Total(s.pushed) == Total(s.queues) + Total(Held(s.workers)) + Total(s.ran)
  }

  /** What may not be stolen is run by the queue's own worker, in the order of the pushes. */
  ghost predicate InOrder(s: State, q: nat)
    requires Shape(s) && q < s.Size()
  {
    Fixed(s.pushed[q]) == Fixed(s.ran[q]) + Fixed(HeldBy(s.workers[q])) + Fixed(s.queues[q])
  }

  /** A worker leaves only after the destructor has stopped its queue and the queue is empty; what is in it
      later was pushed too late. */
  ghost predicate Leaving(s: State, w: nat)
    requires Shape(s) && w < s.Size()
  {
    s.workers[w].Stopping? || s.workers[w].Exited? ==>
      w < s.stopped && forall i :: 0 <= i < |s.queues[w]| ==> s.queues[w][i].late
  }

  ghost predicate Inv(s: State) {
    && Shape(s) && Conserved(s) && s.stopped <= s.Size() && (s.stopped > 0 ==> s.stop)
    && (forall q :: 0 <= q < s.Size() ==> InOrder(s, q))
    && (forall w :: 0 <= w < s.Size() ==> Leaving(s, w))
    && (forall p :: p in s.callers && s.callers[p].Pushing? ==> s.callers[p].q < s.Size())
  }

  ghost predicate Orderly(s: State)
    requires Shape(s)
  {
    forall q :: 0 <= q < s.Size() ==> InOrder(s, q) && Leaving(s, q)
  }

  lemma PushCounts(s: State, p: Pid, item: Item, q: nat)
    requires Shape(s) && Conserved(s) && q < s.Size()
    ensures Conserved(PushOn(s, p, item, q))
  {
    TotalAdd(s.queues, q, item.(late := s.stop));
    TotalAdd(s.pushed, q, item.(late := s.stop));
  }

  lemma PushOrder(s: State, p: Pid, item: Item, q: nat)
    requires Shape(s) && Orderly(s) && q < s.Size() && s.stopped <= s.Size() && (s.stopped > 0 ==> s.stop)
    ensures Orderly(PushOn(s, p, item, q))
  {
    var s' := PushOn(s, p, item, q);
    forall i | 0 <= i < s.Size() ensures InOrder(s', i) && Leaving(s', i) {
      assert InOrder(s, i) && Leaving(s, i);
      if i == q {
        PushInOrder(s, p, item, q);
        PushLeaving(s, p, item, q);
      } else {
        hide Fixed, InOrder, Leaving;
        PushElsewhere(s, p, item, q, i);
      }
    }
  }

  lemma PushInOrder(s: State, p: Pid, item: Item, q: nat)
    requires Shape(s) && q < s.Size() && InOrder(s, q)
    ensures InOrder(PushOn(s, p, item, q), q)
  {
    var x := item.(late := s.stop);
    FixedPlus(s.queues[q], [x]);
    FixedPlus(s.pushed[q], [x]);
    Append(Fixed(s.ran[q]) + Fixed(HeldBy(s.workers[q])), Fixed(s.queues[q]), Fixed([x]));
    hide Fixed;
  }

  lemma PushLeaving(s: State, p: Pid, item: Item, q: nat)
    requires Shape(s) && q < s.Size() && s.stopped <= s.Size() && (s.stopped > 0 ==> s.stop) && Leaving(s, q)
    ensures Leaving(PushOn(s, p, item, q), q)
  {}

  lemma PushElsewhere(s: State, p: Pid, item: Item, q: nat, i: nat)
    requires Shape(s) && q < s.Size() && i < s.Size() && i != q && InOrder(s, i) && Leaving(s, i)
    ensures InOrder(PushOn(s, p, item, q), i) && Leaving(PushOn(s, p, item, q), i)
  {
    hide Fixed;
  }

  lemma Append<T>(a: seq<T>, b: seq<T>, c: seq<T>)
    ensures a + b + c == a + (b + c)
  {}

  lemma PushKeeps(s: State, p: Pid, item: Item, q: nat)
    requires Inv(s) && q < s.Size()
    ensures Inv(PushOn(s, p, item, q))
  {
    PushCounts(s, p, item, q);
    PushOrder(s, p, item, q);
  }

  lemma PopCounts(s: State, w: nat, q: nat)
    requires Shape(s) && Conserved(s) && w < s.Size() && q < s.Size() && s.queues[q] != [] && !s.workers[w].Running?
    ensures Conserved(PopFrom(s, w, q))
  {
    TotalDrop(s.queues, q);
    HeldAdd(s.workers, w, s.queues[q][0]);
  }

  /** The head of a queue is taken by its own worker, or it is not fixed. */
  lemma HeadLeaves(ran: seq<Item>, queue: seq<Item>)
    requires queue != []
    ensures queue[0].canSteal ==> Fixed(queue) == Fixed(queue[1..])
    ensures Fixed(ran) + Fixed(queue) == Fixed(ran) + Fixed([queue[0]]) + Fixed(queue[1..])
  {
    assert queue == [queue[0]] + queue[1..];
    FixedPlus([queue[0]], queue[1..]);
    Append(Fixed(ran), Fixed([queue[0]]), Fixed(queue[1..]));
    assert Fixed([queue[0]]) == if queue[0].canSteal then [] else [queue[0]];
  }

  lemma PopOrder(s: State, w: nat, q: nat)
    requires Shape(s) && Orderly(s) && w < s.Size() && q < s.Size() && s.queues[q] != []
    requires !s.workers[w].Running? && (q == w || s.queues[q][0].canSteal)
    ensures Orderly(PopFrom(s, w, q))
  {
    var s' := PopFrom(s, w, q);
    HeadLeaves(s.ran[q], s.queues[q]);
    assert Fixed([]) == [] && (s.queues[q][0].canSteal ==> Fixed([s.queues[q][0]]) == []);
    forall i | 0 <= i < s.Size() ensures InOrder(s', i) && Leaving(s', i) {
      assert InOrder(s, i) && Leaving(s, i);
    }
  }

  lemma PopKeeps(s: State, w: nat, q: nat)
    requires Inv(s) && w < s.Size() && q < s.Size() && s.queues[q] != []
    requires !s.workers[w].Running? && (q == w || s.queues[q][0].canSteal)
    ensures Inv(PopFrom(s, w, q))
  {
    PopCounts(s, w, q);
    PopOrder(s, w, q);
  }

  /** A worker moves on with nothing in its hands. */
  lemma MoveKeeps(s: State, w: nat, x: Worker)
    requires Inv(s) && w < s.Size() && !s.workers[w].Running? && !x.Running?
    requires x.Stopping? || x.Exited? ==>
      w < s.stopped && (s.queues[w] == [] || (Leaving(s, w) && s.workers[w].Stopping?))
    ensures Inv(s.(workers := s.workers[w := x]))
  {
    var s' := s.(workers := s.workers[w := x]);
    HeldSame(s.workers, w, x);
    forall i | 0 <= i < s.Size() ensures InOrder(s', i) && Leaving(s', i) {
      assert InOrder(s, i) && Leaving(s, i);
    }
  }

  lemma FinishCounts(s: State, w: nat, s': State)
    requires Shape(s) && Conserved(s) && w < s.Size() && FinishStep(s, w, s')
    ensures Conserved(s')
  {
    HeldDrop(s.workers, w, s.Fresh());
    TotalAdd(s.ran, w, s.workers[w].item);
  }

  lemma FinishOrder(s: State, w: nat, s': State)
    requires Shape(s) && Orderly(s) && w < s.Size() && FinishStep(s, w, s')
    ensures Orderly(s')
  {
    FixedPlus(s.ran[w], [s.workers[w].item]);
    assert Fixed(HeldBy(s.Fresh())) == [];
    forall i | 0 <= i < s.Size() ensures InOrder(s', i) && Leaving(s', i) {
      assert InOrder(s, i) && Leaving(s, i);
    }
  }

  lemma FinishKeeps(s: State, w: nat, s': State)
    requires Inv(s) && w < s.Size() && FinishStep(s, w, s')
    ensures Inv(s')
  {
    FinishCounts(s, w, s');
    FinishOrder(s, w, s');
  }

  /** Steps that move no task and no worker. */
  lemma QuietKeeps(s: State, s': State)
    requires Inv(s) && s'.queues == s.queues && s'.workers == s.workers && s'.pushed == s.pushed && s'.ran == s.ran
    requires s.stopped <= s'.stopped <= s.Size() && (s'.stopped > 0 ==> s'.stop)
    requires forall p :: p in s'.callers && s'.callers[p].Pushing? ==> s'.callers[p].q < s.Size()
    ensures Inv(s')
  {
    assert forall q :: 0 <= q < s.Size() ==> (InOrder(s, q) ==> InOrder(s', q)) && (Leaving(s, q) ==> Leaving(s', q));
  }

  lemma CallerKeeps(s: State, a: Action, s': State)
    requires Inv(s) && Next(s, a, s') && (a.Schedule? || a.TryPush? || a.Push?)
    ensures Inv(s')
  {
    match a
    case Schedule(_, _, _, _) => QuietKeeps(s, s');
    case TryPush(p, contended, _) =>
      var n := s.callers[p].n;
      if n == 2 * s.Size() || contended {
        QuietKeeps(s, s');
      } else {
        PushKeeps(s, p, s.callers[p].item, n % s.Size());
      }
    case Push(p) => PushKeeps(s, p, s.callers[p].item, s.callers[p].q);
  }

  lemma TryStealKeeps(s: State, w: nat, contended: bool, s': State)
    requires Inv(s) && w < s.Size() && TryStealStep(s, w, contended, s')
    ensures Inv(s')
  {
    var n := s.workers[w].n;
    var q := (w + n) % s.Size();
    if n == 2 * s.Size() || contended || s.queues[q] == [] || !s.queues[q][0].canSteal {
      MoveKeeps(s, w, s'.workers[w]);
    } else {
      PopKeeps(s, w, q);
    }
  }

  lemma StepKeeps(s: State, a: Action, s': State)
    requires Inv(s) && Next(s, a, s')
    ensures Inv(s')
  {
    match a
    case TrySteal(w, contended) => TryStealKeeps(s, w, contended, s');
    case Pop(w) =>
      if s.queues[w] == [] {
        MoveKeeps(s, w, Stopping);
      } else {
        PopKeeps(s, w, w);
      }
    case CheckStop(w) =>
      assert Leaving(s, w);
      MoveKeeps(s, w, s'.workers[w]);
    case Finish(w) => FinishKeeps(s, w, s');
    case SetStop => QuietKeeps(s, s');
    case StopQueue => QuietKeeps(s, s');
    case _ => CallerKeeps(s, a, s');
  }

  lemma {:induction false} TotalOfEmpty(xs: seq<seq<Item>>)
    requires forall q :: 0 <= q < |xs| ==> xs[q] == []
    ensures Total(xs) == multiset{}
  {
    if xs != [] {
      TotalOfEmpty(xs[1..]);
    }
  }

  lemma {:induction false} RunInv(r: Run)
    requires IsRun(r)
    ensures Inv(r.s)
  {
    match r
    case Start(s) =>
      TotalOfEmpty(s.queues);
      TotalOfEmpty(s.pushed);
      TotalOfEmpty(s.ran);
      TotalOfEmpty(Held(s.workers));
    case Then(run, a, s') =>
      RunInv(run);
      StepKeeps(run.s, a, s');
  }

  // ---------------------------------------------------------------- what it is good for

  /** At any time every task that was pushed is in one queue, in the hands of one worker, or was run, as
      often as it was pushed. */
  lemma EveryTaskOnce(r: Run)
    requires IsRun(r)
    ensures Total(r.s.pushed) == Total(r.s.queues) + Total(Held(r.s.workers)) + Total(r.s.ran)
  {
    RunInv(r);
  }

  /** Tasks given an id, and all tasks without work stealing, run on that worker alone, in push order. */
  lemma PinnedInOrder(r: Run, q: nat)
    requires IsRun(r) && Shape(r.s) && q < r.s.Size()
    ensures Fixed(r.s.ran[q]) + Fixed(HeldBy(r.s.workers[q])) <= Fixed(r.s.pushed[q])
  {
    RunInv(r);
    assert InOrder(r.s, q);
  }

  lemma {:induction false} NotAnywhere(xs: seq<seq<Item>>, x: Item)
    requires forall q :: 0 <= q < |xs| ==> x !in xs[q]
    ensures Total(xs)[x] == 0
  {
    if xs != [] {
      NotAnywhere(xs[1..], x);
    }
  }

  /** When the workers have left, everything pushed before the destructor started has been run, exactly
      as often as it was pushed. */
  lemma AllRun(r: Run, x: Item)
    requires IsRun(r) && !x.late && forall w :: 0 <= w < |r.s.workers| ==> r.s.workers[w].Exited?
    ensures Total(r.s.ran)[x] == Total(r.s.pushed)[x]
  {
    RunInv(r);
    var s := r.s;
    forall q | 0 <= q < s.Size() ensures x !in s.queues[q] {
      assert Leaving(s, q);
    }
    NotAnywhere(s.queues, x);
    TotalOfEmpty(Held(s.workers));
  }

  // ---------------------------------------------------------------- the workers come to an end

  /** The stealing loop has two rounds over all queues. */
  ghost predicate Loops(s: State) {
    forall w :: 0 <= w < |s.workers| && s.workers[w].Stealing? ==> s.workers[w].n <= 2 * s.Size()
  }

  lemma StepLoops(s: State, a: Action, s': State)
    requires Shape(s) && Loops(s) && Next(s, a, s')
    ensures Loops(s')
  {
    if a.TrySteal? && s'.workers != s.workers {
      assert s.workers[a.w].n <= 2 * s.Size() && s'.Size() == s.Size();
    }
  }

  lemma {:induction false} RunLoops(r: Run)
    requires IsRun(r)
    ensures Loops(r.s)
  {
    if r.Then? {
      RunLoops(r.run);
      StepLoops(r.run.s, r.a, r.s);
    }
  }

  /** How many turns a worker may still have before it pops or leaves; n is the number of queues. */
  function Rank(w: Worker, n: nat): nat {
    match w
    case Exited => 0
    case Stopping => 1
    case Popping => 2
    case Stealing(k) => 3 + if k <= 2 * n then 2 * n - k else 0
    case Running(_) => 4 + 2 * n
  }

  function Ranks(ws: seq<Worker>, n: nat): nat {
    if ws == [] then 0 else Rank(ws[0], n) + Ranks(ws[1..], n)
  }

  /** Each queued item costs k. */
  function Cost(q: seq<Item>, k: nat): nat {
    if q == [] then 0 else k + Cost(q[1..], k)
  }

  function Costs(qs: seq<seq<Item>>, k: nat): nat {
    if qs == [] then 0 else Cost(qs[0], k) + Costs(qs[1..], k)
  }

  /** What is left to do for the workers. */
  function Work(s: State): nat {
    Costs(s.queues, 5 + 2 * s.Size()) + Ranks(s.workers, s.Size())
  }

  lemma {:induction false} RanksUpdate(ws: seq<Worker>, w: nat, x: Worker, n: nat)
    requires w < |ws|
    ensures Ranks(ws[w := x], n) + Rank(ws[w], n) == Ranks(ws, n) + Rank(x, n)
  {
    hide Rank;
    if w == 0 {
      assert ws[w := x][1..] == ws[1..];
    } else {
      assert ws[w := x][1..] == ws[1..][w - 1 := x];
      RanksUpdate(ws[1..], w - 1, x, n);
    }
  }

  lemma {:induction false} CostsPop(qs: seq<seq<Item>>, q: nat, k: nat)
    requires q < |qs| && qs[q] != []
    ensures Costs(qs[q := qs[q][1..]], k) + k == Costs(qs, k)
  {
    var x := qs[q][1..];
    if q == 0 {
      assert qs[q := x][1..] == qs[1..];
    } else {
      assert qs[q := x][1..] == qs[1..][q - 1 := x];
      CostsPop(qs[1..], q - 1, k);
    }
  }

  predicate ByWorker(a: Action) {
    a.TrySteal? || a.Pop? || a.CheckStop? || a.Finish?
  }

  /** A worker's turn that pops nothing. */
  lemma TurnShrinks(s: State, w: nat, x: Worker, s': State)
    requires Shape(s) && w < s.Size() && s'.queues == s.queues && s'.workers == s.workers[w := x]
    requires Rank(x, s.Size()) < Rank(s.workers[w], s.Size())
    ensures Work(s') < Work(s)
  {
    RanksUpdate(s.workers, w, x, s.Size());
  }

  lemma PopShrinks(s: State, w: nat, q: nat)
    requires Shape(s) && w < s.Size() && q < s.Size() && s.queues[q] != []
    requires s.workers[w].Popping? || s.workers[w].Stealing?
    ensures Work(PopFrom(s, w, q)) < Work(s)
  {
    RanksUpdate(s.workers, w, Running(s.queues[q][0]), s.Size());
    CostsPop(s.queues, q, 5 + 2 * s.Size());
  }

  lemma TryStealShrinks(s: State, w: nat, contended: bool, s': State)
    requires Shape(s) && w < s.Size() && TryStealStep(s, w, contended, s') && s.workers[w].n <= 2 * s.Size()
    ensures Work(s') < Work(s)
  {
    hide Work;
    var n := s.workers[w].n;
    var q := (w + n) % s.Size();
    if n == 2 * s.Size() || contended || s.queues[q] == [] || !s.queues[q][0].canSteal {
      TurnShrinks(s, w, s'.workers[w], s');
    } else {
      PopShrinks(s, w, q);
    }
  }

  /** Once the destructor has stopped the queues, every turn of a worker leaves less to do. */
  lemma WorkerShrinks(s: State, a: Action, s': State)
    requires Inv(s) && Loops(s) && Next(s, a, s') && ByWorker(a) && s.stopped == s.Size()
    ensures Work(s') < Work(s)
  {
    hide Work, Conserved, InOrder, Leaving;
    match a
    case TrySteal(w, contended) => TryStealShrinks(s, w, contended, s');
    case Pop(w) =>
      if s.queues[w] == [] {
        TurnShrinks(s, w, Stopping, s');
      } else {
        PopShrinks(s, w, w);
      }
    case CheckStop(w) => TurnShrinks(s, w, Exited, s');
    case Finish(w) => TurnShrinks(s, w, s.Fresh(), s');
  }

  /** Whoever else acts leaves it as it is, unless he pushes. */
  lemma OthersLeaveWork(s: State, a: Action, s': State)
    requires Shape(s) && Next(s, a, s') && !ByWorker(a) && s'.pushed == s.pushed
    ensures Work(s') == Work(s)
  {
    hide Work;
    QueuesOnlyByPush(s, a, s');
    SameWork(s, s');
  }

  lemma QueuesOnlyByPush(s: State, a: Action, s': State)
    requires Shape(s) && Next(s, a, s') && !ByWorker(a)
    ensures s'.workers == s.workers && (s'.queues == s.queues || s'.pushed != s.pushed)
  {
    if a.Push? {
      PushShows(s, a.p, s.callers[a.p].item, s.callers[a.p].q);
    } else if a.TryPush? && s.callers[a.p].n != 2 * s.Size() && !a.contended {
      PushShows(s, a.p, s.callers[a.p].item, s.callers[a.p].n % s.Size());
    }
  }

  lemma PushShows(s: State, p: Pid, item: Item, q: nat)
    requires Shape(s) && q < s.Size()
    ensures PushOn(s, p, item, q).pushed != s.pushed
  {
    assert |PushOn(s, p, item, q).pushed[q]| == |s.pushed[q]| + 1;
  }

  lemma SameWork(s: State, s': State)
    requires s'.queues == s.queues && s'.workers == s.workers
    ensures Work(s') == Work(s)
  {}

  /** `r` goes on from `r0` without a push. */
  ghost predicate Continues(r: Run, r0: Run) {
    r == r0 || (r.Then? && Continues(r.run, r0) && r.s.pushed == r.run.s.pushed)
  }

  /** The workers' turns since `r0`. */
  ghost function Turns(r: Run, r0: Run): nat {
    if r == r0 || r.Start? then 0 else Turns(r.run, r0) + if ByWorker(r.a) then 1 else 0
  }

  lemma StepKeepsStopped(s: State, a: Action, s': State)
    requires Shape(s) && Next(s, a, s') && s.stopped == s.Size()
    ensures s'.Size() == s.Size() && s'.stopped == s.stopped
  {}

  lemma {:induction false} StaysStopped(r: Run, r0: Run)
    requires IsRun(r) && Continues(r, r0) && Shape(r0.s) && r0.s.stopped == r0.s.Size()
    ensures r.s.Size() == r0.s.Size() && r.s.stopped == r.s.Size()
  {
    hide Inv, Next;
    if r != r0 {
      StaysStopped(r.run, r0);
      StepKeepsStopped(r.run.s, r.a, r.s);
    }
  }

  /** After the destructor has stopped the queues, and while nobody pushes, the workers have at most as many
      turns as there is work; with those of WorkersLeave this is how each of them comes to its exit. */
  lemma {:induction false} WorkersFinish(r: Run, r0: Run)
    requires IsRun(r) && Continues(r, r0) && Shape(r0.s) && r0.s.stopped == r0.s.Size()
    ensures Turns(r, r0) + Work(r.s) <= Work(r0.s)
  {
    hide Work, Next;
    if r != r0 {
      WorkersFinish(r.run, r0);
      StaysStopped(r.run, r0);
      RunInv(r.run);
      RunLoops(r.run);
      if ByWorker(r.a) {
        WorkerShrinks(r.run.s, r.a, r.s);
      } else {
        OthersLeaveWork(r.run.s, r.a, r.s);
      }
    }
  }

  /** No worker leaves the pool, and pop never returns false, before the destructor has started; and once
      it has stopped every queue no worker is stuck. */
  lemma WorkersLeave(r: Run, w: nat)
    requires IsRun(r) && Shape(r.s) && w < r.s.Size()
    ensures r.s.workers[w].Stopping? || r.s.workers[w].Exited? ==> r.s.stop
    ensures r.s.stopped == r.s.Size() && !r.s.workers[w].Exited? ==> CanMove(r.s, w)
  {
    RunInv(r);
    assert Leaving(r.s, w);
    if r.s.stopped == r.s.Size() && !r.s.workers[w].Exited? {
      var a, s' := WorkerStep(r.s, w);
    }
  }

  ghost predicate CanMove(s: State, w: nat)
    requires Shape(s) && w < s.Size()
  {
    exists a, s' :: Next(s, a, s') && ByWorker(a) && |s'.workers| == s.Size() && s'.workers[w] != s.workers[w]
  }

  lemma WorkerStep(s: State, w: nat) returns (a: Action, s': State)
    requires Inv(s) && w < s.Size() && s.stopped == s.Size() && !s.workers[w].Exited?
    ensures Next(s, a, s') && ByWorker(a) && |s'.workers| == s.Size() && s'.workers[w] != s.workers[w]
  {
    hide Conserved, InOrder, Leaving;
    match s.workers[w] {
      case Stealing(n) =>
        a := TrySteal(w, true);
        s' := s.(workers := s.workers[w := if n == 2 * s.Size() then Popping else Stealing(n + 1)]);
      case Popping =>
        a := Pop(w);
        s' := if s.queues[w] == [] then s.(workers := s.workers[w := Stopping]) else PopFrom(s, w, w);
      case Running(item) =>
        a := Finish(w);
        s' := s.(workers := s.workers[w := s.Fresh()], ran := s.ran[w := s.ran[w] + [item]]);
      case Stopping =>
        a := CheckStop(w);
        s' := s.(workers := s.workers[w := Exited]);
    }
  }
}
