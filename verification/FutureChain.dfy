/** thenTry and thenValue: a chain of callbacks on a future must end with what direct composition gives,
    whatever the order in which callbacks are attached, promises fulfilled and continuations run, and
    whether a future holds its result itself or shares a state.

    The lambdas that thenImpl stores are named: Relay(i) calls the i-th callback and settles the i-th
    promise, Forward(i) passes on the result of the future that the i-th callback returned. */
module FutureChain {
  import opened Options

  datatype Try = Value(v: int) | Error(e: int)

  /** What a callback does with the Try it is given. */
  datatype Reply =
    | Returns(v: int)
    | Throws(e: int)
    | ReturnsReady(t: Try)     // a future that holds its result itself
    | ReturnsLater             // a future whose promise is fulfilled some time

  type Callback = Try -> Reply

  /** A callback of thenValue: `t.value()` rethrows before the user's function is called. */
  function ThenValue(f: int -> Reply): Callback {
    (t: Try) => match t case Error(e) => Throws(e) case Value(v) => f(v)
  }

  // ---------------------------------------------------------------- direct composition

  /** `later` is what a future returned by the callback, if it returns one, is fulfilled with. */
  function Apply(c: Callback, t: Try, later: Try): Try {
    match c(t)
    case Returns(v) => Value(v)
    case Throws(e) => Error(e)
    case ReturnsReady(t') => t'
    case ReturnsLater => later
  }

  /** The first n callbacks, one after the other. */
  function Direct(start: Try, callback: nat -> Callback, later: nat -> Try, n: nat): Try {
    if n == 0 then start else Apply(callback(n), Direct(start, callback, later, n - 1), later(n))
  }

  /** Once an exception is on its way, thenValue callbacks do not see it and do not change it. */
  lemma {:induction false} ErrorsSkipThenValue(
      start: Try, callback: nat -> Callback, later: nat -> Try, n: nat, m: nat, f: nat -> int -> Reply)
    requires n <= m && Direct(start, callback, later, n).Error?
    requires forall i :: n < i <= m ==> callback(i) == ThenValue(f(i))
    ensures Direct(start, callback, later, m) == Direct(start, callback, later, n)
    decreases m
  {
    if n < m {
      ErrorsSkipThenValue(start, callback, later, n, m - 1, f);
      assert callback(m) == ThenValue(f(m));
    }
  }

  // ---------------------------------------------------------------- the shared states

  /** The shared states of a chain: Link(i) is the one between the i-th thenImpl's promise and future,
      Later(i) that of the future the i-th callback returns, Later(0) that of the first future. */
  datatype Cell = Link(i: nat) | Later(i: nat)

  datatype Future = Local(t: Try) | Shared(c: Cell)

  datatype Continuation = Relay(i: nat) | Forward(i: nat)

  /** A continuation that was handed its result; an executor runs it when it likes. */
  datatype Task = Task(k: Continuation, t: Try)

  /** What the callbacks of a chain do, from the first on, and how its promises are fulfilled. */
  datatype Plan = Plan(start: Try, callback: nat -> Callback, later: nat -> Try) {
    function Stage(n: nat): Try {
      Direct(start, callback, later, n)
    }

    function Meaning(c: Cell): Try {
      match c case Later(i) => later(i) case Link(i) => Stage(i)
    }
  }

  datatype State = State(
    attached: nat,
    tail: Future,                     // what the last thenTry returned
    result: map<Cell, Try>,           // the `_try_value` of every cell that has one
    stored: map<Cell, Continuation>,  // the `_continuation` of every cell that waits with one
    scheduled: map<nat, Task>,        // by the promise they carry
    links: set<nat>,                  // the i whose thenImpl made a promise
    place: map<nat, Cell>,            // where the continuation with the i-th promise was stored last
    called: set<nat>                  // the callbacks that have been called
  ) {
    ghost predicate ResultsOk(p: Plan) {
      forall c :: c in result ==> result[c] == p.Meaning(c) && (c.Link? ==> c.i in links && c.i in called)
    }

    /** What a continuation and the cell it is set on have to do with each other. */
    ghost predicate Fits(p: Plan, c: Cell, k: Continuation) {
      && (c.Link? ==> c.i in links)
      && match k
         case Relay(i) => i == c.i + 1 && p.Meaning(c) == p.Stage(c.i) && i !in called && (c.Later? ==> c.i !in links)
         case Forward(i) => c == Later(i) && p.later(i) == p.Stage(i) && i in called
    }

    ghost predicate StoredAt(p: Plan, c: Cell, k: Continuation) {
      && Fits(p, c, k) && c !in result && k.i in links && Link(k.i) !in result && k.i !in scheduled
      && k.i in place && place[k.i] == c
    }

    ghost predicate StoredOk(p: Plan) {
      forall c :: c in stored ==> StoredAt(p, c, stored[c])
    }

    ghost predicate ScheduledAs(p: Plan, i: nat, a: Task) {
      && a.k.i == i && i in links && Link(i) !in result
      && if a.k.Relay? then 1 <= i && a.t == p.Stage(i - 1) && i !in called else a.t == p.Stage(i) && i in called
    }

    ghost predicate ScheduledOk(p: Plan) {
      forall i :: i in scheduled ==> ScheduledAs(p, i, scheduled[i])
    }

    ghost predicate IsStored(i: nat) {
      i in place && place[i] in stored && stored[place[i]].i == i
    }

    /** Every promise is settled, or carried by one continuation, except the one in the running task. */
    ghost predicate Covered(running: set<nat>) {
      && (forall i :: i in links ==>
            1 <= i <= attached && (i in running || Link(i) in result || i in scheduled || IsStored(i)))
      && (forall i :: i in running ==> i in links && i !in scheduled && Link(i) !in result)
      && (forall c :: c in stored ==> stored[c].i !in running)
      && (forall i :: 1 <= i <= attached ==> i in links || i in called)
      && (forall i :: i in called ==> i <= attached)
    }

    ghost predicate TailOk(p: Plan) {
      match tail
      case Local(t) => t == p.Stage(attached)
      case Shared(c) =>
        && c.i == attached && c !in stored && p.Meaning(c) == p.Stage(attached)
        && if c.Link? then c.i in links else c.i !in links
    }

    ghost predicate Valid(p: Plan, running: set<nat>) {
      ResultsOk(p) && StoredOk(p) && ScheduledOk(p) && Covered(running) && TailOk(p)
    }

    /** The future at the end of the chain has a result. */
    ghost predicate Ready() {
      match tail case Local(_) => true case Shared(c) => c in result
    }

    /** Every promise has been fulfilled and every continuation has run. */
    ghost predicate Quiet() {
      scheduled == map[] && forall i :: 0 <= i <= attached ==> Later(i) in result
    }
  }

  // ---------------------------------------------------------------- what a chain ends with

  lemma {:induction false} LinksSettle(p: Plan, s: State, i: nat)
    requires s.Valid(p, {}) && s.Quiet() && i in s.links
    ensures Link(i) in s.result
  {
    if Link(i) !in s.result {
      var c := s.place[i];
      assert s.IsStored(i) && s.StoredAt(p, c, s.stored[c]);
      if c.Link? {
        LinksSettle(p, s, c.i);
      }
    }
  }

  /** Then the last future has the result of direct composition, and every callback has been called. */
  lemma {:induction false} ChainsEnd(p: Plan, s: State)
    requires s.Valid(p, {}) && s.Quiet()
    ensures s.Ready() && s.stored == map[]
    ensures forall i :: 1 <= i <= s.attached ==> i in s.called
  {
    forall i | i in s.links ensures Link(i) in s.result {
      LinksSettle(p, s, i);
    }
    assert forall c :: c !in s.stored;
  }

  // ---------------------------------------------------------------- one change at a time

  lemma SettleKeeps(p: Plan, s: State, c: Cell, t: Try, s': State)
    requires s.Valid(p, if c.Link? then {c.i} else {}) && c !in s.result && t == p.Meaning(c)
    requires c.Link? ==> c.i in s.links && c.i in s.called
    requires c !in s.stored && s' == s.(result := s.result[c := t])
    ensures s'.Valid(p, {})
  {
    forall d | d in s'.stored ensures s'.StoredAt(p, d, s'.stored[d]) {
      assert s.StoredAt(p, d, s.stored[d]);
    }
    forall i | i in s'.scheduled ensures s'.ScheduledAs(p, i, s'.scheduled[i]) {
      assert s.ScheduledAs(p, i, s.scheduled[i]);
    }
    assert forall i :: s.IsStored(i) ==> s'.IsStored(i);
  }

  /** A stored continuation is handed the result. */
  lemma ScheduleKeeps(p: Plan, s: State, running: set<nat>, c: Cell, s': State)
    requires s.Valid(p, running) && c in s.stored
    requires var k := s.stored[c];
             s' == s.(stored := s.stored - {c}, scheduled := s.scheduled[k.i := Task(k, p.Meaning(c))])
    ensures s'.Valid(p, running)
  {
    var k := s.stored[c];
    assert s.StoredAt(p, c, k);
    forall d | d in s'.stored ensures s'.StoredAt(p, d, s'.stored[d]) {
      assert s.StoredAt(p, d, s.stored[d]);
    }
    forall i | i in s'.scheduled ensures s'.ScheduledAs(p, i, s'.scheduled[i]) {
      assert i != k.i ==> s.ScheduledAs(p, i, s.scheduled[i]);
    }
    assert forall i :: s.IsStored(i) && i != k.i ==> s'.IsStored(i);
  }

  /** A continuation set on a cell that has its result already. */
  lemma HandKeeps(p: Plan, s: State, c: Cell, k: Continuation, s': State)
    requires s.Valid(p, {k.i}) && s.Fits(p, c, k) && c in s.result
    requires s' == s.(scheduled := s.scheduled[k.i := Task(k, s.result[c])])
    ensures s'.Valid(p, {})
  {
    forall d | d in s'.stored ensures s'.StoredAt(p, d, s'.stored[d]) {
      assert s.StoredAt(p, d, s.stored[d]);
    }
    forall i | i in s'.scheduled ensures s'.ScheduledAs(p, i, s'.scheduled[i]) {
      assert i != k.i ==> s.ScheduledAs(p, i, s.scheduled[i]);
    }
    assert forall i :: s.IsStored(i) ==> s'.IsStored(i);
  }

  lemma StoreKeeps(p: Plan, s: State, c: Cell, k: Continuation, s': State)
    requires s.Valid(p, {k.i}) && s.Fits(p, c, k) && c !in s.stored && s.tail != Shared(c) && c !in s.result
    requires s' == s.(stored := s.stored[c := k], place := s.place[k.i := c])
    ensures s'.Valid(p, {})
  {
    hide Plan.Meaning, Plan.Stage;
    forall d | d in s'.stored ensures s'.StoredAt(p, d, s'.stored[d]) {
      assert d != c ==> s.StoredAt(p, d, s.stored[d]);
    }
    forall i | i in s'.scheduled ensures s'.ScheduledAs(p, i, s'.scheduled[i]) {
      assert s.ScheduledAs(p, i, s.scheduled[i]);
    }
    assert forall i :: s.IsStored(i) && i != k.i ==> s'.IsStored(i);
  }

  /** A task leaves the executor's queue and the callback it holds, if any, is called. */
  lemma TakeKeeps(p: Plan, s: State, i: nat, s': State)
    requires s.Valid(p, {}) && i in s.scheduled
    requires s' == s.(scheduled := s.scheduled - {i}, called := s.called + {i})
    ensures s'.Valid(p, {i}) && s.ScheduledAs(p, i, s.scheduled[i])
  {
    forall d | d in s'.stored ensures s'.StoredAt(p, d, s'.stored[d]) && s'.stored[d].i != i {
      assert s.StoredAt(p, d, s.stored[d]);
    }
    forall j | j in s'.scheduled ensures s'.ScheduledAs(p, j, s'.scheduled[j]) {
      assert s.ScheduledAs(p, j, s.scheduled[j]);
    }
    assert forall j :: s.IsStored(j) ==> s'.IsStored(j);
  }

  /** While its promise is in the running task, the future that the callback returned is touched by nobody. */
  lemma LaterIsFree(p: Plan, s: State, i: nat)
    requires s.Valid(p, {i})
    ensures Later(i) !in s.stored && s.tail != Shared(Later(i))
  {
    assert i in s.links;
    forall c | c in s.stored ensures c != Later(i) {
      assert s.StoredAt(p, c, s.stored[c]);
    }
  }

  /** thenImpl makes a promise that is not in any continuation yet. */
  lemma PromiseKeeps(p: Plan, s: State, s': State)
    requires s.Valid(p, {}) && s.tail.Shared?
    requires var n := s.attached + 1; s' == s.(attached := n, links := s.links + {n}, tail := Shared(Link(n)))
    ensures s'.Valid(p, {s.attached + 1}) && s'.Fits(p, s.tail.c, Relay(s.attached + 1))
  {
    var n := s.attached + 1;
    assert n !in s.links;
    forall d | d in s'.stored ensures s'.StoredAt(p, d, s'.stored[d]) && d != Link(n) && s'.stored[d].i != n {
      assert s.StoredAt(p, d, s.stored[d]);
    }
    forall j | j in s'.scheduled ensures s'.ScheduledAs(p, j, s'.scheduled[j]) {
      assert s.ScheduledAs(p, j, s.scheduled[j]);
    }
    assert forall j :: s.IsStored(j) ==> s'.IsStored(j);
  }

  /** A callback that thenImpl calls at once. */
  lemma CallKeeps(p: Plan, s: State, tail: Future, s': State)
    requires s.Valid(p, {}) && s.tail.Local?
    requires tail == match p.callback(s.attached + 1)(s.tail.t)
      case Returns(v) => Local(Value(v))
      case Throws(e) => Local(Error(e))
      case ReturnsReady(t') => Local(t')
      case ReturnsLater => Shared(Later(s.attached + 1))
    requires var n := s.attached + 1; s' == s.(attached := n, called := s.called + {n}, tail := tail)
    ensures s'.Valid(p, {})
  {
    var n := s.attached + 1;
    assert n !in s.links;
    forall d | d in s'.stored ensures s'.StoredAt(p, d, s'.stored[d]) && d != Later(n) {
      assert s.StoredAt(p, d, s.stored[d]);
    }
    forall j | j in s'.scheduled ensures s'.ScheduledAs(p, j, s'.scheduled[j]) {
      assert s.ScheduledAs(p, j, s.scheduled[j]);
    }
    assert forall j :: s.IsStored(j) ==> s'.IsStored(j);
  }

  class Chain {
    const plan: Plan
    var attached: nat
    var tail: Future
    var result: map<Cell, Try>
    var stored: map<Cell, Continuation>
    var scheduled: map<nat, Task>
    ghost var links: set<nat>
    ghost var place: map<nat, Cell>
    ghost var called: set<nat>

    ghost function Abs(): State
      reads this
    {
      State(attached, tail, result, stored, scheduled, links, place, called)
    }

    ghost predicate Valid()
      reads this
    {
      Abs().Valid(plan, {})
    }

    /** A ready future, or the future of a promise that is fulfilled some time. */
    constructor (ready: Option<Try>, callback: nat -> Callback, later: nat -> Try)
      ensures Valid() && attached == 0 && result == map[] && called == {}
      ensures plan == Plan(if ready.Some? then ready.value else later(0), callback, later)
      ensures tail == if ready.Some? then Local(ready.value) else Shared(Later(0))
    {
      attached, result, stored, scheduled, links, place, called := 0, map[], map[], map[], {}, map[], {};
      plan := Plan(if ready.Some? then ready.value else later(0), callback, later);
      tail := if ready.Some? then Local(ready.value) else Shared(Later(0));
    }

    /** Promise::setValue: a continuation that waits is handed the result. */
    method Settle(c: Cell, t: Try)
      requires Abs().Valid(plan, if c.Link? then {c.i} else {}) && c !in result && t == plan.Meaning(c)
      requires c.Link? ==> c.i in links && c.i in called
      modifies this`result, this`stored, this`scheduled
      ensures Valid() && result == old(result)[c := t]
    {
      ghost var s := Abs();
      ghost var mid := s;
      result := result[c := t];
      if c in stored {
        var k := stored[c];
        stored := stored - {c};
        scheduled := scheduled[k.i := Task(k, t)];
        mid := s.(stored := stored, scheduled := scheduled);
        ScheduleKeeps(plan, s, if c.Link? then {c.i} else {}, c, mid);
      }
      SettleKeeps(plan, mid, c, t, Abs());
    }

    /** FutureState::setContinuation. */
    method SetContinuation(c: Cell, k: Continuation)
      requires Abs().Valid(plan, {k.i}) && Abs().Fits(plan, c, k) && c !in stored && tail != Shared(c)
      modifies this`stored, this`scheduled, this`place
      ensures Valid()
    {
      ghost var s := Abs();
      if c in result {
        scheduled := scheduled[k.i := Task(k, result[c])];
        HandKeeps(plan, s, c, k, Abs());
      } else {
        stored, place := stored[c := k], place[k.i := c];
        StoreKeeps(plan, s, c, k, Abs());
      }
    }

    /** thenTry, and thenValue when the callback is ThenValue of the user's function: on a future that holds
        its result the callback is called at once, on a shared state it becomes part of a continuation. */
    method Then()
      requires Valid()
      modifies this
      ensures Valid() && attached == old(attached) + 1 && result == old(result)
      ensures called == if old(tail).Local? then old(called) + {attached} else old(called)
    {
      hide State.ResultsOk, State.StoredOk, State.ScheduledOk, State.Covered, State.StoredAt;
      ghost var s := Abs();
      attached := attached + 1;
      match tail
      case Local(t) =>
        called := called + {attached};
        tail := match plan.callback(attached)(t)
          case Returns(v) => Local(Value(v))
          case Throws(e) => Local(Error(e))
          case ReturnsReady(t') => Local(t')
          case ReturnsLater => Shared(Later(attached));
        CallKeeps(plan, s, tail, Abs());
      case Shared(c) =>
        links := links + {attached};
        tail := Shared(Link(attached));
        PromiseKeeps(plan, s, Abs());
        SetContinuation(c, Relay(attached));
    }

    /** The first future's promise, or that of a future returned by a callback, is fulfilled. */
    method Fulfil(i: nat)
      requires Valid() && Later(i) !in result
      modifies this`result, this`stored, this`scheduled
      ensures Valid() && result == old(result)[Later(i) := plan.later(i)]
    {
      Settle(Later(i), plan.later(i));
    }

    /** A scheduled continuation runs: the lambdas of thenImpl.  The first to run for a promise calls the
        callback with the result of the stage before; if it does not settle the promise, a second one does. */
    method Run(i: nat)
      requires Valid() && i in scheduled
      modifies this
      ensures Valid() && attached == old(attached) && tail == old(tail) && called == old(called) + {i}
      ensures old(scheduled[i].k).Relay? ==> i !in old(called) && 1 <= i && old(scheduled[i].t) == plan.Stage(i - 1)
      ensures old(scheduled[i].k).Forward? ==> i in old(called) && Link(i) !in old(result) && Link(i) in result
      ensures forall c :: c in old(result) ==> c in result
    {
      hide State.ResultsOk, State.StoredOk, State.ScheduledOk, State.Covered, State.TailOk, State.StoredAt;
      ghost var s := Abs();
      var Task(k, t) := scheduled[i];
      scheduled := scheduled - {i};
      called := called + {i};
      TakeKeeps(plan, s, i, Abs());
      LaterIsFree(plan, Abs(), i);
      match k
      case Forward(_) => Settle(Link(i), t);
      case Relay(_) =>
        match plan.callback(i)(t)
        case Returns(v) => Settle(Link(i), Value(v));
        case Throws(e) => Settle(Link(i), Error(e));
        case ReturnsReady(t') => Settle(Link(i), t');
        case ReturnsLater => SetContinuation(Later(i), Forward(i));
    }

    /** hasResult and getTry of the future at the end of the chain. */
    method Result() returns (t: Option<Try>)
      requires Valid()
      ensures t.Some? <==> Abs().Ready()
      ensures t.Some? ==> t.value == Direct(plan.start, plan.callback, plan.later, attached)
    {
      match tail
      case Local(r) => t := Some(r);
      case Shared(c) => t := if c in result then Some(result[c]) else None;
    }
  }
}
