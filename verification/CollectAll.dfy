/** collectAll of coroutines: the n inputs start and finish in any order; every access to the shared
    counter is a step of its own. */
module CollectAll {
  import opened Sequences

  type Try = int

  datatype Pc =
    | NotStarted
    | Posted               // its start is handed to the executor, or is about to be called
    | Running
    | Stored               // the result is in _output and the locals are read
    | Counted(was: nat)    // fetch_sub in CountEvent::down gave `was`
    | Leaving(was: nat, handle: bool)   // down has returned, with the awaiting coroutine or not
    | Signalled(handle: bool)
    | Done

  /** `downs` is the order of the fetch_subs, `signals` and `resumes` who emitted and who resumed.  The
      awaiter lives until the awaiting coroutine is resumed. */
  datatype State = State(
    posted: nat, count: nat, coro: bool, output: map<nat, Try>, pc: seq<Pc>,
    downs: seq<nat>, signals: seq<nat>, resumes: seq<nat>, alive: bool)

  datatype Action =
    | Post | Begin(i: nat) | Complete(i: nat)
    | Down(i: nat) | Take(i: nat) | Signal(i: nat) | Resume(i: nat)

  ghost predicate Init(s: State, n: nat) {
    && n > 0 && s == State(0, n, true, map[], s.pc, [], [], [], true)
    && |s.pc| == n && forall i :: 0 <= i < n ==> s.pc[i] == NotStarted
  }

  /** Which steps use the awaiter: the loop of await_suspend before it posts a start, the start itself, the
      callback up to and including the fetch_sub, and the one that takes the awaiting coroutine. */
  predicate Touches(s: State, a: Action) {
    match a
    case Post => true
    case Begin(_) => true
    case Complete(_) => true
    case Down(_) => true
    case Take(i) => i < |s.pc| && s.pc[i] == Counted(1)
    case _ => false
  }

  ghost predicate Next(s: State, a: Action, n: nat, result: nat -> Try, s': State) {
    match a
    case Post =>
      s.posted < |s.pc| && s.pc[s.posted] == NotStarted &&
      s' == s.(posted := s.posted + 1, pc := s.pc[s.posted := Posted])
    case Begin(i) => i < |s.pc| && s.pc[i] == Posted && s' == s.(pc := s.pc[i := Running])
    case Complete(i) =>
      i < |s.pc| && s.pc[i] == Running && s' == s.(output := s.output[i := result(i)], pc := s.pc[i := Stored])
    case Down(i) =>
      i < |s.pc| && s.pc[i] == Stored && s.count > 0 &&
      s' == s.(count := s.count - 1, pc := s.pc[i := Counted(s.count)], downs := s.downs + [i])
    case Take(i) =>
      i < |s.pc| && s.pc[i].Counted? &&
      s' == if s.pc[i].was == 1 then s.(coro := false, pc := s.pc[i := Leaving(1, s.coro)])
            else s.(pc := s.pc[i := Leaving(s.pc[i].was, false)])
    case Signal(i) =>
      i < |s.pc| && s.pc[i].Leaving? &&
      s' == s.(pc := s.pc[i := Signalled(s.pc[i].handle)],
               signals := if s.pc[i].was == n then s.signals + [i] else s.signals)
    case Resume(i) =>
      i < |s.pc| && s.pc[i].Signalled? &&
      s' == if s.pc[i].handle then s.(pc := s.pc[i := Done], resumes := s.resumes + [i], alive := false)
            else s.(pc := s.pc[i := Done])
  }

  datatype Run = Launch(s: State) | Then(run: Run, a: Action, s: State)

  ghost predicate IsRun(r: Run, n: nat, result: nat -> Try) {
    match r
    case Launch(s) => Init(s, n)
    case Then(run, a, s') => IsRun(run, n, result) && Next(run.s, a, n, result, s')
  }

  // ---------------------------------------------------------------- the invariant

  predicate Past(p: Pc) { p.Counted? || p.Leaving? || p.Signalled? || p.Done? }

  /** The order of the fetch_subs tells everything: the k-th of them saw n - k. */
  ghost predicate Counting(s: State, n: nat) {
    && |s.pc| == n > 0 && NoDup(s.downs) && s.count + |s.downs| == n
    && (forall k :: 0 <= k < |s.downs| ==> s.downs[k] < n && Past(s.pc[s.downs[k]]))
    && (forall i :: 0 <= i < n && Past(s.pc[i]) ==> i in s.downs)
    && (forall k :: 0 <= k < |s.downs| ==>
          (s.pc[s.downs[k]].Counted? || s.pc[s.downs[k]].Leaving? ==> s.pc[s.downs[k]].was == n - k))
  }

  ghost predicate Outputs(s: State, result: nat -> Try) {
    && (forall i :: 0 <= i < |s.pc| && (s.pc[i] == Stored || Past(s.pc[i])) ==> i in s.output)
    && (forall i :: i in s.output ==> s.output[i] == result(i))
  }

  /** Only the last one carries the awaiting coroutine away, and only the first one signals. */
  ghost predicate Ends(s: State, n: nat)
    requires Counting(s, n)
  {
    && s.coro == (|s.downs| < n || s.pc[s.downs[n - 1]].Counted?)
    && (forall i :: 0 <= i < |s.pc| && (s.pc[i].Leaving? || s.pc[i].Signalled?) ==>
          (s.pc[i].handle <==> |s.downs| == n && s.downs[n - 1] == i))
    && s.resumes == (if |s.downs| == n && s.pc[s.downs[n - 1]].Done? then [s.downs[n - 1]] else [])
    && s.alive == (s.resumes == [])
    && s.signals == (if |s.downs| > 0 && (s.pc[s.downs[0]].Signalled? || s.pc[s.downs[0]].Done?)
                     then [s.downs[0]] else [])
  }

  ghost predicate Inv(s: State, n: nat, result: nat -> Try) {
    Counting(s, n) && Outputs(s, result) && Ends(s, n)
  }

  /** Everybody who is past the counter has a place in the order. */
  lemma Place(s: State, n: nat, i: nat) returns (k: nat)
    requires Counting(s, n) && i < n && Past(s.pc[i])
    ensures k < |s.downs| && s.downs[k] == i
  {
    k :| 0 <= k < |s.downs| && s.downs[k] == i;
  }

  lemma EarlyCounting(s: State, i: nat, p: Pc, n: nat)
    requires Counting(s, n) && Ends(s, n) && i < n && !Past(s.pc[i]) && !Past(p)
    ensures var s' := s.(pc := s.pc[i := p]); Counting(s', n) && Ends(s', n)
  {
    assert forall k :: 0 <= k < |s.downs| ==> s.downs[k] != i;
  }

  lemma SameCounting(s: State, s': State, n: nat)
    requires Counting(s, n) && Ends(s, n) && s' == s.(posted := s'.posted, output := s'.output)
    ensures Counting(s', n) && Ends(s', n)
  {}

  lemma SameOutputs(s: State, i: nat, s': State, result: nat -> Try)
    requires Outputs(s, result) && i < |s.pc| == |s'.pc| && s'.pc == s.pc[i := s'.pc[i]] && s'.output == s.output
    requires s'.pc[i] == Stored || Past(s'.pc[i]) ==> s.pc[i] == Stored || Past(s.pc[i])
    ensures Outputs(s', result)
  {
    hide Past;
  }

  lemma CompleteOutputs(s: State, i: nat, s': State, result: nat -> Try)
    requires Outputs(s, result) && i < |s.pc|
    requires s' == s.(output := s.output[i := result(i)], pc := s.pc[i := Stored])
    ensures Outputs(s', result)
  {
    hide Past;
  }

  lemma EarlyKeeps(s: State, a: Action, n: nat, result: nat -> Try, s': State)
    requires Inv(s, n, result) && Next(s, a, n, result, s') && (a == Post || a.Begin? || a.Complete?)
    ensures Inv(s', n, result)
  {
    hide Outputs, Ends;
    var i := if a == Post then s.posted else a.i;
    EarlyCounting(s, i, s'.pc[i], n);
    SameCounting(s.(pc := s.pc[i := s'.pc[i]]), s', n);
    hide Counting;
    if a.Complete? {
      CompleteOutputs(s, i, s', result);
    } else {
      SameOutputs(s, i, s', result);
    }
  }

  lemma DownCounting(s: State, i: nat, n: nat, s': State)
    requires Counting(s, n) && i < n && s.pc[i] == Stored && s.count > 0
    requires s' == s.(count := s.count - 1, pc := s.pc[i := Counted(s.count)], downs := s.downs + [i])
    ensures Counting(s', n)
  {
    assert i !in s.downs;
    assert forall k :: 0 <= k < |s.downs| ==> s'.downs[k] == s.downs[k];
    assert s'.downs[|s.downs|] == i;
    forall j | 0 <= j < n && Past(s'.pc[j]) ensures j in s'.downs {
      if j != i {
        var k := Place(s, n, j);
        assert s'.downs[k] == j;
      }
    }
  }

  lemma DownEnds(s: State, i: nat, n: nat, s': State)
    requires Counting(s, n) && Ends(s, n) && i < n && s.pc[i] == Stored && s.count > 0 && Counting(s', n)
    requires s' == s.(count := s.count - 1, pc := s.pc[i := Counted(s.count)], downs := s.downs + [i])
    ensures Ends(s', n)
  {
    assert forall k :: 0 <= k < |s.downs| ==> s'.downs[k] == s.downs[k] && s.downs[k] != i;
    assert s'.downs[|s.downs|] == i;
  }

  lemma DownKeeps(s: State, i: nat, n: nat, result: nat -> Try, s': State)
    requires Inv(s, n, result) && Next(s, Down(i), n, result, s')
    ensures Inv(s', n, result)
  {
    hide Outputs, Ends;
    DownCounting(s, i, n, s');
    DownEnds(s, i, n, s');
    hide Counting;
    SameOutputs(s, i, s', result);
  }

  lemma TakeCounting(s: State, i: nat, n: nat, result: nat -> Try, s': State)
    requires Counting(s, n) && Next(s, Take(i), n, result, s')
    ensures Counting(s', n) && exists k :: 0 <= k < |s.downs| && s.downs[k] == i && s.pc[i].was == n - k
  {
    var k := Place(s, n, i);
  }

  lemma TakeEnds(s: State, i: nat, k: nat, n: nat, result: nat -> Try, s': State)
    requires Counting(s, n) && Ends(s, n) && Next(s, Take(i), n, result, s') && Counting(s', n)
    requires k < |s.downs| && s.downs[k] == i && s.pc[i].was == n - k
    ensures Ends(s', n)
  {
    if k == n - 1 {
      assert s.coro && s'.pc[i] == Leaving(1, true);
    } else {
      assert s'.pc[i] == Leaving(n - k, false);
      assert |s.downs| == n ==> s.downs[n - 1] != i;
    }
  }

  lemma TakeKeeps(s: State, i: nat, n: nat, result: nat -> Try, s': State)
    requires Inv(s, n, result) && Next(s, Take(i), n, result, s')
    ensures Inv(s', n, result)
  {
    hide Outputs, Ends, Counting;
    TakeCounting(s, i, n, result, s');
    var k :| 0 <= k < |s.downs| && s.downs[k] == i && s.pc[i].was == n - k;
    TakeEnds(s, i, k, n, result, s');
    SameOutputs(s, i, s', result);
  }

  /** Past the counter, places in the order stay as they are. */
  lemma PastCounting(s: State, i: nat, p: Pc, s': State, n: nat)
    requires Counting(s, n) && i < n && Past(s.pc[i]) && (p.Signalled? || p.Done?)
    requires s'.pc == s.pc[i := p] && s'.downs == s.downs && s'.count == s.count
    ensures Counting(s', n)
  {}

  lemma SignalEnds(s: State, i: nat, n: nat, result: nat -> Try, s': State)
    requires Counting(s, n) && Ends(s, n) && Next(s, Signal(i), n, result, s') && Counting(s', n)
    ensures Ends(s', n)
  {
    var k := Place(s, n, i);
  }

  lemma SignalKeeps(s: State, i: nat, n: nat, result: nat -> Try, s': State)
    requires Inv(s, n, result) && Next(s, Signal(i), n, result, s')
    ensures Inv(s', n, result)
  {
    hide Outputs, Ends;
    PastCounting(s, i, s'.pc[i], s', n);
    SignalEnds(s, i, n, result, s');
    hide Counting;
    SameOutputs(s, i, s', result);
  }

  lemma ResumeEnds(s: State, i: nat, n: nat, result: nat -> Try, s': State)
    requires Counting(s, n) && Ends(s, n) && Next(s, Resume(i), n, result, s') && Counting(s', n)
    ensures Ends(s', n)
  {
    var k := Place(s, n, i);
  }

  lemma ResumeKeeps(s: State, i: nat, n: nat, result: nat -> Try, s': State)
    requires Inv(s, n, result) && Next(s, Resume(i), n, result, s')
    ensures Inv(s', n, result)
  {
    hide Outputs, Ends;
    PastCounting(s, i, s'.pc[i], s', n);
    ResumeEnds(s, i, n, result, s');
    hide Counting;
    SameOutputs(s, i, s', result);
  }

  lemma {:induction false} RunInv(r: Run, n: nat, result: nat -> Try)
    requires IsRun(r, n, result)
    ensures Inv(r.s, n, result)
  {
    match r
    case Launch(_) =>
    case Then(run, a, s') =>
      RunInv(run, n, result);
      match a
      case Down(i) => DownKeeps(run.s, i, n, result, s');
      case Take(i) => TakeKeeps(run.s, i, n, result, s');
      case Signal(i) => SignalKeeps(run.s, i, n, result, s');
      case Resume(i) => ResumeKeeps(run.s, i, n, result, s');
      case _ => EarlyKeeps(run.s, a, n, result, s');
  }

  // ---------------------------------------------------------------- what it is good for

  /** The awaiting coroutine is resumed at most once, by the last callback, and by then every result is in
      the output at the place of its input. */
  lemma ResumedWithAll(r: Run, n: nat, result: nat -> Try)
    requires IsRun(r, n, result) && r.s.resumes != []
    ensures |r.s.resumes| == 1 && !r.s.alive
    ensures forall i :: 0 <= i < n ==> i in r.s.output && r.s.output[i] == result(i)
  {
    RunInv(r, n, result);
    forall i | 0 <= i < n ensures i in r.s.output {
      Everybody(r.s.downs, n, i);
    }
  }

  /** When all callbacks are over it has been resumed, and the cancellation signal was emitted once, by the
      first to count down. */
  lemma AllOver(r: Run, n: nat, result: nat -> Try)
    requires IsRun(r, n, result) && forall i :: 0 <= i < |r.s.pc| ==> r.s.pc[i] == Done
    ensures |r.s.resumes| == |r.s.signals| == 1
    ensures |r.s.downs| == n > 0 && r.s.signals[0] == r.s.downs[0] && r.s.resumes[0] == r.s.downs[n - 1]
  {
    RunInv(r, n, result);
    var s := r.s;
    assert forall i :: 0 <= i < n ==> Past(s.pc[i]) && i in s.downs;
    Fewer(Below(n), Elements(s.downs));
  }

  lemma AllPast(s: State, n: nat, i: nat) returns (k: nat)
    requires Counting(s, n) && |s.downs| == n && i < n
    ensures k < n && s.downs[k] == i && Past(s.pc[i]) && (s.pc[i].Counted? ==> s.pc[i].was == n - k)
  {
    Everybody(s.downs, n, i);
    k :| 0 <= k < n && s.downs[k] == i;
  }

  lemma GoneAfterTheLast(s: State, n: nat)
    requires Counting(s, n) && Ends(s, n) && !s.alive
    ensures |s.downs| == n && s.pc[s.downs[n - 1]].Done?
  {}

  /** Nothing uses the awaiter after the resumed coroutine may have destroyed it. */
  lemma NoUseAfterResume(r: Run, n: nat, result: nat -> Try, a: Action, s': State)
    requires IsRun(r, n, result) && Next(r.s, a, n, result, s') && Touches(r.s, a)
    ensures r.s.alive
  {
    RunInv(r, n, result);
    if !r.s.alive {
      GoneAfterTheLast(r.s, n);
      hide Counting, Ends, Outputs;
      var i := if a == Post then r.s.posted else a.i;
      var k := AllPast(r.s, n, i);
    }
  }

  // ---------------------------------------------------------------- windows

  function Results<T>(input: seq<T>, run: T -> Try): (r: seq<Try>)
    ensures |r| == |input| && forall i :: 0 <= i < |r| ==> r[i] == run(input[i])
  {
    seq(|input|, i requires 0 <= i < |input| => run(input[i]))
  }

  /** Where the k-th group of at most w inputs begins. */
  function Cut(k: nat, n: nat, w: nat): (r: nat)
    ensures r <= n
  {
    if k == 0 then 0 else if n < Cut(k - 1, n, w) + w then n else Cut(k - 1, n, w) + w
  }

  function ResultOf<T>(group: seq<T>, run: T -> Try): nat -> Try {
    (i: nat) => if i < |group| then run(group[i]) else 0
  }

  /** A run of collectAll on a group, up to the resumption of the coroutine that awaits it. */
  ghost predicate Awaited<T>(r: Run, group: seq<T>, run: T -> Try) {
    IsRun(r, |group|, ResultOf(group, run)) && r.s.resumes != []
  }

  /** await_resume moves the output out; whatever order the group finished in, these are its results. */
  method Await<T>(group: seq<T>, ghost run: T -> Try, r: Run) returns (output: seq<Try>)
    requires Awaited(r, group, run)
    ensures output == Results(group, run)
  {
    ResumedWithAll(r, |group|, ResultOf(group, run));
    output := seq(|group|, i requires 0 <= i < |group| && i in r.s.output => r.s.output[i]);
  }

  /** `awaits` says how the awaiting of the k-th group goes, if there is one. */
  ghost predicate Supplied<T>(input: seq<T>, run: T -> Try, w: nat, awaits: seq<Run>, k: nat) {
    Cut(k, |input|, w) < |input| ==>
      k < |awaits| && Cut(k, |input|, w) <= Cut(k + 1, |input|, w)
      && Awaited(awaits[k], input[Cut(k, |input|, w)..Cut(k + 1, |input|, w)], run)
  }

  /** The cuts delimit the whole input, in pieces of size w but for the last. */
  ghost predicate Windows(cuts: seq<nat>, n: nat, w: nat) {
    && |cuts| > 0 && cuts[0] == 0 && cuts[|cuts| - 1] == n
    && (forall k :: 0 < k < |cuts| ==> cuts[k - 1] < cuts[k] <= cuts[k - 1] + w)
    && (forall k :: 0 < k < |cuts| - 1 ==> cuts[k] == cuts[k - 1] + w)
  }

  /** With no maximum the window is the whole input. */
  function Window(n: nat, maxConcurrency: nat): nat {
    if maxConcurrency == 0 then n else maxConcurrency
  }

  /** collectAllWindowedImpl: the results come in input order, from groups that are the windows of the input. */
  method Windowed<T>(input: seq<T>, ghost run: T -> Try, maxConcurrency: nat, awaits: seq<Run>)
    returns (output: seq<Try>, cuts: seq<nat>)
    requires forall k: nat :: Supplied(input, run, Window(|input|, maxConcurrency), awaits, k)
    ensures output == Results(input, run)
    ensures Windows(cuts, |input|, Window(|input|, maxConcurrency))
  {
    if |input| == 0 {
      return [], [0];
    }
    ghost var w := Window(|input|, maxConcurrency);
    if maxConcurrency == 0 || |input| <= maxConcurrency {
      assert Supplied(input, run, w, awaits, 0) && Cut(1, |input|, w) == |input|;
      assert input[0..|input|] == input;
      output := Await(input, run, awaits[0]);
      return output, [0, |input|];
    }
    assert w == maxConcurrency && forall k: nat :: Supplied(input, run, w, awaits, k);
    output, cuts := WindowLoop(input, run, maxConcurrency, awaits);
  }

  method WindowLoop<T>(input: seq<T>, ghost run: T -> Try, maxConcurrency: nat, awaits: seq<Run>)
    returns (output: seq<Try>, cuts: seq<nat>)
    requires 0 < maxConcurrency && forall k: nat :: Supplied(input, run, maxConcurrency, awaits, k)
    ensures output == Results(input, run) && Windows(cuts, |input|, maxConcurrency)
  {
    hide Awaited;
    var start, k := 0, 0;
    output, cuts := [], [0];
    while start < |input|
      invariant start == Cut(k, |input|, maxConcurrency) <= |input| && output == Results(input[..start], run)
      invariant |cuts| == k + 1 && cuts[0] == 0 && cuts[k] == start
      invariant forall j :: 0 < j <= k ==> cuts[j - 1] < cuts[j] <= cuts[j - 1] + maxConcurrency
      invariant forall j :: 0 < j <= k && (j < k || start < |input|) ==> cuts[j] == cuts[j - 1] + maxConcurrency
      decreases |input| - start
    {
      var end := if |input| < start + maxConcurrency then |input| else start + maxConcurrency;
      assert Supplied(input, run, maxConcurrency, awaits, k) && Cut(k + 1, |input|, maxConcurrency) == end;
      var results := Await(input[start..end], run, awaits[k]);
      MoreResults(input, run, start, end);
      start, k := end, k + 1;
      cuts := cuts + [end];
      output := output + results;
    }
    assert input[..start] == input;
  }

  lemma MoreResults<T>(input: seq<T>, run: T -> Try, start: nat, end: nat)
    requires start <= end <= |input|
    ensures Results(input[..end], run) == Results(input[..start], run) + Results(input[start..end], run)
  {
    assert input[..end] == input[..start] + input[start..end];
  }
}
