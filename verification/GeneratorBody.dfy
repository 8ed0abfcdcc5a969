/** What a generator body does, and what iterating it must deliver. */
module GeneratorBody {
  import opened Options

  type Value = int
  type Exception = int

  /** A body as the consumer drives it: what it does up to each suspension, and how it goes on. */
  datatype Code =
    | Return
    | Throw(e: Exception)
    | Yield(v: Value, next: Code)
    // co_yield elements_of(child), inside a try block if there is a handler; no child: a moved-from generator
    | Nest(child: Option<Code>, next: Code, handler: Option<Code>)

  datatype End = Normal | Raised(e: Exception)

  datatype Outcome = Outcome(values: seq<Value>, end: End)

  function Append(vs: seq<Value>, o: Outcome): Outcome {
    Outcome(vs + o.values, o.end)
  }

  lemma AppendAssociative(a: seq<Value>, b: seq<Value>, o: Outcome)
    ensures Append(a + b, o) == Append(a, Append(b, o))
  {
    assert a + b + o.values == a + (b + o.values);
  }

  /** How a body goes on after `co_yield elements_of(child)`: the child's exception is raised right there. */
  function After(c: Code, end: End): Code
    requires c.Nest?
  {
    match end
    case Normal => c.next
    case Raised(e) => if c.handler.Some? then c.handler.value else Throw(e)
  }

  /** The flattened sequence: every nested generator spelled out in place. */
  function Flatten(c: Code): Outcome {
    match c
    case Return => Outcome([], Normal)
    case Throw(e) => Outcome([], Raised(e))
    case Yield(v, next) => Append([v], Flatten(next))
    case Nest(None, next, _) => Flatten(next)
    case Nest(Some(g), next, handler) =>
      var o := Flatten(g);
      match o.end
      case Normal => Append(o.values, Flatten(next))
      case Raised(e) => if handler.Some? then Append(o.values, Flatten(handler.value)) else o
  }

  lemma FlattenNest(c: Code)
    requires c.Nest? && c.child.Some?
    ensures var o := Flatten(c.child.value); Flatten(c) == Append(o.values, Flatten(After(c, o.end)))
  {}

  // ---------------------------------------------------------------- a stack of unfinished bodies

  /** Every body but the last waits in a Nest for the one after it. */
  predicate IsStack(cs: seq<Code>) {
    cs != [] && forall i :: 0 <= i < |cs| - 1 ==> cs[i].Nest? && cs[i].child.Some?
  }

  /** What is still to come from a stack: the last body is spelled out, then its parent goes on. */
  function RunStack(cs: seq<Code>): Outcome
    requires IsStack(cs)
    decreases |cs|
  {
    var n := |cs| - 1;
    var o := Flatten(cs[n]);
    if n == 0 then o else Append(o.values, RunStack(cs[..n - 1] + [After(cs[n - 1], o.end)]))
  }

  lemma SwapTop(below: seq<Code>, c: Code, d: Code)
    requires IsStack(below + [c])
    ensures IsStack(below + [d])
  {
    forall i | 0 <= i < |below| ensures (below + [d])[i].Nest? && (below + [d])[i].child.Some? {
      assert (below + [c])[i] == below[i];
    }
  }

  lemma RunYield(below: seq<Code>, v: Value, next: Code)
    requires IsStack(below + [Yield(v, next)])
    ensures IsStack(below + [next])
    ensures RunStack(below + [Yield(v, next)]) == Append([v], RunStack(below + [next]))
  {
    var cs, ds, n, o := below + [Yield(v, next)], below + [next], |below|, Flatten(next);
    SwapTop(below, Yield(v, next), next);
    assert cs[n] == Yield(v, next) && ds[n] == next;
    if n > 0 {
      assert cs[n - 1].Nest? && cs[n - 1] == ds[n - 1];
      var es := cs[..n - 1] + [After(cs[n - 1], o.end)];
      TopOfStack(cs, n, es);
      TopOfStack(ds, n, es);
      AppendAssociative([v], o.values, RunStack(es));
    }
  }

  /** The last body is spelled out, then the one below goes on. */
  lemma TopOfStack(cs: seq<Code>, n: nat, es: seq<Code>)
    requires IsStack(cs) && |cs| == n + 1 > 1 && |es| == n
    requires cs[n - 1].Nest? && es[n - 1] == After(cs[n - 1], Flatten(cs[n]).end)
    requires forall i :: 0 <= i < n - 1 ==> es[i] == cs[i]
    ensures IsStack(es) && RunStack(cs) == Append(Flatten(cs[n]).values, RunStack(es))
  {
    assert es == cs[..n - 1] + [After(cs[n - 1], Flatten(cs[n]).end)];
  }

  /** Entering a nested generator changes nothing about what is still to come. */
  lemma RunEnter(below: seq<Code>, c: Code)
    requires IsStack(below + [c]) && c.Nest? && c.child.Some?
    ensures IsStack(below + [c] + [c.child.value])
    ensures RunStack(below + [c] + [c.child.value]) == RunStack(below + [c])
  {
    var cs, n := below + [c], |below|;
    var ds := cs + [c.child.value];
    var o := Flatten(c.child.value);
    var c' := After(c, o.end);
    FlattenNest(c);
    assert ds[..n] == below && ds[n] == c && ds[n + 1] == c.child.value;
    var es := below + [c'];
    assert RunStack(ds) == Append(o.values, RunStack(es));
    if n > 0 {
      assert cs[..n - 1] == es[..n - 1] && cs[n - 1] == es[n - 1];
      var rest := RunStack(es[..n - 1] + [After(es[n - 1], Flatten(c').end)]);
      AppendAssociative(o.values, Flatten(c').values, rest);
    }
  }

  /** Nor does skipping a generator that was moved away. */
  lemma RunSkip(below: seq<Code>, c: Code)
    requires IsStack(below + [c]) && c.Nest? && c.child.None?
    ensures IsStack(below + [c.next]) && RunStack(below + [c.next]) == RunStack(below + [c])
  {
    var cs, ds, n := below + [c], below + [c.next], |below|;
    assert cs[n] == c && ds[n] == c.next;
    if n > 0 {
      assert cs[..n - 1] == ds[..n - 1] && cs[n - 1] == ds[n - 1];
    }
  }

  /** Nor does leaving a generator that has ended. */
  lemma RunLeave(below: seq<Code>, p: Code, c: Code)
    requires IsStack(below + [p] + [c]) && Flatten(c).values == []
    ensures p.Nest? && p.child.Some? && IsStack(below + [After(p, Flatten(c).end)])
    ensures RunStack(below + [After(p, Flatten(c).end)]) == RunStack(below + [p] + [c])
  {
    var cs, n := below + [p] + [c], |below| + 1;
    assert cs[n] == c && cs[n - 1] == p && cs[..n - 1] == below;
  }

  // ---------------------------------------------------------------- resuming always comes to an end

  function Size(c: Code): nat {
    match c
    case Return => 1
    case Throw(_) => 1
    case Yield(_, next) => 1 + Size(next)
    case Nest(child, next, handler) =>
      3 + (match child case Some(g) => Size(g) + 2 case None => 0)
      + Size(next) + (match handler case Some(h) => Size(h) case None => 0)
  }

  /** What the waiting bodies can still do once their child has ended. */
  function Waiting(cs: seq<Code>): nat {
    if cs == [] then 0
    else Waiting(cs[..|cs| - 1]) + (if cs[|cs| - 1].Nest? then 1 + Size(cs[|cs| - 1].(child := None)) else 0)
  }

  lemma WaitingPush(cs: seq<Code>, c: Code)
    requires c.Nest? && c.child.Some?
    ensures Waiting(cs + [c]) + Size(c.child.value) == Waiting(cs) + Size(c) - 1
  {
    assert (cs + [c])[..|cs|] == cs;
  }

  lemma AfterIsSmaller(c: Code, end: End)
    requires c.Nest?
    ensures Size(After(c, end)) < Size(c.(child := None))
  {}
}
