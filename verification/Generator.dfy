/** coro::Generator: coroutine frames linked by NestInfo records, the leaf resumed directly through
    `top`, and the consumer's iterator.  `stack` lists the frames from the root to the leaf. */
module Generator {
  import opened Options
  import opened Sequences
  import opened GeneratorBody

  /** A coroutine with its promise; `code` is what is left of the body. */
  class Frame {
    var code: Code
    var value: Option<Value>
    var top: Frame
    var info: NestInfo?
    var done: bool

    constructor (code: Code)
      ensures this.code == code && value == None && top == this && info == null && !done
    {
      this.code, value, top, info, done := code, None, this, null, false;
    }
  }

  /** What a NestedAwaiter keeps in the frame of the awaiting parent. */
  class NestInfo {
    var except: Option<Exception>
    var parent: Frame
    var root: Frame

    constructor (parent: Frame, root: Frame)
      ensures except == None && this.parent == parent && this.root == root
    {
      except, this.parent, this.root := None, parent, root;
    }
  }

  ghost function CodesOf(fs: seq<Frame>): (cs: seq<Code>)
    reads fs`code
    ensures |cs| == |fs|
  {
    if fs == [] then [] else CodesOf(fs[..|fs| - 1]) + [fs[|fs| - 1].code]
  }

  class Iterator {
    var coro: Frame
    ghost var stack: seq<Frame>
    ghost var infos: seq<NestInfo>

    /** From the leaf at `coro.top` the parents lead to the root, and every record on the way knows the root. */
    ghost predicate Linked()
      reads this, stack, infos
    {
      && |stack| == |infos| + 1 && NoDup(stack) && NoDup(infos)
      && stack[0] == coro && coro.info == null && coro.top == stack[|infos|]
      && (forall f :: f in stack ==> !f.done)
      && forall i :: 0 <= i < |infos| ==>
           stack[i + 1].info == infos[i] && infos[i].parent == stack[i] && infos[i].root == coro
           && infos[i].except == None
    }

    ghost predicate Valid()
      reads this, stack, infos
    {
      Linked() && IsStack(CodesOf(stack))
    }

    /** The values and the end still to come. */
    ghost function Rest(): Outcome
      reads this, stack, infos
      requires Valid()
    {
      RunStack(CodesOf(stack))
    }

    constructor (coro: Frame)
      requires coro.info == null && coro.top == coro && !coro.done
      ensures Valid() && this.coro == coro && stack == [coro] && infos == []
      ensures Rest() == Flatten(coro.code)
    {
      this.coro := coro;
      stack, infos := [coro], [];
    }

    /** NestedAwaiter::await_suspend. */
    method Enter(current: Frame) returns (target: Frame)
      requires Linked() && current == stack[|infos|] && current.code.Nest? && current.code.child.Some?
      modifies this`stack, this`infos, coro`top
      ensures Linked() && fresh(target) && target.code == old(current.code).child.value && coro == old(coro)
      ensures stack == old(stack) + [target] && |infos| > 0
      ensures infos[..|infos| - 1] == old(infos) && fresh(infos[|infos| - 1])
    {
      target := new Frame(current.code.child.value);
      var nested := new NestInfo(current, if current.info != null then current.info.root else current);
      assert infos != [] ==> stack[|infos| - 1 + 1].info == infos[|infos| - 1];
      nested.root.top := target;
      target.info := nested;
      stack, infos := stack + [target], infos + [nested];
    }

    /** The nested generator `current` ends: unhandled_exception if it threw, FinalAwaiter::await_suspend,
        and NestedAwaiter::await_resume in the parent. */
    method Leave(current: Frame, end: End, ghost parent: Frame) returns (previous: Frame)
      requires Linked() && infos != [] && current == stack[|infos|]
      requires parent == stack[|infos| - 1] && parent.code.Nest?
      modifies this`stack, this`infos, coro`top, current`info, current`done, infos[|infos| - 1], parent`code
      ensures Linked() && coro == old(coro)
      ensures stack == old(stack)[..|old(infos)|] && infos == old(infos)[..|old(infos)| - 1]
      ensures previous == parent == stack[|infos|] && previous.code == After(old(parent.code), end)
    {
      var nested := current.info;
      if end.Raised? {
        nested.except := Some(end.e);
      }
      previous := nested.parent;
      nested.root.top := previous;
      current.info, current.done := null, true;
      previous.code := if nested.except.Some?
        then (if previous.code.handler.Some? then previous.code.handler.value else Throw(nested.except.value))
        else previous.code.next;
      stack, infos := stack[..|infos|], infos[..|infos| - 1];
    }

    ghost function Below(): seq<Code>
      reads this, stack
      requires stack != []
    {
      CodesOf(stack[..|stack| - 1])
    }

    /** Shrinks with every turn of the resumed bodies until one of them yields. */
    ghost function Weight(): nat
      reads this, stack
      requires stack != []
    {
      Waiting(Below()) + Size(stack[|stack| - 1].code)
    }

    /** Yielding a value hands over the first of the values to come. */
    method YieldValue(current: Frame)
      requires Valid() && current == stack[|infos|] && current.code.Yield?
      modifies current`value, current`code
      ensures Valid() && old(Rest()) == Append([old(current.code).v], Rest())
      ensures coro.top.value == Some(old(current.code).v)
    {
      RunYield(Below(), current.code.v, current.code.next);
      current.value, current.code := Some(current.code.v), current.code.next;
    }

    /** await_ready of a generator that was moved away. */
    method Skip(current: Frame)
      requires Valid() && current == stack[|infos|] && current.code.Nest? && current.code.child.None?
      modifies current`code
      ensures Valid() && Rest() == old(Rest()) && Weight() < old(Weight())
    {
      RunSkip(Below(), current.code);
      current.code := current.code.next;
    }

    method EnterNested(current: Frame) returns (target: Frame)
      requires Valid() && current == stack[|infos|] && current.code.Nest? && current.code.child.Some?
      modifies this`stack, this`infos, coro`top
      ensures coro == old(coro) && Valid() && Rest() == old(Rest()) && Weight() < old(Weight())
      ensures target == stack[|infos|] && fresh(target) && stack == old(stack) + [target]
      ensures forall i :: 0 <= i < |infos| ==> infos[i] in old(infos) || fresh(infos[i])
    {
      RunEnter(Below(), current.code);
      WaitingPush(Below(), current.code);
      ghost var codes := CodesOf(stack);
      target := Enter(current);
      assert stack[..|stack| - 1] == old(stack) && CodesOf(old(stack)) == codes;
    }

    method LeaveNested(current: Frame, end: End) returns (previous: Frame)
      requires Valid() && infos != [] && current == stack[|infos|]
      requires Flatten(current.code) == Outcome([], end)
      modifies this`stack, this`infos, stack, infos
      ensures coro == old(coro) && Valid() && Rest() == old(Rest()) && Weight() < old(Weight())
      ensures previous == stack[|infos|] && stack == old(stack)[..|old(infos)|]
      ensures infos == old(infos)[..|old(infos)| - 1]
    {
      ghost var n := |infos|;
      ghost var parent, lower := stack[n - 1], stack[..n - 1];
      ghost var below := CodesOf(lower);
      ParentWaits(n);
      RunLeave(below, parent.code, current.code);
      AfterIsSmaller(parent.code, end);
      previous := Leave(current, end, parent);
      assert stack[..n - 1] == lower && CodesOf(lower) == below;
    }

    lemma ParentWaits(n: nat)
      requires Valid() && n == |infos| > 0
      ensures stack[..n] == stack[..n - 1] + [stack[n - 1]]
      ensures CodesOf(stack) == CodesOf(stack[..n - 1]) + [stack[n - 1].code] + [stack[n].code]
      ensures stack[n - 1].code.Nest? && stack[n - 1].code.child.Some?
      ensures Weight() == Waiting(CodesOf(stack[..n - 1]))
        + (1 + Size(stack[n - 1].code.(child := None))) + Size(stack[n].code)
    {
      var cs := CodesOf(stack);
      assert stack[..n][..n - 1] == stack[..n - 1];
      assert Below() == CodesOf(stack[..n - 1]) + [stack[n - 1].code];
      assert cs[n - 1] == Below()[n - 1];
      assert Below()[..n - 1] == CodesOf(stack[..n - 1]);
    }

    /** One turn of a resumed body that neither yields nor ends the root. */
    method Turn(current: Frame) returns (next: Frame)
      requires Valid() && current == stack[|infos|] && !current.code.Yield?
      requires current.code.Nest? || infos != []
      modifies this`stack, this`infos, stack, infos
      ensures Valid() && Rest() == old(Rest()) && Weight() < old(Weight()) && coro == old(coro)
      ensures next == stack[|infos|]
      ensures forall i :: 0 <= i < |stack| ==> stack[i] in old(stack) || fresh(stack[i])
      ensures forall i :: 0 <= i < |infos| ==> infos[i] in old(infos) || fresh(infos[i])
    {
      assert current in stack;
      if current.code.Nest? && current.code.child.None? {
        Skip(current);
        next := current;
      } else if current.code.Nest? {
        next := EnterNested(current);
      } else {
        next := LeaveNested(current, if current.code.Throw? then Raised(current.code.e) else Normal);
      }
    }

    method RunToSuspension() returns (current: Frame)
      requires Valid()
      modifies this`stack, this`infos, stack, infos
      ensures Valid() && Rest() == old(Rest()) && coro == old(coro) && current == stack[|infos|]
      ensures current.code.Yield? || (infos == [] && !current.code.Nest?)
      ensures forall i :: 0 <= i < |stack| ==> stack[i] in old(stack) || fresh(stack[i])
      ensures forall i :: 0 <= i < |infos| ==> infos[i] in old(infos) || fresh(infos[i])
    {
      hide IsStack, RunStack, CodesOf, Waiting, Size;
      current := coro.top;
      LeafInfo();
      while !current.code.Yield? && (current.code.Nest? || current.info != null)
        invariant Valid() && Rest() == old(Rest()) && coro == old(coro) && current == stack[|infos|]
        invariant current.info == null <==> infos == []
        invariant forall i :: 0 <= i < |stack| ==> stack[i] in old(stack) || fresh(stack[i])
        invariant forall i :: 0 <= i < |infos| ==> infos[i] in old(infos) || fresh(infos[i])
        decreases Weight()
      {
        current := Turn(current);
        LeafInfo();
      }
    }

    /** `top_.resume()`: the bodies run until one of them yields a value or the root has ended. */
    method Resume() returns (thrown: Option<Exception>)
      requires Valid()
      modifies this`stack, this`infos, stack, infos
      ensures coro == old(coro)
      ensures old(Rest()).values == [] ==> coro.done && thrown == Thrown(old(Rest()).end)
      ensures old(Rest()).values != [] ==> thrown == None && Valid()
      ensures old(Rest()).values != [] ==> coro.top.value == Some(old(Rest()).values[0])
      ensures old(Rest()).values != [] ==> Rest() == Outcome(old(Rest()).values[1..], old(Rest()).end)
      ensures forall i :: 0 <= i < |stack| ==> stack[i] in old(stack) || fresh(stack[i])
      ensures forall i :: 0 <= i < |infos| ==> infos[i] in old(infos) || fresh(infos[i])
    {
      var current := RunToSuspension();
      if current.code.Yield? {
        YieldValue(current);
        return None;
      }
      current.done := true;
      return Thrown(if current.code.Throw? then Raised(current.code.e) else Normal);
    }

    lemma LeafInfo()
      requires Linked()
      ensures infos != [] ==> stack[|infos|].info == infos[|infos| - 1]
    {
      assert infos != [] ==> stack[|infos| - 1 + 1].info == infos[|infos| - 1];
    }
  }

  /** What leaves `resume` and reaches the consumer. */
  function Thrown(end: End): Option<Exception> {
    match end case Normal => None case Raised(e) => Some(e)
  }

  lemma OneMore(values: seq<Value>, rest: Outcome)
    requires rest.values != []
    ensures Append(values + [rest.values[0]], Outcome(rest.values[1..], rest.end)) == Append(values, rest)
  {
    assert rest.values == [rest.values[0]] + rest.values[1..];
  }

  /** A consumer's loop over begin(), *it and ++it delivers the flattened sequence, then its end. */
  method Iterate(body: Code) returns (values: seq<Value>, thrown: Option<Exception>)
    ensures values == Flatten(body).values && thrown == Thrown(Flatten(body).end)
  {
    var coro := new Frame(body);
    var it := new Iterator(coro);
    values, thrown := Drain(it);
  }

  method Drain(it: Iterator) returns (values: seq<Value>, thrown: Option<Exception>)
    requires it.Valid()
    modifies it`stack, it`infos, it.stack, it.infos
    ensures values == old(it.Rest()).values && thrown == Thrown(old(it.Rest()).end)
  {
    ghost var rest := it.Rest();
    values := [];
    thrown := it.Resume();
    while !it.coro.done
      invariant it.coro == old(it.coro)
      invariant forall i :: 0 <= i < |it.stack| ==> it.stack[i] in old(it.stack) || fresh(it.stack[i])
      invariant forall i :: 0 <= i < |it.infos| ==> it.infos[i] in old(it.infos) || fresh(it.infos[i])
      invariant Append(values, rest) == old(it.Rest())
      invariant rest.values == [] ==> it.coro.done && thrown == Thrown(rest.end)
      invariant rest.values != [] ==> thrown == None && it.Valid() && it.coro.top.value == Some(rest.values[0])
      invariant rest.values != [] ==> it.Rest() == Outcome(rest.values[1..], rest.end) && !it.coro.done
      decreases |rest.values|
    {
      OneMore(values, rest);
      values := values + [it.coro.top.value.value];
      rest := it.Rest();
      thrown := it.Resume();
    }
  }
}
