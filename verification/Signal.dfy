/** Signal::emits on signals that are chained to each other through their slots, cycles included.
    A slot is its filter and, if it has one that is still alive, the signal chained to it.
    Handlers are the business of SlotRace. */
module Signals {
  import opened Options
  import opened SignalWords

  datatype Slot = Slot(filter: Bits, chained: Option<Signal>)

  type Graph = map<Signal, seq<Slot>>
  type States = map<Signal, Bits>

  // ---------------------------------------------------------------- what an emission should do

  /** `s` passes bit `m` on to `t`. */
  ghost predicate Edge(g: Graph, s: Signal, t: Signal, m: Bit) {
    s in g && exists i :: 0 <= i < |g[s]| && g[s][i].chained == Some(t) && m in g[s][i].filter
  }

  ghost predicate Path(g: Graph, m: Bit, p: seq<Signal>, src: Signal, dst: Signal) {
    && p != [] && p[0] == src && p[|p| - 1] == dst
    && forall i :: 0 <= i < |p| - 1 ==> Edge(g, p[i], p[i + 1], m)
  }

  /** Nothing on the path has bit `m` yet. */
  ghost predicate Untriggered(a: States, m: Bit, older p: seq<Signal>) {
    forall i :: 0 <= i < |p| ==> p[i] in a && m !in a[p[i]]
  }

  ghost predicate Triggers(g: Graph, a: States, m: Bit, src: Signal, dst: Signal) {
    exists p :: Untriggered(a, m, p) && Path(g, m, p, src, dst)
  }

  /** Emitting `sig` at `src` turns `a` into `b`: a bit is set afterwards if and only if it was set
      before, or it was emitted and can travel from `src` over signals that did not have it. */
  ghost predicate Spreads(g: Graph, a: States, b: States, src: Signal, sig: Bits) {
    a.Keys == b.Keys &&
    forall s, m: Bit {:trigger m in a[s]} {:trigger m in b[s]} :: s in a ==>
      (m in b[s] <==> m in a[s] || (m in sig && Triggers(g, a, m, src, s)))
  }

  ghost predicate Grows(a: States, b: States) {
    a.Keys == b.Keys && forall s, m: Bit :: s in a && m in a[s] ==> m in b[s]
  }

  /** What `a` to `b` has newly set has been passed on everywhere. */
  ghost predicate PassedOn(g: Graph, a: States, b: States) {
    forall s, t, m: Bit :: s in a && s in b && t in b && m !in a[s] && m in b[s] && Edge(g, s, t, m)
      ==> m in b[t]
  }

  ghost predicate OnlyTriggered(g: Graph, a: States, b: States, src: Signal, sig: Bits) {
    forall s, m: Bit {:trigger m in a[s]} {:trigger m in b[s]} :: s in a && s in b && m !in a[s] && m in b[s]
      ==> m in sig && Triggers(g, a, m, src, s)
  }

  ghost predicate ClosedGraph(g: Graph, a: States) {
    && g.Keys == a.Keys
    && forall s, i :: s in g && 0 <= i < |g[s]| && g[s][i].chained != None ==> g[s][i].chained.value in a
  }

  // ---------------------------------------------------------------- paths

  lemma ExtendPath(g: Graph, a: States, m: Bit, src: Signal, s: Signal, t: Signal)
    requires Triggers(g, a, m, src, s) && Edge(g, s, t, m) && t in a && m !in a[t]
    ensures Triggers(g, a, m, src, t)
  {
    var p :| Path(g, m, p, src, s) && Untriggered(a, m, p);
    var q := p + [t];
    assert Path(g, m, q, src, t) && Untriggered(a, m, q);
  }

  lemma PrependPath(g: Graph, a: States, c: States, m: Bit, src: Signal, t: Signal, s: Signal)
    requires Triggers(g, c, m, t, s) && Edge(g, src, t, m) && Grows(a, c)
    requires src in a && m !in a[src]
    ensures Triggers(g, a, m, src, s)
  {
    var p :| Path(g, m, p, t, s) && Untriggered(c, m, p);
    var q := [src] + p;
    assert Path(g, m, q, src, s) && Untriggered(a, m, q);
  }

  lemma {:induction false} FollowPath(g: Graph, a: States, b: States, m: Bit, p: seq<Signal>, src: Signal, dst: Signal)
    requires a.Keys == b.Keys && PassedOn(g, a, b)
    requires Path(g, m, p, src, dst) && Untriggered(a, m, p) && m in b[src]
    ensures m in b[dst]
    decreases |p|
  {
    var n := |p| - 1;
    if n > 0 {
      var q := p[..n];
      FollowPath(g, a, b, m, q, src, q[n - 1]);
      assert Edge(g, p[n - 1], p[n], m);
    }
  }

  // ---------------------------------------------------------------- the exact effect, taken apart and put together

  lemma SpreadFacts(g: Graph, a: States, b: States, src: Signal, sig: Bits)
    requires Spreads(g, a, b, src, sig) && src in a
    ensures Grows(a, b) && PassedOn(g, a, b) && OnlyTriggered(g, a, b, src, sig)
    ensures forall m: Bit :: m in sig ==> m in b[src]
  {
    forall s, t, m: Bit | s in a && t in b && m !in a[s] && m in b[s] && Edge(g, s, t, m)
      ensures m in b[t]
    {
      if m !in a[t] {
        ExtendPath(g, a, m, src, s, t);
      }
    }
    forall m: Bit | m in sig ensures m in b[src] {
      if m !in a[src] {
        assert Path(g, m, [src], src, src) && Untriggered(a, m, [src]);
      }
    }
  }

  lemma FactsSpread(g: Graph, a: States, b: States, src: Signal, sig: Bits)
    requires src in a && Grows(a, b) && PassedOn(g, a, b) && OnlyTriggered(g, a, b, src, sig)
    requires forall m: Bit :: m in sig ==> m in b[src]
    ensures Spreads(g, a, b, src, sig)
  {
    forall s, m: Bit | s in a
      ensures m in b[s] <==> m in a[s] || (m in sig && Triggers(g, a, m, src, s))
    {
      if m in sig && Triggers(g, a, m, src, s) {
        var p :| Path(g, m, p, src, s) && Untriggered(a, m, p);
        FollowPath(g, a, b, m, p, src, s);
      }
    }
  }

  // ---------------------------------------------------------------- the loop over the slots

  /** The loop of emits at `src` has served its first `i` slots and has got from `a` to `c`. */
  ghost predicate Underway(g: Graph, a: States, c: States, src: Signal, granted: Bits, i: nat) {
    && src in a && src in g && i <= |g[src]|
    && Grows(a, c)
    && OnlyTriggered(g, a, c, src, granted)
    && (forall m: Bit :: m in granted ==> m !in a[src] && m in c[src])
    && (forall s, t, m: Bit | s in a && s != src && t in c && m !in a[s] && m in c[s] && Edge(g, s, t, m)
          :: m in c[t])
    && (forall j, t, m: Bit | 0 <= j < i && t in c && g[src][j].chained == Some(t)
          && m in granted && m in g[src][j].filter :: m in c[t])
  }

  lemma UnderwayStart(g: Graph, a: States, c: States, src: Signal, granted: Bits)
    requires src in a && src in g && c.Keys == a.Keys
    requires forall s :: s in a && s != src ==> c[s] == a[s]
    requires forall m: Bit :: (m in c[src] <==> m in a[src] || m in granted)
    requires forall m: Bit :: m in granted ==> m !in a[src]
    ensures Underway(g, a, c, src, granted, 0)
  {
    forall m: Bit | m in granted ensures Triggers(g, a, m, src, src) {
      assert Path(g, m, [src], src, src) && Untriggered(a, m, [src]);
    }
  }

  lemma UnderwaySkip(g: Graph, a: States, c: States, src: Signal, granted: Bits, i: nat)
    requires Underway(g, a, c, src, granted, i) && i < |g[src]|
    requires g[src][i].chained == None || granted * g[src][i].filter == {}
    ensures Underway(g, a, c, src, granted, i + 1)
  {
    forall m: Bit | m in granted && m in g[src][i].filter ensures g[src][i].chained == None {
      assert m in granted * g[src][i].filter;
    }
  }

  lemma UnderwayCall(g: Graph, a: States, c: States, d: States, src: Signal, granted: Bits, i: nat)
    requires Underway(g, a, c, src, granted, i) && i < |g[src]|
    requires g[src][i].chained != None && g[src][i].chained.value in a
    requires Spreads(g, c, d, g[src][i].chained.value, granted * g[src][i].filter)
    ensures Underway(g, a, d, src, granted, i + 1)
  {
    var t := g[src][i].chained.value;
    SpreadFacts(g, c, d, t, granted * g[src][i].filter);
    forall s, m: Bit | s in a && m !in a[s] && m in d[s]
      ensures m in granted && Triggers(g, a, m, src, s)
    {
      if m !in c[s] {
        assert Edge(g, src, t, m);
        PrependPath(g, a, c, m, src, t, s);
      }
    }
  }

  lemma UnderwayEnd(g: Graph, a: States, c: States, src: Signal, sig: Bits)
    requires src in a && src in g && Underway(g, a, c, src, sig - a[src], |g[src]|)
    ensures Spreads(g, a, c, src, sig)
  {
    var granted := sig - a[src];
    forall s, t, m: Bit | s in a && t in c && m !in a[s] && m in c[s] && Edge(g, s, t, m)
      ensures m in c[t]
    {
      assert m in granted;
    }
    FactsSpread(g, a, c, src, sig);
  }

  // ---------------------------------------------------------------- the code

  class Signal {
    var state: Bits
    var slots: seq<Slot>   // newest first, as registSlot links them

    constructor ()
      ensures state == {} && slots == []
    {
      state, slots := {}, [];
    }

    /** The compare-exchange loop; it may fail `spurious` times although nobody interferes. */
    method UpdateState(sig: Bits, spurious: nat) returns (granted: Bits)
      modifies this`state
      ensures granted == Granted(old(state), sig) && state == old(state) + sig
    {
      var expected, left := state, spurious;
      while true
        invariant state == expected == old(state)
        decreases left
      {
        var validSignal := (expected + sig) - expected;
        if validSignal == {} || left == 0 {
          if validSignal == {} {
            assert expected + sig == expected by {
              assert forall b :: b in expected + sig ==> b in validSignal || b in expected;
            }
          } else {
            state := expected + sig;
          }
          assert validSignal == sig - expected;
          return validSignal + (sig - ONCE);
        }
        left, expected := left - 1, state;
      }
    }

    /** Emitting trigger-once bits ends on every graph, and sets exactly the bits that can travel. */
    method Emits(sig: Bits, spurious: nat, ghost all: set<Signal>) returns (granted: Bits)
      requires this in all && ClosedGraph(GraphOf(all), StatesOf(all))
      requires sig <= ONCE
      modifies all`state
      ensures Spreads(GraphOf(all), old(StatesOf(all)), StatesOf(all), this, sig)
      ensures granted == sig - old(state)
      decreases Unset(StatesOf(all))
    {
      ghost var g, a := GraphOf(all), StatesOf(all);
      if sig == {} {
        return {};
      }
      granted := UpdateState(sig, spurious);
      assert granted == sig - a[this];
      UnderwayStart(g, a, StatesOf(all), this, granted);
      if granted != {} {
        var i := 0;
        while i < |slots|
          invariant 0 <= i <= |slots| && GraphOf(all) == g
          invariant Underway(g, a, StatesOf(all), this, granted, i)
        {
          var filtered := granted * slots[i].filter;
          ghost var c := StatesOf(all);
          if slots[i].chained.Some? && filtered != {} {
            UnsetShrinks(a, c, this, granted);
            assert NestedAt(g, a, c, this, sig, i, filtered);
            var _ := slots[i].chained.value.Emits(filtered, spurious, all);
            UnderwayCall(g, a, c, StatesOf(all), this, granted, i);
          } else {
            UnderwaySkip(g, a, c, this, granted, i);
          }
          i := i + 1;
        }
      } else {
        NothingGranted(g, a, StatesOf(all), this);
      }
      UnderwayEnd(g, a, StatesOf(all), this, sig);
    }
  }

  /** What emits does at its slot `i` is a nested call in the sense of Nests. */
  ghost predicate NestedAt(g: Graph, a: States, c: States, src: Signal, sig: Bits, i: nat, filtered: Bits) {
    && src in g && i < |g[src]| && g[src][i].chained.Some?
    && Nests(g, Call(a, src, sig), i, Call(c, g[src][i].chained.value, filtered))
  }

  ghost function GraphOf(all: set<Signal>): Graph
    reads all`slots
  {
    map s | s in all :: s.slots
  }

  ghost function StatesOf(all: set<Signal>): States
    reads all`state
  {
    map s | s in all :: s.state
  }

  /** The trigger-once bits still to be had, over all signals: what every nested emission uses up. */
  ghost function Unset(a: States): set<(Signal, Bit)> {
    set s, m | s in a && m in ONCE - a[s] :: (s, m)
  }

  lemma UnsetShrinks(a: States, c: States, src: Signal, granted: Bits)
    requires Grows(a, c) && src in a && granted != {} && granted <= ONCE
    requires forall m: Bit :: m in granted ==> m !in a[src] && m in c[src]
    ensures Unset(c) < Unset(a)
  {
    var m :| m in granted;
    assert (src, m) in Unset(a) && (src, m) !in Unset(c);
  }

  lemma NothingGranted(g: Graph, a: States, c: States, src: Signal)
    requires Underway(g, a, c, src, {}, 0)
    ensures Underway(g, a, c, src, {}, |g[src]|)
  {}

  // ---------------------------------------------------------------- a propagated start

  /** Every set bit has been passed on: what holds before anything is emitted, and after each emission. */
  ghost predicate Propagated(g: Graph, a: States) {
    forall s, t, m: Bit | s in a && t in a && m in a[s] && Edge(g, s, t, m) :: m in a[t]
  }

  ghost predicate Reachable(g: Graph, a: States, m: Bit, src: Signal, dst: Signal) {
    exists p :: Within(a, p) && Path(g, m, p, src, dst)
  }

  ghost predicate Within(a: States, older p: seq<Signal>) {
    forall i :: 0 <= i < |p| ==> p[i] in a
  }

  /** From a propagated start the emission sets exactly what plain reachability says, whatever was set
      before, and leaves a propagated state behind. */
  lemma EmitsIsReachability(g: Graph, a: States, b: States, src: Signal, sig: Bits)
    requires Propagated(g, a) && src in a && Spreads(g, a, b, src, sig)
    ensures Propagated(g, b)
    ensures forall s, m: Bit :: s in a ==>
      (m in b[s] <==> m in a[s] || (m in sig && Reachable(g, a, m, src, s)))
  {
    SpreadFacts(g, a, b, src, sig);
    forall s, m: Bit | s in a && m in sig && Reachable(g, a, m, src, s) ensures m in b[s] {
      var p :| Within(a, p) && Path(g, m, p, src, s);
      FollowPropagated(g, b, m, p, src, s);
    }
    forall s, m: Bit | s in a && Triggers(g, a, m, src, s) ensures Reachable(g, a, m, src, s) {
      var p :| Untriggered(a, m, p) && Path(g, m, p, src, s);
      assert Within(a, p);
    }
  }

  lemma {:induction false} FollowPropagated(g: Graph, b: States, m: Bit, p: seq<Signal>, src: Signal, dst: Signal)
    requires Propagated(g, b) && Within(b, p) && Path(g, m, p, src, dst) && m in b[src]
    ensures m in b[dst]
    decreases |p|
  {
    var n := |p| - 1;
    if n > 0 {
      FollowPropagated(g, b, m, p[..n], src, p[n - 1]);
      assert Edge(g, p[n - 1], p[n], m);
    }
  }

  // ---------------------------------------------------------------- when an emission ends, for all bits

  /** One activation of emits: at `at`, with `sig`, when the signals are in `states`. */
  datatype Call = Call(states: States, at: Signal, sig: Bits)

  ghost predicate CallOk(g: Graph, c: Call) {
    ClosedGraph(g, c.states) && c.at in c.states
  }

  /** `c'` is the nested call that `c` makes for its slot `i`, whatever the slots before have done. */
  ghost predicate Nests(g: Graph, c: Call, i: nat, c': Call) {
    && c.at in c.states && c.at in g && i < |g[c.at]|
    && g[c.at][i].chained == Some(c'.at)
    && c'.sig == Granted(c.states[c.at], c.sig) * g[c.at][i].filter != {}
    && Grows(c.states[c.at := c.states[c.at] + c.sig], c'.states)
  }

  ghost predicate NestsSomewhere(g: Graph, c: Call, c': Call) {
    exists i :: Nests(g, c, i, c')
  }

  /** Calls each of which makes the next. */
  ghost predicate Chain(g: Graph, cs: seq<Call>) {
    && cs != [] && (forall k :: 0 <= k < |cs| ==> CallOk(g, cs[k]))
    && forall k :: 0 < k < |cs| ==> NestsSomewhere(g, cs[k - 1], cs[k])
  }

  ghost predicate ChainFrom(g: Graph, c: Call, older cs: seq<Call>) {
    Chain(g, cs) && cs[0] == c
  }

  /** The calls nested in `c` are no deeper than some number; with the finite lists of slots, emits ends. */
  ghost predicate Ends(g: Graph, c: Call) {
    exists depth: nat :: NoDeeper(g, c, depth)
  }

  ghost predicate NoDeeper(g: Graph, c: Call, depth: nat) {
    forall cs :: ChainFrom(g, c, cs) ==> |cs| <= depth
  }

  /** A way that `m` can go from `src` and that comes back to a signal: a cycle ahead. */
  ghost predicate Returns(g: Graph, m: Bit, src: Signal, older p: seq<Signal>, i: nat, j: nat) {
    i < j < |p| && p[i] == p[j] && Path(g, m, p, src, p[|p| - 1]) && forall k :: 0 <= k < |p| ==> p[k] in g
  }

  ghost predicate CycleAhead(g: Graph, m: Bit, src: Signal) {
    exists p, i, j :: Returns(g, m, src, p, i, j)
  }

  // ---- a cycle ahead makes arbitrarily long chains

  /** Once more around. */
  lemma Around(g: Graph, m: Bit, src: Signal, p: seq<Signal>, i: nat, j: nat) returns (q: seq<Signal>)
    requires Returns(g, m, src, p, i, j)
    ensures Returns(g, m, src, q, i, j) && |q| > |p|
  {
    q := p[..j] + p[i..];
    forall k | 0 <= k < |q| - 1 ensures Edge(g, q[k], q[k + 1], m) {
      if k < j - 1 {
        assert q[k] == p[k] && q[k + 1] == p[k + 1];
      } else if k == j - 1 {
        assert q[k] == p[j - 1] && q[k + 1] == p[i] == p[j];
      } else {
        assert q[k] == p[k - j + i] && q[k + 1] == p[k - j + i + 1];
      }
    }
    assert q[j] == p[i] && q[i] == p[i];
  }

  lemma {:induction false} LongWay(g: Graph, m: Bit, src: Signal, p: seq<Signal>, i: nat, j: nat, n: nat)
    returns (q: seq<Signal>)
    requires Returns(g, m, src, p, i, j)
    ensures Returns(g, m, src, q, i, j) && |q| > n
  {
    if n == 0 {
      q := p;
    } else {
      q := LongWay(g, m, src, p, i, j, n - 1);
      q := Around(g, m, src, q, i, j);
    }
  }

  /** Along an edge a multi-trigger bit is passed on by a nested call, whatever is set. */
  lemma NestAlong(g: Graph, c: Call, m: Bit, t: Signal) returns (c': Call)
    requires CallOk(g, c) && m in c.sig && m !in ONCE && Edge(g, c.at, t, m)
    ensures NestsSomewhere(g, c, c') && CallOk(g, c') && c'.at == t && m in c'.sig
  {
    var i :| 0 <= i < |g[c.at]| && g[c.at][i].chained == Some(t) && m in g[c.at][i].filter;
    var granted := Granted(c.states[c.at], c.sig);
    assert m in granted * g[c.at][i].filter;
    c' := Call(c.states[c.at := c.states[c.at] + c.sig], t, granted * g[c.at][i].filter);
    assert Nests(g, c, i, c');
  }

  lemma {:induction false} ChainAlong(g: Graph, c: Call, m: Bit, p: seq<Signal>) returns (cs: seq<Call>)
    requires CallOk(g, c) && m in c.sig && m !in ONCE && p != [] && Path(g, m, p, c.at, p[|p| - 1])
    ensures ChainFrom(g, c, cs) && |cs| == |p| && cs[|p| - 1].at == p[|p| - 1] && m in cs[|p| - 1].sig
    decreases |p|
  {
    var n := |p| - 1;
    if n == 0 {
      cs := [c];
    } else {
      cs := ChainAlong(g, c, m, p[..n]);
      assert Edge(g, p[n - 1], p[n], m);
      var c' := NestAlong(g, cs[n - 1], m, p[n]);
      cs := cs + [c'];
    }
  }

  // ---- without one, every chain is short

  /** What a call passes on it was granted, and was given. */
  lemma {:induction false} Passed(g: Graph, cs: seq<Call>, k: nat, m: Bit)
    requires Chain(g, cs) && k < |cs| && m in cs[|cs| - 1].sig
    ensures m in cs[k].sig
    ensures k < |cs| - 1 ==> m in Granted(cs[k].states[cs[k].at], cs[k].sig) && Edge(g, cs[k].at, cs[k + 1].at, m)
    decreases |cs| - k
  {
    if k < |cs| - 1 {
      Passed(g, cs, k + 1, m);
      assert NestsSomewhere(g, cs[k + 1 - 1], cs[k + 1]);
    }
  }

  function Places(cs: seq<Call>): (p: seq<Signal>)
    ensures |p| == |cs| && forall k :: 0 <= k < |p| ==> p[k] == cs[k].at
  {
    seq(|cs|, k requires 0 <= k < |cs| => cs[k].at)
  }

  lemma ChainIsPath(g: Graph, cs: seq<Call>, m: Bit)
    requires Chain(g, cs) && m in cs[|cs| - 1].sig
    ensures Path(g, m, Places(cs), cs[0].at, cs[|cs| - 1].at)
  {
    forall k | 0 <= k < |cs| - 1 ensures Edge(g, Places(cs)[k], Places(cs)[k + 1], m) {
      Passed(g, cs, k, m);
    }
  }

  /** Signals that are all different are no more than there are. */
  lemma {:induction false} NoMoreThan(p: seq<Signal>, all: set<Signal>)
    requires (forall k :: 0 <= k < |p| ==> p[k] in all) && forall i, j :: 0 <= i < j < |p| ==> p[i] != p[j]
    ensures |p| <= |all|
  {
    if p != [] {
      NoMoreThan(p[1..], all - {p[0]});
    }
  }

  /** A multi-trigger bit that gets to the end of a chain has not been anywhere twice. */
  lemma MultiIsShort(g: Graph, c: Call, cs: seq<Call>, m: Bit)
    requires ChainFrom(g, c, cs) && m in cs[|cs| - 1].sig && !CycleAhead(g, m, c.at)
    ensures |cs| <= |g|
  {
    var p := Places(cs);
    ChainIsPath(g, cs, m);
    forall i, j | 0 <= i < j < |p| ensures p[i] != p[j] {
      assert p[i] == p[j] ==> Returns(g, m, c.at, p, i, j);
    }
    NoMoreThan(p, g.Keys);
  }

  /** A trigger-once bit that gets to the end of a chain was new at each call before. */
  lemma {:induction false} OnceIsShort(g: Graph, cs: seq<Call>, m: Bit, k: nat)
    requires Chain(g, cs) && m in cs[|cs| - 1].sig && m in ONCE && k < |cs|
    ensures |Unset(cs[k].states)| + k <= |Unset(cs[0].states)|
  {
    if k > 0 {
      OnceIsShort(g, cs, m, k - 1);
      Passed(g, cs, k - 1, m);
      assert NestsSomewhere(g, cs[k - 1], cs[k]);
      OnceIsUsedUp(g, cs[k - 1], cs[k], m);
    }
  }

  lemma OnceIsUsedUp(g: Graph, c: Call, c': Call, m: Bit)
    requires CallOk(g, c) && NestsSomewhere(g, c, c') && m in ONCE && m in Granted(c.states[c.at], c.sig)
    ensures |Unset(c'.states)| < |Unset(c.states)|
  {
    assert (c.at, m) in Unset(c.states) && (c.at, m) !in Unset(c'.states);
    assert Unset(c'.states) <= Unset(c.states) - {(c.at, m)};
    var rest := Unset(c.states) - {(c.at, m)};
    assert rest == Unset(c'.states) + (rest - Unset(c'.states));
  }

  /** An emission ends if and only if no cycle ahead of it carries one of its multi-trigger bits. */
  lemma EndsWithoutCycle(g: Graph, c: Call)
    requires CallOk(g, c) && c.sig != {}
    ensures Ends(g, c) <==> forall m: Bit :: m in c.sig && m !in ONCE ==> !CycleAhead(g, m, c.at)
  {
    if m: Bit :| m in c.sig && m !in ONCE && CycleAhead(g, m, c.at) {
      var p, i, j :| Returns(g, m, c.at, p, i, j);
      forall depth: nat ensures !NoDeeper(g, c, depth) {
        var q := LongWay(g, m, c.at, p, i, j, depth);
        var cs := ChainAlong(g, c, m, q);
      }
    } else {
      var depth := |g| + |Unset(c.states)| + 1;
      forall cs | ChainFrom(g, c, cs) ensures |cs| <= depth {
        ShortChain(g, c, cs);
      }
      assert NoDeeper(g, c, depth);
    }
  }

  lemma ShortChain(g: Graph, c: Call, cs: seq<Call>)
    requires ChainFrom(g, c, cs) && c.sig != {}
    requires forall m: Bit :: m in c.sig && m !in ONCE ==> !CycleAhead(g, m, c.at)
    ensures |cs| <= |g| + |Unset(c.states)| + 1
  {
    var n := |cs| - 1;
    if n > 0 {
      assert NestsSomewhere(g, cs[n - 1], cs[n]);
    }
    var m: Bit :| m in cs[n].sig;
    Passed(g, cs, 0, m);
    if m in ONCE {
      OnceIsShort(g, cs, m, n);
    } else {
      MultiIsShort(g, c, cs, m);
    }
  }
}
