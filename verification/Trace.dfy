/** Tracing with a stack that runs through the slots of the objects themselves. */
module Trace {
  const NULL: int := -1

  /** The pointer fields of each object, and which objects this collection judges. */
  datatype Graph = Graph(fields: seq<seq<int>>, target: seq<bool>)

  ghost predicate Closed(g: Graph) {
    && |g.fields| == |g.target|
    && forall o, i :: 0 <= o < |g.fields| && 0 <= i < |g.fields[o]| ==> NULL <= g.fields[o][i] < |g.fields|
  }

  /** Object x is a target that a field of o points to. */
  ghost predicate Link(g: Graph, o: nat, x: nat) {
    o < |g.fields| && x < |g.target| && g.target[x] && x in g.fields[o]
  }

  /** x can be reached from the roots through targets, in n steps. */
  ghost predicate Reach(g: Graph, roots: set<nat>, x: nat, n: nat)
    decreases n
  {
    if n == 0 then x in roots else exists o: nat :: Reach(g, roots, o, n - 1) && Link(g, o, x)
  }

  ghost predicate Reachable(g: Graph, roots: set<nat>, x: nat) { exists n: nat :: Reach(g, roots, x, n) }

  /** The stack from `top` on is st, with no object twice. */
  ghost predicate Chain(next: seq<int>, top: int, st: seq<nat>)
    decreases |st|
  {
    if st == [] then top == NULL
    else top == st[0] && st[0] < |next| && st[0] !in st[1..] && Chain(next, next[st[0]], st[1..])
  }

  /** Writing the slot of an object that is not on the stack leaves the stack alone. */
  lemma {:induction false} ChainFrame(next: seq<int>, top: int, st: seq<nat>, o: nat, v: int)
    requires Chain(next, top, st) && o < |next| && o !in st
    ensures Chain(next[o := v], top, st)
    decreases |st|
  {
    if st != [] { ChainFrame(next, next[st[0]], st[1..], o, v); }
  }

  /** What holds between two steps.  Objects on the stack are marked; the others that
      are marked have been scanned, except for the fields of `busy` from `from` on. */
  ghost predicate Tracing(g: Graph, roots: set<nat>, marked: seq<bool>, st: seq<nat>, busy: int, from: nat) {
    && |marked| == |g.target| == |g.fields|
    && (forall r :: r in roots ==> r < |marked| && marked[r])
    && (forall o :: o in st ==> o < |marked| && marked[o])
    && (forall o :: 0 <= o < |marked| && marked[o] ==> Reachable(g, roots, o))
    && (forall o, i {:trigger g.fields[o][i]} :: 0 <= o < |marked| && marked[o] && o !in st && 0 <= i < |g.fields[o]| && (o != busy || i < from)
          ==> Done(g, marked, g.fields[o][i]))
  }

  /** A field value that needs no more work. */
  predicate Done(g: Graph, marked: seq<bool>, x: int) {
    !(0 <= x < |g.target| && x < |marked|) || !g.target[x] || marked[x]
  }

  lemma ReachOn(g: Graph, roots: set<nat>, o: nat, x: nat)
    requires Reachable(g, roots, o) && Link(g, o, x)
    ensures Reachable(g, roots, x)
  {
    var n: nat :| Reach(g, roots, o, n);
    assert Reach(g, roots, x, n + 1);
  }

  /** When the stack is empty exactly the reachable targets are marked. */
  lemma {:induction false} AllMarked(g: Graph, roots: set<nat>, marked: seq<bool>, x: nat, n: nat)
    requires Closed(g) && Tracing(g, roots, marked, [], NULL, 0) && Reach(g, roots, x, n)
    ensures x < |marked| && marked[x]
    decreases n
  {
    if n > 0 {
      var o: nat :| Reach(g, roots, o, n - 1) && Link(g, o, x);
      AllMarked(g, roots, marked, o, n - 1);
      var i :| 0 <= i < |g.fields[o]| && g.fields[o][i] == x;
      assert Done(g, marked, g.fields[o][i]);
    }
  }

  /** push, for field i of object o: visit and, if it was the first visit, one more
      object on the stack. */
  lemma Pushed(g: Graph, roots: set<nat>, marked: seq<bool>, st: seq<nat>, o: nat, i: nat)
    requires Closed(g) && Tracing(g, roots, marked, st, o, i) && o < |marked| && marked[o] && o !in st && i < |g.fields[o]|
    ensures var x := g.fields[o][i];
            if Done(g, marked, x) then Tracing(g, roots, marked, st, o, i + 1)
            else 0 <= x < |marked| && x !in st && x != o && Tracing(g, roots, marked[x := true], [x] + st, o, i + 1)
  {
    var x := g.fields[o][i];
    if !Done(g, marked, x) {
      assert Link(g, o, x);
      ReachOn(g, roots, o, x);
    }
  }

  function Unmarked(marked: seq<bool>): nat {
    if marked == [] then 0 else Unmarked(marked[..|marked| - 1]) + if marked[|marked| - 1] then 0 else 1
  }

  lemma {:induction false} OneFewer(marked: seq<bool>, x: nat)
    requires x < |marked| && !marked[x]
    ensures Unmarked(marked[x := true]) == Unmarked(marked) - 1
  {
    var n := |marked| - 1;
    if x == n {
      assert marked[x := true][..n] == marked[..n];
    } else {
      assert marked[x := true][..n] == marked[..n][x := true];
      OneFewer(marked[..n], x);
    }
  }

  /** sml_obj_enum_ptr with push on the object just taken off the stack. */
  method Scan(g: Graph, ghost roots: set<nat>, collect: array<bool>, next: array<int>, o: nat, top0: int, ghost st0: seq<nat>)
      returns (top: int, ghost st: seq<nat>)
    requires Closed(g) && collect.Length == next.Length == |g.target|
    requires Tracing(g, roots, collect[..], st0, o, 0) && Chain(next[..], top0, st0) && o < collect.Length && collect[o] && o !in st0
    modifies collect, next
    ensures Tracing(g, roots, collect[..], st, NULL, 0) && Chain(next[..], top, st)
    ensures Unmarked(collect[..]) + |st| == old(Unmarked(collect[..])) + |st0| && Unmarked(collect[..]) <= old(Unmarked(collect[..]))
  {
    top, st := top0, st0;
    var i := 0;
    while i < |g.fields[o]|
      invariant i <= |g.fields[o]| && o !in st && collect[o]
      invariant Tracing(g, roots, collect[..], st, o, i) && Chain(next[..], top, st)
      invariant Unmarked(collect[..]) + |st| == old(Unmarked(collect[..])) + |st0| && Unmarked(collect[..]) <= old(Unmarked(collect[..]))
    {
      var x := g.fields[o][i];
      Pushed(g, roots, collect[..], st, o, i);
      if x != NULL && g.target[x] && !collect[x] {
        ghost var marked, slots := collect[..], next[..];
        OneFewer(marked, x);
        ChainFrame(slots, top, st, x, top);
        collect[x] := true;
        next[x] := top;
        assert collect[..] == marked[x := true] && next[..] == slots[x := top];
        top, st := x, [x] + st;
      }
      i := i + 1;
    }
  }

  /** trace: it ends, and marks exactly the targets that can be reached through
      targets from what was on the stack. */
  method Run(g: Graph, ghost roots: set<nat>, collect: array<bool>, next: array<int>, top0: int, ghost st0: seq<nat>)
    requires Closed(g) && collect.Length == next.Length == |g.target| && Chain(next[..], top0, st0)
    requires roots == (set o | o in st0) && forall o :: 0 <= o < collect.Length ==> (collect[o] <==> o in st0)
    modifies collect, next
    ensures forall x :: 0 <= x < |g.target| ==> (collect[x] <==> Reachable(g, roots, x))
  {
    var top := top0;
    ghost var st := st0;
    ChainBound(next[..], top0, st0);
    forall o | 0 <= o < collect.Length && collect[o] ensures Reachable(g, roots, o) { assert Reach(g, roots, o, 0); }
    while top != NULL
      invariant Tracing(g, roots, collect[..], st, NULL, 0) && Chain(next[..], top, st)
      decreases Unmarked(collect[..]) + |st|, |st|
    {
      var o := top;
      ghost var below := st[1..];
      top := next[o];
      assert st == [st[0]] + below;
      Popped(g, roots, collect[..], st);
      top, st := Scan(g, roots, collect, next, o, top, below);
    }
    ghost var marked := collect[..];
    forall x | 0 <= x < |g.target| ensures collect[x] <==> Reachable(g, roots, x) {
      if Reachable(g, roots, x) {
        var n: nat :| Reach(g, roots, x, n);
        AllMarked(g, roots, marked, x, n);
      }
    }
  }

  lemma {:induction false} ChainBound(next: seq<int>, top: int, st: seq<nat>)
    requires Chain(next, top, st)
    ensures forall o :: o in st ==> o < |next|
    decreases |st|
  {
    if st != [] {
      ChainBound(next, next[st[0]], st[1..]);
      assert st == [st[0]] + st[1..];
    }
  }

  lemma Popped(g: Graph, roots: set<nat>, marked: seq<bool>, st: seq<nat>)
    requires Tracing(g, roots, marked, st, NULL, 0) && st != [] && st[0] !in st[1..]
    ensures Tracing(g, roots, marked, st[1..], st[0], 0)
  {
    assert st == [st[0]] + st[1..];
  }
}
