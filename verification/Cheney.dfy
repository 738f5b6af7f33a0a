/** The copying collector: roots are forwarded, then the copied objects are scanned
    one after the other while the free pointer runs ahead of the scan pointer. */
module Cheney {
  /** A pointer into from-space or to-space, or anything that is not one. */
  datatype Cell = From(a: nat) | To(k: nat) | Other(v: int)

  /** An object of from-space keeps its place; once copied it holds the address of its
      copy instead.  Sizes are in bytes, rounded. */
  datatype Obj = Obj(size: nat, fields: seq<Cell>) | Forwarded(k: nat)

  ghost predicate CellOk(n: nat, c: Cell) { match c case From(a) => a < n case To(_) => false case Other(_) => true }

  /** From-space before the collection: every pointer leads to an object. */
  ghost predicate WellFormed(orig: seq<Obj>, roots: seq<Cell>) {
    && (forall a :: 0 <= a < |orig| ==> orig[a].Obj?)
    && (forall a, j {:trigger orig[a].fields[j]} :: 0 <= a < |orig| && 0 <= j < |orig[a].fields| ==> CellOk(|orig|, orig[a].fields[j]))
    && (forall i :: 0 <= i < |roots| ==> CellOk(|orig|, roots[i]))
  }

  ghost predicate Reach(orig: seq<Obj>, roots: seq<Cell>, a: nat, n: nat)
    decreases n
  {
    if n == 0 then From(a) in roots
    else exists b: nat :: b < |orig| && orig[b].Obj? && From(a) in orig[b].fields && Reach(orig, roots, b, n - 1)
  }

  ghost predicate Reachable(orig: seq<Obj>, roots: seq<Cell>, a: nat) { exists n: nat :: Reach(orig, roots, a, n) }

  lemma ReachOn(orig: seq<Obj>, roots: seq<Cell>, b: nat, a: nat)
    requires Reachable(orig, roots, b) && b < |orig| && orig[b].Obj? && From(a) in orig[b].fields
    ensures Reachable(orig, roots, a)
  {
    var n: nat :| Reach(orig, roots, b, n);
    assert Reach(orig, roots, a, n + 1);
  }

  // ------------------------------------------------------------------------ sizes

  /** The bytes of the objects of set s below n. */
  ghost function Bytes(orig: seq<Obj>, s: set<nat>, n: nat): nat
    requires n <= |orig|
  {
    if n == 0 then 0 else Bytes(orig, s, n - 1) + if n - 1 in s && orig[n - 1].Obj? then orig[n - 1].size else 0
  }

  lemma {:induction false} BytesAdd(orig: seq<Obj>, s: set<nat>, a: nat, n: nat)
    requires n <= |orig| && a < |orig| && a !in s && orig[a].Obj?
    ensures Bytes(orig, s + {a}, n) == Bytes(orig, s, n) + if a < n then orig[a].size else 0
  {
    if n > 0 { BytesAdd(orig, s, a, n - 1); }
  }

  /** All of from-space. */
  ghost function Used(orig: seq<Obj>, n: nat): nat
    requires n <= |orig|
  {
    if n == 0 then 0 else Used(orig, n - 1) + if orig[n - 1].Obj? then orig[n - 1].size else 0
  }

  lemma {:induction false} BytesUsed(orig: seq<Obj>, s: set<nat>, n: nat)
    requires n <= |orig|
    ensures Bytes(orig, s, n) <= Used(orig, n)
  {
    if n > 0 { BytesUsed(orig, s, n - 1); }
  }

  ghost function Elems(s: seq<nat>): set<nat> { set x | x in s }

  // ------------------------------------------------------------------- invariant

  /** c' is what c becomes: the copy of the same object, or the same thing. */
  predicate Moved(from: seq<Obj>, c: Cell, c': Cell) {
    match c
    case From(a) => a < |from| && from[a].Forwarded? && c' == To(from[a].k)
    case _ => c' == c
  }

  /** order[k] is the address of the object whose copy is number k. */
  ghost predicate Order(orig: seq<Obj>, from: seq<Obj>, order: seq<nat>) {
    && |from| == |orig|
    && (forall k :: 0 <= k < |order| ==> order[k] < |from| && from[order[k]] == Forwarded(k))
    && (forall a :: 0 <= a < |from| ==> from[a] == orig[a] || (from[a].Forwarded? && from[a].k < |order| && order[from[a].k] == a))
  }

  /** The copies before `scan`, and the fields before `i` of the one at `scan`, point to
      copies; the rest is as it was. */
  ghost predicate Copies(orig: seq<Obj>, from: seq<Obj>, to: seq<Obj>, order: seq<nat>, scan: nat, i: nat) {
    && |order| == |to|
    && forall k {:trigger to[k]} :: 0 <= k < |order| && order[k] < |orig| && orig[order[k]].Obj? ==>
         CopyOk(from, orig[order[k]], to[k], if k < scan then |orig[order[k]].fields| else if k == scan then i else 0)
  }

  ghost predicate CopyOk(from: seq<Obj>, o: Obj, c: Obj, done: nat)
    requires o.Obj?
  {
    && c.Obj? && c.size == o.size && |c.fields| == |o.fields|
    && forall j :: 0 <= j < |o.fields| ==> if j < done then Moved(from, o.fields[j], c.fields[j]) else c.fields[j] == o.fields[j]
  }

  ghost predicate Inv(orig: seq<Obj>, roots: seq<Cell>, from: seq<Obj>, to: seq<Obj>, order: seq<nat>, scan: nat, i: nat, bytes: nat) {
    && WellFormed(orig, roots) && Order(orig, from, order) && Copies(orig, from, to, order, scan, i)
    && scan <= |order|
    && (forall k :: 0 <= k < |order| ==> Reachable(orig, roots, order[k]))
    && bytes == Bytes(orig, Elems(order), |orig|)
  }

  // -------------------------------------------------------------------- forwarding

  /** Objects that have been forwarded stay so. */
  lemma MovedStays(from: seq<Obj>, from': seq<Obj>, c: Cell, c': Cell)
    requires |from'| == |from| && forall a :: 0 <= a < |from| && from[a].Forwarded? ==> from'[a] == from[a]
    ensures Moved(from, c, c') ==> Moved(from', c, c')
  {
  }

  /** Copying the object at a keeps the invariant, and there is room for it. */
  lemma Copied(orig: seq<Obj>, roots: seq<Cell>, from: seq<Obj>, to: seq<Obj>, order: seq<nat>, scan: nat, i: nat, bytes: nat, a: nat)
    requires Inv(orig, roots, from, to, order, scan, i, bytes) && a < |orig| && from[a].Obj? && Reachable(orig, roots, a)
    requires scan < |order| || i == 0
    ensures bytes + orig[a].size <= Used(orig, |orig|)
    ensures Inv(orig, roots, from[a := Forwarded(|order|)], to + [from[a]], order + [a], scan, i, bytes + orig[a].size)
  {
    var from', to', order' := from[a := Forwarded(|order|)], to + [from[a]], order + [a];
    assert forall k :: 0 <= k < |order| ==> order[k] != a;
    BytesAdd(orig, Elems(order), a, |orig|);
    assert Elems(order') == Elems(order) + {a};
    BytesUsed(orig, Elems(order'), |orig|);
    OldCopies(orig, from, to, order, scan, i, a);
  }

  /** The copies made before are not affected by one more. */
  lemma OldCopies(orig: seq<Obj>, from: seq<Obj>, to: seq<Obj>, order: seq<nat>, scan: nat, i: nat, a: nat)
    requires Copies(orig, from, to, order, scan, i) && a < |from| && from[a].Obj? && a < |orig| && from[a] == orig[a]
    requires scan < |order| || (scan == |order| && i == 0)
    ensures Copies(orig, from[a := Forwarded(|order|)], to + [from[a]], order + [a], scan, i)
  {
    var from', to', order' := from[a := Forwarded(|order|)], to + [from[a]], order + [a];
    forall k | 0 <= k < |order'| && order'[k] < |orig| && orig[order'[k]].Obj?
      ensures CopyOk(from', orig[order'[k]], to'[k], if k < scan then |orig[order'[k]].fields| else if k == scan then i else 0)
    {
      if k < |order| {
        var o, done := orig[order[k]], if k < scan then |orig[order[k]].fields| else if k == scan then i else 0;
        assert CopyOk(from, o, to[k], done);
        forall j | 0 <= j < done && j < |o.fields| ensures Moved(from', o.fields[j], to[k].fields[j]) {
          MovedStays(from, from', o.fields[j], to[k].fields[j]);
        }
      } else {
        assert to'[k] == orig[a];
      }
    }
  }

  /** Writing back one field of the object at the scan pointer. */
  lemma FieldWritten(orig: seq<Obj>, roots: seq<Cell>, from: seq<Obj>, to: seq<Obj>, order: seq<nat>, scan: nat, i: nat, bytes: nat, c: Cell)
    requires Inv(orig, roots, from, to, order, scan, i, bytes) && scan < |order| && order[scan] < |orig|
    requires to[scan].Obj? && i < |to[scan].fields| && Moved(from, to[scan].fields[i], c)
    ensures Inv(orig, roots, from, to[scan := to[scan].(fields := to[scan].fields[i := c])], order, scan, i + 1, bytes)
  {
    var o := orig[order[scan]];
    assert o.Obj?;
    assert CopyOk(from, o, to[scan], i);
    var to' := to[scan := to[scan].(fields := to[scan].fields[i := c])];
    assert CopyOk(from, o, to'[scan], i + 1);
    forall k | 0 <= k < |order| && order[k] < |orig| && orig[order[k]].Obj?
      ensures CopyOk(from, orig[order[k]], to'[k], if k < scan then |orig[order[k]].fields| else if k == scan then i + 1 else 0)
    {
      if k != scan { assert CopyOk(from, orig[order[k]], to[k], if k < scan then |orig[order[k]].fields| else 0); }
    }
  }

  /** All fields of the object at the scan pointer have been forwarded. */
  lemma ObjectScanned(orig: seq<Obj>, roots: seq<Cell>, from: seq<Obj>, to: seq<Obj>, order: seq<nat>, scan: nat, i: nat, bytes: nat)
    requires Inv(orig, roots, from, to, order, scan, i, bytes) && scan < |order| && order[scan] < |orig|
    requires orig[order[scan]].Obj? && i == |orig[order[scan]].fields|
    ensures Inv(orig, roots, from, to, order, scan + 1, 0, bytes)
  {
    forall k | 0 <= k < |order| && order[k] < |orig| && orig[order[k]].Obj?
      ensures CopyOk(from, orig[order[k]], to[k], if k < scan + 1 then |orig[order[k]].fields| else 0)
    {
      assert CopyOk(from, orig[order[k]], to[k], if k < scan then |orig[order[k]].fields| else if k == scan then i else 0);
    }
  }

  // ------------------------------------------------------------------ the collector

  class Collector {
    const from: array<Obj>
    const limit: nat           // bytes of to-space
    var to: seq<Obj>           // the copies so far; the free pointer is behind the last one
    var bytes: nat             // how far the free pointer is
    ghost var orig: seq<Obj>   // from-space before the collection
    ghost var roots0: seq<Cell>
    ghost var order: seq<nat>

    ghost predicate Ok(scan: nat, i: nat)
      reads this, from
    {
      Inv(orig, roots0, from[..], to, order, scan, i, bytes) && Used(orig, |orig|) <= limit
    }

    constructor (from: array<Obj>, limit: nat, ghost roots: seq<Cell>)
      requires WellFormed(from[..], roots) && Used(from[..], from.Length) <= limit
      ensures Ok(0, 0) && this.from == from && orig == from[..] && roots0 == roots && to == []
    {
      this.from, this.limit, to, bytes := from, limit, [], 0;
      orig, roots0, order := from[..], roots, [];
      new;
      NoBytes(orig, |orig|);
    }

    /** The new address of what c points to; the object is copied unless it has been.
        To-space never overflows. */
    method Forward(c: Cell, ghost scan: nat, ghost i: nat) returns (c': Cell)
      requires Ok(scan, i) && CellOk(|orig|, c) && (c.From? ==> Reachable(orig, roots0, c.a)) && (scan < |order| || i == 0)
      modifies this`to, this`bytes, this`order, from
      ensures Ok(scan, i) && Moved(from[..], c, c') && bytes <= limit
      ensures old(order) <= order && old(to) <= to
      ensures forall a :: 0 <= a < from.Length && old(from[a]).Forwarded? ==> from[a] == old(from[a])
    {
      BytesUsed(orig, Elems(order), |orig|);
      if !c.From? { return c; }
      var obj := from[c.a];
      if obj.Forwarded? { return To(obj.k); }
      Copied(orig, roots0, from[..], to, order, scan, i, bytes, c.a);
      ghost var was := from[..];
      c' := To(|to|);
      from[c.a] := Forwarded(|to|);
      to := to + [obj];
      bytes := bytes + obj.size;
      order := order + [c.a];
      assert from[..] == was[c.a := Forwarded(|order| - 1)];
    }
  
    /** The object at the scan pointer, seen as the original it was copied from. */
    ghost predicate Scanning(scan: nat, i: nat, o: Obj)
      reads this, from
    {
      && Ok(scan, i) && scan < |to| && order[scan] < |orig| && orig[order[scan]] == o && o.Obj? && to[scan].Obj?
      && |to[scan].fields| == |o.fields| && i <= |o.fields|
    }

    /** What a step of the collector keeps: forwarded objects stay where they are. */
    twostate predicate Grown()
      reads this, from
    {
      && old(order) <= order && bytes <= limit
      && forall a :: 0 <= a < from.Length && old(from[a]).Forwarded? ==> from[a] == old(from[a])
    }

    /** forward, applied to one field. */
    method ScanField(scan: nat, i: nat, ghost o: Obj)
      requires Scanning(scan, i, o) && i < |o.fields|
      modifies this`to, this`bytes, this`order, from
      ensures Scanning(scan, i + 1, o) && Grown() && orig == old(orig)
    {
      assert CopyOk(from[..], o, to[scan], i);
      var c := to[scan].fields[i];
      assert c == o.fields[i] == orig[order[scan]].fields[i];
      if c.From? { ReachOn(orig, roots0, order[scan], c.a); }
      ghost var before := order;
      var c' := Forward(c, scan, i);
      assert order[scan] == before[scan];
      FieldWritten(orig, roots0, from[..], to, order, scan, i, bytes, c');
      to := to[scan := to[scan].(fields := to[scan].fields[i := c'])];
    }

    /** forward_children of the object at the scan pointer. */
    method ScanObject(scan: nat)
      requires Ok(scan, 0) && scan < |to|
      modifies this`to, this`bytes, this`order, from
      ensures Ok(scan + 1, 0) && Grown()
    {
      ghost var o := orig[order[scan]];
      assert CopyOk(from[..], o, to[scan], 0);
      BytesUsed(orig, Elems(order), |orig|);
      var i := 0;
      while i < |to[scan].fields|
        invariant Scanning(scan, i, o) && Grown()
        decreases |o.fields| - i
      {
        ScanField(scan, i, o);
        i := i + 1;
      }
      ObjectScanned(orig, roots0, from[..], to, order, scan, i, bytes);
    }

    /** forward_region: ends because every object is copied at most once. */
    method ForwardRegion(start: nat)
      requires Ok(start, 0)
      modifies this`to, this`bytes, this`order, from
      ensures Ok(|to|, 0) && Grown()
    {
      BytesUsed(orig, Elems(order), |orig|);
      var cur := start;
      while cur < |to|
        invariant Ok(cur, 0) && Grown() && cur <= |to|
        decreases from.Length - cur
      {
        AtMostAll(orig, from[..], order);
        ScanObject(cur);
        cur := cur + 1;
      }
    }

    /** sml_rootset_enum_ptr(forward) */
    method ForwardRoots(roots: array<Cell>)
      requires Ok(0, 0) && roots[..] == roots0
      modifies this`to, this`bytes, this`order, from, roots
      ensures Ok(0, 0) && RootsMoved(from[..], roots0, roots[..], roots.Length)
    {
      var i := 0;
      while i < roots.Length
        invariant i <= roots.Length && Ok(0, 0) && RootsMoved(from[..], roots0, roots[..], i)
      {
        ghost var was, before := roots[..], from[..];
        assert roots[i] == roots0[i];
        if roots[i].From? { assert Reach(orig, roots0, roots[i].a, 0); }
        var c' := Forward(roots[i], 0, 0);
        RootsStay(before, from[..], roots0, was, i);
        roots[i] := c';
        assert roots[..] == was[i := c'];
        i := i + 1;
      }
    }

    /** do_gc: the roots first, then everything that is reachable from them. */
    method Collect(roots: array<Cell>)
      requires Ok(0, 0) && roots[..] == roots0 && to == []
      modifies this`to, this`bytes, this`order, from, roots
      ensures Isomorphic(orig, old(roots[..]), to, roots[..], order)
      ensures bytes == Bytes(orig, Elems(order), |orig|) <= limit
    {
      ForwardRoots(roots);
      ghost var before := from[..];
      ForwardRegion(0);
      RootsStay(before, from[..], roots0, roots[..], roots.Length);
      Complete(orig, roots0, from[..], to, roots[..], order, bytes);
    }
  }

  /** What has become of the first i roots. */
  ghost predicate RootsMoved(from: seq<Obj>, roots0: seq<Cell>, roots: seq<Cell>, i: nat) {
    && i <= |roots| == |roots0|
    && (forall j :: 0 <= j < i ==> Moved(from, roots0[j], roots[j]))
    && (forall j :: i <= j < |roots| ==> roots[j] == roots0[j])
  }

  lemma RootsStay(from: seq<Obj>, from': seq<Obj>, roots0: seq<Cell>, roots: seq<Cell>, i: nat)
    requires RootsMoved(from, roots0, roots, i) && |from'| == |from|
    requires forall a :: 0 <= a < |from| && from[a].Forwarded? ==> from'[a] == from[a]
    ensures RootsMoved(from', roots0, roots, i)
  {
    forall j | 0 <= j < i ensures Moved(from', roots0[j], roots[j]) { MovedStays(from, from', roots0[j], roots[j]); }
  }

  // -------------------------------------------------------------------- the result

  /** No object is copied twice, so there are at most as many copies as objects. */
  lemma AtMostAll(orig: seq<Obj>, from: seq<Obj>, order: seq<nat>)
    requires Order(orig, from, order)
    ensures |order| <= |from|
  {
    Injective(order, |from|);
  }

  lemma {:induction false} Injective(s: seq<nat>, n: nat)
    requires (forall k :: 0 <= k < |s| ==> s[k] < n) && (forall i, j :: 0 <= i < j < |s| ==> s[i] != s[j])
    ensures |s| <= n
    decreases n
  {
    assert s != [] ==> s[0] < n;
    if n == 0 {
    } else if n - 1 in s {
      var i :| 0 <= i < |s| && s[i] == n - 1;
      var t := s[..i] + s[i + 1..];
      assert forall k :: 0 <= k < |t| ==> t[k] == if k < i then s[k] else s[k + 1];
      Injective(t, n - 1);
    } else {
      assert forall k :: 0 <= k < |s| ==> s[k] in s;
      Injective(s, n - 1);
    }
  }

  /** c' points to the copy of what c points to. */
  predicate Renamed(order: seq<nat>, c: Cell, c': Cell) {
    match c
    case From(a) => c'.To? && c'.k < |order| && order[c'.k] == a
    case _ => c' == c
  }

  /** The copies are exactly the reachable objects, each once, and correspond to them
      field by field: sharing and cycles are kept. */
  ghost predicate Isomorphic(orig: seq<Obj>, roots: seq<Cell>, to: seq<Obj>, roots': seq<Cell>, order: seq<nat>) {
    && |to| == |order| && |roots'| == |roots|
    && (forall i, j :: 0 <= i < j < |order| ==> order[i] != order[j])
    && (forall a: nat :: a in order <==> Reachable(orig, roots, a))
    && (forall i :: 0 <= i < |roots| ==> Renamed(order, roots[i], roots'[i]))
    && (forall k :: 0 <= k < |order| ==> order[k] < |orig| && CopyOf(order, orig[order[k]], to[k]))
  }

  ghost predicate CopyOf(order: seq<nat>, o: Obj, c: Obj) {
    && o.Obj? && c.Obj? && c.size == o.size && |c.fields| == |o.fields|
    && forall j :: 0 <= j < |o.fields| ==> Renamed(order, o.fields[j], c.fields[j])
  }

  lemma MovedRenamed(orig: seq<Obj>, from: seq<Obj>, order: seq<nat>, c: Cell, c': Cell)
    requires Order(orig, from, order) && Moved(from, c, c') && (forall a :: 0 <= a < |orig| ==> orig[a].Obj?)
    ensures Renamed(order, c, c')
  {
  }

  /** Everything reachable has been copied. */
  lemma {:induction false} AllCopied(orig: seq<Obj>, roots: seq<Cell>, from: seq<Obj>, to: seq<Obj>, roots': seq<Cell>, order: seq<nat>, bytes: nat, a: nat, n: nat)
    requires Inv(orig, roots, from, to, order, |to|, 0, bytes) && Reach(orig, roots, a, n) && |roots'| == |roots|
    requires forall j :: 0 <= j < |roots| ==> Moved(from, roots[j], roots'[j])
    ensures a in order
    decreases n
  {
    hide Moved;
    if n == 0 {
      var j :| 0 <= j < |roots| && roots[j] == From(a);
      MovedRenamed(orig, from, order, roots[j], roots'[j]);
    } else {
      var b: nat :| b < |orig| && orig[b].Obj? && From(a) in orig[b].fields && Reach(orig, roots, b, n - 1);
      AllCopied(orig, roots, from, to, roots', order, bytes, b, n - 1);
      var k :| 0 <= k < |order| && order[k] == b;
      assert CopyOk(from, orig[order[k]], to[k], |orig[order[k]].fields|);
      var j :| 0 <= j < |orig[b].fields| && orig[b].fields[j] == From(a);
      MovedRenamed(orig, from, order, orig[b].fields[j], to[k].fields[j]);
    }
  }

  lemma Complete(orig: seq<Obj>, roots: seq<Cell>, from: seq<Obj>, to: seq<Obj>, roots': seq<Cell>, order: seq<nat>, bytes: nat)
    requires Inv(orig, roots, from, to, order, |to|, 0, bytes) && |roots'| == |roots|
    requires forall j :: 0 <= j < |roots| ==> Moved(from, roots[j], roots'[j])
    ensures Isomorphic(orig, roots, to, roots', order)
  {
    forall a: nat ensures a in order <==> Reachable(orig, roots, a) {
      if Reachable(orig, roots, a) {
        var n: nat :| Reach(orig, roots, a, n);
        AllCopied(orig, roots, from, to, roots', order, bytes, a, n);
      }
    }
    forall k | 0 <= k < |order| ensures order[k] < |orig| && CopyOf(order, orig[order[k]], to[k]) {
      var o := orig[order[k]];
      assert CopyOk(from, o, to[k], |o.fields|);
      forall j | 0 <= j < |o.fields| ensures Renamed(order, o.fields[j], to[k].fields[j]) {
        MovedRenamed(orig, from, order, o.fields[j], to[k].fields[j]);
      }
    }
    forall i | 0 <= i < |roots| ensures Renamed(order, roots[i], roots'[i]) { MovedRenamed(orig, from, order, roots[i], roots'[i]); }
  }

  lemma {:induction false} NoBytes(orig: seq<Obj>, n: nat)
    requires n <= |orig|
    ensures Bytes(orig, Elems([]), n) == 0
  {
    if n > 0 { NoBytes(orig, n - 1); }
  }
}
