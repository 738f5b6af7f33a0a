/** Multiplication by powers of five, with the cache p5s that extends itself. */
module BignumPow5 {
  import opened BignumValue
  import opened Bignum

  lemma {:induction false} PowAdd(b: nat, m: nat, n: nat)
    ensures Pow(b, m + n) == Pow(b, m) * Pow(b, n)
  {
    if m > 0 {
      PowAdd(b, m - 1, n);
      assert b * (Pow(b, m - 1) * Pow(b, n)) == (b * Pow(b, m - 1)) * Pow(b, n);
    }
  }

  /** The exponent of node i of the cache. */
  function Exponent(i: nat): nat { 4 * Pow(2, i) }

  /** The list of repeated squares of 625. */
  class Powers {
    var p5s: seq<Bigint>

    ghost function Footprint(): set<object>
      reads this
    {
      (set i | 0 <= i < |p5s| :: p5s[i]) + (set i | 0 <= i < |p5s| :: p5s[i].x)
    }

    ghost predicate Valid()
      reads this, Footprint()
    {
      forall i :: 0 <= i < |p5s| ==> NodeOk(i)
    }

    /** Node i is 5 to the power 4 * 2^i. */
    ghost predicate NodeOk(i: nat)
      reads this, Footprint()
      requires i < |p5s|
    {
      p5s[i].Valid() && p5s[i].wds > 0 && p5s[i].Value() == Pow(5, Exponent(i))
    }

    constructor ()
      ensures Valid() && p5s == []
    {
      p5s := [];
    }

    /** Makes sure that node i exists. */
    method Extend(i: nat)
      requires Valid() && i <= |p5s|
      modifies this
      ensures Valid() && i < |p5s| && old(p5s) <= p5s
      ensures forall j :: 0 <= j < |p5s| && j >= old(|p5s|) ==> fresh(p5s[j]) && fresh(p5s[j].x)
    {
      if i == |p5s| {
        ghost var before := p5s;
        var node: Bigint;
        if i == 0 {
          node := I2b(625);
          assert Pow(5, 4) == 625 by { Pow5Small(); }
        } else {
          assert NodeOk(i - 1);
          node := Mult(p5s[i - 1], p5s[i - 1]);
          Square(i - 1);
        }
        p5s := p5s + [node];
        forall j | 0 <= j < |p5s| ensures NodeOk(j) {
          if j < i { assert p5s[j] == before[j]; }
        }
      }
    }
  }

  lemma Pow5Small()
    ensures Pow(5, 4) == 625 && Pow(5, 1) == 5 && Pow(5, 2) == 25 && Pow(5, 3) == 125 && Pow(5, 0) == 1
  {
  }

  lemma Square(i: nat)
    ensures Pow(5, Exponent(i)) * Pow(5, Exponent(i)) == Pow(5, Exponent(i + 1))
    ensures Pow(5, Exponent(i)) > 0
  {
    PowAdd(5, Exponent(i), Exponent(i));
    PowPos(5, Exponent(i));
  }

  lemma {:induction false} PowPos(b: nat, e: nat)
    requires b > 0
    ensures Pow(b, e) > 0
  {
    if e > 0 { PowPos(b, e - 1); }
  }

  /** What is still to be multiplied in when e bits of the exponent are left at node i. */
  function Rest(i: nat, e: nat): nat { Pow(5, Exponent(i) * e) }

  lemma Halve(x: int, e: int, h: int, odd: int)
    requires e == 2 * h + odd
    ensures x * e == odd * x + (2 * x) * h
  {
    assert x * (2 * h + odd) == x * (2 * h) + x * odd;
  }

  lemma RestStep(i: nat, e: nat)
    ensures Rest(i, e) == if e % 2 == 1 then Pow(5, Exponent(i)) * Rest(i + 1, e / 2) else Rest(i + 1, e / 2)
  {
    var x, h := Exponent(i), e / 2;
    Halve(x, e, h, e % 2);
    assert Exponent(i + 1) == 2 * x;
    if e % 2 == 1 { PowAdd(5, x, Exponent(i + 1) * h); }
  }

  lemma RestStart(k: nat)
    ensures Pow(5, k) == Pow(5, k % 4) * Rest(0, k / 4) && Rest(0, 0) == 1
  {
    PowAdd(5, k % 4, 4 * (k / 4));
  }

  lemma RestEnd(i: nat)
    ensures Rest(i, 0) == 1
  {
  }

  /** The number r is apart from the nodes of the cache. */
  ghost predicate Apart(c: Powers, r: Bigint)
    reads c
  {
    r !in c.Footprint() && r.x !in c.Footprint()
  }

  /** The loop over the bits of the exponent. */
  method BitLoop(c: Powers, b: Bigint, e0: nat) returns (r: Bigint)
    requires c.Valid() && b.Valid() && Apart(c, b) && e0 > 0
    modifies c
    ensures c.Valid() && old(c.p5s) <= c.p5s
    ensures r.Valid() && r.Value() == b.Value() * Rest(0, e0) && Apart(c, r)
    ensures r == b || (fresh(r) && fresh(r.x))
    ensures Normal(b.Words()) && b.Value() > 0 ==> Normal(r.Words())
  {
    hide Normal, Rest, Pow;
    ghost var v := b.Value() * Rest(0, e0);
    r := b;
    c.Extend(0);
    var i: nat, e: nat := 0, e0;
    while e != 0
      invariant c.Valid() && old(c.p5s) <= c.p5s && (e > 0 ==> i < |c.p5s|)
      invariant r.Valid() && Apart(c, r) && (r == b || (fresh(r) && fresh(r.x)))
      invariant b.Valid() && b.Value() == old(b.Value()) && b.Words() == old(b.Words())
      invariant Normal(b.Words()) && b.Value() > 0 ==> Normal(r.Words()) && r.Value() > 0
      invariant r.Value() * Rest(i, e) == v
    {
      assert c.NodeOk(i);
      RestStep(i, e);
      Assoc(r.Value(), Pow(5, Exponent(i)), Rest(i + 1, e / 2));
      r := TimesNode(c, r, i, e % 2 == 1);
      e := e / 2;
      if e != 0 { c.Extend(i + 1); }
      i := i + 1;
    }
    RestEnd(i);
  }

  method TimesNode(c: Powers, b: Bigint, i: nat, odd: bool) returns (r: Bigint)
    requires c.Valid() && b.Valid() && Apart(c, b) && i < |c.p5s|
    ensures c.Valid() && r.Valid() && Apart(c, r) && (r == b || (fresh(r) && fresh(r.x)))
    ensures r.Value() == if odd then b.Value() * Pow(5, Exponent(i)) else b.Value()
    ensures Normal(b.Words()) && b.Value() > 0 ==> Normal(r.Words()) && r.Value() > 0
  {
    assert c.NodeOk(i);
    PowPos(5, Exponent(i));
    ProductPositive(b.Value(), Pow(5, Exponent(i)));
    r := b;
    if odd { r := Mult(b, c.p5s[i]); }
  }

  /** b * 5^k for every k.  Across any sequence of calls node i of the cache stays
      5^(4 * 2^i), and nodes are only ever added. */
  method Pow5mult(c: Powers, b: Bigint, k: nat) returns (r: Bigint)
    requires c.Valid() && b.Valid() && b.wds >= 1 && Apart(c, b)
    modifies b, b.x, c
    ensures c.Valid() && old(c.p5s) <= c.p5s
    ensures r.Valid() && r.Value() == old(b.Value()) * Pow(5, k) && Apart(c, r)
    ensures r == b || (fresh(r) && fresh(r.x))
    ensures Normal(old(b.Words())) && old(b.Value()) > 0 ==> Normal(r.Words())
  {
    ghost var v := b.Value();
    r := SmallPower(c, b, k % 4);
    RestStart(k);
    Assoc(v, Pow(5, k % 4), Rest(0, k / 4));
    if k / 4 != 0 { r := BitLoop(c, r, k / 4); }
  }

  method SmallPower(c: Powers, b: Bigint, i: nat) returns (r: Bigint)
    requires i < 4 && b.Valid() && b.wds >= 1 && Apart(c, b) && c.Valid()
    modifies b, b.x
    ensures r.Valid() && r.Value() == old(b.Value()) * Pow(5, i) && Apart(c, r) && c.Valid()
    ensures r == b || (fresh(r) && fresh(r.x))
    ensures Normal(old(b.Words())) && old(b.Value()) > 0 ==> Normal(r.Words()) && r.Value() > 0
  {
    var p05 := [5, 25, 125];
    Pow5Small();
    r := b;
    if i != 0 { r := Multadd(b, p05[i - 1], 0); }
    forall j | 0 <= j < |c.p5s| ensures c.NodeOk(j) {
      assert c.p5s[j] in c.Footprint() && c.p5s[j].x in c.Footprint();
    }
  }
}
