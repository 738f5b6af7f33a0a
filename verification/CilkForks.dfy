/** The merge sort with its forks: a machine whose steps are single stores, taken by
    the running threads in any order.

    Slices are half open: x and y stand for b and e + 1. */
module CilkForks {
  import opened Cilksort

  datatype Side = A | D

  function Other(s: Side): Side { if s == A then D else A }

  datatype Mem = Mem(a: seq<real>, d: seq<real>)

  function Arr(m: Mem, s: Side): seq<real> { if s == A then m.a else m.d }

  function WithArr(m: Mem, s: Side, t: seq<real>): Mem { if s == A then m.(a := t) else m.(d := t) }

  /** What a thread still has to do.  Par is a forked call beside the calling thread. */
  datatype Work =
    | Skip
    | Copy(src: Side, x: nat, y: nat, j: nat)
    | Merge(src: Side, x1: nat, y1: nat, x2: nat, y2: nat, j: nat)
    | Sort(x: nat, y: nat)
    | Seq(first: Work, next: Work)
    | Par(one: Work, two: Work)

  /** A step reads its own slices, and stores one item at most. */
  datatype Act = Tau | Store(s: Side, i: nat, v: real)

  function Do(act: Act, m: Mem): Mem {
    match act
    case Tau => m
    case Store(s, i, v) => if i < |Arr(m, s)| then WithArr(m, s, Arr(m, s)[i := v]) else m
  }

  /** (b + e) / 2 for a slice that is not empty. */
  function Mid(x: nat, y: nat): (m: nat)
    requires x < y
    ensures x <= m < y && (x + 1 < y ==> m < y - 1)
  {
    (x + y - 1) / 2
  }

  /** search */
  function Upper(s: seq<real>, x: nat, y: nat, k: real): (n: nat)
    requires x <= y <= |s|
    ensures x <= n <= y
    decreases y - x
  {
    if y == x then x
    else if y == x + 1 then (if k < s[x] then x else y)
    else
      var m := Mid(x, y);
      if k < s[m] then Upper(s, x, m + 1, k) else Upper(s, m + 1, y, k)
  }

  /** The two halves of a merge, split at items k and n. */
  function Low(w: Work, k: nat, n: nat): Work
    requires w.Merge?
  {
    Merge(w.src, w.x1, k + 1, w.x2, n, w.j)
  }

  function High(w: Work, k: nat, n: nat): Work
    requires w.Merge? && w.x1 <= k && w.x2 <= n
  {
    Merge(w.src, k + 1, w.y1, n, w.y2, w.j + (k + 1 - w.x1) + (n - w.x2))
  }

  /** The body of merge. */
  function MergeBody(cutOff: int, s: seq<real>, src: Side, x1: nat, y1: nat, x2: nat, y2: nat, j: nat): Work
    requires x1 <= y1 <= |s| && x2 <= y2 <= |s|
  {
    if y1 == x1 then Copy(src, x2, y2, j)
    else if y2 == x2 then Copy(src, x1, y1, j)
    else if y1 - x1 < y2 - x2 then Merge(src, x2, y2, x1, y1, j)
    else if s[y1 - 1] <= s[x2] then Seq(Copy(src, x1, y1, j), Copy(src, x2, y2, j + (y1 - x1)))
    else if s[y2 - 1] <= s[x1] then Seq(Copy(src, x2, y2, j), Copy(src, x1, y1, j + (y2 - x2)))
    else
      var m := Mid(x1, y1);
      var n := Upper(s, x2, y2, s[m]);
      var low, high := Merge(src, x1, m + 1, x2, n, j), Merge(src, m + 1, y1, n, y2, j + (m + 1 - x1) + (n - x2));
      if y1 - 1 - x1 <= cutOff then Seq(low, high) else Par(low, high)
  }

  /** The three cuts of cilksort. */
  function Q2(x: nat, y: nat): nat requires x < y { (x + y - 1) / 2 + 1 }

  function Q1(x: nat, y: nat): nat requires x < y { (x + (Q2(x, y) - 1)) / 2 + 1 }

  function Q3(x: nat, y: nat): nat requires x < y { (Q2(x, y) + y - 1) / 2 + 1 }

  lemma Cuts(x: nat, y: nat)
    requires x + 1 < y
    ensures x < Q1(x, y) <= Q2(x, y) < Q3(x, y) <= y && Q2(x, y) < y
  {
  }

  function TwoSorts(x: nat, p: nat, y: nat): Work { Seq(Sort(x, p), Sort(p, y)) }

  /** A half of the array: both its quarters, then their merge. */
  function Half(x: nat, p: nat, y: nat): Work {
    Seq(Par(Sort(x, p), Sort(p, y)), Merge(A, x, p, p, y, x))
  }

  /** The body of cilksort; cilksort_fn1 is the first half. */
  function SortBody(cutOff: int, x: nat, y: nat): Work
    requires x + 1 < y
  {
    var p1, p2, p3 := Q1(x, y), Q2(x, y), Q3(x, y);
    Seq(if y - 1 - x <= cutOff then
          Seq(Seq(TwoSorts(x, p1, p2), TwoSorts(p2, p3, y)), Seq(Merge(A, x, p1, p1, p2, x), Merge(A, p2, p3, p3, y, p2)))
        else
          Par(Half(x, p1, p2), Half(p2, p3, y)),
        Merge(D, x, p2, p2, y, x))
  }

  predicate InBounds(m: Mem, s: Side, x: nat, y: nat) { x <= y <= |Arr(m, s)| }

  /** One step of one thread. */
  ghost predicate Step(cutOff: int, w: Work, m: Mem, w': Work, act: Act)
    decreases w
  {
    match w
    case Skip => false
    case Copy(src, x, y, j) =>
      if y <= x then act == Tau && w' == Skip
      else y <= |Arr(m, src)| && act == Store(Other(src), j, Arr(m, src)[x]) && w' == Copy(src, x + 1, y, j + 1)
    case Merge(src, x1, y1, x2, y2, j) =>
      InBounds(m, src, x1, y1) && InBounds(m, src, x2, y2) && act == Tau
      && w' == MergeBody(cutOff, Arr(m, src), src, x1, y1, x2, y2, j)
    case Sort(x, y) => act == Tau && w' == if y <= x + 1 then Skip else SortBody(cutOff, x, y)
    case Seq(first, next) =>
      || (first == Skip && act == Tau && w' == next)
      || (w'.Seq? && w'.next == next && Step(cutOff, first, m, w'.first, act))
    case Par(one, two) =>
      || (one == Skip && two == Skip && act == Tau && w' == Skip)
      || (w'.Par? && w'.two == two && Step(cutOff, one, m, w'.one, act))
      || (w'.Par? && w'.one == one && Step(cutOff, two, m, w'.two, act))
  }

  // ---------------------------------------------------------------- footprints

  predicate In(i: int, x: int, y: int) { x <= i < y }

  /** The places that w may read or write. */
  predicate Owns(w: Work, s: Side, i: int) {
    match w
    case Skip => false
    case Copy(src, x, y, j) => if s == src then In(i, x, y) else In(i, j, j + (y - x))
    case Merge(src, x1, y1, x2, y2, j) =>
      if s == src then In(i, x1, y1) || In(i, x2, y2) else In(i, j, j + (y1 - x1) + (y2 - x2))
    case Sort(x, y) => In(i, x, y)
    case Seq(first, next) => Owns(first, s, i) || Owns(next, s, i)
    case Par(one, two) => Owns(one, s, i) || Owns(two, s, i)
  }

  ghost predicate Apart(v: Work, w: Work) { forall s, i {:trigger Owns(v, s, i)} {:trigger Owns(w, s, i)} :: !(Owns(v, s, i) && Owns(w, s, i)) }

  // ------------------------------------------------------------------- meaning

  function Sorting(s: seq<real>): (t: seq<real>) {
    if s == [] then [] else Insert(s[0], Sorting(s[1..]))
  }

  function Insert(k: real, s: seq<real>): seq<real> {
    if s == [] then [k] else if k <= s[0] then [k] + s else [s[0]] + Insert(k, s[1..])
  }

  lemma {:induction false} InsertIs(k: real, s: seq<real>)
    requires Sorted(s)
    ensures Sorted(Insert(k, s)) && multiset(Insert(k, s)) == multiset(s) + multiset{k}
    decreases |s|
  {
    if s != [] {
      assert s == [s[0]] + s[1..];
      forall i, j | 0 <= i < j < |s[1..]| ensures InOrder(s[1..], i, j) { assert InOrder(s, i + 1, j + 1); }
      forall x | x in s ensures s[0] <= x {
        var i :| 0 <= i < |s| && s[i] == x;
        if i > 0 { assert InOrder(s, 0, i); }
      }
      if k <= s[0] {
        SortedConcat([k], s, k);
      } else {
        InsertIs(k, s[1..]);
        assert forall x :: x in s[1..] ==> x in s;
        forall x | x in Insert(k, s[1..]) ensures s[0] <= x {
          assert x in multiset(Insert(k, s[1..]));
          assert x == k || x in s[1..];
        }
        SortedConcat([s[0]], Insert(k, s[1..]), s[0]);
      }
    }
  }

  lemma {:induction false} SortingIs(s: seq<real>)
    ensures Sorted(Sorting(s)) && multiset(Sorting(s)) == multiset(s) && |Sorting(s)| == |s|
    decreases |s|
  {
    if s != [] {
      SortingIs(s[1..]);
      InsertIs(s[0], Sorting(s[1..]));
      assert s == [s[0]] + s[1..];
    }
    SameLength(Sorting(s), s);
  }

  /** s with t written at j. */
  function Put(s: seq<real>, j: nat, t: seq<real>): seq<real> {
    if j + |t| <= |s| then s[..j] + t + s[j + |t|..] else s
  }

  function Part(s: seq<real>, x: nat, y: nat): seq<real> { if x <= y <= |s| then s[x..y] else [] }

  /** The memory after w has been run in one thread. */
  function Eval(w: Work, m: Mem): Mem {
    match w
    case Skip => m
    case Copy(src, x, y, j) => WithArr(m, Other(src), Put(Arr(m, Other(src)), j, Part(Arr(m, src), x, y)))
    case Merge(src, x1, y1, x2, y2, j) =>
      WithArr(m, Other(src), Put(Arr(m, Other(src)), j, Sorting(Part(Arr(m, src), x1, y1) + Part(Arr(m, src), x2, y2))))
    case Sort(x, y) =>
      if y <= x + 1 then m
      else
        var p := Q2(x, y);
        Mem(Put(m.a, x, Sorting(Part(m.a, x, y))), Put(m.d, x, Sorting(Part(m.a, x, p)) + Sorting(Part(m.a, p, y))))
    case Seq(first, next) => Eval(next, Eval(first, m))
    case Par(one, two) => Eval(two, Eval(one, m))
  }

  /** Slices are in bounds, what is merged is sorted, what runs in parallel is apart. */
  ghost predicate Good(w: Work, m: Mem) {
    && |m.a| == |m.d|
    && match w
       case Skip => true
       case Copy(src, x, y, j) => InBounds(m, src, x, y) && j + (y - x) <= |m.a|
       case Merge(src, x1, y1, x2, y2, j) =>
         && InBounds(m, src, x1, y1) && InBounds(m, src, x2, y2) && j + (y1 - x1) + (y2 - x2) <= |m.a|
         && (y1 <= x2 || y2 <= x1)
         && Sorted(Arr(m, src)[x1..y1]) && Sorted(Arr(m, src)[x2..y2])
       case Sort(x, y) => x <= y <= |m.a|
       case Seq(first, next) => Good(first, m) && Good(next, Eval(first, m))
       case Par(one, two) => Good(one, m) && Good(two, m) && Apart(one, two)
  }

  // ------------------------------------------------------------------ locality

  ghost predicate Same(m: Mem, n: Mem, s: Side, i: int) {
    |Arr(m, s)| == |Arr(n, s)| && (0 <= i < |Arr(m, s)| ==> Arr(m, s)[i] == Arr(n, s)[i])
  }

  /** m and n agree on what w owns, or on everything else. */
  ghost predicate Agree(w: Work, m: Mem, n: Mem) { forall s, i {:trigger Same(m, n, s, i)} :: Owns(w, s, i) ==> Same(m, n, s, i) }

  ghost predicate Elsewhere(w: Work, m: Mem, n: Mem) { forall s, i {:trigger Same(m, n, s, i)} :: !Owns(w, s, i) ==> Same(m, n, s, i) }

  ghost predicate SameSize(m: Mem, n: Mem) { |m.a| == |n.a| && |m.d| == |n.d| }

  lemma SameMem(m: Mem, n: Mem)
    requires SameSize(m, n) && forall s, i {:trigger Same(m, n, s, i)} :: Same(m, n, s, i)
    ensures m == n
  {
    forall i | 0 <= i < |m.a| ensures m.a[i] == n.a[i] { assert Same(m, n, A, i); }
    forall i | 0 <= i < |m.d| ensures m.d[i] == n.d[i] { assert Same(m, n, D, i); }
  }

  lemma PutAt(s: seq<real>, j: nat, t: seq<real>)
    requires j + |t| <= |s|
    ensures |Put(s, j, t)| == |s|
    ensures forall i :: 0 <= i < |s| ==> Put(s, j, t)[i] == if j <= i < j + |t| then t[i - j] else s[i]
  {
  }

  lemma SamePart(w: Work, m: Mem, n: Mem, s: Side, x: nat, y: nat)
    requires Agree(w, m, n) && InBounds(m, s, x, y) && forall i :: x <= i < y ==> Owns(w, s, i)
    requires SameSize(m, n)
    ensures Part(Arr(n, s), x, y) == Part(Arr(m, s), x, y)
  {
    forall i | x <= i < y ensures Arr(n, s)[i] == Arr(m, s)[i] { assert Same(m, n, s, i); }
  }

  /** Elements written at j, from memories that agree elsewhere. */
  lemma PutLocal(w: Work, m: Mem, n: Mem, s: Side, j: nat, t: seq<real>)
    requires SameSize(m, n) && j + |t| <= |Arr(m, s)| && Agree(w, m, n)
    requires forall i :: j <= i < j + |t| ==> Owns(w, s, i)
    ensures var m', n' := WithArr(m, s, Put(Arr(m, s), j, t)), WithArr(n, s, Put(Arr(n, s), j, t));
            SameSize(m, m') && SameSize(n, n') && Agree(w, m', n') && Elsewhere(w, m, m') && Elsewhere(w, n, n')
  {
    PutAt(Arr(m, s), j, t);
    PutAt(Arr(n, s), j, t);
    var m', n' := WithArr(m, s, Put(Arr(m, s), j, t)), WithArr(n, s, Put(Arr(n, s), j, t));
    forall r, i | Owns(w, r, i) ensures Same(m', n', r, i) { assert Same(m, n, r, i); }
  }

  /** What w does depends on what it owns, and changes nothing else. */
  ghost predicate Local(w: Work, m: Mem, n: Mem) {
    var m', n' := Eval(w, m), Eval(w, n);
    && Good(w, n) && SameSize(m, m') && SameSize(n, n')
    && Agree(w, m', n') && Elsewhere(w, m, m') && Elsewhere(w, n, n')
  }

  lemma CopyLocal(w: Work, m: Mem, n: Mem)
    requires w.Copy? && Good(w, m) && SameSize(m, n) && Agree(w, m, n)
    ensures Local(w, m, n)
  {
    SamePart(w, m, n, w.src, w.x, w.y);
    PutLocal(w, m, n, Other(w.src), w.j, Part(Arr(m, w.src), w.x, w.y));
  }

  lemma MergeLocal(w: Work, m: Mem, n: Mem)
    requires w.Merge? && Good(w, m) && SameSize(m, n) && Agree(w, m, n)
    ensures Local(w, m, n)
  {
    SamePart(w, m, n, w.src, w.x1, w.y1);
    SamePart(w, m, n, w.src, w.x2, w.y2);
    var t := Part(Arr(m, w.src), w.x1, w.y1) + Part(Arr(m, w.src), w.x2, w.y2);
    SortingIs(t);
    PutLocal(w, m, n, Other(w.src), w.j, Sorting(t));
  }

  lemma SortLocal(w: Work, m: Mem, n: Mem)
    requires w.Sort? && Good(w, m) && SameSize(m, n) && Agree(w, m, n)
    ensures Local(w, m, n)
  {
    if w.y > w.x + 1 {
      var p := Q2(w.x, w.y);
      Cuts(w.x, w.y);
      SamePart(w, m, n, A, w.x, w.y);
      SamePart(w, m, n, A, w.x, p);
      SamePart(w, m, n, A, p, w.y);
      SortingIs(Part(m.a, w.x, w.y));
      SortingIs(Part(m.a, w.x, p));
      SortingIs(Part(m.a, p, w.y));
      var ta, td := Sorting(Part(m.a, w.x, w.y)), Sorting(Part(m.a, w.x, p)) + Sorting(Part(m.a, p, w.y));
      PutLocal(w, m, n, A, w.x, ta);
      var m1, n1 := m.(a := Put(m.a, w.x, ta)), n.(a := Put(n.a, w.x, ta));
      PutLocal(w, m1, n1, D, w.x, td);
      ElsewhereTrans(w, m, m1, Eval(w, m));
      ElsewhereTrans(w, n, n1, Eval(w, n));
    }
  }

  lemma ElsewhereTrans(w: Work, m: Mem, m1: Mem, m2: Mem)
    requires Elsewhere(w, m, m1) && Elsewhere(w, m1, m2)
    ensures Elsewhere(w, m, m2)
  {
    forall s, i | !Owns(w, s, i) ensures Same(m, m2, s, i) { assert Same(m, m1, s, i) && Same(m1, m2, s, i); }
  }

  /** v is part of w. */
  lemma Wider(v: Work, w: Work, m: Mem, n: Mem)
    requires Elsewhere(v, m, n) && forall s, i {:trigger Owns(v, s, i)} :: Owns(v, s, i) ==> Owns(w, s, i)
    ensures Elsewhere(w, m, n)
  {
    forall s, i | !Owns(w, s, i) ensures Same(m, n, s, i) { assert !Owns(v, s, i); }
  }

  /** After v has been run, m and n still agree on what w owns. */
  lemma StillAgree(v: Work, w: Work, m: Mem, n: Mem)
    requires Local(v, m, n) && Agree(w, m, n)
    ensures Agree(w, Eval(v, m), Eval(v, n))
  {
    var m', n' := Eval(v, m), Eval(v, n);
    forall s, i | Owns(w, s, i) ensures Same(m', n', s, i) {
      if !Owns(v, s, i) { assert Same(m, m', s, i) && Same(n, n', s, i) && Same(m, n, s, i); }
    }
  }

  lemma TwoLocal(v: Work, u: Work, w: Work, m: Mem, n: Mem)
    requires Local(v, m, n) && Local(u, Eval(v, m), Eval(v, n)) && Agree(w, m, n)
    requires forall s, i {:trigger Owns(w, s, i)} :: Owns(w, s, i) <==> Owns(v, s, i) || Owns(u, s, i)
    ensures var m', n' := Eval(u, Eval(v, m)), Eval(u, Eval(v, n));
            SameSize(m, m') && SameSize(n, n') && Agree(w, m', n') && Elsewhere(w, m, m') && Elsewhere(w, n, n')
  {
    var m1, n1 := Eval(v, m), Eval(v, n);
    var m', n' := Eval(u, m1), Eval(u, n1);
    assert forall s, i {:trigger Owns(v, s, i)} :: Owns(v, s, i) ==> Owns(w, s, i);
    assert forall s, i {:trigger Owns(u, s, i)} :: Owns(u, s, i) ==> Owns(w, s, i);
    Wider(v, w, m, m1);
    Wider(v, w, n, n1);
    Wider(u, w, m1, m');
    Wider(u, w, n1, n');
    ElsewhereTrans(w, m, m1, m');
    ElsewhereTrans(w, n, n1, n');
    StillAgree(v, w, m, n);
    StillAgree(u, w, m1, n1);
  }

  lemma {:induction false} WorkLocal(w: Work, m: Mem, n: Mem)
    requires Good(w, m) && SameSize(m, n) && Agree(w, m, n)
    ensures Local(w, m, n)
    decreases w
  {
    match w
    case Skip =>
    case Copy(_, _, _, _) => CopyLocal(w, m, n);
    case Merge(_, _, _, _, _, _) => MergeLocal(w, m, n);
    case Sort(_, _) => SortLocal(w, m, n);
    case Seq(first, next) =>
      PartAgree(first, w, m, n);
      WorkLocal(first, m, n);
      PartAgree(next, w, m, n);
      StillAgree(first, next, m, n);
      WorkLocal(next, Eval(first, m), Eval(first, n));
      TwoLocal(first, next, w, m, n);
    case Par(one, two) =>
      PartAgree(one, w, m, n);
      WorkLocal(one, m, n);
      PartAgree(two, w, m, n);
      WorkLocal(two, m, n);
      WorkLocal(one, m, m);
      OtherAgree(one, two, m);
      WorkLocal(two, m, Eval(one, m));
      StillAgree(one, two, m, n);
      WorkLocal(two, Eval(one, m), Eval(one, n));
      TwoLocal(one, two, w, m, n);
  }

  lemma PartAgree(v: Work, w: Work, m: Mem, n: Mem)
    requires Agree(w, m, n) && forall s, i {:trigger Owns(v, s, i)} :: Owns(v, s, i) ==> Owns(w, s, i)
    ensures Agree(v, m, n)
  {
  }

  lemma OtherAgree(one: Work, two: Work, m: Mem)
    requires Apart(one, two) && Elsewhere(one, m, Eval(one, m))
    ensures Agree(two, m, Eval(one, m))
  {
    forall s, i | Owns(two, s, i) ensures Same(m, Eval(one, m), s, i) { assert !Owns(one, s, i); }
  }

  // --------------------------------------------------------------------- steps

  lemma {:induction false} UpperLocal(s: seq<real>, t: seq<real>, x: nat, y: nat, k: real)
    requires x <= y <= |s| == |t| && forall i :: x <= i < y ==> s[i] == t[i]
    ensures Upper(s, x, y, k) == Upper(t, x, y, k)
    decreases y - x
  {
    if y > x + 1 {
      var m := Mid(x, y);
      if k < s[m] { UpperLocal(s, t, x, m + 1, k); } else { UpperLocal(s, t, m + 1, y, k); }
    }
  }

  lemma BodyLocal(cutOff: int, w: Work, m: Mem, n: Mem)
    requires w.Merge? && Good(w, m) && SameSize(m, n) && Agree(w, m, n)
    ensures MergeBody(cutOff, Arr(m, w.src), w.src, w.x1, w.y1, w.x2, w.y2, w.j)
         == MergeBody(cutOff, Arr(n, w.src), w.src, w.x1, w.y1, w.x2, w.y2, w.j)
  {
    var s, t := Arr(m, w.src), Arr(n, w.src);
    forall i | In(i, w.x1, w.y1) || In(i, w.x2, w.y2) ensures s[i] == t[i] { assert Same(m, n, w.src, i); }
    BodySame(cutOff, s, t, w.src, w.x1, w.y1, w.x2, w.y2, w.j);
  }

  lemma BodySame(cutOff: int, s: seq<real>, t: seq<real>, src: Side, x1: nat, y1: nat, x2: nat, y2: nat, j: nat)
    requires x1 <= y1 <= |s| == |t| && x2 <= y2 <= |s| && forall i :: In(i, x1, y1) || In(i, x2, y2) ==> s[i] == t[i]
    ensures MergeBody(cutOff, s, src, x1, y1, x2, y2, j) == MergeBody(cutOff, t, src, x1, y1, x2, y2, j)
  {
    hide Mid, Upper;
    if x1 < y1 && x2 < y2 {
      var k := Mid(x1, y1);
      assert In(y1 - 1, x1, y1) && In(x2, x2, y2) && In(y2 - 1, x2, y2) && In(x1, x1, y1) && In(k, x1, y1);
      assert forall i :: x2 <= i < y2 ==> In(i, x2, y2);
      UpperLocal(s, t, x2, y2, s[k]);
    }
  }

  /** What a thread does next depends on what it owns. */
  lemma {:induction false} StepLocal(cutOff: int, w: Work, m: Mem, w': Work, act: Act, n: Mem)
    requires Step(cutOff, w, m, w', act) && Good(w, m) && SameSize(m, n) && Agree(w, m, n)
    ensures Step(cutOff, w, n, w', act)
    decreases w
  {
    match w
    case Skip =>
    case Copy(src, x, y, j) => if x < y { assert Owns(w, src, x) && Same(m, n, src, x); }
    case Merge(_, _, _, _, _, _) => BodyLocal(cutOff, w, m, n);
    case Sort(_, _) =>
    case Seq(first, next) =>
      if w'.Seq? && Step(cutOff, first, m, w'.first, act) {
        PartAgree(first, w, m, n);
        StepLocal(cutOff, first, m, w'.first, act, n);
      }
    case Par(one, two) =>
      if w'.Par? && Step(cutOff, one, m, w'.one, act) {
        PartAgree(one, w, m, n);
        StepLocal(cutOff, one, m, w'.one, act, n);
      }
      if w'.Par? && Step(cutOff, two, m, w'.two, act) {
        PartAgree(two, w, m, n);
        StepLocal(cutOff, two, m, w'.two, act, n);
      }
  }

  ghost predicate Inside(v: Work, w: Work) { forall s, i {:trigger Owns(v, s, i)} :: Owns(v, s, i) ==> Owns(w, s, i) }

  lemma BodyInside(cutOff: int, w: Work, m: Mem)
    requires w.Merge? && Good(w, m)
    ensures Inside(MergeBody(cutOff, Arr(m, w.src), w.src, w.x1, w.y1, w.x2, w.y2, w.j), w)
  {
    hide Upper, Sorted, Mid, Inside, Owns, Good;
    MergeRange(w, m);
    var s := Arr(m, w.src);
    OneInside(w);
    if w.x1 < w.y1 && w.x2 < w.y2 && w.y2 - w.x2 <= w.y1 - w.x1 {
      var k := Mid(w.x1, w.y1);
      SplitInside(w, k, Upper(s, w.x2, w.y2, s[k]));
      RunsInside(w);
    }
  }

  lemma OneInside(w: Work)
    requires w.Merge? && w.x1 <= w.y1 && w.x2 <= w.y2
    ensures w.x1 == w.y1 ==> Inside(Copy(w.src, w.x2, w.y2, w.j), w)
    ensures w.x2 == w.y2 ==> Inside(Copy(w.src, w.x1, w.y1, w.j), w)
    ensures Inside(Merge(w.src, w.x2, w.y2, w.x1, w.y1, w.j), w)
  {
  }

  lemma RunsInside(w: Work)
    requires w.Merge? && w.x1 < w.y1 && w.x2 < w.y2
    ensures Inside(Seq(Copy(w.src, w.x1, w.y1, w.j), Copy(w.src, w.x2, w.y2, w.j + (w.y1 - w.x1))), w)
    ensures Inside(Seq(Copy(w.src, w.x2, w.y2, w.j), Copy(w.src, w.x1, w.y1, w.j + (w.y2 - w.x2))), w)
  {
    SeqInside(Copy(w.src, w.x1, w.y1, w.j), Copy(w.src, w.x2, w.y2, w.j + (w.y1 - w.x1)), w);
    SeqInside(Copy(w.src, w.x2, w.y2, w.j), Copy(w.src, w.x1, w.y1, w.j + (w.y2 - w.x2)), w);
  }

  lemma SeqInside(u: Work, v: Work, w: Work)
    requires Inside(u, w) && Inside(v, w)
    ensures Inside(Seq(u, v), w) && Inside(Par(u, v), w)
  {
    forall s, i | Owns(Seq(u, v), s, i) ensures Owns(w, s, i) { assert Owns(u, s, i) || Owns(v, s, i); }
    forall s, i | Owns(Par(u, v), s, i) ensures Owns(w, s, i) { assert Owns(u, s, i) || Owns(v, s, i); }
  }

  lemma SplitInside(w: Work, k: nat, n: nat)
    requires w.Merge? && w.x1 <= k < w.y1 && w.x2 <= n <= w.y2
    ensures Inside(Seq(Low(w, k, n), High(w, k, n)), w) && Inside(Par(Low(w, k, n), High(w, k, n)), w)
  {
    SeqInside(Low(w, k, n), High(w, k, n), w);
  }

  lemma SortInside(cutOff: int, x: nat, y: nat)
    requires x + 1 < y
    ensures Inside(SortBody(cutOff, x, y), Sort(x, y))
  {
    Cuts(x, y);
    var p1, p2, p3 := Q1(x, y), Q2(x, y), Q3(x, y);
    HalfInside(x, p1, p2, x, y);
    HalfInside(p2, p3, y, x, y);
    SeqInside(Merge(A, x, p1, p1, p2, x), Merge(A, p2, p3, p3, y, p2), Sort(x, y));
    SeqInside(TwoSorts(x, p1, p2), TwoSorts(p2, p3, y), Sort(x, y));
    SeqInside(Seq(TwoSorts(x, p1, p2), TwoSorts(p2, p3, y)), Seq(Merge(A, x, p1, p1, p2, x), Merge(A, p2, p3, p3, y, p2)), Sort(x, y));
    SeqInside(Half(x, p1, p2), Half(p2, p3, y), Sort(x, y));
    SeqInside(SortBody(cutOff, x, y).first, Merge(D, x, p2, p2, y, x), Sort(x, y));
  }

  lemma HalfInside(x: nat, p: nat, y: nat, lo: nat, hi: nat)
    requires lo <= x <= p <= y <= hi
    ensures Inside(TwoSorts(x, p, y), Sort(lo, hi)) && Inside(Half(x, p, y), Sort(lo, hi))
  {
    SeqInside(Sort(x, p), Sort(p, y), Sort(lo, hi));
    SeqInside(Par(Sort(x, p), Sort(p, y)), Merge(A, x, p, p, y, x), Sort(lo, hi));
  }

  /** A thread stores only where it owns, and never owns more. */
  lemma {:induction false} StepInside(cutOff: int, w: Work, m: Mem, w': Work, act: Act)
    requires Step(cutOff, w, m, w', act) && Good(w, m)
    ensures Inside(w', w)
    ensures act.Store? ==> Owns(w, act.s, act.i) && act.i < |Arr(m, act.s)|
    decreases w
  {
    match w
    case Skip =>
    case Copy(_, _, _, _) =>
    case Merge(_, _, _, _, _, _) => BodyInside(cutOff, w, m);
    case Sort(x, y) => if x + 1 < y { SortInside(cutOff, x, y); }
    case Seq(first, next) =>
      if w'.Seq? && Step(cutOff, first, m, w'.first, act) { StepInside(cutOff, first, m, w'.first, act); }
    case Par(one, two) =>
      if w'.Par? && Step(cutOff, one, m, w'.one, act) { StepInside(cutOff, one, m, w'.one, act); }
      if w'.Par? && Step(cutOff, two, m, w'.two, act) { StepInside(cutOff, two, m, w'.two, act); }
  }

  /** A store outside what w owns. */
  ghost predicate Foreign(w: Work, act: Act) { act.Store? ==> !Owns(w, act.s, act.i) }

  lemma DoAgree(w: Work, m: Mem, act: Act)
    requires Foreign(w, act)
    ensures SameSize(m, Do(act, m)) && Agree(w, m, Do(act, m))
  {
  }

  /** A foreign store before w comes to the same as after w. */
  lemma ForeignStore(w: Work, m: Mem, act: Act)
    requires Good(w, m) && Foreign(w, act)
    ensures Good(w, Do(act, m)) && Eval(w, Do(act, m)) == Do(act, Eval(w, m))
  {
    hide Good, Eval;
    var n := Do(act, m);
    DoAgree(w, m, act);
    WorkLocal(w, m, n);
    var p, q := Eval(w, n), Do(act, Eval(w, m));
    forall s, i ensures Same(p, q, s, i) {
      if Owns(w, s, i) {
        assert Same(Eval(w, m), p, s, i);
      } else {
        assert Same(m, Eval(w, m), s, i) && Same(n, p, s, i);
      }
    }
    SameMem(p, q);
  }

  // ------------------------------------------------- what the bodies come to

  lemma SortingUnique(s: seq<real>, t: seq<real>)
    requires multiset(s) == multiset(t)
    ensures Sorting(s) == Sorting(t)
  {
    SortingIs(s);
    SortingIs(t);
    SortedUnique(Sorting(s), Sorting(t));
  }

  lemma SortedIsSorting(s: seq<real>)
    requires Sorted(s)
    ensures Sorting(s) == s
  {
    SortingIs(s);
    SortedUnique(Sorting(s), s);
  }

  lemma SortingOfTwo(s: seq<real>, t: seq<real>)
    ensures Sorting(Sorting(s) + Sorting(t)) == Sorting(s + t) == Sorting(t + s)
  {
    SortingIs(s);
    SortingIs(t);
    SortingUnique(Sorting(s) + Sorting(t), s + t);
    SortingUnique(t + s, s + t);
  }

  /** Work on places of its own commutes. */
  lemma Commute(v: Work, w: Work, m: Mem)
    requires Good(v, m) && Good(w, m) && Apart(v, w)
    ensures Good(v, Eval(w, m)) && Good(w, Eval(v, m)) && Eval(w, Eval(v, m)) == Eval(v, Eval(w, m))
  {
    WorkLocal(v, m, m);
    WorkLocal(w, m, m);
    OtherAgree(v, w, m);
    ApartSwap(v, w);
    OtherAgree(w, v, m);
    WorkLocal(w, m, Eval(v, m));
    WorkLocal(v, m, Eval(w, m));
    CommuteAt(v, w, m);
  }

  lemma ApartSwap(v: Work, w: Work)
    requires Apart(v, w)
    ensures Apart(w, v)
  {
  }

  lemma CommuteAt(v: Work, w: Work, m: Mem)
    requires Local(w, m, Eval(v, m)) && Local(v, m, Eval(w, m)) && Apart(v, w)
    ensures Eval(w, Eval(v, m)) == Eval(v, Eval(w, m))
  {
    var mv, mw := Eval(v, m), Eval(w, m);
    var p, q := Eval(w, mv), Eval(v, mw);
    forall s, i ensures Same(p, q, s, i) {
      if Owns(w, s, i) {
        assert !Owns(v, s, i);
        assert Same(mw, p, s, i) && Same(mw, q, s, i);
      } else if Owns(v, s, i) {
        assert Same(mv, q, s, i) && Same(mv, p, s, i);
      } else {
        assert Same(m, mv, s, i) && Same(mv, p, s, i) && Same(m, mw, s, i) && Same(mw, q, s, i);
      }
    }
    SameMem(p, q);
  }

  lemma PutTwo(s: seq<real>, j: nat, t: seq<real>, u: seq<real>)
    requires j + |t| + |u| <= |s|
    ensures Put(Put(s, j, t), j + |t|, u) == Put(s, j, t + u)
  {
  }

  lemma {:induction false} UpperIs(s: seq<real>, x: nat, y: nat, k: real, lo: nat, hi: nat)
    requires lo <= x <= y <= hi <= |s| && forall i, j {:trigger InOrder(s, i, j)} :: lo <= i < j < hi ==> InOrder(s, i, j)
    requires (forall i :: lo <= i < x ==> s[i] <= k) && (forall i :: y <= i < hi ==> k < s[i])
    ensures var n := Upper(s, x, y, k); (forall i :: lo <= i < n ==> s[i] <= k) && (forall i :: n <= i < hi ==> k < s[i])
    decreases y - x
  {
    if y > x + 1 {
      var m := Mid(x, y);
      if k < s[m] {
        forall i | m + 1 <= i < hi ensures k < s[i] { assert InOrder(s, m, i); }
        UpperIs(s, x, m + 1, k, lo, hi);
      } else {
        forall i | lo <= i < m + 1 ensures s[i] <= k { assert i < m ==> InOrder(s, i, m); }
        UpperIs(s, m + 1, y, k, lo, hi);
      }
    }
  }

  ghost predicate Means(w: Work, v: Work, m: Mem) { Good(w, m) && Eval(w, m) == Eval(v, m) }

  lemma EmptyMeans(w: Work, m: Mem)
    requires w.Merge? && Good(w, m)
    ensures w.x1 == w.y1 ==> Means(Copy(w.src, w.x2, w.y2, w.j), w, m)
    ensures w.x2 == w.y2 ==> Means(Copy(w.src, w.x1, w.y1, w.j), w, m)
  {
    var s := Arr(m, w.src);
    if w.x1 == w.y1 {
      SortedIsSorting(s[w.x2..w.y2]);
      assert Part(s, w.x1, w.y1) + Part(s, w.x2, w.y2) == s[w.x2..w.y2];
    }
    if w.x2 == w.y2 {
      SortedIsSorting(s[w.x1..w.y1]);
      assert Part(s, w.x1, w.y1) + Part(s, w.x2, w.y2) == s[w.x1..w.y1];
    }
  }

  lemma SwapMeans(w: Work, m: Mem)
    requires w.Merge? && Good(w, m)
    ensures Means(Merge(w.src, w.x2, w.y2, w.x1, w.y1, w.j), w, m)
  {
    var s := Arr(m, w.src);
    SortingOfTwo(Part(s, w.x1, w.y1), Part(s, w.x2, w.y2));
  }

  /** Two writes of neighbouring pieces, from the array that is not written. */
  lemma TwoPuts(src: Side, m: Mem, j: nat, t: seq<real>, u: seq<real>)
    requires |m.a| == |m.d| && j + |t| + |u| <= |m.a|
    ensures var o := Other(src);
            var m1 := WithArr(m, o, Put(Arr(m, o), j, t));
            && SameSize(m, m1) && Arr(m1, src) == Arr(m, src)
            && WithArr(m1, o, Put(Arr(m1, o), j + |t|, u)) == WithArr(m, o, Put(Arr(m, o), j, t + u))
  {
    PutTwo(Arr(m, Other(src)), j, t, u);
    PutAt(Arr(m, Other(src)), j, t);
  }

  lemma RunsMeans(w: Work, m: Mem)
    requires w.Merge? && Good(w, m) && w.x1 < w.y1 && w.x2 < w.y2
    requires Arr(m, w.src)[w.y1 - 1] <= Arr(m, w.src)[w.x2]
    ensures Means(Seq(Copy(w.src, w.x1, w.y1, w.j), Copy(w.src, w.x2, w.y2, w.j + (w.y1 - w.x1))), w, m)
  {
    var s := Arr(m, w.src);
    var t, u := s[w.x1..w.y1], s[w.x2..w.y2];
    RunsInOrder(t, u);
    SortedIsSorting(t + u);
    RunsPut(w, m, t, u);
  }

  lemma RunsPut(w: Work, m: Mem, t: seq<real>, u: seq<real>)
    requires w.Merge? && Good(w, m) && Sorting(t + u) == t + u
    requires t == Arr(m, w.src)[w.x1..w.y1] && u == Arr(m, w.src)[w.x2..w.y2]
    ensures Means(Seq(Copy(w.src, w.x1, w.y1, w.j), Copy(w.src, w.x2, w.y2, w.j + (w.y1 - w.x1))), w, m)
  {
    hide Sorted, Sorting, Put;
    var o, low, high := Other(w.src), Copy(w.src, w.x1, w.y1, w.j), Copy(w.src, w.x2, w.y2, w.j + (w.y1 - w.x1));
    TwoPuts(w.src, m, w.j, t, u);
    var m1 := Eval(low, m);
    assert m1 == WithArr(m, o, Put(Arr(m, o), w.j, t));
    assert Good(high, m1);
    assert Eval(high, m1) == WithArr(m1, o, Put(Arr(m1, o), w.j + |t|, u));
    assert Eval(w, m) == WithArr(m, o, Put(Arr(m, o), w.j, t + u));
    assert Good(low, m);
    assert Good(Seq(low, high), m);
    assert Eval(Seq(low, high), m) == Eval(high, m1);
    assert Eval(Seq(low, high), m) == Eval(w, m);
  }

  lemma SplitGood(w: Work, m: Mem, k: nat, n: nat)
    requires w.Merge? && Good(w, m) && w.x1 <= k < w.y1 && w.x2 <= n <= w.y2
    ensures Good(Low(w, k, n), m) && Good(High(w, k, n), m) && Apart(Low(w, k, n), High(w, k, n))
  {
    var s := Arr(m, w.src);
    SubSorted(s, w.x1, w.x1, k + 1, w.y1);
    SubSorted(s, w.x1, k + 1, w.y1, w.y1);
    SubSorted(s, w.x2, w.x2, n, w.y2);
    SubSorted(s, w.x2, n, w.y2, w.y2);
  }

  lemma SplitBounds(s: seq<real>, x: nat, y: nat, k: real, n: nat)
    requires x <= n <= y <= |s| && Sorted(s[x..y]) && n == Upper(s, x, y, k)
    ensures AtMost(s[x..n], k) && AtLeast(s[n..y], k)
  {
    forall i, j | x <= i < j < y ensures InOrder(s, i, j) { assert InOrder(s[x..y], i - x, j - x); }
    UpperIs(s, x, y, k, x, y);
  }

  lemma SplitParts(s: seq<real>, x1: nat, y1: nat, x2: nat, y2: nat, k: nat, n: nat)
    requires x1 <= k < y1 <= |s| && x2 <= n <= y2 <= |s| && Sorted(s[x1..y1]) && Sorted(s[x2..y2])
    requires n == Upper(s, x2, y2, s[k])
    ensures Sorting(s[x1..k + 1] + s[x2..n]) + Sorting(s[k + 1..y1] + s[n..y2]) == Sorting(s[x1..y1] + s[x2..y2])
  {
    hide Upper, Sorting;
    SplitBounds(s, x2, y2, s[k], n);
    AroundItem(s, x1, k, y1);
    hide Sorted;
    assert s[x1..y1] == s[x1..k + 1] + s[k + 1..y1] && s[x2..y2] == s[x2..n] + s[n..y2];
    SortingParts(s[x1..k + 1], s[k + 1..y1], s[x2..n], s[n..y2], s[k]);
  }

  /** The two halves of a merge, forked or not. */
  lemma SplitMeans(w: Work, m: Mem, k: nat, n: nat)
    requires w.Merge? && Good(w, m) && w.x1 <= k < w.y1 && w.x2 <= n <= w.y2
    requires n == Upper(Arr(m, w.src), w.x2, w.y2, Arr(m, w.src)[k])
    ensures Means(Seq(Low(w, k, n), High(w, k, n)), w, m) && Means(Par(Low(w, k, n), High(w, k, n)), w, m)
  {
    hide Sorted, Sorting, Put, Upper;
    var s, o := Arr(m, w.src), Other(w.src);
    var low, high := Low(w, k, n), High(w, k, n);
    SplitGood(w, m, k, n);
    SplitParts(s, w.x1, w.y1, w.x2, w.y2, k, n);
    var t, u := Sorting(s[w.x1..k + 1] + s[w.x2..n]), Sorting(s[k + 1..w.y1] + s[n..w.y2]);
    SortingIs(s[w.x1..k + 1] + s[w.x2..n]);
    SortingIs(s[k + 1..w.y1] + s[n..w.y2]);
    TwoPuts(w.src, m, w.j, t, u);
    var m1 := Eval(low, m);
    assert m1 == WithArr(m, o, Put(Arr(m, o), w.j, t));
    assert Good(high, m1);
    assert Eval(high, m1) == WithArr(m1, o, Put(Arr(m1, o), w.j + |t|, u));
    assert Eval(w, m) == WithArr(m, o, Put(Arr(m, o), w.j, t + u));
  }

  lemma SortingParts(a1: seq<real>, a2: seq<real>, b1: seq<real>, b2: seq<real>, k: real)
    requires AtMost(a1, k) && AtMost(b1, k) && AtLeast(a2, k) && AtLeast(b2, k)
    ensures Sorting(a1 + b1) + Sorting(a2 + b2) == Sorting((a1 + a2) + (b1 + b2))
  {
    SortingIs(a1 + b1);
    SortingIs(a2 + b2);
    assert multiset(a1 + b1) == multiset(a1) + multiset(b1) && multiset(a2 + b2) == multiset(a2) + multiset(b2);
    MergeConcat(Sorting(a1 + b1), Sorting(a2 + b2), a1, a2, b1, b2, k);
    SortedIsSorting(Sorting(a1 + b1) + Sorting(a2 + b2));
    SortingUnique(Sorting(a1 + b1) + Sorting(a2 + b2), (a1 + a2) + (b1 + b2));
  }

  lemma MergeRange(w: Work, m: Mem)
    requires w.Merge? && Good(w, m)
    ensures w.x1 <= w.y1 <= |Arr(m, w.src)| && w.x2 <= w.y2 <= |Arr(m, w.src)|
  {
  }

  lemma MeansTrans(u: Work, v: Work, w: Work, m: Mem)
    requires Means(u, v, m) && Means(v, w, m)
    ensures Means(u, w, m)
  {
  }

  /** merge does what it is for, on every branch. */
  lemma MergeMeans(cutOff: int, w: Work, m: Mem)
    requires w.Merge? && Good(w, m)
    ensures w.x1 <= w.y1 <= |Arr(m, w.src)| && w.x2 <= w.y2 <= |Arr(m, w.src)|
    ensures Means(MergeBody(cutOff, Arr(m, w.src), w.src, w.x1, w.y1, w.x2, w.y2, w.j), w, m)
  {
    hide Good, Eval, Means, Sorting, Upper, Sorted, Mid;
    MergeRange(w, m);
    if w.x1 == w.y1 || w.x2 == w.y2 {
      EmptyMeans(w, m);
    } else if w.y1 - w.x1 < w.y2 - w.x2 {
      SwapMeans(w, m);
    } else {
      LongFirst(cutOff, w, m);
    }
  }

  lemma LongFirst(cutOff: int, w: Work, m: Mem)
    requires w.Merge? && Good(w, m) && w.x1 < w.y1 && w.x2 < w.y2 && w.y2 - w.x2 <= w.y1 - w.x1
    ensures w.x1 <= w.y1 <= |Arr(m, w.src)| && w.x2 <= w.y2 <= |Arr(m, w.src)|
    ensures Means(MergeBody(cutOff, Arr(m, w.src), w.src, w.x1, w.y1, w.x2, w.y2, w.j), w, m)
  {
    hide Good, Eval, Means, Sorting, Upper, Sorted, Arr, Mid;
    MergeRange(w, m);
    var s := Arr(m, w.src);
    if s[w.y1 - 1] <= s[w.x2] {
      RunsMeans(w, m);
    } else if s[w.y2 - 1] <= s[w.x1] {
      var v := Merge(w.src, w.x2, w.y2, w.x1, w.y1, w.j);
      SwapMeans(w, m);
      MeansGood(v, w, m);
      RunsMeans(v, m);
      MeansTrans(Seq(Copy(v.src, v.x1, v.y1, v.j), Copy(v.src, v.x2, v.y2, v.j + (v.y1 - v.x1))), v, w, m);
    } else {
      var k := Mid(w.x1, w.y1);
      SplitMeans(w, m, k, Upper(s, w.x2, w.y2, s[k]));
    }
  }

  lemma MeansGood(v: Work, w: Work, m: Mem)
    requires Means(v, w, m)
    ensures Good(v, m)
  {
  }

  // ------------------------------------------------------------ the sort's body

  /** After sorting x to y: the slice of a is sorted, nothing outside is touched. */
  lemma SortSlice(x: nat, y: nat, m: Mem)
    requires Good(Sort(x, y), m)
    ensures var m' := Eval(Sort(x, y), m);
            && SameSize(m, m') && Elsewhere(Sort(x, y), m, m')
            && Part(m'.a, x, y) == Sorting(Part(m.a, x, y)) && Sorted(Part(m'.a, x, y))
  {
    WorkLocal(Sort(x, y), m, m);
    SortingIs(Part(m.a, x, y));
    if y <= x + 1 {
      SortedIsSorting(Part(m.a, x, y));
    } else {
      PutAt(m.a, x, Sorting(Part(m.a, x, y)));
    }
  }

  lemma ElsewherePart(w: Work, m: Mem, m': Mem, s: Side, x: nat, y: nat)
    requires Elsewhere(w, m, m') && SameSize(m, m') && InBounds(m, s, x, y) && forall i :: x <= i < y ==> !Owns(w, s, i)
    ensures Part(Arr(m', s), x, y) == Part(Arr(m, s), x, y)
  {
    forall i | x <= i < y ensures Arr(m', s)[i] == Arr(m, s)[i] { assert Same(m, m', s, i); }
  }

  /** Both quarters of a half sorted. */
  ghost predicate Quartered(m: Mem, m': Mem, x: nat, p: nat, y: nat) {
    && x <= p <= y <= |m.a| == |m.d| && SameSize(m, m') && Elsewhere(Sort(x, y), m, m')
    && Part(m'.a, x, p) == Sorting(Part(m.a, x, p)) && Part(m'.a, p, y) == Sorting(Part(m.a, p, y))
    && Sorted(Part(m'.a, x, p)) && Sorted(Part(m'.a, p, y))
  }

  lemma QuartersDone(x: nat, p: nat, y: nat, m: Mem)
    requires x <= p <= y <= |m.a| == |m.d|
    ensures Apart(Sort(x, p), Sort(p, y)) && Good(TwoSorts(x, p, y), m) && Good(Par(Sort(x, p), Sort(p, y)), m)
    ensures Quartered(m, Eval(TwoSorts(x, p, y), m), x, p, y)
  {
    var m1 := Eval(Sort(x, p), m);
    SortSlice(x, p, m);
    SortSlice(p, y, m1);
    var m2 := Eval(Sort(p, y), m1);
    ElsewherePart(Sort(x, p), m, m1, A, p, y);
    ElsewherePart(Sort(p, y), m1, m2, A, x, p);
    Wider(Sort(x, p), Sort(x, y), m, m1);
    Wider(Sort(p, y), Sort(x, y), m1, m2);
    ElsewhereTrans(Sort(x, y), m, m1, m2);
  }

  /** A half sorted into d. */
  ghost predicate Halved(m: Mem, m': Mem, x: nat, y: nat) {
    && x <= y <= |m.a| == |m.d| && SameSize(m, m') && Elsewhere(Sort(x, y), m, m')
    && Part(m'.d, x, y) == Sorting(Part(m.a, x, y)) && Sorted(Part(m'.d, x, y))
  }

  lemma PartSplit(s: seq<real>, x: nat, p: nat, y: nat)
    requires x <= p <= y <= |s|
    ensures Part(s, x, y) == Part(s, x, p) + Part(s, p, y)
  {
  }

  lemma HalfMerged(m: Mem, m1: Mem, x: nat, p: nat, y: nat)
    requires Quartered(m, m1, x, p, y)
    ensures var w := Merge(A, x, p, p, y, x); Good(w, m1) && Halved(m, Eval(w, m1), x, y)
  {
    hide Sorting, Sorted;
    var w := Merge(A, x, p, p, y, x);
    WorkLocal(w, m1, m1);
    var m2 := Eval(w, m1);
    assert Inside(w, Sort(x, y));
    Wider(w, Sort(x, y), m1, m2);
    ElsewhereTrans(Sort(x, y), m, m1, m2);
    var l, r := Part(m.a, x, p), Part(m.a, p, y);
    SortingOfTwo(l, r);
    PartSplit(m.a, x, p, y);
    SortingIs(l + r);
    PutAt(m1.d, x, Sorting(l + r));
  }

  lemma HalfDone(x: nat, p: nat, y: nat, m: Mem)
    requires x <= p <= y <= |m.a| == |m.d|
    ensures Good(Half(x, p, y), m) && Halved(m, Eval(Half(x, p, y), m), x, y)
  {
    QuartersDone(x, p, y, m);
    HalfMerged(m, Eval(TwoSorts(x, p, y), m), x, p, y);
  }

  lemma PutSame(s: seq<real>, s2: seq<real>, x: nat, y: nat, t: seq<real>)
    requires |s| == |s2| && x <= y <= |s| && |t| == y - x && forall i :: 0 <= i < |s| && !In(i, x, y) ==> s[i] == s2[i]
    ensures Put(s2, x, t) == Put(s, x, t)
  {
    PutAt(s, x, t);
    PutAt(s2, x, t);
  }

  lemma PutIs(s: seq<real>, s2: seq<real>, x: nat, p: nat, y: nat, l: seq<real>, r: seq<real>)
    requires |s| == |s2| && x <= p <= y <= |s| && forall i :: 0 <= i < |s| && !In(i, x, y) ==> s[i] == s2[i]
    requires s2[x..p] == l && s2[p..y] == r
    ensures s2 == Put(s, x, l + r)
  {
    PutAt(s, x, l + r);
    assert forall i :: x <= i < p ==> s2[i] == l[i - x];
    assert forall i :: p <= i < y ==> s2[i] == r[i - p];
  }

  /** What is outside after both halves. */
  lemma OutsideBoth(m: Mem, m1: Mem, m2: Mem, x: nat, p: nat, y: nat)
    requires x <= p <= y && Halved(m, m1, x, p) && Halved(m1, m2, p, y)
    ensures SameSize(m, m2)
    ensures forall i :: 0 <= i < |m.a| && !In(i, x, y) ==> m.a[i] == m2.a[i] && m.d[i] == m2.d[i]
  {
    forall i | 0 <= i < |m.a| && !In(i, x, y) ensures m.a[i] == m2.a[i] && m.d[i] == m2.d[i] {
      assert Same(m, m1, A, i) && Same(m1, m2, A, i) && Same(m, m1, D, i) && Same(m1, m2, D, i);
    }
  }

  /** The final merge. */
  lemma WholeMerged(m: Mem, m1: Mem, m2: Mem, x: nat, p: nat, y: nat)
    requires x <= p <= y && Halved(m, m1, x, p) && Halved(m1, m2, p, y) && x + 1 < y && p == Q2(x, y)
    ensures var w := Merge(D, x, p, p, y, x); Good(w, m2) && Eval(w, m2) == Eval(Sort(x, y), m)
  {
    hide Sorting, Put;
    var l, r := Part(m.a, x, p), Part(m.a, p, y);
    ElsewherePart(Sort(x, p), m, m1, A, p, y);
    ElsewherePart(Sort(p, y), m1, m2, D, x, p);
    OutsideBoth(m, m1, m2, x, p, y);
    SortingOfTwo(l, r);
    PartSplit(m.a, x, p, y);
    SortingIs(l + r);
    PutSame(m.a, m2.a, x, y, Sorting(l + r));
    PutIs(m.d, m2.d, x, p, y, Sorting(l), Sorting(r));
  }

  /** Both halves at once, or their parts in the other order. */
  lemma HalvesDone(cutOff: int, x: nat, y: nat, m: Mem)
    requires x + 1 < y <= |m.a| == |m.d|
    ensures var w, p := SortBody(cutOff, x, y).first, Q2(x, y);
            && x <= p <= y && Good(w, m)
            && exists m1 :: Halved(m, m1, x, p) && Halved(m1, Eval(w, m), p, y)
  {
    var p1, p2, p3 := Q1(x, y), Q2(x, y), Q3(x, y);
    Cuts(x, y);
    HalfDone(x, p1, p2, m);
    var m1 := Eval(Half(x, p1, p2), m);
    HalfDone(p2, p3, y, m1);
    HalfDone(p2, p3, y, m);
    if y - 1 - x <= cutOff {
      InTurns(x, p1, p2, p3, y, m);
    } else {
      HalvesApart(x, p1, p2, p3, y);
    }
  }

  lemma HalvesApart(x: nat, p1: nat, p2: nat, p3: nat, y: nat)
    requires x <= p1 <= p2 <= p3 <= y
    ensures Apart(Half(x, p1, p2), Half(p2, p3, y))
    ensures Apart(Merge(A, x, p1, p1, p2, x), TwoSorts(p2, p3, y))
  {
    HalfInside(x, p1, p2, x, p2);
    HalfInside(p2, p3, y, p2, y);
    assert Apart(Sort(x, p2), Sort(p2, y));
    assert Inside(Merge(A, x, p1, p1, p2, x), Sort(x, p2));
  }

  /** Without forks: four sorts, then the two merges, of which the first commutes
      with the last two sorts. */
  lemma InTurns(x: nat, p1: nat, p2: nat, p3: nat, y: nat, m: Mem)
    requires x <= p1 <= p2 <= p3 <= y <= |m.a| == |m.d|
    ensures var h1, h2 := Half(x, p1, p2), Half(p2, p3, y);
            var w := Seq(Seq(TwoSorts(x, p1, p2), TwoSorts(p2, p3, y)), Seq(Merge(A, x, p1, p1, p2, x), Merge(A, p2, p3, p3, y, p2)));
            Good(w, m) && Eval(w, m) == Eval(h2, Eval(h1, m))
  {
    var s1, s2 := TwoSorts(x, p1, p2), TwoSorts(p2, p3, y);
    var g1, g2 := Merge(A, x, p1, p1, p2, x), Merge(A, p2, p3, p3, y, p2);
    HalfDone(x, p1, p2, m);
    QuartersDone(x, p1, p2, m);
    var n := Eval(s1, m);
    HalfMerged(m, n, x, p1, p2);
    QuartersDone(p2, p3, y, n);
    HalvesApart(x, p1, p2, p3, y);
    Commute(g1, s2, n);
    var k := Eval(g1, n);
    QuartersDone(p2, p3, y, k);
    HalfMerged(k, Eval(s2, k), p2, p3, y);
  }

  /** cilksort does what it is for, with and without forks. */
  lemma SortMeans(cutOff: int, x: nat, y: nat, m: Mem)
    requires Good(Sort(x, y), m) && x + 1 < y
    ensures Means(SortBody(cutOff, x, y), Sort(x, y), m)
  {
    HalvesDone(cutOff, x, y, m);
    var w, p := SortBody(cutOff, x, y).first, Q2(x, y);
    var m1 :| Halved(m, m1, x, p) && Halved(m1, Eval(w, m), p, y);
    WholeMerged(m, m1, Eval(w, m), x, p, y);
  }

  // ------------------------------------------------------------------ all runs

  lemma CopyStep(w: Work, m: Mem)
    requires w.Copy? && Good(w, m) && w.x < w.y
    ensures var act := Store(Other(w.src), w.j, Arr(m, w.src)[w.x]);
            Good(Copy(w.src, w.x + 1, w.y, w.j + 1), Do(act, m))
            && Eval(Copy(w.src, w.x + 1, w.y, w.j + 1), Do(act, m)) == Eval(w, m)
  {
    var s, o := Arr(m, w.src), Arr(m, Other(w.src));
    var t := s[w.x..w.y];
    assert t == [s[w.x]] + s[w.x + 1..w.y];
    PutTwo(o, w.j, [s[w.x]], s[w.x + 1..w.y]);
    assert Put(o, w.j, [s[w.x]]) == o[w.j := s[w.x]];
  }

  /** No step of any thread changes what the work will come to. */
  lemma {:induction false} StepKeeps(cutOff: int, w: Work, m: Mem, w': Work, act: Act)
    requires Step(cutOff, w, m, w', act) && Good(w, m)
    ensures Good(w', Do(act, m)) && Eval(w', Do(act, m)) == Eval(w, m)
    decreases w
  {
    match w
    case Skip =>
    case Copy(src, x, y, j) => if x < y { CopyStep(w, m); }
    case Merge(_, _, _, _, _, _) => MergeMeans(cutOff, w, m);
    case Sort(x, y) => if x + 1 < y { SortMeans(cutOff, x, y, m); }
    case Seq(first, next) =>
      if w'.Seq? && Step(cutOff, first, m, w'.first, act) { StepKeeps(cutOff, first, m, w'.first, act); }
    case Par(one, two) =>
      if w'.Par? && w'.two == two && Step(cutOff, one, m, w'.one, act) {
        StepKeeps(cutOff, one, m, w'.one, act);
        OneKeeps(cutOff, one, two, m, w'.one, act);
      } else if w'.Par? {
        BesideGood(one, two, m);
        WorkLocal(one, m, m);
        OtherAgree(one, two, m);
        StepLocal(cutOff, two, m, w'.two, act, Eval(one, m));
        StepKeeps(cutOff, two, Eval(one, m), w'.two, act);
        StepKeeps(cutOff, two, m, w'.two, act);
        TwoKeeps(cutOff, one, two, m, w'.two, act);
      }
  }

  /** The second thread's work after the first one's. */
  lemma BesideGood(one: Work, two: Work, m: Mem)
    requires Good(Par(one, two), m)
    ensures Good(two, Eval(one, m)) && SameSize(m, Eval(one, m))
  {
    WorkLocal(one, m, m);
    OtherAgree(one, two, m);
    WorkLocal(two, m, Eval(one, m));
  }

  lemma OneKeeps(cutOff: int, one: Work, two: Work, m: Mem, one': Work, act: Act)
    requires Good(Par(one, two), m) && Step(cutOff, one, m, one', act)
    ensures Apart(one', two) && Good(two, Do(act, m))
  {
    StepInside(cutOff, one, m, one', act);
    ForeignStore(two, m, act);
    InsideApart(one', one, two);
  }

  lemma TwoKeeps(cutOff: int, one: Work, two: Work, m: Mem, two': Work, act: Act)
    requires Good(Par(one, two), m) && Step(cutOff, two, m, two', act)
    ensures Apart(one, two') && Good(one, Do(act, m)) && Eval(one, Do(act, m)) == Do(act, Eval(one, m))
  {
    StepInside(cutOff, two, m, two', act);
    ForeignStore(one, m, act);
    ApartSwap(one, two);
    InsideApart(two', two, one);
    ApartSwap(two', one);
  }

  lemma InsideApart(v: Work, u: Work, w: Work)
    requires Inside(v, u) && Apart(u, w)
    ensures Apart(v, w)
  {
    forall s, i ensures !(Owns(v, s, i) && Owns(w, s, i)) { assert Owns(v, s, i) ==> Owns(u, s, i); }
  }

  /** Steps of two threads commute: neither sees the other's. */
  lemma Diamond(cutOff: int, one: Work, two: Work, m: Mem, one': Work, a: Act, two': Work, b: Act)
    requires Good(Par(one, two), m) && Step(cutOff, one, m, one', a) && Step(cutOff, two, m, two', b)
    ensures Step(cutOff, two, Do(a, m), two', b) && Step(cutOff, one, Do(b, m), one', a)
    ensures Do(b, Do(a, m)) == Do(a, Do(b, m))
  {
    hide Step, Eval, Do;
    StepInside(cutOff, one, m, one', a);
    StepInside(cutOff, two, m, two', b);
    DoAgree(two, m, a);
    DoAgree(one, m, b);
    StepLocal(cutOff, two, m, two', b, Do(a, m));
    StepLocal(cutOff, one, m, one', a, Do(b, m));
    if a.Store? && b.Store? {
      assert !(a.s == b.s && a.i == b.i);
    }
    StoresCommute(m, a, b);
  }

  lemma StoresCommute(m: Mem, a: Act, b: Act)
    requires a.Store? && b.Store? ==> a.s != b.s || a.i != b.i
    ensures Do(b, Do(a, m)) == Do(a, Do(b, m))
  {
  }

  /** A thread is never stuck. */
  lemma {:induction false} Progress(cutOff: int, w: Work, m: Mem)
    requires Good(w, m) && w != Skip
    ensures exists w', act :: Step(cutOff, w, m, w', act)
    decreases w
  {
    match w
    case Copy(src, x, y, j) =>
      if x < y {
        assert Step(cutOff, w, m, Copy(src, x + 1, y, j + 1), Store(Other(src), j, Arr(m, src)[x]));
      } else {
        assert Step(cutOff, w, m, Skip, Tau);
      }
    case Merge(src, x1, y1, x2, y2, j) =>
      assert Step(cutOff, w, m, MergeBody(cutOff, Arr(m, src), src, x1, y1, x2, y2, j), Tau);
    case Sort(x, y) => assert Step(cutOff, w, m, if y <= x + 1 then Skip else SortBody(cutOff, x, y), Tau);
    case Seq(first, next) =>
      if first == Skip {
        assert Step(cutOff, w, m, next, Tau);
      } else {
        Progress(cutOff, first, m);
        var f, act :| Step(cutOff, first, m, f, act);
        assert Step(cutOff, w, m, Seq(f, next), act);
      }
    case Par(one, two) =>
      if one != Skip {
        Progress(cutOff, one, m);
        var f, act :| Step(cutOff, one, m, f, act);
        assert Step(cutOff, w, m, Par(f, two), act);
      } else if two != Skip {
        Progress(cutOff, two, m);
        var f, act :| Step(cutOff, two, m, f, act);
        assert Step(cutOff, w, m, Par(one, f), act);
      } else {
        assert Step(cutOff, w, m, Skip, Tau);
      }
  }

  // ---------------------------------------------------------------- termination

  function MergeCost(n: nat): nat { if n == 0 then 2 else 9 * n - 4 }

  function SortCost(x: nat, y: nat): nat
    decreases y - x
  {
    if y <= x + 1 then 1
    else
      var p1, p2, p3 := Q1(x, y), Q2(x, y), Q3(x, y);
      SortCost(x, p1) + SortCost(p1, p2) + SortCost(p2, p3) + SortCost(p3, y)
      + MergeCost(p2 - x) + MergeCost(y - p2) + MergeCost(y - x) + 12
  }

  function Length(x: nat, y: nat): nat { if x <= y then y - x else 0 }

  /** At most so many steps are left. */
  function Cost(w: Work): nat {
    match w
    case Skip => 0
    case Copy(_, x, y, _) => Length(x, y) + 1
    case Merge(_, x1, y1, x2, y2, _) =>
      MergeCost(Length(x1, y1) + Length(x2, y2)) + if Length(x1, y1) < Length(x2, y2) then 1 else 0
    case Sort(x, y) => SortCost(x, y)
    case Seq(first, next) => Cost(first) + Cost(next) + 1
    case Par(one, two) => Cost(one) + Cost(two) + 1
  }

  /** merge ends in spite of the swapped call. */
  lemma MergeCosts(cutOff: int, s: seq<real>, src: Side, x1: nat, y1: nat, x2: nat, y2: nat, j: nat)
    requires x1 <= y1 <= |s| && x2 <= y2 <= |s|
    ensures Cost(MergeBody(cutOff, s, src, x1, y1, x2, y2, j)) < Cost(Merge(src, x1, y1, x2, y2, j))
  {
    hide Mid, Upper;
    if x1 < y1 && x2 < y2 && y2 - x2 <= y1 - x1 && s[x2] < s[y1 - 1] && s[x1] < s[y2 - 1] {
      assert y1 - x1 >= 2;
      var k := Mid(x1, y1);
      assert x1 <= k < y1 - 1;
    }
  }

  lemma SortCosts(cutOff: int, x: nat, y: nat)
    requires x + 1 < y
    ensures Cost(SortBody(cutOff, x, y)) < SortCost(x, y)
  {
    Cuts(x, y);
    var p1, p2, p3 := Q1(x, y), Q2(x, y), Q3(x, y);
    var w, g := SortBody(cutOff, x, y), Merge(D, x, p2, p2, y, x);
    NeighboursCost(A, x, p1, p2);
    NeighboursCost(A, p2, p3, y);
    NeighboursCost(D, x, p2, y);
    var sorts := SortCost(x, p1) + SortCost(p1, p2) + SortCost(p2, p3) + SortCost(p3, y);
    assert Cost(w) == Cost(w.first) + Cost(g) + 1;
    if y - 1 - x <= cutOff {
      assert Cost(w.first) == Cost(Seq(TwoSorts(x, p1, p2), TwoSorts(p2, p3, y)))
        + Cost(Seq(Merge(A, x, p1, p1, p2, x), Merge(A, p2, p3, p3, y, p2))) + 1;
      assert Cost(Seq(TwoSorts(x, p1, p2), TwoSorts(p2, p3, y))) == Cost(TwoSorts(x, p1, p2)) + Cost(TwoSorts(p2, p3, y)) + 1;
      assert Cost(Seq(TwoSorts(x, p1, p2), TwoSorts(p2, p3, y))) == sorts + 3;
    } else {
      assert Cost(w.first) == Cost(Half(x, p1, p2)) + Cost(Half(p2, p3, y)) + 1;
      HalfCost(x, p1, p2);
      HalfCost(p2, p3, y);
    }
  }

  lemma NeighboursCost(src: Side, x: nat, p: nat, y: nat)
    requires x <= p <= y
    ensures Cost(Merge(src, x, p, p, y, x)) <= MergeCost(y - x) + 1
  {
  }

  lemma HalfCost(x: nat, p: nat, y: nat)
    requires x <= p <= y
    ensures Cost(Half(x, p, y)) <= SortCost(x, p) + SortCost(p, y) + MergeCost(y - x) + 3
  {
    var w := Par(Sort(x, p), Sort(p, y));
    NeighboursCost(A, x, p, y);
    assert Cost(w) == SortCost(x, p) + SortCost(p, y) + 1;
    assert Cost(Half(x, p, y)) == Cost(w) + Cost(Merge(A, x, p, p, y, x)) + 1;
  }

  lemma {:induction false} StepCosts(cutOff: int, w: Work, m: Mem, w': Work, act: Act)
    requires Step(cutOff, w, m, w', act) && Good(w, m)
    ensures Cost(w') < Cost(w)
    decreases w
  {
    match w
    case Skip =>
    case Copy(_, _, _, _) =>
    case Merge(src, x1, y1, x2, y2, j) => MergeCosts(cutOff, Arr(m, src), src, x1, y1, x2, y2, j);
    case Sort(x, y) => if x + 1 < y { SortCosts(cutOff, x, y); }
    case Seq(first, next) =>
      if w'.Seq? && Step(cutOff, first, m, w'.first, act) { StepCosts(cutOff, first, m, w'.first, act); }
    case Par(one, two) =>
      if w'.Par? && w'.two == two && Step(cutOff, one, m, w'.one, act) {
        StepCosts(cutOff, one, m, w'.one, act);
      } else if w'.Par? {
        StepCosts(cutOff, two, m, w'.two, act);
      }
  }

  // ----------------------------------------------------------------------- runs

  datatype Config = Config(work: Work, mem: Mem)

  ghost predicate Next(cutOff: int, c: Config, c': Config) {
    exists act :: Step(cutOff, c.work, c.mem, c'.work, act) && c'.mem == Do(act, c.mem)
  }

  /** The threads take turns in any way. */
  ghost predicate IsRun(cutOff: int, cs: seq<Config>) {
    cs != [] && forall i {:trigger cs[i]} :: 0 < i < |cs| ==> Next(cutOff, cs[i - 1], cs[i])
  }

  lemma {:induction false} RunKeeps(cutOff: int, cs: seq<Config>)
    requires IsRun(cutOff, cs) && Good(cs[0].work, cs[0].mem)
    ensures var c := cs[|cs| - 1];
            Good(c.work, c.mem) && Eval(c.work, c.mem) == Eval(cs[0].work, cs[0].mem) && Cost(c.work) + |cs| <= Cost(cs[0].work) + 1
    decreases |cs|
  {
    hide Good, Eval, Step, Cost;
    if |cs| > 1 {
      var p := cs[..|cs| - 1];
      RunKeeps(cutOff, p);
      var b, c := cs[|cs| - 2], cs[|cs| - 1];
      assert Next(cutOff, b, c);
      var act :| Step(cutOff, b.work, b.mem, c.work, act) && c.mem == Do(act, b.mem);
      StepKeeps(cutOff, b.work, b.mem, c.work, act);
      StepCosts(cutOff, b.work, b.mem, c.work, act);
    }
  }

  /** Under every schedule and for every cutOff the sort ends, with a sorted and the
      same contents of both arrays. */
  lemma ForkedSort(cutOff: int, cs: seq<Config>)
    requires IsRun(cutOff, cs) && |cs[0].mem.a| == |cs[0].mem.d| && cs[0].work == Sort(0, |cs[0].mem.a|)
    ensures |cs| <= SortCost(0, |cs[0].mem.a|) + 1
    ensures var c := cs[|cs| - 1];
            if c.work == Skip then
              Sorted(c.mem.a) && multiset(c.mem.a) == multiset(cs[0].mem.a) && c.mem == Eval(cs[0].work, cs[0].mem)
            else exists c' :: Next(cutOff, c, c')
  {
    RunKeeps(cutOff, cs);
    var c, a := cs[|cs| - 1], cs[0].mem.a;
    if c.work == Skip {
      SortSlice(0, |a|, cs[0].mem);
      SortingIs(a);
      assert Part(a, 0, |a|) == a && Part(c.mem.a, 0, |a|) == c.mem.a;
    } else {
      Progress(cutOff, c.work, c.mem);
      var w', act :| Step(cutOff, c.work, c.mem, w', act);
      assert Next(cutOff, c, Config(w', Do(act, c.mem)));
    }
  }
}
