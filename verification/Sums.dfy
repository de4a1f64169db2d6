/** Options, and sums of a quantity over a sequence (the threads of a machine, the queues
    of a scheduler). A machine step changes one element, so every global sum is followed
    through `NatSumUpdate`. */
module Sums {
  datatype Option<+T> = None | Some(value: T)

  function NatSum<A>(xs: seq<A>, f: A -> nat): nat {
    if xs == [] then 0 else f(xs[0]) + NatSum(xs[1..], f)
  }

  /** The least of three. */
  function Least(a: nat, b: nat, c: nat): (least: nat)
    ensures least <= a && least <= b && least <= c
    ensures least == a || least == b || least == c
  {
    if a <= b && a <= c then a else if b <= c then b else c
  }

  /** How often `x` occurs in `q`. */
  function Count<A(==)>(q: seq<A>, x: A): nat {
    if q == [] then 0 else (if q[0] == x then 1 else 0) + Count(q[1..], x)
  }

  lemma {:induction false} CountAppend<A>(a: seq<A>, b: seq<A>, x: A)
    ensures Count(a + b, x) == Count(a, x) + Count(b, x)
  {
    if a == [] {
      assert a + b == b;
    } else {
      assert (a + b)[1..] == a[1..] + b;
      CountAppend(a[1..], b, x);
    }
  }

  /** Adding one element at the end. */
  lemma CountPush<A>(q: seq<A>, y: A, x: A)
    ensures Count(q + [y], x) == Count(q, x) + if x == y then 1 else 0
  {
    CountAppend(q, [y], x);
  }

  lemma {:induction false} CountMember<A>(q: seq<A>, x: A)
    ensures Count(q, x) > 0 <==> x in q
  {
    if q == [] {
    } else {
      CountMember(q[1..], x);
    }
  }

  lemma {:induction false} NatSumUpdate<A>(xs: seq<A>, i: nat, x: A, f: A -> nat)
    requires i < |xs|
    ensures NatSum(xs[i := x], f) + f(xs[i]) == NatSum(xs, f) + f(x)
  {
    if i == 0 {
      assert xs[i := x][1..] == xs[1..];
    } else {
      assert xs[i := x][1..] == xs[1..][i - 1 := x];
      NatSumUpdate(xs[1..], i - 1, x, f);
    }
  }

  /** Elements other than the one at `i` may change as long as they weigh the same. */
  lemma {:induction false} NatSumChange<A>(xs: seq<A>, ys: seq<A>, i: nat, f: A -> nat)
    requires i < |xs| == |ys|
    requires forall j :: 0 <= j < |xs| && j != i ==> f(ys[j]) == f(xs[j])
    ensures NatSum(ys, f) + f(xs[i]) == NatSum(xs, f) + f(ys[i])
  {
    if i == 0 {
      NatSumSame(xs[1..], ys[1..], f);
    } else {
      NatSumChange(xs[1..], ys[1..], i - 1, f);
    }
  }

  lemma {:induction false} NatSumSame<A>(xs: seq<A>, ys: seq<A>, f: A -> nat)
    requires |xs| == |ys| && forall j :: 0 <= j < |xs| ==> f(ys[j]) == f(xs[j])
    ensures NatSum(ys, f) == NatSum(xs, f)
  {
    if xs == [] {
    } else {
      NatSumSame(xs[1..], ys[1..], f);
    }
  }

  lemma {:induction false} NatSumAppend<A>(a: seq<A>, b: seq<A>, f: A -> nat)
    ensures NatSum(a + b, f) == NatSum(a, f) + NatSum(b, f)
  {
    if a == [] {
      assert a + b == b;
    } else {
      assert (a + b)[1..] == a[1..] + b;
      NatSumAppend(a[1..], b, f);
    }
  }

  lemma NatSumOne<A>(x: A, f: A -> nat)
    ensures NatSum([x], f) == f(x)
  {
    assert [x][1..] == [];
  }

  /** Taking out the element at `k`. */
  lemma NatSumRemove<A>(xs: seq<A>, k: nat, f: A -> nat)
    requires k < |xs|
    ensures NatSum(xs[..k] + xs[k + 1..], f) + f(xs[k]) == NatSum(xs, f)
  {
    NatSumAppend(xs[..k], xs[k + 1..], f);
    NatSumAppend(xs[..k], [xs[k]], f);
    NatSumOne(xs[k], f);
    NatSumAppend(xs[..k] + [xs[k]], xs[k + 1..], f);
    assert xs == xs[..k] + [xs[k]] + xs[k + 1..];
  }

  /** A sum is monotone in the weights. */
  lemma {:induction false} NatSumLessEqual<A>(xs: seq<A>, f: A -> nat, g: A -> nat, h: A -> nat)
    requires forall x <- xs :: f(x) <= g(x) + h(x)
    ensures NatSum(xs, f) <= NatSum(xs, g) + NatSum(xs, h)
  {
    if xs == [] {
    } else {
      NatSumLessEqual(xs[1..], f, g, h);
    }
  }

  /** Two different elements together weigh at most the whole sum. */
  lemma {:induction false} NatSumPair<A>(xs: seq<A>, i: nat, j: nat, f: A -> nat)
    requires i < j < |xs|
    ensures f(xs[i]) + f(xs[j]) <= NatSum(xs, f)
  {
    if i == 0 {
      NatSumMember(xs[1..], j - 1, f);
    } else {
      NatSumPair(xs[1..], i - 1, j - 1, f);
    }
  }

  lemma {:induction false} NatSumMember<A>(xs: seq<A>, i: nat, f: A -> nat)
    requires i < |xs|
    ensures f(xs[i]) <= NatSum(xs, f)
  {
    if i == 0 {
    } else {
      NatSumMember(xs[1..], i - 1, f);
    }
  }

  lemma {:induction false} NatSumOnly<A>(xs: seq<A>, i: nat, f: A -> nat)
    requires i < |xs|
    requires forall j :: 0 <= j < |xs| && j != i ==> f(xs[j]) == 0
    ensures NatSum(xs, f) == f(xs[i])
  {
    if i == 0 {
      NatSumZero(xs[1..], f);
    } else {
      assert f(xs[0]) == 0;
      NatSumOnly(xs[1..], i - 1, f);
    }
  }

  lemma {:induction false} NatSumZero<A>(xs: seq<A>, f: A -> nat)
    requires forall x <- xs :: f(x) == 0
    ensures NatSum(xs, f) == 0
  {
    if xs == [] {
    } else {
      NatSumZero(xs[1..], f);
    }
  }

  lemma OneMore(n: int, d: int)
    ensures (n + 1) * d == n * d + d
  {
  }

  /** If no element weighs more than `bound` and element `i` weighs nothing, the sum is
      at most `bound` for each of the others. */
  lemma {:induction false} NatSumOthers<A>(xs: seq<A>, i: nat, f: A -> nat, bound: nat)
    requires i < |xs|
    requires f(xs[i]) == 0
    requires forall x <- xs :: f(x) <= bound
    ensures NatSum(xs, f) <= (|xs| - 1) * bound
  {
    if i == 0 {
      NatSumBound(xs[1..], f, bound);
    } else {
      NatSumOthers(xs[1..], i - 1, f, bound);
      OneMore(|xs[1..]| - 1, bound);
    }
  }

  lemma {:induction false} NatSumBound<A>(xs: seq<A>, f: A -> nat, bound: nat)
    requires forall x <- xs :: f(x) <= bound
    ensures NatSum(xs, f) <= |xs| * bound
  {
    if xs == [] {
    } else {
      NatSumBound(xs[1..], f, bound);
      OneMore(|xs[1..]|, bound);
    }
  }
}
