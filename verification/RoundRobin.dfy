/** How requests are spread over the worker threads: by a 32-bit counter that wraps around,
    taken modulo the number of threads with C++'s truncating remainder. */
module RoundRobin {
  const INT32_RANGE: int := 0x1_0000_0000
  const INT32_MAX_PLUS_1: int := 0x8000_0000

  /** The value of the `int` counter after `ticket` increments from zero. */
  function Wrapped(ticket: nat): (n: int)
    ensures -INT32_MAX_PLUS_1 <= n < INT32_MAX_PLUS_1
  {
    var low := ticket % INT32_RANGE;
    if low < INT32_MAX_PLUS_1 then low else low - INT32_RANGE
  }

  /** It is the 32-bit number congruent to the ticket. */
  lemma WrappedIs(ticket: nat)
    ensures -0x8000_0000 <= Wrapped(ticket) < 0x8000_0000 && (ticket - Wrapped(ticket)) % 0x1_0000_0000 == 0
  {
  }

  /** The remainder of C++: it has the sign of the dividend. */
  function TruncatedRemainder(a: int, b: int): (r: int)
    requires b > 0
    ensures -b < r < b
  {
    if a >= 0 then a % b else -((-a) % b)
  }

  /** The thread a ticket is sent to; the request is dropped if it is none of them. */
  function ThreadIndex(ticket: nat, threads: nat): (i: int)
    requires threads > 0
    ensures 0 - threads < i < threads
  {
    TruncatedRemainder(Wrapped(ticket), threads)
  }

  predicate Accepted(ticket: nat, threads: nat)
    requires threads > 0
  {
    0 <= ThreadIndex(ticket, threads) < threads
  }

  /** Exactly which requests are dropped by the index check: those whose ticket falls in the
      negative half of the counter, unless the number of threads divides it. */
  lemma DroppedIff(ticket: nat, threads: nat)
    requires threads > 0
    ensures !Accepted(ticket, threads)
            <==> ticket % INT32_RANGE >= INT32_MAX_PLUS_1
                 && (INT32_RANGE - ticket % INT32_RANGE) % threads != 0
  {
  }

  /** How many of the first `n` tickets go to thread `j`. */
  function SentTo(n: nat, threads: nat, j: nat): nat
    requires threads > 0
  {
    if n == 0 then 0
    else SentTo(n - 1, threads, j) + if ThreadIndex(n - 1, threads) == j then 1 else 0
  }

  /** Up to the wrap-around the load is balanced: every thread gets the same share of the
      first `n` requests, the first `n % threads` threads one more. */
  lemma {:induction false} Balanced(n: nat, threads: nat, j: nat)
    requires 0 < threads && j < threads && n <= INT32_MAX_PLUS_1
    ensures SentTo(n, threads, j) == n / threads + if j < n % threads then 1 else 0
  {
    if n == 0 {
      QuotientUnique(0, threads, 0, 0);
    } else {
      Balanced(n - 1, threads, j);
      InRangeIndex(n - 1, threads);
      NextQuotient(n - 1, threads);
    }
  }

  lemma InRangeIndex(ticket: nat, threads: nat)
    requires 0 < threads && ticket < INT32_MAX_PLUS_1
    ensures ThreadIndex(ticket, threads) == ticket % threads
    ensures Accepted(ticket, threads)
  {
    assert Wrapped(ticket) == ticket;
  }

  lemma NextQuotient(n: nat, d: nat)
    requires d > 0
    ensures n % d + 1 < d ==> (n + 1) / d == n / d && (n + 1) % d == n % d + 1
    ensures n % d + 1 == d ==> (n + 1) / d == n / d + 1 && (n + 1) % d == 0
  {
    var q, r := n / d, n % d;
    assert n == q * d + r;
    if r + 1 < d {
      QuotientUnique(n + 1, d, q, r + 1);
    } else {
      assert n + 1 == (q + 1) * d;
      QuotientUnique(n + 1, d, q + 1, 0);
    }
  }

  lemma QuotientUnique(n: nat, d: nat, q: nat, r: nat)
    requires r < d && n == q * d + r
    ensures n / d == q && n % d == r
  {
    assert n == (n / d) * d + n % d;
    RowsApart(n / d, q, d);
    RowsApart(q, n / d, d);
  }

  lemma {:induction false} RowsApart(p: nat, q: nat, d: nat)
    ensures p < q ==> p * d + d <= q * d
  {
    if p < q {
      assert q * d == (q - 1) * d + d;
      RowsApart(p, q - 1, d);
    }
  }

  /** Any window of consecutive requests before the wrap-around gives no thread more than one
      request more than any other. */
  lemma WindowBalanced(a: nat, b: nat, threads: nat, j: nat, k: nat)
    requires 0 < threads && j < threads && k < threads && a <= b <= INT32_MAX_PLUS_1
    ensures (SentTo(b, threads, j) - SentTo(a, threads, j)) - (SentTo(b, threads, k) - SentTo(a, threads, k)) <= 1
    ensures forall t :: a <= t < b ==> Accepted(t, threads)
  {
    forall t | a <= t < b
      ensures Accepted(t, threads)
    {
      InRangeIndex(t, threads);
    }
    Balanced(a, threads, j);
    Balanced(b, threads, j);
    Balanced(a, threads, k);
    Balanced(b, threads, k);
    if a % threads > b % threads && a / threads == b / threads {
      SameQuotient(a, b, threads);
    }
  }

  lemma SameQuotient(a: nat, b: nat, d: nat)
    requires d > 0 && a <= b && a / d == b / d
    ensures a % d <= b % d
  {
    assert a == (a / d) * d + a % d;
    assert b == (b / d) * d + b % d;
  }
}
