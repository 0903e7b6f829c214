/** EventLoopThreadPool: the round robin that deals connections out to loops. */
module ThreadPool {
  import opened Basics

  class EventLoopThreadPool<L(==)> {
    const baseLoop: L
    const loops: seq<L>
    var next: nat
    ghost var calls: nat

    /** The cursor is where `calls` rounds of counting leave it. */
    ghost predicate Valid()
      reads this
    {
      if loops == [] then next == 0 else next == calls % |loops|
    }

    constructor (baseLoop: L, loops: seq<L>)
      ensures Valid() && calls == 0 && this.baseLoop == baseLoop && this.loops == loops
    {
      this.baseLoop, this.loops, next, calls := baseLoop, loops, 0, 0;
    }

    method GetNextLoop() returns (loop: L)
      requires Valid()
      modifies this
      ensures Valid() && calls == old(calls) + 1
      ensures loops == [] ==> loop == baseLoop
      ensures loops != [] ==> loop == loops[old(calls) % |loops|]
    {
      loop := baseLoop;
      if loops != [] {
        SuccessorModulo(calls, |loops|);
        loop := loops[next];
        next := next + 1;
        if next >= |loops| {
          next := 0;
        }
      }
      calls := calls + 1;
    }
  }

  lemma SumModulo(j: nat, k: nat, n: nat)
    requires 0 < n
    ensures j % n + k % n < n ==> (j + k) / n == j / n + k / n && (j + k) % n == j % n + k % n
    ensures j % n + k % n >= n ==> (j + k) / n == j / n + k / n + 1 && (j + k) % n == j % n + k % n - n
  {
    Rounds(j, n);
    Rounds(k, n);
    SumOfRounds(j, k, j / n, j % n, k / n, k % n, n);
  }

  lemma Rounds(j: nat, n: nat)
    requires 0 < n
    ensures j == (j / n) * n + j % n && 0 <= j / n
  {
  }

  /** The same with the quotients and remainders named. */
  lemma SumOfRounds(j: nat, k: nat, a: nat, b: nat, c: nat, d: nat, n: nat)
    requires j == a * n + b && k == c * n + d && b < n && d < n
    ensures if b + d < n then (j + k) / n == a + c && (j + k) % n == b + d
            else (j + k) / n == a + c + 1 && (j + k) % n == b + d - n
  {
    assert j + k == (a + c) * n + (b + d);
    if b + d < n {
      QuotientIs(j + k, n, a + c, b + d);
    } else {
      assert (a + c + 1) * n == (a + c) * n + n;
      QuotientIs(j + k, n, a + c + 1, b + d - n);
    }
  }

  lemma SuccessorModulo(k: nat, n: nat)
    requires 0 < n
    ensures (k + 1) % n == if k % n + 1 == n then 0 else k % n + 1
    ensures (k + 1) / n == k / n + if k % n + 1 == n then 1 else 0
  {
    if n == 1 {
      QuotientIs(k, 1, k, 0);
      QuotientIs(k + 1, 1, k + 1, 0);
    } else {
      QuotientIs(1, n, 0, 1);
      SumModulo(k, 1, n);
    }
  }

  /** How many of the `m` calls from the `from`-th on choose loop `i` of `n`. */
  ghost function Chosen(i: nat, n: nat, from: nat, m: nat): nat
    requires 0 < n
  {
    if m == 0 then 0 else Chosen(i, n, from, m - 1) + if (from + m - 1) % n == i then 1 else 0
  }

  /** The window sees loop `i` as often as the first `from + m` calls do, less the first `from`. */
  lemma {:induction false} WindowIsDifference(i: nat, n: nat, from: nat, m: nat)
    requires 0 < n
    ensures Chosen(i, n, 0, from + m) == Chosen(i, n, 0, from) + Chosen(i, n, from, m)
  {
    if m > 0 {
      WindowIsDifference(i, n, from, m - 1);
    }
  }

  /** After `k` calls loop `i` was chosen once a round, and once more if the current round has passed it. */
  lemma {:induction false} ChosenFromStart(i: nat, n: nat, k: nat)
    requires i < n
    ensures Chosen(i, n, 0, k) == k / n + if i < k % n then 1 else 0
  {
    if k > 0 {
      ChosenFromStart(i, n, k - 1);
      SuccessorModulo(k - 1, n);
    } else {
      QuotientIs(0, n, 0, 0);
    }
  }

  /** Fairness: in any window of `m` calls, each loop is chosen floor(m/n) or ceil(m/n) times. */
  lemma RoundRobinIsFair(i: nat, n: nat, from: nat, m: nat)
    requires i < n
    ensures m / n <= Chosen(i, n, from, m) <= (m + n - 1) / n
  {
    WindowIsDifference(i, n, from, m);
    ChosenFromStart(i, n, from);
    ChosenFromStart(i, n, from + m);
    SumModulo(from, m, n);
    CeilingIs(m, n);
  }

  lemma CeilingIs(m: nat, n: nat)
    requires 0 < n
    ensures (m + n - 1) / n == m / n + if m % n == 0 then 0 else 1
  {
    var c, d := m / n, m % n;
    if d == 0 {
      QuotientIs(m + n - 1, n, c, n - 1);
    } else {
      assert m + n - 1 == (c + 1) * n + (d - 1);
      QuotientIs(m + n - 1, n, c + 1, d - 1);
    }
  }
}
