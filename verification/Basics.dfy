/** Bytes, options and the few facts about sequences that several layers share. */
module Basics {

  datatype Option<+T> = None | Some(value: T)

  /** One octet of a `std::vector<char>`, read as unsigned. */
  type byte = b: int | 0 <= b < 256

  /** Threads are told apart by a number. */
  type Tid = nat

  lemma Monotone(p: nat, a: nat, b: nat)
    ensures a <= b ==> p * a <= p * b
  {
  }

  /** Division is unique. */
  lemma QuotientIs(u: nat, d: nat, q: nat, r: nat)
    requires 0 < d && u == q * d + r && r < d
    ensures u / d == q && u % d == r
  {
    var q' := u / d;
    assert d * q + r == d * q' + u % d;
    Monotone(d, q' + 1, q);
    Monotone(d, q + 1, q');
  }

  lemma Regroup<T>(a: seq<T>, b: seq<T>, c: seq<T>)
    ensures (a + b) + c == a + (b + c)
  {
  }

  /** A concatenation ends where its second part ends. */
  lemma SplitLast<T>(a: seq<T>, b: seq<T>)
    requires b != []
    ensures a + b == (a + b[..|b| - 1]) + [b[|b| - 1]]
  {
  }

  lemma SplitFirst<T>(s: seq<T>)
    requires s != []
    ensures s == [s[0]] + s[1..]
  {
  }

  lemma DropFirst<T>(a: seq<T>, b: seq<T>)
    requires a != []
    ensures (a + b)[0] == a[0] && (a + b)[1..] == a[1..] + b
  {
  }

  lemma NothingAdded<T>(a: seq<T>)
    ensures a + [] == a && [] + a == a
  {
  }
}
