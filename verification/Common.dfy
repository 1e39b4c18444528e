/** Vocabulary shared by the models: optional values, byte sequences, the pool of
    buffer numbers and the multiset facts the ownership proofs need. */
module Common {

  datatype Option<+T> = None | Some(value: T)

  type byte = bv8

  function Min(a: nat, b: nat): (m: nat)
    ensures m <= a && m <= b && (m == a || m == b)
  {
    if a <= b then a else b
  }

  /** nrf_queue_push in NO_OVERFLOW mode, on a queue of buffer numbers. */
  function Pushed(q: seq<nat>, x: nat, capacity: nat): seq<nat> {
    if |q| < capacity then q + [x] else q
  }

  /** The buffer numbers 0, 1, ..., n-1. */
  function Iota(n: nat): (s: seq<nat>)
    ensures |s| == n
    ensures forall i :: 0 <= i < n ==> s[i] == i
  {
    seq(n, i => i)
  }

  lemma IotaAppend(n: nat)
    ensures Iota(n + 1) == Iota(n) + [n]
  {
  }

  lemma IotaCovers(n: nat)
    ensures Partition(n, Iota(n), [], [])
  {
    forall x: nat | x < n
      ensures x in Iota(n)
    {
      assert Iota(n)[x] == x;
    }
  }

  /** Every number below n occurs exactly once among the first n naturals. */
  lemma {:induction false} IotaOnce(n: nat, x: nat)
    ensures multiset(Iota(n))[x] == if x < n then 1 else 0
  {
    if n > 0 {
      IotaOnce(n - 1, x);
      IotaAppend(n - 1);
    }
  }

  /** Three lists of total length n that leave out none of 0..n-1. */
  predicate Partition(n: nat, a: seq<nat>, b: seq<nat>, c: seq<nat>) {
    |a| + |b| + |c| == n && forall x: nat :: x < n ==> x in a || x in b || x in c
  }

  /** Counting: such lists hold every number exactly once. */
  lemma PartitionIsPermutation(n: nat, a: seq<nat>, b: seq<nat>, c: seq<nat>)
    requires Partition(n, a, b, c)
    ensures multiset(a) + multiset(b) + multiset(c) == multiset(Iota(n))
  {
    var all := multiset(a) + multiset(b) + multiset(c);
    forall x: nat
      ensures multiset(Iota(n))[x] <= all[x]
    {
      IotaOnce(n, x);
      assert x in a ==> x in multiset(a);
      assert x in b ==> x in multiset(b);
      assert x in c ==> x in multiset(c);
    }
    assert |all - multiset(Iota(n))| == 0;
  }

  /** The lists share no element, and two of them cannot repeat one. */
  lemma PartitionFacts(n: nat, a: seq<nat>, b: seq<nat>, c: seq<nat>)
    requires Partition(n, a, b, c)
    ensures forall x: nat :: x in a || x in b || x in c ==> x < n
    ensures forall x: nat :: !(x in a && x in b) && !(x in a && x in c) && !(x in b && x in c)
    ensures forall i, j :: 0 <= i < j < |a| ==> a[i] != a[j]
    ensures forall i, j :: 0 <= i < j < |b| ==> b[i] != b[j]
  {
    PartitionIsPermutation(n, a, b, c);
    forall x: nat
      ensures x in a || x in b || x in c ==> x < n
      ensures multiset(a)[x] + multiset(b)[x] + multiset(c)[x] <= 1
    {
      assert multiset(a)[x] + multiset(b)[x] + multiset(c)[x] == multiset(Iota(n))[x];
      assert x in a ==> x in multiset(a);
      assert x in b ==> x in multiset(b);
      assert x in c ==> x in multiset(c);
      IotaOnce(n, x);
    }
    NoRepeat(a);
    NoRepeat(b);
  }

  lemma NoRepeat(s: seq<nat>)
    requires forall x: nat :: multiset(s)[x] <= 1
    ensures forall i, j :: 0 <= i < j < |s| ==> s[i] != s[j]
  {
    forall i, j | 0 <= i < j < |s|
      ensures s[i] != s[j]
    {
      assert s == s[..i] + [s[i]] + s[i + 1..j] + [s[j]] + s[j + 1..];
      assert multiset(s)[s[j]] <= 1;
    }
  }
}
