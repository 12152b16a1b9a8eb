// Circular buffers: the wait ring, the request queue, the round-robin scan and the
// probe walk of the statement cache all address slot (start + i) % n.
module Ring {

  // The remainder is unique: a number written as q * n + r with 0 <= r < n leaves r.
  lemma RemainderUnique(a: int, q: int, r: int, n: int)
    requires 0 <= r < n && a == q * n + r
    ensures a % n == r
  {
    var k := a / n - q;
    assert k * n == r - a % n;
    assert -n < k * n < n;
    assert k < 1 by {
      if k >= 1 { assert false; }
    }
    assert -1 < k by {
      if k <= -1 { assert false; }
    }
  }

  // Position `i` of the cyclic walk over `n` slots from `start`.
  function At(start: nat, i: nat, n: nat): (r: nat)
    requires start < n && i <= n
    ensures r < n
  {
    if start + i < n then start + i else start + i - n
  }

  // What the source computes with the remainder operator.
  lemma AtIsRemainder(start: nat, i: nat, n: nat)
    requires start < n && i <= n
    ensures (start + i) % n == At(start, i, n)
  {
    RemainderUnique(start + i, if start + i < n then 0 else 1, At(start, i, n), n);
  }

  // The number of steps of the cyclic walk from `start` to slot `j`.
  function Steps(start: nat, j: nat, n: nat): (r: nat)
    requires start < n && j < n
    ensures r < n && At(start, r, n) == j
  {
    if start <= j then j - start else n - start + j
  }

  // The elements of a circular buffer, oldest first.
  function Contents<T>(buf: seq<T>, head: nat, count: nat): (r: seq<T>)
    requires head < |buf| && count <= |buf|
    ensures |r| == count
    ensures forall i :: 0 <= i < count ==> r[i] == buf[At(head, i, |buf|)]
  {
    seq(count, i requires 0 <= i < count => buf[At(head, i, |buf|)])
  }

  // Writing at the tail appends.
  lemma PushBack<T>(buf: seq<T>, head: nat, count: nat, x: T)
    requires head < |buf| && count < |buf|
    ensures Contents(buf[At(head, count, |buf|) := x], head, count + 1) == Contents(buf, head, count) + [x]
  {
  }

  // Moving the head forward removes the first element; the vacated slot is free to change.
  lemma PopFront<T>(buf: seq<T>, head: nat, count: nat, x: T)
    requires head < |buf| && 0 < count <= |buf|
    ensures Contents(buf, head, count)[0] == buf[head]
    ensures Contents(buf[head := x], At(head, 1, |buf|), count - 1) == Contents(buf, head, count)[1..]
  {
    var n := |buf|;
    forall i: nat | i < count - 1
      ensures At(At(head, 1, n), i, n) == At(head, i + 1, n) != head
    {
    }
  }

  // Moving the head back and writing there prepends.
  lemma PushFront<T>(buf: seq<T>, head: nat, count: nat, x: T)
    requires head < |buf| && count < |buf|
    ensures Contents(buf[At(head, |buf| - 1, |buf|) := x], At(head, |buf| - 1, |buf|), count + 1)
         == [x] + Contents(buf, head, count)
  {
    var n := |buf|;
    var h := At(head, n - 1, n);
    forall i: nat | i < count
      ensures At(h, i + 1, n) == At(head, i, n) != h
    {
    }
  }

  ghost predicate AllDistinct(r: seq<int>) { forall a, b :: 0 <= a < b < |r| ==> r[a] != r[b] }

  // There are at most n distinct numbers below n.
  lemma {:induction false} Pigeonhole(r: seq<int>, n: nat)
    requires AllDistinct(r) && forall a :: 0 <= a < |r| ==> 0 <= r[a] < n
    ensures |r| <= n
    decreases n
  {
    if r != [] {
      assert 0 <= r[0] < n;
      if k :| 0 <= k < |r| && r[k] == n - 1 {
        Pigeonhole(r[..k] + r[k + 1..], n - 1);
      } else {
        Pigeonhole(r, n - 1);
      }
    }
  }

  lemma DistinctCons(x: int, r: seq<int>)
    requires AllDistinct(r) && x !in r
    ensures AllDistinct([x] + r)
  {
  }

  lemma DistinctTail(r: seq<int>)
    requires AllDistinct(r) && r != []
    ensures AllDistinct(r[1..]) && r[0] !in r[1..]
  {
  }
}
