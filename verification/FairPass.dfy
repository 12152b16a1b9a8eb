// One scheduling pass over the whole ring: who is granted a backend, and who waits on in what order.
module FairPass {
  import opened Wire
  import opened Frontend
  import opened Scheduler
  import opened Invariant
  import opened Waiting
  import Ring

  predicate Waits(t: State, x: int) { InRange(t, x) && t.fes[x].core.wait == Waiting }

  predicate Got(t: State, x: int) { InRange(t, x) && t.fes[x].core.wait == Sending }

  // The entries of the ring that wait in t, in order.
  function StillWaiting(t: State, ring: seq<int>): (r: seq<int>)
    ensures |r| <= |ring|
  {
    if ring == [] then []
    else (if Waits(t, ring[0]) then [ring[0]] else [])
         + StillWaiting(t, ring[1..])
  }

  // Able when the pass began, and waiting after it.
  ghost predicate Left(cfg: Config, s: State, t: State, x: int) {
    InRange(s, x) && Able(cfg, s.fes[x]) && Waits(t, x)
  }

  ghost predicate Outcome(cfg: Config, s: State, t: State, x: int) {
    && InRange(s, x) && InRange(t, x)
    && (Patient(s.fes[x], t.fes[x]) || (Able(cfg, s.fes[x]) && Granted(s.fes[x], t.fes[x])))
  }

  // The entries `r` were tried in order. Each got a backend or waits on; once an able one
  // was left, backends had run out, so nobody behind it got one; and if backends were to be had
  // at first, one ahead of it got one.
  ghost predicate Swept(cfg: Config, s: State, t: State, r: seq<int>) {
    && (forall x :: x in r ==> Outcome(cfg, s, t, x))
    && (forall a :: 0 <= a < |r| && Left(cfg, s, t, r[a]) ==> LeftAt(cfg, s, t, r, a))
    && Supply(cfg, t) + (|r| - |StillWaiting(t, r)|) == Supply(cfg, s)
    && (Starved(cfg, s) ==> forall x :: x in r ==> Waits(t, x))
  }

  ghost predicate LeftAt(cfg: Config, s: State, t: State, r: seq<int>, a: int)
    requires 0 <= a < |r|
  {
    && Starved(cfg, t)
    && (forall b :: a < b < |r| ==> Waits(t, r[b]))
    && (Starved(cfg, s) || exists b :: 0 <= b < a && Got(t, r[b]))
  }

  // Everyone outside `r` is as before.
  ghost predicate Spares(s: State, t: State, r: seq<int>) {
    |t.fes| == |s.fes| && forall i :: InRange(s, i) && i !in r ==> t.fes[i] == s.fes[i]
  }

  lemma SweptStep(cfg: Config, s: State, u: State, t: State, r: seq<int>)
    requires r != [] && Ring.AllDistinct(r) && InRange(s, r[0]) && s.ring != []
    requires Tried(cfg, s, u, r[0]) && Patience(s, r)
    requires Swept(cfg, u, t, r[1..]) && Spares(u, t, r[1..])
    ensures Swept(cfg, s, t, r) && Spares(s, t, r)
  {
    var w := r[0];
    Ring.DistinctTail(r);
    forall x | x in r ensures Outcome(cfg, s, t, x) {
      if x != w { assert x in r[1..]; }
    }
    forall a | 0 <= a < |r| && Left(cfg, s, t, r[a]) ensures LeftAt(cfg, s, t, r, a) {
      if a == 0 {
        LeftFirst(cfg, s, t, r);
      } else {
        assert r[a] == r[1..][a - 1] && Left(cfg, u, t, r[1..][a - 1]);
        LeftLater(cfg, s, u, t, r, a);
      }
    }
    forall x | x in r && Starved(cfg, s) ensures Waits(t, x) {
      if x != w { assert x in r[1..]; }
    }
  }

  // Every entry has something to wait for.
  ghost predicate Patience(s: State, r: seq<int>) {
    forall x :: x in r ==> InRange(s, x) && s.fes[x].queue != []
  }

  // The first of the entries was left.
  lemma LeftFirst(cfg: Config, s: State, t: State, r: seq<int>)
    requires r != [] && Starved(cfg, s) && Starved(cfg, t) && forall x :: x in r[1..] ==> Waits(t, x)
    ensures LeftAt(cfg, s, t, r, 0)
  {
    forall b | 0 < b < |r| ensures Waits(t, r[b]) {
      assert r[b] == r[1..][b - 1] && r[b] in r[1..];
    }
  }

  // A later one was left.
  lemma LeftLater(cfg: Config, s: State, u: State, t: State, r: seq<int>, a: nat)
    requires 0 < a < |r| && LeftAt(cfg, u, t, r[1..], a - 1)
    requires Got(t, r[0]) || Starved(cfg, s) || !Starved(cfg, u)
    ensures LeftAt(cfg, s, t, r, a)
  {
    var rest := r[1..];
    forall b | a < b < |r| ensures Waits(t, r[b]) {
      assert r[b] == rest[b - 1];
    }
    if !Got(t, r[0]) && !Starved(cfg, s) {
      var b :| 0 <= b < a - 1 && Got(t, rest[b]);
      assert r[b + 1] == rest[b];
    }
  }

  // The waiters not yet tried, then those tried in vain: the order never changes.
  ghost predicate Ordered(s: State, t: State, a: nat)
    requires a <= |s.ring|
  {
    t.ring == s.ring[a..] + StillWaiting(t, s.ring[..a])
  }

  lemma OrderedStep(s: State, u: State, t: State, a: nat)
    requires 0 < a <= |s.ring| && InRange(s, s.ring[0]) && Turned(s, u, s.ring[0])
    requires Ordered(u, t, a - 1) && |t.fes| == |s.fes| && t.fes[s.ring[0]] == u.fes[s.ring[0]]
    ensures Ordered(s, t, a)
  {
    var w := s.ring[0];
    var again := if u.fes[w].core.wait == Waiting then [w] else [];
    assert s.ring[..a][1..] == s.ring[1..][..a - 1] == u.ring[..a - 1];
    assert u.ring[a - 1..] == s.ring[a..] + again;
    assert StillWaiting(t, s.ring[..a]) == again + StillWaiting(t, u.ring[..a - 1]);
  }

  lemma TakeTail(s: State, u: State, a: nat)
    requires 0 < a <= |s.ring| && InRange(s, s.ring[0]) && Turned(s, u, s.ring[0])
    ensures a - 1 <= |u.ring| && u.ring[..a - 1] == s.ring[..a][1..]
  {
  }

  // The first `a` waiters have been tried.
  ghost predicate TriedFirst(cfg: Config, s: State, t: State, a: nat) {
    a <= |s.ring| && Swept(cfg, s, t, s.ring[..a]) && Spares(s, t, s.ring[..a]) && Ordered(s, t, a)
  }

  lemma TriedNext(cfg: Config, s: State, u: State, t: State, o: int, a: nat)
    requires InvOpen(cfg, s, o, NONE) && 0 < a <= |s.ring| && InRange(s, s.ring[0])
    requires Tried(cfg, s, u, s.ring[0]) && TriedFirst(cfg, u, t, a - 1)
    ensures TriedFirst(cfg, s, t, a)
  {
    var r := s.ring[..a];
    TakeTail(s, u, a);
    TakeDistinct(s.ring, a);
    RingPatience(cfg, s, o, a);
    SweptStep(cfg, s, u, t, r);
    Ring.DistinctTail(r);
    OrderedStep(s, u, t, a);
  }

  lemma TriedNone(cfg: Config, s: State)
    ensures TriedFirst(cfg, s, s, 0)
  {
    assert s.ring[..0] == [] && s.ring[0..] == s.ring;
  }

  lemma {:induction false} PassSwept(cfg: Config, s: State, a: nat, o: int)
    requires Steady(cfg) && InvOpen(cfg, s, o, NONE) && a <= |s.ring|
    ensures TriedFirst(cfg, s, Pass(cfg, s, a), a)
    decreases a
  {
    if a == 0 {
      TriedNone(cfg, s);
    } else {
      var u := Turn(cfg, s);
      TurnTried(cfg, s, o);
      PassSwept(cfg, u, a - 1, o);
      TriedNext(cfg, s, u, Pass(cfg, u, a - 1), o, a);
    }
  }

  lemma TakeDistinct(r: seq<int>, a: nat)
    requires Ring.AllDistinct(r) && a <= |r|
    ensures Ring.AllDistinct(r[..a])
  {
  }

  lemma RingPatience(cfg: Config, s: State, o: int, a: nat)
    requires InvOpen(cfg, s, o, NONE) && a <= |s.ring|
    ensures Patience(s, s.ring[..a])
  {
    forall x | x in s.ring[..a] ensures InRange(s, x) && s.fes[x].queue != [] {
      assert x in s.ring;
      assert Shape(cfg, s.fes[x]);
    }
  }

  // ---- what a whole pass does ----

  lemma {:induction false} StillWaitingMeaning(t: State, r: seq<int>, x: int)
    ensures x in StillWaiting(t, r) <==> x in r && Waits(t, x)
  {
    if r != [] {
      StillWaitingMeaning(t, r[1..], x);
      assert x in r <==> x == r[0] || x in r[1..];
    }
  }

  lemma SplitTail(r: seq<int>, k: nat)
    requires 0 < k <= |r|
    ensures r[1..][..k - 1] == r[..k][1..] && r[1..][k - 1..] == r[k..] && r[..k][0] == r[0]
  {
  }

  lemma {:induction false} StillWaitingSplit(t: State, r: seq<int>, k: nat)
    requires k <= |r|
    ensures StillWaiting(t, r) == StillWaiting(t, r[..k]) + StillWaiting(t, r[k..])
    decreases k
  {
    if k == 0 {
      assert r[..0] == [] && r[0..] == r;
    } else {
      StillWaitingSplit(t, r[1..], k - 1);
      SplitTail(r, k);
    }
  }

  // The list shrinks unless everyone in it waits.
  lemma {:induction false} StillWaitingAll(t: State, r: seq<int>)
    ensures (forall x :: x in r ==> Waits(t, x)) ==> StillWaiting(t, r) == r
    ensures (exists x :: x in r && !Waits(t, x)) ==> |StillWaiting(t, r)| < |r|
    ensures (forall x :: x in r ==> !Waits(t, x)) ==> StillWaiting(t, r) == []
  {
    if r != [] {
      StillWaitingAll(t, r[1..]);
      assert r == [r[0]] + r[1..];
    }
  }

  // A full pass tries every waiter once, and those left keep their order.
  lemma FairScheduleSwept(cfg: Config, s: State, o: int)
    requires Steady(cfg) && InvOpen(cfg, s, o, NONE)
    ensures var t := FairSchedule(cfg, s);
            Swept(cfg, s, t, s.ring) && Spares(s, t, s.ring) && t.ring == StillWaiting(t, s.ring)
  {
    PassSwept(cfg, s, |s.ring|, o);
    AllTried(cfg, s, FairSchedule(cfg, s));
  }

  lemma AllTried(cfg: Config, s: State, t: State)
    requires TriedFirst(cfg, s, t, |s.ring|)
    ensures Swept(cfg, s, t, s.ring) && Spares(s, t, s.ring) && t.ring == StillWaiting(t, s.ring)
  {
    assert s.ring[..|s.ring|] == s.ring && s.ring[|s.ring|..] == [];
  }

  function Min(a: nat, b: nat): nat { if a <= b then a else b }

  // When every waiter is able, the pass grants exactly the oldest ones, as many as there are
  // backends, and leaves the others in their order -- although each waiter that is tried in
  // vain is put back into the ring being consumed.
  lemma PassGrantsPrefix(cfg: Config, s: State, o: int)
    requires Steady(cfg) && InvOpen(cfg, s, o, NONE)
    requires forall x :: x in s.ring ==> InRange(s, x) && Able(cfg, s.fes[x])
    ensures var t, n := FairSchedule(cfg, s), Min(Supply(cfg, s), |s.ring|);
            && t.ring == s.ring[n..] && Supply(cfg, t) == Supply(cfg, s) - n
            && (forall k :: 0 <= k < n ==> Granted(s.fes[s.ring[k]], t.fes[s.ring[k]]))
            && (forall k :: n <= k < |s.ring| ==> Patient(s.fes[s.ring[k]], t.fes[s.ring[k]]))
  {
    FairScheduleSwept(cfg, s, o);
    SweptPrefix(cfg, s, FairSchedule(cfg, s), s.ring);
  }

  lemma SweptPrefix(cfg: Config, s: State, t: State, r: seq<int>)
    requires Swept(cfg, s, t, r) && forall x :: x in r ==> InRange(s, x) && Able(cfg, s.fes[x])
    ensures var n := Min(Supply(cfg, s), |r|);
            && StillWaiting(t, r) == r[n..] && Supply(cfg, t) == Supply(cfg, s) - n
            && (forall k :: 0 <= k < n ==> InRange(s, r[k]) && InRange(t, r[k]) && Granted(s.fes[r[k]], t.fes[r[k]]))
            && (forall k :: n <= k < |r| ==> InRange(s, r[k]) && InRange(t, r[k]) && Patient(s.fes[r[k]], t.fes[r[k]]))
  {
    var n := FirstLeft(cfg, s, t, r);
    PrefixLeft(cfg, s, t, r, n);
    forall k | 0 <= k < |r|
      ensures InRange(s, r[k]) && InRange(t, r[k])
      ensures if k < n then Granted(s.fes[r[k]], t.fes[r[k]]) else Patient(s.fes[r[k]], t.fes[r[k]])
    {
      assert Outcome(cfg, s, t, r[k]);
      assert if k < n then r[k] in r[..n] else r[k] in r[n..];
    }
  }

  lemma PrefixLeft(cfg: Config, s: State, t: State, r: seq<int>, n: nat)
    requires Swept(cfg, s, t, r) && n <= |r| && (n < |r| ==> Left(cfg, s, t, r[n]))
    requires (forall x :: x in r[..n] ==> !Waits(t, x)) && (forall x :: x in r[n..] ==> Waits(t, x))
    ensures StillWaiting(t, r) == r[n..] && n == Min(Supply(cfg, s), |r|) && Supply(cfg, t) == Supply(cfg, s) - n
  {
    StillWaitingSplit(t, r, n);
    StillWaitingAll(t, r[..n]);
    StillWaitingAll(t, r[n..]);
    assert n < |r| ==> LeftAt(cfg, s, t, r, n);
  }

  // Where the waiters left begin.
  lemma FirstLeft(cfg: Config, s: State, t: State, r: seq<int>) returns (n: nat)
    requires Swept(cfg, s, t, r) && forall x :: x in r ==> InRange(s, x) && Able(cfg, s.fes[x])
    ensures n <= |r| && (n < |r| ==> Left(cfg, s, t, r[n]))
    ensures (forall x :: x in r[..n] ==> !Waits(t, x)) && (forall x :: x in r[n..] ==> Waits(t, x))
  {
    n := 0;
    while n < |r| && !Waits(t, r[n])
      invariant n <= |r| && forall x :: x in r[..n] ==> !Waits(t, x)
    {
      n := n + 1;
    }
    if n < |r| {
      assert Left(cfg, s, t, r[n]);
      assert LeftAt(cfg, s, t, r, n);
    }
  }
}
