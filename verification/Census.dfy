// Who waits beside a live idle backend after an event, on any network: counting the pool tells.
// A scheduling pass tries the waiters in turn, and each turn first maintains the pool.
module Census {
  import opened Wire
  import opened Frontend
  import opened Scheduler
  import opened Invariant
  import opened Steps
  import opened History
  import opened Waiting
  import opened FairPass
  import opened Tally
  import opened Revival
  import Rewrite
  import PoolOwnership
  import Ring

  // ---- one turn ----

  // From the queue an unknown statement is refused before any checkout.
  predicate Knows(fe: Fe) { fe.queue != [] && fe.queue[0].Bind? && fe.queue[0].bind.statement in fe.core.cache }

  // A turn serves its waiter exactly if it is able and a backend is found.
  function TurnCount(cfg: Config, fe: Fe, y: Count): (Count, bool) {
    if Knows(fe) then Begun(cfg.pool, y, Able(cfg, fe)) else (y, false)
  }

  // What an attempt to start a Bind from the queue does, by the count.
  lemma StartCount(cfg: Config, s: State, f: nat, b: BindMsg)
    requires AnyLogin(cfg.pool) && f < |s.fes|
    ensures var (t, ok) := StartBind(cfg, s, f, b, true);
            var c := s.fes[f].core;
            (CountOf(t.pool), ok) ==
              if b.statement in c.cache then
                Begun(cfg.pool, CountOf(s.pool), PoolOwnership.Sendable(cfg.pool, BindBytes(cfg, c, b)))
              else (CountOf(s.pool), false)
  {
    var c := s.fes[f].core;
    BeginTally(cfg.pool, s.pool, c.id.group, BindBytes(cfg, c, b));
  }

  ghost predicate TurnBy(cfg: Config, s: State, t: State, w: nat)
    requires w < |s.fes| && s.ring != []
  {
    && Turned(s, t, w)
    && (CountOf(t.pool), t.fes[w].core.wait == Sending) == TurnCount(cfg, s.fes[w], CountOf(s.pool))
    && (t.fes[w].core.wait == Waiting ==> SameStory(s.fes[w], t.fes[w]))
    && (t.fes[w].core.wait == Sending ==> Able(cfg, s.fes[w]) && Granted(s.fes[w], t.fes[w]))
  }

  lemma AttemptCount(cfg: Config, s: State, o: int, w: nat)
    requires Proper(cfg) && AnyLogin(cfg.pool) && Awaits(cfg, s, o) && w == s.ring[0] && PoolOwnership.PoolOk(s.pool)
    requires w !in s.ring[1..] && |s.ring| <= |s.fes| && Turned(s, Attempt(cfg, s, w), w)
    ensures TurnBy(cfg, s, Attempt(cfg, s, w), w)
  {
    var fe := s.fes[w];
    var p, m := Popped(s, w), fe.queue[0];
    assert BindBytes(cfg, p.fes[w].core, m.bind) == BindBytes(cfg, fe.core, m.bind);
    StartOrParkCount(cfg, p, w, m);
    assert [m] + fe.queue[1..] == fe.queue;
    assert Attempt(cfg, s, w) == Flush(StartOrPark(cfg, p, w, m), w);
  }

  // The Bind of an idle frontend, from its queue.
  lemma StartOrParkCount(cfg: Config, p: State, w: nat, m: Msg)
    requires Proper(cfg) && AnyLogin(cfg.pool) && PoolOwnership.PoolOk(p.pool) && w < |p.fes| && m.Bind?
    requires p.fes[w].core.wait == Idle && w !in p.ring && |p.ring| < |p.fes|
    ensures var t, c := StartOrPark(cfg, p, w, m), p.fes[w].core;
            var sendable := PoolOwnership.Sendable(cfg.pool, BindBytes(cfg, c, m.bind));
            var (y, got) := if m.bind.statement in c.cache then Begun(cfg.pool, CountOf(p.pool), sendable)
                            else (CountOf(p.pool), false);
            && |t.fes| == |p.fes| && CountOf(t.pool) == y
            && if got then
                 t.fes[w].core.wait == Sending && t.ring == p.ring && Rewrite.OnBind(c.cache, m.bind, c.id).Some?
                 && t.fes[w].log == Issue(p.fes[w].log, m, Rewrite.OnBind(c.cache, m.bind, c.id).value)
               else
                 && t.fes[w] == p.fes[w].(core := c.(wait := Waiting), queue := [m] + p.fes[w].queue)
                 && t.ring == p.ring + [w]
  {
    StartCount(cfg, p, w, m.bind);
    StartConfined(cfg, p, w, m.bind, true);
    StartIssues(cfg, p, w, m.bind);
  }

  lemma StartIssues(cfg: Config, p: State, w: nat, b: BindMsg)
    requires w < |p.fes|
    ensures var (t, ok) := StartBind(cfg, p, w, b, true);
            var c := p.fes[w].core;
            ok ==> && Rewrite.OnBind(c.cache, b, c.id).Some?
                   && t.fes[w].log == Issue(p.fes[w].log, Bind(b), Rewrite.OnBind(c.cache, b, c.id).value)
  {
  }

  lemma TurnCounted(cfg: Config, s: State, o: int)
    requires Proper(cfg) && AnyLogin(cfg.pool) && InvOpen(cfg, s, o, NONE) && s.ring != []
    ensures Awaits(cfg, s, o) && InvOpen(cfg, Turn(cfg, s), o, NONE)
    ensures TurnBy(cfg, s, Turn(cfg, s), s.ring[0])
  {
    HeadAwaits(cfg, s, o);
    TurnInv(cfg, s, o);
    Ring.DistinctTail(s.ring);
    Ring.Pigeonhole(s.ring, |s.fes|);
    TurnIsAttempt(cfg, s, o);
    AttemptCount(cfg, s, o, s.ring[0]);
  }

  // ---- a pass ----

  // The turns of a pass over the waiters `fes`: the count at the end, and who is served.
  function PassCount(cfg: Config, fes: seq<Fe>, y: Count): (r: (Count, seq<bool>))
    ensures |r.1| == |fes|
  {
    if fes == [] then (y, [])
    else
      var (z, got) := TurnCount(cfg, fes[0], y);
      var (e, rest) := PassCount(cfg, fes[1..], z);
      (e, [got] + rest)
  }

  function FesOf(s: State, r: seq<int>): (fes: seq<Fe>)
    requires forall x :: x in r ==> InRange(s, x)
    ensures |fes| == |r|
    ensures forall k :: 0 <= k < |r| && InRange(s, r[k]) ==> fes[k] == s.fes[r[k]]
  {
    if r == [] then []
    else
      assert r[0] in r && InRange(s, r[0]);
      [s.fes[r[0]]] + FesOf(s, r[1..])
  }

  lemma {:induction false} FesSame(s: State, u: State, r: seq<int>)
    requires forall x :: x in r ==> InRange(s, x) && InRange(u, x) && u.fes[x] == s.fes[x]
    ensures FesOf(u, r) == FesOf(s, r)
  {
    if r != [] {
      assert r[0] in r && forall x :: x in r[1..] ==> x in r;
      FesSame(s, u, r[1..]);
    }
  }

  // The entries `r` were tried in order, with these counts.
  ghost predicate Counted(cfg: Config, s: State, t: State, r: seq<int>) {
    && (forall x :: x in r ==> Outcome(cfg, s, t, x))
    && var (y, served) := PassCount(cfg, FesOf(s, r), CountOf(s.pool));
       && CountOf(t.pool) == y
       && forall k :: 0 <= k < |r| ==> (served[k] <==> Got(t, r[k]))
  }

  lemma CountedStep(cfg: Config, s: State, u: State, t: State, r: seq<int>)
    requires r != [] && Ring.AllDistinct(r) && s.ring != [] && Patience(s, r)
    requires InRange(s, r[0]) && TurnBy(cfg, s, u, r[0])
    requires Counted(cfg, u, t, r[1..]) && Spares(u, t, r[1..])
    ensures Counted(cfg, s, t, r) && Spares(s, t, r)
  {
    Ring.DistinctTail(r);
    forall x | x in r ensures Outcome(cfg, s, t, x) {
      if x != r[0] { assert x in r[1..]; }
    }
    CountsStep(cfg, s, u, t, r);
  }

  lemma CountsStep(cfg: Config, s: State, u: State, t: State, r: seq<int>)
    requires r != [] && r[0] !in r[1..] && s.ring != [] && InRange(s, r[0]) && forall x :: x in r ==> InRange(s, x)
    requires TurnBy(cfg, s, u, r[0]) && Counted(cfg, u, t, r[1..]) && Spares(u, t, r[1..])
    ensures var (y, served) := PassCount(cfg, FesOf(s, r), CountOf(s.pool));
            && CountOf(t.pool) == y
            && forall k :: 0 <= k < |r| ==> (served[k] <==> Got(t, r[k]))
  {
    FesSame(s, u, r[1..]);
    assert FesOf(s, r)[1..] == FesOf(s, r[1..]);
    forall k | 0 < k < |r| ensures r[k] == r[1..][k - 1] {
    }
  }

  // The first `a` waiters have been tried.
  ghost predicate CountedFirst(cfg: Config, s: State, t: State, a: nat) {
    a <= |s.ring| && Counted(cfg, s, t, s.ring[..a]) && Spares(s, t, s.ring[..a]) && Ordered(s, t, a)
  }

  lemma CountedNone(cfg: Config, s: State)
    ensures CountedFirst(cfg, s, s, 0)
  {
    assert s.ring[..0] == [] && s.ring[0..] == s.ring;
  }

  lemma CountedNext(cfg: Config, s: State, u: State, t: State, o: int, a: nat)
    requires InvOpen(cfg, s, o, NONE) && 0 < a <= |s.ring| && InRange(s, s.ring[0])
    requires TurnBy(cfg, s, u, s.ring[0]) && CountedFirst(cfg, u, t, a - 1)
    ensures CountedFirst(cfg, s, t, a)
  {
    var r := s.ring[..a];
    TakeTail(s, u, a);
    TakeDistinct(s.ring, a);
    RingPatience(cfg, s, o, a);
    CountedStep(cfg, s, u, t, r);
    Ring.DistinctTail(r);
    OrderedStep(s, u, t, a);
  }

  lemma {:induction false} PassCounted(cfg: Config, s: State, a: nat, o: int)
    requires Proper(cfg) && AnyLogin(cfg.pool) && InvOpen(cfg, s, o, NONE) && a <= |s.ring|
    ensures CountedFirst(cfg, s, Pass(cfg, s, a), a)
    decreases a
  {
    if a == 0 {
      CountedNone(cfg, s);
    } else {
      var u := Turn(cfg, s);
      TurnCounted(cfg, s, o);
      TakeTail(s, u, a);
      PassCounted(cfg, u, a - 1, o);
      CountedNext(cfg, s, u, Pass(cfg, u, a - 1), o, a);
    }
  }

  lemma FairScheduleCounted(cfg: Config, s: State, o: int)
    requires Proper(cfg) && AnyLogin(cfg.pool) && InvOpen(cfg, s, o, NONE)
    ensures var t := FairSchedule(cfg, s);
            Counted(cfg, s, t, s.ring) && Spares(s, t, s.ring) && t.ring == StillWaiting(t, s.ring)
  {
    var n := |s.ring|;
    PassCounted(cfg, s, n, o);
    WholeRing(cfg, s, FairSchedule(cfg, s));
  }

  lemma WholeRing(cfg: Config, s: State, t: State)
    requires CountedFirst(cfg, s, t, |s.ring|)
    ensures Counted(cfg, s, t, s.ring) && Spares(s, t, s.ring) && t.ring == StillWaiting(t, s.ring)
  {
    assert s.ring[..|s.ring|] == s.ring && s.ring[|s.ring|..] == [];
  }

  // An able waiter was not served.
  predicate Missed(cfg: Config, fes: seq<Fe>, served: seq<bool>)
    requires |served| == |fes|
  {
    exists k :: 0 <= k < |fes| && Able(cfg, fes[k]) && !served[k]
  }

  lemma MissedWaits(cfg: Config, s: State, t: State)
    requires Counted(cfg, s, t, s.ring) && t.ring == StillWaiting(t, s.ring)
    ensures AbleWaits(cfg, t) <==> Missed(cfg, FesOf(s, s.ring), PassCount(cfg, FesOf(s, s.ring), CountOf(s.pool)).1)
  {
    var r := s.ring;
    var fes := FesOf(s, r);
    var served := PassCount(cfg, fes, CountOf(s.pool)).1;
    if AbleWaits(cfg, t) {
      var x :| x in t.ring && InRange(t, x) && Able(cfg, t.fes[x]);
      StillWaitingMeaning(t, r, x);
      assert Outcome(cfg, s, t, x);
      PatientAble(cfg, s.fes[x], t.fes[x]);
      var k :| 0 <= k < |r| && r[k] == x;
      assert Able(cfg, fes[k]) && !served[k];
    }
    if Missed(cfg, fes, served) {
      var k :| 0 <= k < |fes| && Able(cfg, fes[k]) && !served[k];
      var x := r[k];
      assert x in r && Outcome(cfg, s, t, x);
      PatientAble(cfg, s.fes[x], t.fes[x]);
      StillWaitingMeaning(t, r, x);
      assert x in t.ring && InRange(t, x) && Able(cfg, t.fes[x]);
    }
  }

  // Exactly when a pass leaves an able waiter beside a live idle backend: one was tried while no
  // backend was found, and one came back after that which nobody else took.
  lemma PassAttended(cfg: Config, s: State, o: int)
    requires Proper(cfg) && AnyLogin(cfg.pool) && InvOpen(cfg, s, o, NONE)
    ensures var (y, served) := PassCount(cfg, FesOf(s, s.ring), CountOf(s.pool));
            Attended(cfg, FairSchedule(cfg, s)) <==> y.live == 0 || !Missed(cfg, FesOf(s, s.ring), served)
  {
    FairScheduleCounted(cfg, s, o);
    MissedWaits(cfg, s, FairSchedule(cfg, s));
  }

  // An able waiter is missed only if no backend was there at first or one ahead of it was served.
  lemma {:induction false} MissedBehind(cfg: Config, fes: seq<Fe>, y: Count, k: nat)
    requires k < |fes| && Able(cfg, fes[k]) && !PassCount(cfg, fes, y).1[k]
    ensures y.live == 0 || exists b :: 0 <= b < k && PassCount(cfg, fes, y).1[b]
  {
    var (z, got) := TurnCount(cfg, fes[0], y);
    var served := PassCount(cfg, fes, y).1;
    assert served[0] == got;
    if k > 0 && !got && y.live > 0 {
      assert served[k] == PassCount(cfg, fes[1..], z).1[k - 1];
      MissedBehind(cfg, fes[1..], z, k - 1);
      var b :| 0 <= b < k - 1 && PassCount(cfg, fes[1..], z).1[b];
      assert served[b + 1];
    }
  }

  // An input for which a pass strands a waiter, and serves another past it: the first of two
  // able waiters finds no backend, then two come back, and the second takes one of them.
  lemma SecondServedFirst(cfg: Config, s: State, o: int)
    requires Proper(cfg) && AnyLogin(cfg.pool) && InvOpen(cfg, s, o, NONE)
    requires |s.ring| == 2 && forall x :: x in s.ring ==> InRange(s, x) && Able(cfg, s.fes[x])
    requires var z := Maintained(cfg.pool, CountOf(s.pool)); z.live == 0 && Maintained(cfg.pool, z).live >= 2
    ensures var t := FairSchedule(cfg, s);
            Waits(t, s.ring[0]) && Got(t, s.ring[1]) && !Attended(cfg, t)
  {
    var t, fes := FairSchedule(cfg, s), FesOf(s, s.ring);
    assert s.ring[0] in s.ring && s.ring[1] in s.ring;
    TwoCounts(cfg, fes, CountOf(s.pool));
    PassAttended(cfg, s, o);
    FairScheduleCounted(cfg, s, o);
    TwoOutcomes(cfg, s, t);
  }

  lemma TwoOutcomes(cfg: Config, s: State, t: State)
    requires |s.ring| == 2 && Counted(cfg, s, t, s.ring)
    requires PassCount(cfg, FesOf(s, s.ring), CountOf(s.pool)).1 == [false, true]
    ensures Waits(t, s.ring[0]) && Got(t, s.ring[1])
  {
    assert s.ring[0] in s.ring && Outcome(cfg, s, t, s.ring[0]);
  }

  lemma TwoCounts(cfg: Config, fes: seq<Fe>, y: Count)
    requires |fes| == 2 && Able(cfg, fes[0]) && Able(cfg, fes[1])
    requires var z := Maintained(cfg.pool, y); z.live == 0 && Maintained(cfg.pool, z).live >= 2
    ensures var (e, served) := PassCount(cfg, fes, y);
            served == [false, true] && e.live > 0 && Missed(cfg, fes, served)
  {
    AbleKnows(cfg, fes[0]);
    AbleKnows(cfg, fes[1]);
    var z := Maintained(cfg.pool, y);
    assert TurnCount(cfg, fes[0], y) == (z, false);
    LastCount(cfg, fes[1], z);
    assert fes[1..] == [fes[1]];
    var (e, served) := PassCount(cfg, fes, y);
    assert served == [false] + [true];
    assert Able(cfg, fes[0]) && !served[0];
  }

  lemma LastCount(cfg: Config, fe: Fe, y: Count)
    ensures var (z, got) := TurnCount(cfg, fe, y); PassCount(cfg, [fe], y) == (z, [got])
  {
    var (z, got) := TurnCount(cfg, fe, y);
    assert [fe][1..] == [];
    assert PassCount(cfg, [fe][1..], z) == (z, []);
    assert [got] + [] == [got];
  }

  lemma AbleKnows(cfg: Config, fe: Fe)
    requires Able(cfg, fe)
    ensures Knows(fe)
  {
  }
}
