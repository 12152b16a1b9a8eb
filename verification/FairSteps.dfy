// No overtaking and work conservation, step by step, in a homogeneous pool.
module FairSteps {
  import opened Wire
  import opened Frontend
  import opened Scheduler
  import opened Invariant
  import opened Steps
  import opened Waiting
  import opened FairPass
  import BackendPool
  import PoolOwnership
  import PoolSupply
  import Ring

  // ---- what becomes of a waiter ----

  // No pipeline of the connection was issued.
  predicate NoneIssued(a: Fe, b: Fe) { b.log.issued <= a.log.issued }

  // The frontend at position k waits on at position j, and everyone ahead of it was ahead before.
  ghost predicate Ahead(s: State, t: State, k: nat, j: nat)
    requires k < |s.ring| && |t.fes| == |s.fes| && InRange(s, s.ring[k])
  {
    && j <= k && j < |t.ring| && t.ring[j] == s.ring[k]
    && Patient(s.fes[s.ring[k]], t.fes[s.ring[k]])
    && (forall i :: 0 <= i < j ==> t.ring[i] in s.ring[..k])
  }

  // The frontend at position k got its backend, or kept its place -- and moved up, if `strict`.
  ghost predicate Fair(s: State, t: State, k: nat, strict: bool)
    requires k < |s.ring| && |t.fes| == |s.fes| && InRange(s, s.ring[k])
  {
    || (Granted(s.fes[s.ring[k]], t.fes[s.ring[k]]) && s.ring[k] !in t.ring)
    || exists j: nat :: Ahead(s, t, k, j) && (strict ==> j < k)
  }

  // Whoever had a pipeline issued was ahead of position k.
  ghost predicate GrantsAhead(s: State, t: State, k: nat)
    requires k < |s.ring| && |t.fes| == |s.fes|
  {
    forall g :: InRange(s, g) && !NoneIssued(s.fes[g], t.fes[g]) ==> g in s.ring[..k]
  }

  // An able waiter other than `except`.
  predicate Hopes(cfg: Config, s: State, k: nat, except: int) {
    k < |s.ring| && InRange(s, s.ring[k]) && s.ring[k] != except && Able(cfg, s.fes[s.ring[k]])
  }

  // Every able waiter got its backend or kept its place.
  ghost predicate Placed(cfg: Config, s: State, t: State, strict: bool, except: int)
    requires |t.fes| == |s.fes|
  {
    forall k: nat :: Hopes(cfg, s, k, except) ==> Fair(s, t, k, strict)
  }

  // Nobody got a backend past an able waiter that still waits.
  ghost predicate Unpassed(cfg: Config, s: State, t: State, except: int)
    requires |t.fes| == |s.fes|
  {
    forall k: nat :: Hopes(cfg, s, k, except) && s.ring[k] in t.ring ==> GrantsAhead(s, t, k)
  }

  ghost predicate FairStep(cfg: Config, s: State, t: State, strict: bool, except: int) {
    && |t.fes| == |s.fes|
    && Placed(cfg, s, t, strict, except) && Unpassed(cfg, s, t, except)
    && (Served(cfg, s) ==> Served(cfg, t))
  }

  // ---- steps of one frontend that free no backend ----

  ghost predicate OnlyChanges(s: State, t: State, g: int) {
    |t.fes| == |s.fes| && forall i :: InRange(s, i) && i != g ==> t.fes[i] == s.fes[i]
  }

  // Frontend g may join the ring, at its end; when no backend is to be had it gets none.
  ghost predicate Alone(cfg: Config, s: State, t: State, g: int) {
    && OnlyChanges(s, t, g)
    && (g in s.ring ==> t.ring == s.ring && InRange(s, g) && Patient(s.fes[g], t.fes[g]))
    && (g !in s.ring ==> t.ring == s.ring || Joined(s, t, g))
    && (Starved(cfg, s) ==> Starved(cfg, t) && (InRange(s, g) ==> NoneIssued(s.fes[g], t.fes[g])))
  }

  ghost predicate Joined(s: State, t: State, g: int)
    requires |t.fes| == |s.fes|
  {
    t.ring == s.ring + [g] && InRange(s, g) && t.fes[g].core.wait == Waiting && t.fes[g].queue != []
  }

  // Where it joins, its Bind is ill-formed or no backend is to be had.
  ghost predicate Solo(cfg: Config, s: State, t: State, g: int) {
    && Alone(cfg, s, t, g)
    && (g !in s.ring && t.ring != s.ring && Able(cfg, t.fes[g]) ==> Starved(cfg, t))
  }

  lemma LocalServed(cfg: Config, s: State, t: State, g: int)
    requires Served(cfg, s) && Solo(cfg, s, t, g)
    ensures Served(cfg, t)
  {
    forall x | x in t.ring && InRange(t, x) && Able(cfg, t.fes[x]) ensures Starved(cfg, t) {
      if x == g && g in s.ring { PatientAble(cfg, s.fes[g], t.fes[g]); }
    }
  }

  lemma LocalAhead(cfg: Config, s: State, t: State, g: int, k: nat)
    requires k < |s.ring| && InRange(s, s.ring[k])
    requires Waits(s, s.ring[k]) && s.fes[s.ring[k]].queue != [] && Alone(cfg, s, t, g)
    ensures Ahead(s, t, k, k)
  {
    assert s.ring[k] in s.ring;
    forall i | 0 <= i < k ensures t.ring[i] in s.ring[..k] {
      assert t.ring[i] == s.ring[..k][i];
    }
  }

  ghost predicate AllWait(s: State) {
    forall x :: x in s.ring ==> Waits(s, x) && s.fes[x].queue != []
  }

  lemma LocalPlaced(cfg: Config, s: State, t: State, g: int)
    requires AllWait(s) && Alone(cfg, s, t, g)
    ensures Placed(cfg, s, t, false, NONE)
  {
    forall k: nat | Hopes(cfg, s, k, NONE) ensures Fair(s, t, k, false) {
      assert s.ring[k] in s.ring;
      LocalAhead(cfg, s, t, g, k);
    }
  }

  lemma LocalUnpassed(cfg: Config, s: State, t: State, g: int, except: int)
    requires OnlyChanges(s, t, g)
    requires InRange(s, g) && !NoneIssued(s.fes[g], t.fes[g]) ==> Served(cfg, s) && Alone(cfg, s, t, g)
    ensures Unpassed(cfg, s, t, except)
  {
    forall k: nat | Hopes(cfg, s, k, except) ensures GrantsAhead(s, t, k) {
      assert s.ring[k] in s.ring;
    }
  }

  // A step that issues nothing.
  lemma LocalFair(cfg: Config, s: State, t: State, g: int)
    requires AllWait(s) && Solo(cfg, s, t, g) && (InRange(s, g) ==> NoneIssued(s.fes[g], t.fes[g]))
    ensures FairStep(cfg, s, t, false, NONE)
  {
    LocalPlaced(cfg, s, t, g);
    LocalUnpassed(cfg, s, t, g, NONE);
    if Served(cfg, s) { LocalServed(cfg, s, t, g); }
  }

  lemma AloneTrans(cfg: Config, s: State, t: State, u: State, g: int)
    requires Alone(cfg, s, t, g) && Alone(cfg, t, u, g)
    ensures Alone(cfg, s, u, g)
  {
  }

  // ---- a pass between two local steps ----

  // The backend of g is being given back: g holds nothing more and is not in the ring.
  ghost predicate Opens(s: State, v: State, g: int) {
    && OnlyChanges(s, v, g) && v.ring == s.ring && g !in s.ring
    && (InRange(s, g) ==> v.fes[g].log.issued == s.fes[g].log.issued)
  }

  lemma SweptAhead(cfg: Config, v: State, u: State, k: nat) returns (j: nat)
    requires Swept(cfg, v, u, v.ring) && Spares(v, u, v.ring) && u.ring == StillWaiting(u, v.ring)
    requires Ring.AllDistinct(v.ring) && k < |v.ring| && Left(cfg, v, u, v.ring[k])
    ensures Ahead(v, u, k, j) && GrantsAhead(v, u, k) && Starved(cfg, u) && (!Starved(cfg, v) ==> j < k)
  {
    var r := v.ring;
    var f := r[k];
    assert LeftAt(cfg, v, u, r, k) && Outcome(cfg, v, u, f);
    j := |StillWaiting(u, r[..k])|;
    StillWaitingSplit(u, r, k);
    assert r[k..][0] == f;
    assert u.ring[j] == f;
    StillWaitingAll(u, r[..k]);
    if !Starved(cfg, v) {
      var b :| 0 <= b < k && Got(u, r[b]);
      assert r[b] in r[..k] && !Waits(u, r[b]);
    }
    AheadOnly(u, r, k, j);
    forall g | InRange(v, g) && !NoneIssued(v.fes[g], u.fes[g]) ensures g in r[..k] {
      GrantedAhead(cfg, v, u, k, g);
    }
  }

  lemma AheadOnly(u: State, r: seq<int>, k: nat, j: nat)
    requires k <= |r| && j == |StillWaiting(u, r[..k])| && j <= |u.ring|
    requires u.ring == StillWaiting(u, r[..k]) + StillWaiting(u, r[k..])
    ensures forall i :: 0 <= i < j ==> u.ring[i] in r[..k]
  {
    forall i | 0 <= i < j ensures u.ring[i] in r[..k] {
      assert u.ring[i] in StillWaiting(u, r[..k]);
      StillWaitingMeaning(u, r[..k], u.ring[i]);
    }
  }

  lemma GrantedAhead(cfg: Config, v: State, u: State, k: nat, g: int)
    requires Swept(cfg, v, u, v.ring) && Spares(v, u, v.ring) && k < |v.ring| && Left(cfg, v, u, v.ring[k])
    requires InRange(v, g) && !NoneIssued(v.fes[g], u.fes[g])
    ensures g in v.ring[..k]
  {
    assert LeftAt(cfg, v, u, v.ring, k);
    assert g in v.ring;
    var b :| 0 <= b < |v.ring| && v.ring[b] == g;
    assert Outcome(cfg, v, u, g);
    if b < k { assert v.ring[..k][b] == g; }
  }

  lemma ResumedFair(cfg: Config, s: State, v: State, u: State, t: State, g: int, k: nat)
    requires Opens(s, v, g) && Ring.AllDistinct(v.ring)
    requires k < |s.ring| && InRange(s, s.ring[k]) && Able(cfg, s.fes[s.ring[k]])
    requires Swept(cfg, v, u, v.ring) && Spares(v, u, v.ring) && u.ring == StillWaiting(u, v.ring)
    requires Solo(cfg, u, t, g)
    ensures |t.fes| == |s.fes| && Fair(s, t, k, !Starved(cfg, v)) && (s.ring[k] in t.ring ==> GrantsAhead(s, t, k))
  {
    var f := s.ring[k];
    assert f in s.ring && f != g;
    StillWaitingMeaning(u, v.ring, f);
    StillWaitingMeaning(u, v.ring, g);
    assert Outcome(cfg, v, u, f);
    if f in u.ring {
      var j := SweptAhead(cfg, v, u, k);
      AheadLocal(cfg, s, v, u, t, g, k, j);
    }
  }

  lemma AheadLocal(cfg: Config, s: State, v: State, u: State, t: State, g: int, k: nat, j: nat)
    requires Opens(s, v, g) && k < |s.ring| && InRange(s, s.ring[k]) && |u.fes| == |v.fes|
    requires Ahead(v, u, k, j) && GrantsAhead(v, u, k)
    requires g !in u.ring && Starved(cfg, u) && Solo(cfg, u, t, g) && s.ring[k] != g
    requires InRange(v, g) ==> u.fes[g] == v.fes[g]
    ensures |t.fes| == |s.fes| && Ahead(s, t, k, j) && GrantsAhead(s, t, k)
  {
    forall i | 0 <= i < j ensures t.ring[i] in s.ring[..k] {
      assert t.ring[i] == u.ring[i];
    }
  }

  lemma SweptServed(cfg: Config, v: State, u: State)
    requires Swept(cfg, v, u, v.ring) && u.ring == StillWaiting(u, v.ring)
    ensures Served(cfg, u)
  {
    forall x | x in u.ring && InRange(u, x) && Able(cfg, u.fes[x]) ensures Starved(cfg, u) {
      StillWaitingMeaning(u, v.ring, x);
      assert Outcome(cfg, v, u, x);
      PatientAble(cfg, v.fes[x], u.fes[x]);
      var a :| 0 <= a < |v.ring| && v.ring[a] == x;
      assert Left(cfg, v, u, v.ring[a]);
      assert LeftAt(cfg, v, u, v.ring, a);
    }
  }

  // Waiters first, then g: all in all a fair step, and a strict one if a backend was spare.
  // Whatever was the case before it, afterwards no able waiter waits for nothing.
  lemma PassFair(cfg: Config, s: State, v: State, t: State, g: int)
    requires Steady(cfg) && Opens(s, v, g) && InvOpen(cfg, v, g, NONE)
    requires Solo(cfg, FairSchedule(cfg, v), t, g)
    ensures FairStep(cfg, s, t, !Starved(cfg, v), NONE) && Served(cfg, t)
  {
    var u := FairSchedule(cfg, v);
    FairScheduleSwept(cfg, v, g);
    forall k: nat | Hopes(cfg, s, k, NONE)
      ensures Fair(s, t, k, !Starved(cfg, v)) && (s.ring[k] in t.ring ==> GrantsAhead(s, t, k))
    {
      ResumedFair(cfg, s, v, u, t, g, k);
    }
    SweptServed(cfg, v, u);
    LocalServed(cfg, u, t, g);
  }

  // ---- draining and handling without a backend ----

  // Frontend g is changed without issuing, joining or freeing anything.
  ghost predicate Calm(cfg: Config, s: State, t: State, g: int) {
    && OnlyChanges(s, t, g) && t.ring == s.ring
    && (InRange(s, g) ==> t.fes[g].log.issued == s.fes[g].log.issued)
    && (Starved(cfg, s) ==> Starved(cfg, t))
  }

  lemma CalmLocal(cfg: Config, s: State, t: State, u: State, g: int)
    requires g !in s.ring && Calm(cfg, s, t, g) && Solo(cfg, t, u, g)
    ensures Solo(cfg, s, u, g)
  {
  }

  lemma HandleCalm(cfg: Config, s: State, f: nat, m: Msg)
    requires Steady(cfg) && f < |s.fes| && PoolOwnership.PoolOk(s.pool)
    ensures Calm(cfg, s, Handle(cfg, s, f, m), f)
  {
    var c := s.fes[f].core;
    if m.Query? && c.ready && !cfg.rejectQuery {
      PoolSupply.QuerySupply(cfg.pool, s.pool, c.id.group);
      PoolSupply.NoSupply(cfg.pool, s.pool.conns);
      PoolSupply.NoSupply(cfg.pool, BackendPool.ExecQuery(cfg.pool, s.pool, c.id.group).0.conns);
    }
  }

  lemma FlushLocal(cfg: Config, s: State, t: State, f: nat)
    requires f < |s.fes| && f !in s.ring && Solo(cfg, s, t, f)
    ensures Solo(cfg, s, Flush(t, f), f)
  {
    var u := Flush(t, f);
    if t.ring != s.ring {
      assert Able(cfg, u.fes[f]) <==> Able(cfg, t.fes[f]);
    }
  }

  lemma StartOrParkLocal(cfg: Config, s: State, f: nat, m: Msg)
    requires Steady(cfg) && f < |s.fes| && PoolOwnership.PoolOk(s.pool)
    requires f !in s.ring && |s.ring| < |s.fes| && m.Bind?
    ensures Solo(cfg, s, StartOrPark(cfg, s, f, m), f)
  {
    StartSupply(cfg, s, f, m.bind, true);
    StartConfined(cfg, s, f, m.bind, true);
  }

  lemma {:induction false} DrainLocal(cfg: Config, s: State, f: nat)
    requires Steady(cfg) && f < |s.fes| && PoolOwnership.PoolOk(s.pool)
    requires f !in s.ring && |s.ring| < |s.fes|
    ensures Solo(cfg, s, Drain(cfg, s, f), f)
    decreases |s.fes[f].queue|
  {
    var fe := s.fes[f];
    if fe.core.wait != Idle || fe.queue == [] {
      FlushLocal(cfg, s, s, f);
    } else {
      var m := fe.queue[0];
      var popped := SetFe(s, f, fe.(queue := fe.queue[1..]));
      if m.Bind? && fe.core.ready {
        StartOrParkLocal(cfg, popped, f, m);
        FlushLocal(cfg, popped, StartOrPark(cfg, popped, f, m), f);
      } else {
        var t := Handle(cfg, popped, f, m);
        HandleConfined(cfg, popped, f, m);
        HandleCalm(cfg, popped, f, m);
        DrainLocal(cfg, t, f);
        CalmLocal(cfg, popped, t, Drain(cfg, t, f), f);
      }
      CalmLocal(cfg, s, popped, Drain(cfg, s, f), f);
    }
  }

  // ---- the end of a pipeline ----

  // f is about to resume after its pipeline.
  lemma ReleaseFair(cfg: Config, s: State, w: State, f: nat)
    requires Steady(cfg) && f < |w.fes|
    requires var v := SetCore(w, f, ReleaseCore(w.fes[f].core));
             Opens(s, v, f) && InvOpen(cfg, v, f, NONE)
    ensures FairStep(cfg, s, AfterRelease(cfg, w, f), !Starved(cfg, w), NONE) && Served(cfg, AfterRelease(cfg, w, f))
  {
    var v := SetCore(w, f, ReleaseCore(w.fes[f].core));
    var u := FairSchedule(cfg, v);
    PassInv(cfg, v, |v.ring|, f);
    ResumeLocal(cfg, u, f);
    assert v.ring == [] ==> u == v;
    PassFair(cfg, s, v, AfterRelease(cfg, w, f), f);
  }

  lemma ResumeLocal(cfg: Config, u: State, f: nat)
    requires Steady(cfg) && f < |u.fes| && InvOpen(cfg, u, f, NONE)
    ensures var v := if u.fes[f].core.wait == Idle && u.fes[f].queue != [] then Drain(cfg, u, f) else Flush(u, f);
            Solo(cfg, u, v, f)
  {
    RingHasRoom(u, f, NONE, f);
    DrainLocal(cfg, u, f);
    FlushLocal(cfg, u, u, f);
  }

  lemma FinishSpare(cfg: Config, p: BackendPool.Pool, b: nat, failed: bool)
    requires Steady(cfg) && PoolOwnership.PoolOk(p) && b < |p.conns| && p.conns[b].busy
    ensures !failed || cfg.pool.autoReconnect ==>
      PoolSupply.Supply(cfg.pool, BackendPool.Finish(cfg.pool, p, b, failed)) > 0
  {
    PoolSupply.FinishSupply(cfg.pool, p, b, failed);
    PoolSupply.NoSupply(cfg.pool, BackendPool.Finish(cfg.pool, p, b, failed).conns);
  }

  lemma FailFair(cfg: Config, s: State, t: State, f: nat)
    requires Steady(cfg) && Inv(cfg, s) && Between(cfg, s, t, f) && t.fes[f].log.issued == s.fes[f].log.issued
    ensures FairStep(cfg, s, Fail(cfg, t, f), cfg.pool.autoReconnect, NONE) && Served(cfg, Fail(cfg, t, f))
  {
    var b := s.fes[f].core.be.value;
    var fe := t.fes[f].(core := FailCore(t.fes[f].core));
    var w := SetFe(t.(pool := BackendPool.Finish(cfg.pool, t.pool, b, true)), f, fe);
    FinishEnds(cfg, s, t, f, true, fe.(core := ReleaseCore(fe.core)));
    EndsInv(cfg, s, SetCore(w, f, ReleaseCore(fe.core)), f, b);
    assert Holds(s, f, b);
    FinishSpare(cfg, t.pool, b, true);
    ReleaseFair(cfg, s, w, f);
    StrictOrNot(cfg, s, Fail(cfg, t, f), !Starved(cfg, w), cfg.pool.autoReconnect);
  }

  lemma StrictOrNot(cfg: Config, s: State, t: State, strict: bool, claimed: bool)
    requires FairStep(cfg, s, t, strict, NONE) && (claimed ==> strict)
    ensures FairStep(cfg, s, t, claimed, NONE)
  {
    forall k: nat | Hopes(cfg, s, k, NONE) ensures Fair(s, t, k, claimed) {
      assert Fair(s, t, k, strict);
    }
  }

  lemma CompleteFair(cfg: Config, s: State, t: State, f: nat)
    requires Steady(cfg) && Inv(cfg, s) && Between(cfg, s, t, f) && t.fes[f].log.issued == s.fes[f].log.issued
    ensures FairStep(cfg, s, Complete(cfg, t, f), true, NONE) && Served(cfg, Complete(cfg, t, f))
  {
    var b := s.fes[f].core.be.value;
    var sawError := Conn(t, f).pipe.st.sawError;
    var fe := if sawError then Drop(t.fes[f]) else t.fes[f];
    var d := fe.(core := CompleteCore(fe.core, sawError));
    var w := SetFe(t.(pool := BackendPool.Finish(cfg.pool, t.pool, b, false)), f, d);
    FinishEnds(cfg, s, t, f, false, d.(core := ReleaseCore(d.core)));
    EndsInv(cfg, s, SetCore(w, f, ReleaseCore(d.core)), f, b);
    assert Holds(s, f, b);
    FinishSpare(cfg, t.pool, b, false);
    ReleaseFair(cfg, s, w, f);
  }
}
