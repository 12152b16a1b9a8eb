// Backends that come back while frontends wait, on an arbitrary network: what maintenance
// revives, and exactly when an able waiter is left beside a live idle backend.
module Revival {
  import opened Wire
  import opened Frontend
  import opened Scheduler
  import opened Invariant
  import opened Steps
  import opened Waiting
  import opened Tally
  import Rewrite
  import PoolOwnership

  // ---- waiters beside live idle backends ----

  ghost predicate AbleWaits(cfg: Config, s: State) {
    exists x :: x in s.ring && InRange(s, x) && Able(cfg, s.fes[x])
  }

  // No able waiter stands beside a live idle backend.
  ghost predicate Attended(cfg: Config, s: State) { AbleWaits(cfg, s) ==> LiveCount(s.pool.conns) == 0 }

  // Whatever the network does: the periodic maintenance wakes nobody, and leaves an able waiter
  // beside a live idle backend exactly if one waits and one of the answers that the revivable
  // slots take is a connection.
  lemma TickExact(cfg: Config, s: State)
    requires Attended(cfg, s)
    ensures var n := RevivableCount(s.pool.conns);
            Attended(cfg, Step(cfg, s, Tick)) <==>
              !AbleWaits(cfg, s) || !cfg.pool.autoReconnect
              || forall k: nat :: s.pool.clock <= k < s.pool.clock + n ==> !cfg.pool.net.warm(k).Up?
  {
    MaintainTally(cfg.pool, s.pool);
    UpsMeaning(cfg.pool.net, s.pool.clock, RevivableCount(s.pool.conns));
    AbleSame(cfg, s, Step(cfg, s, Tick));
  }

  lemma AbleSame(cfg: Config, s: State, t: State)
    requires t.fes == s.fes && t.ring == s.ring
    ensures AbleWaits(cfg, t) <==> AbleWaits(cfg, s)
  {
    if AbleWaits(cfg, s) {
      var x :| x in s.ring && InRange(s, x) && Able(cfg, s.fes[x]);
      assert x in t.ring && InRange(t, x) && Able(cfg, t.fes[x]);
    }
    if AbleWaits(cfg, t) {
      var x :| x in t.ring && InRange(t, x) && Able(cfg, t.fes[x]);
      assert x in s.ring && InRange(s, x) && Able(cfg, s.fes[x]);
    }
  }

  // The backends an arriving Bind finds, revived ones included.
  function Found(cfg: Config, s: State): nat { Maintained(cfg.pool, CountOf(s.pool)).live }

  // What the arrival makes of ring and pool.
  ghost predicate Landed(cfg: Config, s: State, t: State, f: nat, b: BindMsg)
    requires f < |s.fes|
  {
    var c, n := s.fes[f].core, Found(cfg, s);
    && |t.fes| == |s.fes| && (forall i :: InRange(s, i) && i != f ==> t.fes[i] == s.fes[i])
    && if PoolOwnership.Sendable(cfg.pool, BindBytes(cfg, c, b)) && n > 0 then
         t.ring == s.ring && LiveCount(t.pool.conns) == n - 1
       else
         && t.ring == s.ring + [f] && LiveCount(t.pool.conns) == n
         && (Able(cfg, t.fes[f]) <==> PoolOwnership.Sendable(cfg.pool, BindBytes(cfg, c, Rewrite.QueuedBind(b))))
  }

  lemma ArrivalLanded(cfg: Config, s: State, f: nat, b: BindMsg)
    requires Proper(cfg) && Inv(cfg, s) && AnyLogin(cfg.pool) && f < |s.fes|
    requires s.fes[f].core.st != Free && s.fes[f].core.wait == Idle && s.fes[f].core.ready
    ensures Landed(cfg, s, Process(cfg, s, f, Bind(b)), f, b)
  {
    OpenOne(cfg, s, f);
    RingHasRoom(s, NONE, f, f);
    assert Quiet(s.fes[f]);
    var u := SetCore(SetFe(s, f, Arrive(s.fes[f], Bind(b))), f,
                     s.fes[f].core.(resp := [], gotExecute := false, gotSync := false));
    assert BindBytes(cfg, u.fes[f].core, b) == BindBytes(cfg, s.fes[f].core, b);
    BeginTally(cfg.pool, u.pool, u.fes[f].core.id.group, BindBytes(cfg, u.fes[f].core, b));
    StartConfined(cfg, u, f, b, false);
  }

  // What a caller can check: the Bind starts, and nobody able waits or no second backend is
  // found; or it is refused, and none is found or nobody is able to use one.
  ghost predicate NoneLeft(cfg: Config, s: State, f: nat, b: BindMsg)
    requires f < |s.fes|
  {
    var c := s.fes[f].core;
    if PoolOwnership.Sendable(cfg.pool, BindBytes(cfg, c, b)) then !AbleWaits(cfg, s) || Found(cfg, s) <= 1
    else
      || Found(cfg, s) == 0
      || !(AbleWaits(cfg, s) || PoolOwnership.Sendable(cfg.pool, BindBytes(cfg, c, Rewrite.QueuedBind(b))))
  }

  // A checkout wakes nobody either: it leaves an able waiter beside a live idle backend exactly
  // if one waits and the checkout finds a backend more than it takes.
  lemma ArrivalAttended(cfg: Config, s: State, f: nat, b: BindMsg)
    requires Proper(cfg) && Inv(cfg, s) && AnyLogin(cfg.pool) && f < |s.fes| && Attended(cfg, s)
    requires s.fes[f].core.st != Free && s.fes[f].core.wait == Idle && s.fes[f].core.ready
    ensures Attended(cfg, Process(cfg, s, f, Bind(b))) <==> NoneLeft(cfg, s, f, b)
  {
    ArrivalLanded(cfg, s, f, b);
    OpenOne(cfg, s, f);
    LandedAttended(cfg, s, Process(cfg, s, f, Bind(b)), f, b);
  }

  lemma LandedAttended(cfg: Config, s: State, t: State, f: nat, b: BindMsg)
    requires f < |s.fes| && f !in s.ring && Landed(cfg, s, t, f, b) && Attended(cfg, s)
    ensures Attended(cfg, t) <==> NoneLeft(cfg, s, f, b)
  {
    AbleJoined(cfg, s, t, f);
  }

  lemma AbleJoined(cfg: Config, s: State, t: State, f: nat)
    requires f < |s.fes| == |t.fes| && f !in s.ring && forall i :: InRange(s, i) && i != f ==> t.fes[i] == s.fes[i]
    requires t.ring == s.ring || t.ring == s.ring + [f]
    ensures AbleWaits(cfg, t) <==> AbleWaits(cfg, s) || (t.ring != s.ring && Able(cfg, t.fes[f]))
  {
    if AbleWaits(cfg, s) {
      var x :| x in s.ring && InRange(s, x) && Able(cfg, s.fes[x]);
      assert x in t.ring && InRange(t, x) && Able(cfg, t.fes[x]);
    }
    if t.ring != s.ring && Able(cfg, t.fes[f]) {
      assert t.ring[|s.ring|] == f;
      assert f in t.ring && InRange(t, f);
    }
    if AbleWaits(cfg, t) {
      var x :| x in t.ring && InRange(t, x) && Able(cfg, t.fes[x]);
      if x != f { assert x in s.ring && InRange(s, x) && Able(cfg, s.fes[x]); }
    }
  }

  // So does the checkout of a forwarded query.
  lemma QueryAttended(cfg: Config, s: State, f: nat, m: Msg)
    requires Proper(cfg) && PoolOwnership.PoolOk(s.pool) && AnyLogin(cfg.pool)
    requires f < |s.fes| && f !in s.ring && Attended(cfg, s)
    requires m.Query? && s.fes[f].core.ready && !cfg.rejectQuery
    ensures var y := Maintained(cfg.pool, CountOf(s.pool));
            var w := cfg.pool.net.flush(y.clock);
            Attended(cfg, Handle(cfg, s, f, m)) <==>
              !AbleWaits(cfg, s) || y.live == 0 || (y.live == 1 && w.dead && !w.ok)
  {
    QueryTally(cfg.pool, s.pool, s.fes[f].core.id.group);
    AbleJoined(cfg, s, Handle(cfg, s, f, m), f);
  }
}
