// The pool by three numbers: live idle slots, dead idle slots that can be reconnected, and how
// many answers the network has given. In a pool without group login and health checks, on any
// network, they say what every operation will do.
module Tally {
  import opened Wire
  import opened BackendPool
  import opened PoolOwnership
  import opened PoolCheckout

  // ---- the numbers ----

  function LiveCount(conns: seq<BackendConn>): nat {
    if conns == [] then 0 else (if Live(conns[0]) then 1 else 0) + LiveCount(conns[1..])
  }

  // Idle and dead, with a login to reconnect as.
  predicate Revivable(c: BackendConn) { !c.busy && !c.alive && c.login != "" }

  function RevivableCount(conns: seq<BackendConn>): nat {
    if conns == [] then 0 else (if Revivable(conns[0]) then 1 else 0) + RevivableCount(conns[1..])
  }

  // How many of the next n answers of the network are connections.
  function Ups(net: Network, clock: nat, n: nat): nat
    decreases n
  {
    if n == 0 then 0 else (if net.warm(clock).Up? then 1 else 0) + Ups(net, clock + 1, n - 1)
  }

  lemma {:induction false} UpsMeaning(net: Network, clock: nat, n: nat)
    ensures Ups(net, clock, n) == 0 <==> forall k: nat :: clock <= k < clock + n ==> !net.warm(k).Up?
    decreases n
  {
    if n > 0 { UpsMeaning(net, clock + 1, n - 1); }
  }

  lemma {:induction false} CountUpdate(conns: seq<BackendConn>, i: nat, c: BackendConn)
    requires i < |conns|
    ensures LiveCount(conns[i := c]) + (if Live(conns[i]) then 1 else 0) == LiveCount(conns) + if Live(c) then 1 else 0
  {
    if i == 0 {
      assert conns[0 := c][1..] == conns[1..];
    } else {
      CountUpdate(conns[1..], i - 1, c);
      assert conns[i := c][1..] == conns[1..][i - 1 := c];
    }
  }

  lemma {:induction false} CountMeaning(conns: seq<BackendConn>)
    ensures LiveCount(conns) == 0 <==> forall j :: 0 <= j < |conns| ==> !Live(conns[j])
  {
    if conns != [] {
      CountMeaning(conns[1..]);
      assert forall j :: 0 < j < |conns| ==> conns[j] == conns[1..][j - 1];
      assert forall j :: 0 <= j < |conns[1..]| ==> conns[1..][j] == conns[j + 1];
    }
  }

  // Neither the login nor the health of a slot decides who gets it.
  predicate AnyLogin(cfg: PoolConfig) { !cfg.healthCheck && !cfg.groupLogin }

  datatype Count = Count(live: nat, dead: nat, clock: nat)

  function CountOf(p: Pool): Count { Count(LiveCount(p.conns), RevivableCount(p.conns), p.clock) }

  lemma {:induction false} UpsBound(net: Network, clock: nat, n: nat)
    ensures Ups(net, clock, n) <= n
    decreases n
  {
    if n > 0 { UpsBound(net, clock + 1, n - 1); }
  }

  // Maintenance: each dead slot takes an answer.
  function Maintained(cfg: PoolConfig, y: Count): Count {
    if !cfg.autoReconnect then y
    else
      UpsBound(cfg.net, y.clock, y.dead);
      var u := Ups(cfg.net, y.clock, y.dead);
      Count(y.live + u, y.dead - u, y.clock + y.dead)
  }

  // Checkout for a pipeline: it takes a slot if there is one and the pipeline can be sent.
  function Begun(cfg: PoolConfig, y: Count, sendable: bool): (Count, bool) {
    var m := Maintained(cfg, y);
    if sendable && m.live > 0 then (m.(live := m.live - 1), true) else (m, false)
  }

  // Checkout for a forwarded query, which may lose its connection.
  function Queried(cfg: PoolConfig, y: Count): Count {
    var m := Maintained(cfg, y);
    if m.live == 0 then m
    else
      var f := cfg.net.flush(m.clock);
      if f.dead && !f.ok then Count(m.live - 1, m.dead + 1, m.clock + 1) else m.(clock := m.clock + 1)
  }

  // A slot given back; after a failure it is reconnected at once, where that is on.
  function Freed(cfg: PoolConfig, y: Count, failed: bool): Count {
    if !failed then y.(live := y.live + 1)
    else if !cfg.autoReconnect then y.(dead := y.dead + 1)
    else if cfg.net.warm(y.clock).Up? then Count(y.live + 1, y.dead, y.clock + 1)
    else Count(y.live, y.dead + 1, y.clock + 1)
  }

  // ---- counting ----

  lemma {:induction false} DeadUpdate(conns: seq<BackendConn>, i: nat, c: BackendConn)
    requires i < |conns|
    ensures RevivableCount(conns[i := c]) + (if Revivable(conns[i]) then 1 else 0)
         == RevivableCount(conns) + if Revivable(c) then 1 else 0
  {
    if i == 0 {
      assert conns[0 := c][1..] == conns[1..];
    } else {
      DeadUpdate(conns[1..], i - 1, c);
      assert conns[i := c][1..] == conns[1..][i - 1 := c];
    }
  }

  // One slot changes.
  lemma SlotCount(p: Pool, q: Pool, i: nat)
    requires i < |p.conns| == |q.conns| && q.conns == p.conns[i := q.conns[i]]
    ensures LiveCount(q.conns) + (if Live(p.conns[i]) then 1 else 0)
         == LiveCount(p.conns) + if Live(q.conns[i]) then 1 else 0
    ensures RevivableCount(q.conns) + (if Revivable(p.conns[i]) then 1 else 0)
         == RevivableCount(p.conns) + if Revivable(q.conns[i]) then 1 else 0
  {
    CountUpdate(p.conns, i, q.conns[i]);
    DeadUpdate(p.conns, i, q.conns[i]);
  }

  // A slot that was warmed up is live under that login, with nothing left of the pipeline before;
  // one that could not be is retried by maintenance exactly if it was ever reached.
  lemma WarmLeaves(cfg: PoolConfig, p: Pool, i: nat, user: string)
    requires i < |p.conns| && user != "" && !p.conns[i].busy
    ensures var (q, ok) := WarmOne(cfg, p, i, user);
            var c, w := q.conns[i], cfg.net.warm(p.clock);
            && q.conns == p.conns[i := c] && c.pipe.sendBuf == [] && c.pipe.acc == []
            && (ok <==> w.Up?) && (w.Up? ==> Live(c) && c.login == user)
            && (!w.Up? ==> !c.alive && (Revivable(c) <==> w.NoAuth? || p.conns[i].login != ""))
  {
  }

  lemma ReconnectCount(cfg: PoolConfig, p: Pool, i: nat)
    requires i < |p.conns| && Revivable(p.conns[i])
    ensures var q := Reconnect(cfg, p, i).0;
            var u := if cfg.net.warm(p.clock).Up? then 1 else 0;
            && q.conns[i + 1..] == p.conns[i + 1..] && RevivableCount(p.conns) >= u
            && CountOf(q) == Count(LiveCount(p.conns) + u, RevivableCount(p.conns) - u, p.clock + 1)
  {
    var q := Reconnect(cfg, p, i).0;
    assert q.conns == p.conns[i := q.conns[i]];
    SlotCount(p, q, i);
  }

  lemma {:induction false} MaintainFromTally(cfg: PoolConfig, p: Pool, i: nat)
    requires i <= |p.conns|
    ensures var n := RevivableCount(p.conns[i..]);
            var u := Ups(cfg.net, p.clock, n);
            && u <= RevivableCount(p.conns)
            && CountOf(MaintainFrom(cfg, p, i))
               == Count(LiveCount(p.conns) + u, RevivableCount(p.conns) - u, p.clock + n)
    decreases |p.conns| - i
  {
    if i < |p.conns| {
      assert p.conns[i..][1..] == p.conns[i + 1..];
      if Revivable(p.conns[i]) {
        ReconnectCount(cfg, p, i);
        MaintainFromTally(cfg, Reconnect(cfg, p, i).0, i + 1);
      } else {
        MaintainFromTally(cfg, p, i + 1);
      }
    }
  }

  lemma MaintainTally(cfg: PoolConfig, p: Pool)
    ensures CountOf(Maintain(cfg, p)) == Maintained(cfg, CountOf(p))
  {
    MaintainFromTally(cfg, p, 0);
    assert p.conns[0..] == p.conns;
  }

  // ---- checkouts ----

  lemma CheckoutTally(cfg: PoolConfig, p: Pool, group: string)
    requires AnyLogin(cfg)
    ensures var (q, got) := Checkout(cfg, p, group);
            && (CountOf(q), got.Some?) == Begun(cfg, CountOf(p), true)
            && (got.Some? ==> q.conns[got.value].busy && q.conns[got.value].alive
                              && q.conns[got.value].login == Maintain(cfg, p).conns[got.value].login)
  {
    MaintainTally(cfg, p);
    if |p.conns| > 0 {
      CheckoutPlain(cfg, p, group);
      PickTally(cfg, Maintain(cfg, p), group);
    }
  }

  // Without group login a slot is picked iff one is live, and it is.
  lemma PickTally(cfg: PoolConfig, m: Pool, group: string)
    requires AnyLogin(cfg) && |m.conns| > 0
    ensures var k := Pick(cfg, m, group);
            && (k.Some? <==> LiveCount(m.conns) > 0)
            && (k.Some? ==> k.value < |m.conns| && Live(m.conns[k.value])
                            && CountOf(SetBusy(m, k.value, true)) == CountOf(m).(live := LiveCount(m.conns) - 1))
  {
    FirstFitMeaning(m.conns, group, true, Start(m), 0);
    FirstFitMeaning(m.conns, group, false, Start(m), 0);
    CountMeaning(m.conns);
    var k := Pick(cfg, m, group);
    if k.Some? { SlotCount(m, SetBusy(m, k.value, true), k.value); }
  }

  lemma BeginTally(cfg: PoolConfig, p: Pool, group: string, bytes: Option<Bytes>)
    requires AnyLogin(cfg)
    ensures var (q, got) := AsyncBegin(cfg, p, group, bytes);
            (CountOf(q), got.Some?) == Begun(cfg, CountOf(p), Sendable(cfg, bytes))
  {
    CheckoutTally(cfg, p, group);
    var (c, slot) := Checkout(cfg, p, group);
    var (q, got) := AsyncBegin(cfg, p, group, bytes);
    if slot.Some? {
      var i := slot.value;
      assert q.conns == c.conns[i := q.conns[i]];
      SlotCount(c, q, i);
    }
  }

  lemma QueryTally(cfg: PoolConfig, p: Pool, group: string)
    requires AnyLogin(cfg) && Configured(cfg) && PoolOk(p)
    ensures CountOf(ExecQuery(cfg, p, group).0) == Queried(cfg, CountOf(p))
  {
    CheckoutTally(cfg, p, group);
    CheckoutMoves(cfg, p, group);
    var (c, slot) := Checkout(cfg, p, group);
    var q := ExecQuery(cfg, p, group).0;
    if slot.Some? {
      var i := slot.value;
      assert q.conns == c.conns[i := q.conns[i]];
      SlotCount(c, q, i);
    }
  }

  lemma FinishTally(cfg: PoolConfig, p: Pool, i: nat, failed: bool)
    requires PoolOk(p) && i < |p.conns| && p.conns[i].busy
    ensures CountOf(Finish(cfg, p, i, failed)) == Freed(cfg, CountOf(p), failed)
  {
    var q := Finish(cfg, p, i, failed);
    assert q.conns == p.conns[i := q.conns[i]];
    SlotCount(p, q, i);
  }

  // With nothing live to be had, all that happens is the maintenance.
  lemma NoneChecked(cfg: PoolConfig, p: Pool, group: string, bytes: Option<Bytes>)
    requires AnyLogin(cfg) && Maintained(cfg, CountOf(p)).live == 0
    ensures AsyncBegin(cfg, p, group, bytes) == (Maintain(cfg, p), None)
  {
    CheckoutTally(cfg, p, group);
    if |p.conns| > 0 {
      CheckoutPlain(cfg, p, group);
    }
  }
}
