// How many backends are there to be had: in a pool without group login and health checks,
// whose reconnects succeed (or are off), every operation's effect on the supply is exact.
module PoolSupply {
  import opened Wire
  import opened BackendPool
  import opened PoolOwnership
  import opened PoolCheckout

  ghost predicate Homogeneous(cfg: PoolConfig) {
    && Configured(cfg) && !cfg.groupLogin && !cfg.healthCheck
    && (cfg.autoReconnect ==> forall k: nat :: cfg.net.warm(k).Up?)
  }

  // Idle, and live or about to be re-warmed by the next maintenance.
  predicate Spare(cfg: PoolConfig, c: BackendConn) {
    !c.busy && (c.alive || (cfg.autoReconnect && c.login != ""))
  }

  ghost predicate NoneSpare(cfg: PoolConfig, p: Pool) {
    forall j :: 0 <= j < |p.conns| ==> !Spare(cfg, p.conns[j])
  }

  // The spare slots of q are those of p without `taken`.
  ghost predicate SpareLess(cfg: PoolConfig, p: Pool, q: Pool, taken: Option<nat>) {
    && |q.conns| == |p.conns|
    && (taken.Some? ==> taken.value < |p.conns| && Spare(cfg, p.conns[taken.value]))
    && forall j :: 0 <= j < |p.conns| ==>
      (Spare(cfg, q.conns[j]) <==> Spare(cfg, p.conns[j]) && taken != Some(j))
  }

  // How many slots are spare.
  function SpareCount(cfg: PoolConfig, conns: seq<BackendConn>): nat {
    if conns == [] then 0
    else SpareCount(cfg, conns[..|conns| - 1]) + if Spare(cfg, conns[|conns| - 1]) then 1 else 0
  }

  function Supply(cfg: PoolConfig, p: Pool): nat { SpareCount(cfg, p.conns) }

  lemma {:induction false} CountLess(cfg: PoolConfig, p: Pool, q: Pool, taken: Option<nat>, n: nat)
    requires SpareLess(cfg, p, q, taken) && n <= |p.conns|
    ensures SpareCount(cfg, q.conns[..n]) + (if taken.Some? && taken.value < n then 1 else 0)
         == SpareCount(cfg, p.conns[..n])
  {
    if n > 0 {
      CountLess(cfg, p, q, taken, n - 1);
      assert p.conns[..n][..n - 1] == p.conns[..n - 1] && q.conns[..n][..n - 1] == q.conns[..n - 1];
    }
  }

  lemma SupplyLess(cfg: PoolConfig, p: Pool, q: Pool, taken: Option<nat>)
    requires SpareLess(cfg, p, q, taken)
    ensures Supply(cfg, q) + (if taken.Some? then 1 else 0) == Supply(cfg, p)
  {
    CountLess(cfg, p, q, taken, |p.conns|);
    assert p.conns[..|p.conns|] == p.conns && q.conns[..|p.conns|] == q.conns;
  }

  lemma {:induction false} NoSupply(cfg: PoolConfig, conns: seq<BackendConn>)
    ensures SpareCount(cfg, conns) == 0 <==> forall j :: 0 <= j < |conns| ==> !Spare(cfg, conns[j])
  {
    if conns != [] {
      var n := |conns| - 1;
      NoSupply(cfg, conns[..n]);
      assert forall j :: 0 <= j < n ==> conns[..n][j] == conns[j];
    }
  }

  lemma {:induction false} MaintainFromSupply(cfg: PoolConfig, p: Pool, i: nat)
    requires Homogeneous(cfg) && cfg.autoReconnect && PoolOk(p) && i <= |p.conns|
    ensures SpareLess(cfg, p, MaintainFrom(cfg, p, i), None)
    ensures forall j :: 0 <= j < i ==> MaintainFrom(cfg, p, i).conns[j] == p.conns[j]
    ensures forall j :: i <= j < |p.conns| && Spare(cfg, p.conns[j]) ==> MaintainFrom(cfg, p, i).conns[j].alive
    decreases |p.conns| - i
  {
    if i < |p.conns| {
      var c := p.conns[i];
      var rewarm := !c.busy && !c.alive && c.login != "";
      if rewarm { ReconnectMoves(cfg, p, i); }
      MaintainFromSupply(cfg, if rewarm then Reconnect(cfg, p, i).0 else p, i + 1);
    }
  }

  // Maintenance turns every spare slot live, and makes or loses none.
  lemma MaintainSupply(cfg: PoolConfig, p: Pool)
    requires Homogeneous(cfg) && PoolOk(p)
    ensures SpareLess(cfg, p, Maintain(cfg, p), None)
    ensures forall j :: 0 <= j < |p.conns| ==> (Spare(cfg, p.conns[j]) <==> Live(Maintain(cfg, p).conns[j]))
  {
    if cfg.autoReconnect {
      MaintainFromSupply(cfg, p, 0);
      MaintainMoves(cfg, p);
    }
  }

  // Checkout succeeds iff a slot is spare, and uses up just that slot.
  lemma CheckoutSupply(cfg: PoolConfig, p: Pool, group: string)
    requires Homogeneous(cfg) && PoolOk(p)
    ensures var (q, got) := Checkout(cfg, p, group);
            (got.None? <==> NoneSpare(cfg, p)) && SpareLess(cfg, p, q, got)
  {
    if |p.conns| > 0 {
      var m := Maintain(cfg, p);
      MaintainSupply(cfg, p);
      CheckoutExact(cfg, p, group);
      CheckoutPlain(cfg, p, group);
    }
  }

  lemma BeginSupply(cfg: PoolConfig, p: Pool, group: string, bytes: Option<Bytes>)
    requires Homogeneous(cfg) && PoolOk(p)
    ensures var (q, got) := AsyncBegin(cfg, p, group, bytes);
            && SpareLess(cfg, p, q, got)
            && (Sendable(cfg, bytes) ==> (got.None? <==> NoneSpare(cfg, p)))
  {
    CheckoutSupply(cfg, p, group);
    CheckoutMoves(cfg, p, group);
  }

  lemma QuerySupply(cfg: PoolConfig, p: Pool, group: string)
    requires Homogeneous(cfg) && PoolOk(p)
    ensures NoneSpare(cfg, p) ==> NoneSpare(cfg, ExecQuery(cfg, p, group).0)
  {
    CheckoutSupply(cfg, p, group);
  }

  // Giving a slot back makes it spare -- after a failure, if reconnecting is on -- and changes
  // nothing else.
  lemma FinishSupply(cfg: PoolConfig, p: Pool, i: nat, failed: bool)
    requires Homogeneous(cfg) && PoolOk(p) && i < |p.conns| && p.conns[i].busy
    ensures !failed || cfg.autoReconnect ==> Spare(cfg, Finish(cfg, p, i, failed).conns[i])
  {
  }
}
