// Every pool operation keeps the pool consistent and touches the busy flag of one slot at most.
module PoolOwnership {
  import opened Wire
  import opened BackendPool
  import Ring

  // Busy implies alive: the strengthening that makes lazy login, which tests only `!alive`, safe.
  ghost predicate PoolOk(p: Pool) {
    forall j :: 0 <= j < |p.conns| ==>
      (p.conns[j].busy ==> p.conns[j].alive) && (p.conns[j].alive ==> p.conns[j].login != "")
  }

  ghost predicate Configured(cfg: PoolConfig) { cfg.user != "" }

  // From p to q one slot at most was taken: it was idle, is live and busy now; no other
  // slot's busy flag changed, and no busy slot changed at all.
  ghost predicate Moves(p: Pool, q: Pool, taken: Option<nat>) {
    && |q.conns| == |p.conns| && PoolOk(q)
    && (taken.Some? ==> taken.value < |p.conns| && !p.conns[taken.value].busy)
    && forall j :: 0 <= j < |p.conns| ==>
         && q.conns[j].busy == (p.conns[j].busy || taken == Some(j))
         && (p.conns[j].busy ==> q.conns[j] == p.conns[j])
  }

  lemma MovesTrans(p: Pool, q: Pool, r: Pool, taken: Option<nat>)
    requires Moves(p, q, None) && Moves(q, r, taken)
    ensures Moves(p, r, taken)
  {
  }

  lemma WarmMoves(cfg: PoolConfig, p: Pool, i: nat, user: string)
    requires PoolOk(p) && i < |p.conns| && !p.conns[i].busy && user != ""
    ensures Moves(p, WarmOne(cfg, p, i, user).0, None)
    ensures WarmOne(cfg, p, i, user).1 ==>
      var c := WarmOne(cfg, p, i, user).0.conns[i]; c.alive && c.login == user
  {
  }

  lemma ReconnectMoves(cfg: PoolConfig, p: Pool, i: nat)
    requires Configured(cfg) && PoolOk(p) && i < |p.conns| && !p.conns[i].busy
    ensures Moves(p, Reconnect(cfg, p, i).0, None)
    ensures Reconnect(cfg, p, i).1 ==>
      var c := Reconnect(cfg, p, i).0.conns[i];
      c.alive && c.login == if p.conns[i].login != "" then p.conns[i].login else cfg.user
  {
    WarmMoves(cfg, p, i, if p.conns[i].login != "" then p.conns[i].login else cfg.user);
  }

  lemma {:induction false} MaintainFromMoves(cfg: PoolConfig, p: Pool, i: nat)
    requires Configured(cfg) && PoolOk(p) && i <= |p.conns|
    ensures Moves(p, MaintainFrom(cfg, p, i), None)
    decreases |p.conns| - i
  {
    if i < |p.conns| {
      var c := p.conns[i];
      if !c.busy && !c.alive && c.login != "" {
        ReconnectMoves(cfg, p, i);
        var q := Reconnect(cfg, p, i).0;
        MaintainFromMoves(cfg, q, i + 1);
        MovesTrans(p, q, MaintainFrom(cfg, q, i + 1), None);
      } else {
        MaintainFromMoves(cfg, p, i + 1);
      }
    }
  }

  lemma MaintainMoves(cfg: PoolConfig, p: Pool)
    requires Configured(cfg) && PoolOk(p)
    ensures Moves(p, Maintain(cfg, p), None)
  {
    if cfg.autoReconnect { MaintainFromMoves(cfg, p, 0); }
  }

  lemma TryMoves(cfg: PoolConfig, p: Pool, i: nat)
    requires Configured(cfg) && PoolOk(p) && i < |p.conns|
    ensures var (q, ok) := CheckoutTry(cfg, p, i);
            Moves(p, q, if ok then Some(i) else None) && (ok ==> q.conns[i].login == p.conns[i].login)
  {
    var c := p.conns[i];
    if c.alive && !c.busy && cfg.healthCheck && !cfg.net.probe(p.clock) {
      var q := Set(p, i, Teardown(c)).(clock := p.clock + 1);
      if cfg.autoReconnect {
        ReconnectMoves(cfg, q, i);
      }
    }
  }

  lemma {:induction false} ScanMoves(cfg: PoolConfig, p: Pool, group: string, start: nat, i: nat, fallback: Option<nat>)
    requires Configured(cfg) && PoolOk(p) && start < |p.conns| && i <= |p.conns|
    requires fallback.Some? ==> fallback.value < |p.conns|
    ensures var s := Scan(cfg, p, group, start, i, fallback);
            && Moves(p, s.pool, s.got)
            && (s.got.Some? ==> s.pool.conns[s.got.value].login == group)
    decreases |p.conns| - i
  {
    if i < |p.conns| {
      var idx := Ring.At(start, i, |p.conns|);
      var c := p.conns[idx];
      if c.alive && !c.busy && group != "" && c.login == group {
        TryMoves(cfg, p, idx);
        var (q, ok) := CheckoutTry(cfg, p, idx);
        if !ok {
          ScanMoves(cfg, q, group, start, i + 1, fallback);
          var s := Scan(cfg, q, group, start, i + 1, fallback);
          MovesTrans(p, q, s.pool, s.got);
        }
      } else {
        ScanMoves(cfg, p, group, start, i + 1, if c.alive && !c.busy && fallback.None? then Some(idx) else fallback);
      }
    }
  }

  lemma {:induction false} RescanMoves(cfg: PoolConfig, p: Pool, group: string, start: nat, i: nat)
    requires Configured(cfg) && PoolOk(p) && start < |p.conns| && i <= |p.conns|
    ensures var (q, got) := Rescan(cfg, p, group, start, i);
            Moves(p, q, got) && (got.Some? ==> q.conns[got.value].login == group)
    decreases |p.conns| - i
  {
    if i < |p.conns| {
      var idx := Ring.At(start, i, |p.conns|);
      var c := p.conns[idx];
      if c.alive && !c.busy && c.login == group {
        TryMoves(cfg, p, idx);
        var (q, ok) := CheckoutTry(cfg, p, idx);
        if !ok {
          RescanMoves(cfg, q, group, start, i + 1);
          var (r, got) := Rescan(cfg, q, group, start, i + 1);
          MovesTrans(p, q, r, got);
        }
      } else {
        RescanMoves(cfg, p, group, start, i + 1);
      }
    }
  }

  lemma {:induction false} LazyMoves(cfg: PoolConfig, p: Pool, group: string, start: nat, i: nat)
    requires PoolOk(p) && start < |p.conns| && i <= |p.conns| && group != ""
    ensures var (q, got) := LazyLogin(cfg, p, group, start, i);
            Moves(p, q, got) && (got.Some? ==> q.conns[got.value].login == group)
    decreases |p.conns| - i
  {
    if i < |p.conns| {
      var idx := Ring.At(start, i, |p.conns|);
      if p.conns[idx].alive {
        LazyMoves(cfg, p, group, start, i + 1);
      } else {
        WarmMoves(cfg, p, idx, group);
      }
    }
  }

  // Checkout takes an idle slot or none, and with group login never one of another login.
  lemma CheckoutMoves(cfg: PoolConfig, p: Pool, group: string)
    requires Configured(cfg) && PoolOk(p)
    ensures var (q, got) := Checkout(cfg, p, group);
            && Moves(p, q, got)
            && (got.Some? && cfg.groupLogin && group != "" ==> q.conns[got.value].login == group)
  {
    if |p.conns| > 0 {
      var m := Maintain(cfg, p);
      var start := m.rr % |m.conns|;
      MaintainMoves(cfg, p);
      ScanMoves(cfg, m, group, start, 0, None);
      var s := Scan(cfg, m, group, start, 0, None);
      MovesTrans(p, m, s.pool, s.got);
      if s.got.None? {
        if cfg.groupLogin && group != "" {
          RescanMoves(cfg, s.pool, group, start, 0);
          var (q, got) := Rescan(cfg, s.pool, group, start, 0);
          MovesTrans(p, s.pool, q, got);
          if got.None? && cfg.lazy {
            LazyMoves(cfg, q, group, start, 0);
            var (r, g) := LazyLogin(cfg, q, group, start, 0);
            MovesTrans(p, q, r, g);
          }
        } else if s.fallback.Some? {
          TryMoves(cfg, s.pool, s.fallback.value);
          var (q, ok) := CheckoutTry(cfg, s.pool, s.fallback.value);
          MovesTrans(p, s.pool, q, if ok then s.fallback else None);
        }
      }
    }
  }

  predicate Sendable(cfg: PoolConfig, bytes: Option<Bytes>) {
    bytes.Some? && 0 < |bytes.value| <= cfg.sendCap
  }

  // A pipeline starts on the slot checked out, with exactly its bytes to send; a refused
  // Bind gives the slot back.
  lemma BeginMoves(cfg: PoolConfig, p: Pool, group: string, bytes: Option<Bytes>)
    requires Configured(cfg) && PoolOk(p)
    ensures var (q, got) := AsyncBegin(cfg, p, group, bytes);
            && Moves(p, q, got)
            && (got.Some? ==> Sendable(cfg, bytes) && q.conns[got.value].pipe == NO_PIPE.(sendBuf := bytes.value))
            && (got.Some? && cfg.groupLogin && group != "" ==> q.conns[got.value].login == group)
  {
    CheckoutMoves(cfg, p, group);
  }

  lemma QueryMoves(cfg: PoolConfig, p: Pool, group: string)
    requires Configured(cfg) && PoolOk(p)
    ensures Moves(p, ExecQuery(cfg, p, group).0, None)
  {
    CheckoutMoves(cfg, p, group);
  }

  // A forwarded query runs under the group's login, where groups log in themselves, and its answer
  // is the network's.
  lemma QueryTrip(cfg: PoolConfig, p: Pool, group: string)
    requires Configured(cfg) && PoolOk(p)
    ensures var (q, t) := ExecQuery(cfg, p, group);
            && (t.NoBackend? <==> Checkout(cfg, p, group).1.None?)
            && (t.Trip? ==> t.answer == cfg.net.flush(Checkout(cfg, p, group).0.clock))
            && (t.Trip? && cfg.groupLogin && group != "" ==> t.login == group)
  {
    CheckoutMoves(cfg, p, group);
  }

  // Only slot i changed, and it is idle.
  ghost predicate Frees(p: Pool, q: Pool, i: nat)
    requires i < |p.conns|
  {
    && |q.conns| == |p.conns| && PoolOk(q)
    && !q.conns[i].busy
    && forall j :: 0 <= j < |p.conns| && j != i ==> q.conns[j] == p.conns[j]
  }

  lemma FinishFrees(cfg: PoolConfig, p: Pool, i: nat, failed: bool)
    requires PoolOk(p) && i < |p.conns|
    ensures Frees(p, Finish(cfg, p, i, failed), i)
  {
  }

  // A slot given back keeps its login and nothing of the pipeline. After a failure it is live only
  // on a fresh connection, and is connected again at once where that is on.
  lemma FinishLeaves(cfg: PoolConfig, p: Pool, i: nat, failed: bool)
    requires PoolOk(p) && i < |p.conns| && p.conns[i].busy
    ensures var q := Finish(cfg, p, i, failed);
            var c := q.conns[i];
            && c.login == p.conns[i].login && c.pipe.sendBuf == [] && c.pipe.acc == []
            && (!failed ==> c.alive && q.clock == p.clock)
            && (failed ==> q.clock == p.clock + (if cfg.autoReconnect then 1 else 0))
            && (failed ==> (c.alive <==> cfg.autoReconnect && cfg.net.warm(p.clock).Up?))
  {
  }
}
