// The backend pool in place: an array of slots, scanned round robin.
module PoolSlots {
  import opened Wire
  import opened BackendPool
  import PoolCreate
  import Ring

  class SlotPool {
    const cfg: PoolConfig
    const conns: array<BackendConn>
    var cursor: nat
    var clock: nat

    ghost function Abs(): (p: Pool)
      reads this, conns
    {
      Pool(conns[..], cursor, clock)
    }

    constructor (cfg: PoolConfig, slots: nat)
      ensures this.cfg == cfg && fresh(conns) && conns.Length == slots
      ensures Abs() == PoolCreate.NewPool(slots)
    {
      this.cfg := cfg;
      conns := new BackendConn[slots](i => PoolCreate.UNUSED);
      cursor, clock := 0, 0;
      new;
      assert conns[..] == PoolCreate.NewPool(slots).conns;
    }

    // ---- warming up ----

    method WarmSlot(i: nat, user: string) returns (ok: bool)
      requires i < conns.Length
      modifies this`clock, conns
      ensures (Abs(), ok) == WarmOne(cfg, old(Abs()), i, user)
    {
      var w := cfg.net.warm(clock);
      clock := clock + 1;
      conns[i] := Teardown(conns[i]);
      match w {
      case NoTcp => ok := false;
      case NoAuth =>
        conns[i] := conns[i].(login := user);
        conns[i] := Teardown(conns[i]);
        ok := false;
      case Up =>
        conns[i] := conns[i].(login := user);
        conns[i] := conns[i].(alive := true, busy := false);
        ok := true;
      }
      assert conns[..] == old(conns[..])[i := WarmConn(old(conns[i]), user, w)];
    }

    method ReconnectSlot(i: nat) returns (ok: bool)
      requires i < conns.Length
      modifies this`clock, conns
      ensures (Abs(), ok) == Reconnect(cfg, old(Abs()), i)
    {
      var busy := conns[i].busy;
      var user := if conns[i].login != "" then conns[i].login else cfg.user;
      ok := WarmSlot(i, user);
      if ok { conns[i] := conns[i].(busy := busy); }
    }

    method MaintainAll()
      modifies this`clock, conns
      ensures Abs() == Maintain(cfg, old(Abs()))
    {
      if !cfg.autoReconnect { return; }
      for i := 0 to conns.Length
        invariant MaintainFrom(cfg, Abs(), i) == MaintainFrom(cfg, old(Abs()), 0)
      {
        if conns[i].busy { continue; }
        if !conns[i].alive && conns[i].login != "" {
          var _ := ReconnectSlot(i);
        }
      }
    }

    // ---- creation ----

    // Group after group, slot after slot; the tests of `slot` against n never cut a share short.
    method WarmGroups(n: nat, groups: seq<string>) returns (ok: nat)
      requires 0 < |groups| <= n <= conns.Length
      modifies this`clock, conns
      ensures |PoolCreate.Logins(groups, n, |groups|)| == n
      ensures (Abs(), ok) == PoolCreate.WarmAll(cfg, old(Abs()), PoolCreate.Logins(groups, n, |groups|))
    {
      var k := |groups|;
      var per, extra := n / k, n % k;
      PoolCreate.ShareAtLeastOne(n, k, 0);
      if per == 0 { per := 1; }
      PoolCreate.StartTotal(n, k);
      var slot, g := 0, 0;
      ok := 0;
      while g < k && slot < n
        invariant g <= k && slot == PoolCreate.Start(n, k, g) <= n && per == n / k && extra == n % k
        invariant (Abs(), ok) == PoolCreate.WarmAll(cfg, old(Abs()), PoolCreate.Logins(groups, n, g))
      {
        PoolCreate.ShareFits(n, k, g);
        ok, slot := WarmShare(n, groups, g, per + if g < extra then 1 else 0, slot, ok, old(Abs()));
        g := g + 1;
      }
      if g < k { PoolCreate.ShareFits(n, k, g); }
    }

    method WarmNext(slot: nat, before: nat, user: string, ghost j: nat, ghost p: Pool, ghost done: seq<string>)
      returns (ok: nat)
      requires slot == |done| + j < conns.Length == |p.conns|
      requires (Abs(), before) == PoolCreate.WarmAll(cfg, p, done + PoolCreate.Repeat(user, j))
      modifies this`clock, conns
      ensures (Abs(), ok) == PoolCreate.WarmAll(cfg, p, done + PoolCreate.Repeat(user, j + 1))
    {
      PoolCreate.WarmOneMore(cfg, p, done, user, j);
      var up := WarmSlot(slot, user);
      ok := if up then before + 1 else before;
    }

    method WarmShare(n: nat, groups: seq<string>, g: nat, count: nat, first: nat, before: nat, ghost p: Pool)
      returns (ok: nat, slot: nat)
      requires g < |groups| && n <= conns.Length == |p.conns| && count == PoolCreate.Share(n, |groups|, g)
      requires first == PoolCreate.Start(n, |groups|, g) && first + count <= n
      requires (Abs(), before) == PoolCreate.WarmAll(cfg, p, PoolCreate.Logins(groups, n, g))
      modifies this`clock, conns
      ensures slot == first + count == PoolCreate.Start(n, |groups|, g + 1)
      ensures (Abs(), ok) == PoolCreate.WarmAll(cfg, p, PoolCreate.Logins(groups, n, g + 1))
    {
      ghost var done := PoolCreate.Logins(groups, n, g);
      ok, slot := before, first;
      var j := 0;
      assert done + PoolCreate.Repeat(groups[g], 0) == done;
      while j < count && slot < n
        invariant j <= count && slot == first + j
        invariant (Abs(), ok) == PoolCreate.WarmAll(cfg, p, done + PoolCreate.Repeat(groups[g], j))
      {
        ok := WarmNext(slot, ok, groups[g], j, p, done);
        j, slot := j + 1, slot + 1;
      }
      assert PoolCreate.Logins(groups, n, g + 1) == done + PoolCreate.Repeat(groups[g], count);
    }

    // Without group login every slot gets the pool's own user.
    method WarmPlain(n: nat) returns (ok: nat)
      requires n <= conns.Length
      modifies this`clock, conns
      ensures (Abs(), ok) == PoolCreate.WarmAll(cfg, old(Abs()), PoolCreate.Repeat(cfg.user, n))
    {
      ok := 0;
      for i := 0 to n
        invariant (Abs(), ok) == PoolCreate.WarmAll(cfg, old(Abs()), PoolCreate.Repeat(cfg.user, i))
      {
        assert PoolCreate.Repeat(cfg.user, i + 1)[..i] == PoolCreate.Repeat(cfg.user, i);
        var up := WarmSlot(i, cfg.user);
        if up { ok := ok + 1; }
      }
    }

    // ---- checkout ----

    // The slot is marked busy while it is probed.
    method TrySlot(i: nat) returns (ok: bool)
      requires i < conns.Length
      modifies this`clock, conns
      ensures (Abs(), ok) == CheckoutTry(cfg, old(Abs()), i)
    {
      var c := conns[i];
      if !c.alive || c.busy { return false; }
      if cfg.healthCheck {
        conns[i] := conns[i].(busy := true);
        var healthy := cfg.net.probe(clock);
        clock := clock + 1;
        if !healthy {
          conns[i] := Teardown(conns[i]);
          conns[i] := conns[i].(busy := false);
          assert Abs() == Set(old(Abs()), i, Teardown(c)).(clock := old(clock) + 1);
          if !cfg.autoReconnect { return false; }
          ok := ReconnectSlot(i);
          if ok { conns[i] := conns[i].(busy := true); }
          return;
        }
        return true;
      }
      conns[i] := conns[i].(busy := true);
      return true;
    }

    method Advance(i: nat)
      requires i < conns.Length
      modifies this`cursor
      ensures Abs() == SetCursor(old(Abs()), i)
    {
      Ring.AtIsRemainder(i, 1, conns.Length);
      cursor := (i + 1) % conns.Length;
    }

    // The first turn round the pool: the group's login, or the first other live idle slot.
    method FirstTurn(group: string, start: nat) returns (got: Option<nat>, fallback: Option<nat>)
      requires start < conns.Length
      modifies this, conns
      ensures Scanned(Abs(), got, fallback) == Scan(cfg, old(Abs()), group, start, 0, None)
    {
      fallback := None;
      for i := 0 to conns.Length
        invariant fallback.Some? ==> fallback.value < conns.Length
        invariant Scan(cfg, Abs(), group, start, i, fallback) == Scan(cfg, old(Abs()), group, start, 0, None)
      {
        Ring.AtIsRemainder(start, i, conns.Length);
        var idx := (start + i) % conns.Length;
        if !conns[idx].alive || conns[idx].busy { continue; }
        if group != "" && conns[idx].login == group {
          var ok := TrySlot(idx);
          if ok {
            Advance(idx);
            return Some(idx), fallback;
          }
          continue;
        }
        if fallback.None? { fallback := Some(idx); }
      }
      got := None;
    }

    method SecondTurn(group: string, start: nat) returns (got: Option<nat>)
      requires start < conns.Length
      modifies this, conns
      ensures (Abs(), got) == Rescan(cfg, old(Abs()), group, start, 0)
    {
      for i := 0 to conns.Length
        invariant Rescan(cfg, Abs(), group, start, i) == Rescan(cfg, old(Abs()), group, start, 0)
      {
        Ring.AtIsRemainder(start, i, conns.Length);
        var idx := (start + i) % conns.Length;
        if conns[idx].alive && !conns[idx].busy && conns[idx].login == group {
          var ok := TrySlot(idx);
          if ok {
            Advance(idx);
            return Some(idx);
          }
        }
      }
      got := None;
    }

    method LazyTurn(group: string, start: nat) returns (got: Option<nat>)
      requires start < conns.Length
      modifies this, conns
      ensures (Abs(), got) == LazyLogin(cfg, old(Abs()), group, start, 0)
    {
      for i := 0 to conns.Length
        invariant LazyLogin(cfg, Abs(), group, start, i) == LazyLogin(cfg, old(Abs()), group, start, 0)
      {
        Ring.AtIsRemainder(start, i, conns.Length);
        var idx := (start + i) % conns.Length;
        if !conns[idx].alive {
          var ok := WarmSlot(idx, group);
          if ok {
            conns[idx] := conns[idx].(busy := true);
            Advance(idx);
            return Some(idx);
          }
          return None;
        }
      }
      got := None;
    }

    method CheckOut(group: string) returns (got: Option<nat>)
      modifies this, conns
      ensures (Abs(), got) == Checkout(cfg, old(Abs()), group)
    {
      if conns.Length == 0 { return None; }
      if cfg.autoReconnect { MaintainAll(); }
      ghost var m := Abs();
      assert m == Maintain(cfg, old(Abs()));
      var start := cursor % conns.Length;
      var fallback;
      got, fallback := FirstTurn(group, start);
      if got.Some? { return; }
      if cfg.groupLogin && group != "" {
        got := SecondTurn(group, start);
        if got.Some? { return; }
        if cfg.lazy { got := LazyTurn(group, start); }
        return;
      }
      if fallback.Some? {
        var ok := TrySlot(fallback.value);
        if ok {
          Advance(fallback.value);
          got := fallback;
        }
      }
    }

    method CheckIn(i: nat)
      requires i < conns.Length
      modifies conns
      ensures Abs() == Checkin(old(Abs()), i)
    {
      conns[i] := conns[i].(busy := false);
    }

    // ---- pipelines ----

    method Begin(group: string, bytes: Option<Bytes>) returns (got: Option<nat>)
      modifies this, conns
      ensures (Abs(), got) == AsyncBegin(cfg, old(Abs()), group, bytes)
    {
      got := CheckOut(group);
      if got.None? { return; }
      var i := got.value;
      ghost var q := conns[..];
      conns[i] := conns[i].(pipe := NO_PIPE);
      if bytes.None? || bytes.value == [] || |bytes.value| > cfg.sendCap {
        assert conns[..] == q[i := q[i].(pipe := NO_PIPE)];
        CheckIn(i);
        return None;
      }
      conns[i] := conns[i].(pipe := conns[i].pipe.(sendBuf := bytes.value));
      assert conns[..] == q[i := q[i].(pipe := NO_PIPE.(sendBuf := bytes.value))];
    }

    method Sent(i: nat, n: nat)
      requires i < conns.Length
      modifies conns
      ensures Abs() == SendAdvance(old(Abs()), i, n)
    {
      var pipe := conns[i].pipe;
      pipe := pipe.(sendOff := pipe.sendOff + n);
      if pipe.sendOff > |pipe.sendBuf| { pipe := pipe.(sendOff := |pipe.sendBuf|); }
      conns[i] := conns[i].(pipe := pipe);
    }

    method Release(i: nat, failed: bool)
      requires i < conns.Length
      modifies this`clock, conns
      ensures Abs() == Finish(cfg, old(Abs()), i, failed)
    {
      if failed {
        conns[i] := Teardown(conns[i]);
        assert Abs() == Set(old(Abs()), i, Teardown(old(conns[i])));
        if cfg.autoReconnect && conns[i].login != "" {
          var _ := ReconnectSlot(i);
          conns[i] := conns[i].(busy := false);
        }
      }
      conns[i] := conns[i].(pipe := conns[i].pipe.(sendBuf := [], sendOff := 0, acc := []));
      CheckIn(i);
    }

    method Query(group: string) returns (r: Trip)
      modifies this, conns
      ensures (Abs(), r) == ExecQuery(cfg, old(Abs()), group)
    {
      var got := CheckOut(group);
      if got.None? { return NoBackend; }
      var f := cfg.net.flush(clock);
      clock := clock + 1;
      r := Trip(conns[got.value].login, f);
      if f.dead && !f.ok { conns[got.value] := conns[got.value].(alive := false); }
      CheckIn(got.value);
    }
  }

  // pqproxy_backend_pool_create: nothing exactly when not a single backend could be reached.
  method CreatePool(cfg: PoolConfig, asked: nat, groups: seq<string>) returns (r: Option<SlotPool>)
    requires |groups| <= PoolCreate.MAX_GROUPS
    ensures r.Some? <==> PoolCreate.Created(cfg, asked, groups).1 > 0
    ensures r.Some? ==> fresh(r.value) && fresh(r.value.conns) && r.value.cfg == cfg
    ensures r.Some? ==> r.value.Abs() == PoolCreate.Created(cfg, asked, groups).0
  {
    var z := PoolCreate.PoolSizes(asked, cfg.groupLogin, |groups|, cfg.lazy);
    PoolCreate.EveryGroupFits(asked, cfg.groupLogin, |groups|, cfg.lazy);
    var pool := new SlotPool(cfg, z.all);
    var ok;
    if cfg.groupLogin && groups != [] {
      ok := pool.WarmGroups(z.warm, groups);
    } else {
      ok := pool.WarmPlain(z.warm);
    }
    return if ok == 0 then None else Some(pool);
  }
}
