// When checkout succeeds, which slot it picks, and how the rotation spreads its picks.
module PoolCheckout {
  import opened Wire
  import opened BackendPool
  import opened PoolOwnership
  import Ring

  predicate Live(c: BackendConn) { c.alive && !c.busy }

  // Live, idle, and of the group's login (`own`) or not.
  predicate Fit(c: BackendConn, group: string, own: bool) {
    Live(c) && (group != "" && c.login == group) == own
  }

  // The first such slot along the walk from `start`, from its step i on.
  function FirstFit(conns: seq<BackendConn>, group: string, own: bool, start: nat, i: nat): (r: Option<nat>)
    requires start < |conns| && i <= |conns|
    ensures r.Some? ==> r.value < |conns| && Fit(conns[r.value], group, own)
    decreases |conns| - i
  {
    if i == |conns| then None
    else
      var idx := Ring.At(start, i, |conns|);
      if Fit(conns[idx], group, own) then Some(idx) else FirstFit(conns, group, own, start, i + 1)
  }

  lemma {:induction false} FirstFitMeaning(conns: seq<BackendConn>, group: string, own: bool, start: nat, i: nat)
    requires start < |conns| && i <= |conns|
    ensures forall j: nat :: j < |conns| && Fit(conns[j], group, own) && i <= Ring.Steps(start, j, |conns|) ==>
      var r := FirstFit(conns, group, own, start, i);
      r.Some? && Ring.Steps(start, r.value, |conns|) <= Ring.Steps(start, j, |conns|)
    decreases |conns| - i
  {
    if i < |conns| {
      var idx := Ring.At(start, i, |conns|);
      assert Ring.Steps(start, idx, |conns|) == i;
      FirstFitMeaning(conns, group, own, start, i + 1);
    }
  }

  // Without health checks the scan takes the first slot of the group's login, else reports
  // the first other one.
  lemma {:induction false} ScanPlain(cfg: PoolConfig, p: Pool, group: string, start: nat, i: nat, fallback: Option<nat>)
    requires !cfg.healthCheck && start < |p.conns| && i <= |p.conns|
    requires fallback.Some? ==> fallback.value < |p.conns|
    ensures Scan(cfg, p, group, start, i, fallback) ==
      var own := FirstFit(p.conns, group, true, start, i);
      if own.Some? then Scanned(SetCursor(SetBusy(p, own.value, true), own.value), own,
                                Scan(cfg, p, group, start, i, fallback).fallback)
      else Scanned(p, None, if fallback.Some? then fallback else FirstFit(p.conns, group, false, start, i))
    decreases |p.conns| - i
  {
    if i < |p.conns| {
      var idx := Ring.At(start, i, |p.conns|);
      var c := p.conns[idx];
      ScanPlain(cfg, p, group, start, i + 1, if Fit(c, group, false) && fallback.None? then Some(idx) else fallback);
    }
  }

  lemma {:induction false} RescanFinds(cfg: PoolConfig, p: Pool, group: string, start: nat, i: nat)
    requires group != "" && start < |p.conns| && i <= |p.conns|
    requires FirstFit(p.conns, group, true, start, i).None?
    ensures Rescan(cfg, p, group, start, i) == (p, None)
    decreases |p.conns| - i
  {
    if i < |p.conns| {
      RescanFinds(cfg, p, group, start, i + 1);
    }
  }

  // Where the walk starts once maintenance is done.
  function Start(m: Pool): (r: nat)
    requires |m.conns| > 0
    ensures r < |m.conns|
  {
    m.rr % |m.conns|
  }

  // The pick of a checkout without health checks.
  function Pick(cfg: PoolConfig, m: Pool, group: string): Option<nat>
    requires |m.conns| > 0
  {
    var own := FirstFit(m.conns, group, true, Start(m), 0);
    if own.Some? then own
    else if cfg.groupLogin && group != "" then None
    else FirstFit(m.conns, group, false, Start(m), 0)
  }

  lemma CheckoutPlain(cfg: PoolConfig, p: Pool, group: string)
    requires !cfg.healthCheck && |p.conns| > 0
    ensures var m := Maintain(cfg, p);
            var k := Pick(cfg, m, group);
            Checkout(cfg, p, group) ==
              if k.Some? then (SetCursor(SetBusy(m, k.value, true), k.value), k)
              else if cfg.groupLogin && group != "" && cfg.lazy then LazyLogin(cfg, m, group, Start(m), 0)
              else (m, None)
  {
    var m := Maintain(cfg, p);
    ScanPlain(cfg, m, group, Start(m), 0, None);
    if FirstFit(m.conns, group, true, Start(m), 0).None? && group != "" {
      RescanFinds(cfg, m, group, Start(m), 0);
    }
  }

  // Checkout is exact: after maintenance and without health checks, it comes back empty iff
  // no slot it may use is live and idle -- of the group's login where groups log in
  // themselves (and no lazy login is to be tried), of any login otherwise.
  lemma CheckoutExact(cfg: PoolConfig, p: Pool, group: string)
    requires !cfg.healthCheck && |p.conns| > 0
    requires cfg.groupLogin && group != "" ==> !cfg.lazy
    ensures var m := Maintain(cfg, p);
            Checkout(cfg, p, group).1.None? <==>
              forall j :: 0 <= j < |m.conns| ==>
                !Live(m.conns[j]) || (cfg.groupLogin && group != "" && m.conns[j].login != group)
  {
    var m := Maintain(cfg, p);
    CheckoutPlain(cfg, p, group);
    FirstFitMeaning(m.conns, group, true, Start(m), 0);
    FirstFitMeaning(m.conns, group, false, Start(m), 0);
    assert forall j :: 0 <= j < |m.conns| && Live(m.conns[j]) ==>
      Fit(m.conns[j], group, true) || Fit(m.conns[j], group, false);
  }

  // With lazy login: empty iff there is no live idle slot of the login and no dead slot
  // whose one warm-up attempt succeeds.
  lemma {:induction false} LazyExact(cfg: PoolConfig, p: Pool, group: string, start: nat, i: nat)
    requires start < |p.conns| && i <= |p.conns|
    ensures LazyLogin(cfg, p, group, start, i).1.Some? <==>
      cfg.net.warm(p.clock).Up?
      && exists j :: 0 <= j < |p.conns| && !p.conns[j].alive && i <= Ring.Steps(start, j, |p.conns|)
    decreases |p.conns| - i
  {
    if i < |p.conns| {
      var idx := Ring.At(start, i, |p.conns|);
      assert Ring.Steps(start, idx, |p.conns|) == i;
      if p.conns[idx].alive {
        LazyExact(cfg, p, group, start, i + 1);
      }
    }
  }

  lemma CheckoutExactLazy(cfg: PoolConfig, p: Pool, group: string)
    requires !cfg.healthCheck && |p.conns| > 0 && cfg.groupLogin && group != "" && cfg.lazy
    ensures var m := Maintain(cfg, p);
            Checkout(cfg, p, group).1.None? <==>
              && (forall j :: 0 <= j < |m.conns| ==> !Live(m.conns[j]) || m.conns[j].login != group)
              && !(cfg.net.warm(m.clock).Up? && exists j :: 0 <= j < |m.conns| && !m.conns[j].alive)
  {
    var m := Maintain(cfg, p);
    CheckoutPlain(cfg, p, group);
    FirstFitMeaning(m.conns, group, true, Start(m), 0);
    LazyExact(cfg, m, group, Start(m), 0);
    assert forall j :: 0 <= j < |m.conns| ==> 0 <= Ring.Steps(Start(m), j, |m.conns|);
    assert forall j :: 0 <= j < |m.conns| && Live(m.conns[j]) && m.conns[j].login == group ==>
      Fit(m.conns[j], group, true);
  }

  // ---- with health checks ----

  // The last answer taken says that the slot is sound: a probe that passed, or a connection.
  predicate JustProved(cfg: PoolConfig, q: Pool) {
    q.clock > 0 && (cfg.net.probe(q.clock - 1) || cfg.net.warm(q.clock - 1).Up?)
  }

  lemma TryProved(cfg: PoolConfig, p: Pool, i: nat)
    requires cfg.healthCheck && i < |p.conns|
    ensures var (q, ok) := CheckoutTry(cfg, p, i);
            q.clock >= p.clock && (ok ==> q.clock > p.clock && JustProved(cfg, q))
  {
  }

  lemma {:induction false} ScanProved(cfg: PoolConfig, p: Pool, group: string, start: nat, i: nat,
                                      fallback: Option<nat>)
    requires cfg.healthCheck && start < |p.conns| && i <= |p.conns|
    requires fallback.Some? ==> fallback.value < |p.conns|
    ensures var s := Scan(cfg, p, group, start, i, fallback);
            s.pool.clock >= p.clock && (s.got.Some? ==> s.pool.clock > p.clock && JustProved(cfg, s.pool))
    decreases |p.conns| - i
  {
    if i < |p.conns| {
      var idx := Ring.At(start, i, |p.conns|);
      var c := p.conns[idx];
      if c.alive && !c.busy && group != "" && c.login == group {
        TryProved(cfg, p, idx);
        var (q, ok) := CheckoutTry(cfg, p, idx);
        if !ok { ScanProved(cfg, q, group, start, i + 1, fallback); }
      } else {
        ScanProved(cfg, p, group, start, i + 1, if c.alive && !c.busy && fallback.None? then Some(idx) else fallback);
      }
    }
  }

  lemma {:induction false} RescanProved(cfg: PoolConfig, p: Pool, group: string, start: nat, i: nat)
    requires cfg.healthCheck && start < |p.conns| && i <= |p.conns|
    ensures var (q, got) := Rescan(cfg, p, group, start, i);
            q.clock >= p.clock && (got.Some? ==> q.clock > p.clock && JustProved(cfg, q))
    decreases |p.conns| - i
  {
    if i < |p.conns| {
      var idx := Ring.At(start, i, |p.conns|);
      var c := p.conns[idx];
      if c.alive && !c.busy && c.login == group {
        TryProved(cfg, p, idx);
        var (q, ok) := CheckoutTry(cfg, p, idx);
        if !ok { RescanProved(cfg, q, group, start, i + 1); }
      } else {
        RescanProved(cfg, p, group, start, i + 1);
      }
    }
  }

  lemma {:induction false} LazyProved(cfg: PoolConfig, p: Pool, group: string, start: nat, i: nat)
    requires start < |p.conns| && i <= |p.conns|
    ensures var (q, got) := LazyLogin(cfg, p, group, start, i);
            q.clock >= p.clock && (got.Some? ==> q.clock > p.clock && JustProved(cfg, q))
    decreases |p.conns| - i
  {
    if i < |p.conns| && p.conns[Ring.At(start, i, |p.conns|)].alive {
      LazyProved(cfg, p, group, start, i + 1);
    }
  }

  // With health checks a slot is handed out only on an answer of this very checkout: a probe of it
  // that passed, or a fresh connection.
  lemma CheckoutProved(cfg: PoolConfig, p: Pool, group: string)
    requires cfg.healthCheck && |p.conns| > 0
    ensures var m, (q, got) := Maintain(cfg, p), Checkout(cfg, p, group);
            got.Some? ==> q.clock > m.clock && JustProved(cfg, q)
  {
    var m := Maintain(cfg, p);
    var start := Start(m);
    ScanProved(cfg, m, group, start, 0, None);
    var s := Scan(cfg, m, group, start, 0, None);
    if s.got.None? {
      if cfg.groupLogin && group != "" {
        RescanProved(cfg, s.pool, group, start, 0);
        var (q, got) := Rescan(cfg, s.pool, group, start, 0);
        if got.None? && cfg.lazy { LazyProved(cfg, q, group, start, 0); }
      } else if s.fallback.Some? {
        TryProved(cfg, s.pool, s.fallback.value);
      }
    }
  }

  // ---- the rotation is fair when all logins are equal ----

  ghost predicate SameLogins(p: Pool) {
    forall i, j :: 0 <= i < |p.conns| && 0 <= j < |p.conns| && p.conns[i].alive && p.conns[j].alive
      ==> p.conns[i].login == p.conns[j].login
  }

  // All logins are equal, and where groups log in themselves, the one asked for.
  ghost predicate Uniform(cfg: PoolConfig, p: Pool, group: string) {
    && SameLogins(p)
    && (cfg.groupLogin && group != "" ==>
          forall j :: 0 <= j < |p.conns| && p.conns[j].alive ==> p.conns[j].login == group)
  }

  // A lazy login moves the cursor like any other pick.
  lemma {:induction false} LazyCursor(cfg: PoolConfig, p: Pool, group: string, start: nat, i: nat)
    requires start < |p.conns| && i <= |p.conns|
    ensures var (q, got) := LazyLogin(cfg, p, group, start, i);
            got.Some? ==> q.rr == Ring.At(got.value, 1, |p.conns|)
    decreases |p.conns| - i
  {
    if i < |p.conns| && p.conns[Ring.At(start, i, |p.conns|)].alive {
      LazyCursor(cfg, p, group, start, i + 1);
    }
  }

  // Wherever the slot came from, the next walk starts right behind it.
  lemma CursorBehind(cfg: PoolConfig, p: Pool, group: string, k: nat)
    requires !cfg.healthCheck && |p.conns| > 0 && Checkout(cfg, p, group).1 == Some(k)
    ensures k < |p.conns| && Start(Checkout(cfg, p, group).0) == Ring.At(k, 1, |p.conns|)
  {
    var m := Maintain(cfg, p);
    CheckoutPlain(cfg, p, group);
    if cfg.groupLogin && group != "" && cfg.lazy { LazyCursor(cfg, m, group, Start(m), 0); }
    Ring.RemainderUnique(Ring.At(k, 1, |m.conns|), 0, Ring.At(k, 1, |m.conns|), |m.conns|);
  }

  // With one login for all, while some slot is live and idle the pick is the first such slot
  // along the walk, and the next walk starts right behind it.
  lemma PickIsFirstLive(cfg: PoolConfig, p: Pool, group: string, b: nat)
    requires !cfg.healthCheck && Uniform(cfg, Maintain(cfg, p), group)
    requires b < |p.conns| && Live(Maintain(cfg, p).conns[b])
    ensures var m, (q, got) := Maintain(cfg, p), Checkout(cfg, p, group);
            && got.Some? && Live(m.conns[got.value])
            && (forall j :: 0 <= j < |m.conns| && Live(m.conns[j]) ==>
                  Ring.Steps(Start(m), got.value, |m.conns|) <= Ring.Steps(Start(m), j, |m.conns|))
            && Start(q) == Ring.At(got.value, 1, |m.conns|)
  {
    var m := Maintain(cfg, p);
    CheckoutPlain(cfg, p, group);
    FirstFitMeaning(m.conns, group, true, Start(m), 0);
    FirstFitMeaning(m.conns, group, false, Start(m), 0);
    assert forall j :: 0 <= j < |m.conns| && Live(m.conns[j]) ==>
      Fit(m.conns[j], group, true) || Fit(m.conns[j], group, false);
    CursorBehind(cfg, p, group, Checkout(cfg, p, group).1.value);
  }

  // What can happen to a pool between two checkouts, as far as the rotation can tell: anything
  // but moving the cursor.
  datatype Round = Round(before: Pool, group: string)

  function Got(cfg: PoolConfig, r: Round): Option<nat> { Checkout(cfg, r.before, r.group).1 }

  // A history of checkouts on one pool: between them slots come and go, warm up and die, but
  // only checkout moves the cursor.
  ghost predicate History(cfg: PoolConfig, rs: seq<Round>, n: nat) {
    && (forall i :: 0 <= i < |rs| ==>
          |rs[i].before.conns| == n && Uniform(cfg, Maintain(cfg, rs[i].before), rs[i].group))
    && (forall i :: 0 <= i < |rs| - 1 ==> rs[i + 1].before.rr == Checkout(cfg, rs[i].before, rs[i].group).0.rr)
  }

  lemma {:induction false} MaintainKeepsCursor(cfg: PoolConfig, p: Pool, i: nat)
    requires i <= |p.conns|
    ensures MaintainFrom(cfg, p, i).rr == p.rr
    decreases |p.conns| - i
  {
    if i < |p.conns| {
      var c := p.conns[i];
      MaintainKeepsCursor(cfg, if !c.busy && !c.alive && c.login != "" then Reconnect(cfg, p, i).0 else p, i + 1);
    }
  }

  // The walk starts closer to b than to a, and stays so until one of them is handed out.
  ghost predicate Closer(start: nat, b: nat, a: nat, n: nat) {
    start < n && b < n && a < n && Ring.Steps(start, b, n) < Ring.Steps(start, a, n)
  }

  lemma CloserStep(start: nat, k: nat, b: nat, a: nat, n: nat)
    requires Closer(start, b, a, n) && k < n && k != b
    requires Ring.Steps(start, k, n) <= Ring.Steps(start, b, n)
    ensures k != a && Closer(Ring.At(k, 1, n), b, a, n)
  {
  }

  lemma {:induction false} NoSecondBefore(cfg: PoolConfig, rs: seq<Round>, n: nat, a: nat, b: nat)
    requires !cfg.healthCheck && n > 0 && History(cfg, rs, n)
    requires rs != [] ==> Closer(Start(rs[0].before), b, a, n)
    requires forall i :: 0 <= i < |rs| ==> Live(Maintain(cfg, rs[i].before).conns[b]) && Got(cfg, rs[i]) != Some(b)
    requires a < n && b < n
    ensures forall i :: 0 <= i < |rs| ==> Got(cfg, rs[i]) != Some(a)
  {
    if rs != [] {
      var p := rs[0].before;
      var m := Maintain(cfg, p);
      if cfg.autoReconnect { MaintainKeepsCursor(cfg, p, 0); }
      PickIsFirstLive(cfg, p, rs[0].group, b);
      var k := Got(cfg, rs[0]).value;
      CloserStep(Start(p), k, b, a, n);
      NoSecondBefore(cfg, rs[1..], n, a, b);
      assert forall i :: 0 < i < |rs| ==> rs[i] == rs[1..][i - 1];
    }
  }

  // Round-robin fairness over any history: no slot is handed out twice while another slot,
  // live and idle at every checkout in between, is never handed out.
  lemma RoundRobinFair(cfg: PoolConfig, rs: seq<Round>, n: nat, a: nat, b: nat)
    requires !cfg.healthCheck && n > 0 && a < n && b < n && a != b
    requires |rs| >= 2 && History(cfg, rs, n)
    requires Got(cfg, rs[0]) == Some(a) && Got(cfg, rs[|rs| - 1]) == Some(a)
    requires forall i :: 0 < i < |rs| ==> Live(Maintain(cfg, rs[i].before).conns[b])
    ensures exists i :: 0 < i < |rs| && Got(cfg, rs[i]) == Some(b)
  {
    CursorBehind(cfg, rs[0].before, rs[0].group, a);
    var later := rs[1..];
    assert Start(later[0].before) == Ring.At(a, 1, n);
    assert later[|later| - 1] == rs[|rs| - 1];
    if forall i :: 0 < i < |rs| ==> Got(cfg, rs[i]) != Some(b) {
      NoSecondBefore(cfg, later, n, a, b);
      assert false;
    }
  }
}
