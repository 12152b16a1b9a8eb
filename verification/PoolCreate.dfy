// Creating the pool: how many slots there are, and which login each of them gets.
module PoolCreate {
  import opened Wire
  import opened BackendPool
  import opened PoolOwnership

  const DEFAULT_SIZE: nat := 4
  const LAZY_SLOTS: nat := 16
  const MAX_SLOTS: nat := 64
  const MAX_GROUPS: nat := 16

  // The slots warmed up at the start, and all slots.
  datatype Sizes = Sizes(warm: nat, all: nat)

  function PoolSizes(asked: nat, groupLogin: bool, groups: nat, lazy: bool): Sizes {
    var n := if asked == 0 then DEFAULT_SIZE else asked;
    var m := if groupLogin && groups > 0 && n < groups then groups else n;
    var all := m + if lazy then LAZY_SLOTS else 0;
    var cap := if all > MAX_SLOTS then MAX_SLOTS else all;
    Sizes(if m > cap then cap else m, cap)
  }

  // The limit on groups leaves every group a slot.
  lemma EveryGroupFits(asked: nat, groupLogin: bool, groups: nat, lazy: bool)
    requires groups <= MAX_GROUPS
    ensures var z := PoolSizes(asked, groupLogin, groups, lazy);
            0 < z.warm <= z.all <= MAX_SLOTS && (groupLogin ==> groups <= z.warm)
  {
  }

  // ---- the logins of the warm slots ----

  function Repeat(user: string, n: nat): (r: seq<string>)
    ensures |r| == n && forall i :: 0 <= i < n ==> r[i] == user
  {
    if n == 0 then [] else Repeat(user, n - 1) + [user]
  }

  // What the division loop gives group g of k.
  function Share(n: nat, k: nat, g: nat): nat
    requires k > 0
  {
    n / k + if g < n % k then 1 else 0
  }

  // Where the slots of group g begin.
  function Start(n: nat, k: nat, g: nat): nat
    requires k > 0
  {
    if g == 0 then 0 else Start(n, k, g - 1) + Share(n, k, g - 1)
  }

  // The logins of the first g groups' slots.
  function Logins(groups: seq<string>, n: nat, g: nat): (r: seq<string>)
    requires 0 < |groups| && g <= |groups|
    ensures |r| == Start(n, |groups|, g)
  {
    if g == 0 then [] else Logins(groups, n, g - 1) + Repeat(groups[g - 1], Share(n, |groups|, g - 1))
  }

  lemma {:induction false} StartClosed(n: nat, k: nat, g: nat)
    requires k > 0
    ensures Start(n, k, g) == g * (n / k) + if g < n % k then g else n % k
  {
    if g > 0 {
      StartClosed(n, k, g - 1);
      assert (g - 1) * (n / k) + n / k == g * (n / k);
    }
  }

  lemma {:induction false} StartMonotone(n: nat, k: nat, g: nat, h: nat)
    requires k > 0 && g <= h
    ensures Start(n, k, g) <= Start(n, k, h)
    decreases h
  {
    if g < h { StartMonotone(n, k, g, h - 1); }
  }

  // Slot s is one of group g's.
  predicate Owns(n: nat, k: nat, g: nat, s: nat)
    requires k > 0
  {
    Start(n, k, g) <= s < Start(n, k, g + 1)
  }

  lemma LastShare(groups: seq<string>, n: nat, h: nat, s: nat)
    requires 0 < h <= |groups| && s < Start(n, |groups|, h)
    ensures Logins(groups, n, h)[s] ==
      if s < Start(n, |groups|, h - 1) then Logins(groups, n, h - 1)[s] else groups[h - 1]
  {
  }

  lemma {:induction false} LoginAt(groups: seq<string>, n: nat, g: nat, h: nat, s: nat)
    requires g < h <= |groups| && Owns(n, |groups|, g, s)
    ensures s < Start(n, |groups|, h) && Logins(groups, n, h)[s] == groups[g]
    decreases h
  {
    StartMonotone(n, |groups|, g + 1, h);
    LastShare(groups, n, h, s);
    if g + 1 < h {
      LoginAt(groups, n, g, h - 1, s);
    }
  }

  lemma ShareAtLeastOne(n: nat, k: nat, g: nat)
    requires 0 < k <= n
    ensures n / k >= 1 && Share(n, k, g) >= 1
  {
    assert n == k * (n / k) + n % k;
    if n / k == 0 { assert false; }
  }

  lemma StartTotal(n: nat, k: nat)
    requires k > 0
    ensures Start(n, k, k) == n
  {
    StartClosed(n, k, k);
  }

  lemma ShareFits(n: nat, k: nat, g: nat)
    requires g < k <= n
    ensures Start(n, k, g) < Start(n, k, g) + Share(n, k, g) == Start(n, k, g + 1) <= n
  {
    ShareAtLeastOne(n, k, g);
    StartTotal(n, k);
    StartMonotone(n, k, g + 1, k);
  }

  // The division is exact and even: the shares add up to all the slots, each group gets at
  // least one, no two shares differ by more than one, and group g's slots are consecutive.
  lemma SharesExact(groups: seq<string>, n: nat)
    requires 0 < |groups| <= n
    ensures |Logins(groups, n, |groups|)| == n
    ensures forall g, h :: 0 <= g < |groups| && 0 <= h < |groups| ==>
      1 <= Share(n, |groups|, g) <= Share(n, |groups|, h) + 1
    ensures forall g: nat, s: nat :: g < |groups| && Owns(n, |groups|, g, s) ==>
      s < n && Logins(groups, n, |groups|)[s] == groups[g]
  {
    StartTotal(n, |groups|);
    forall g, h | 0 <= g < |groups| && 0 <= h < |groups|
      ensures 1 <= Share(n, |groups|, g) <= Share(n, |groups|, h) + 1
    {
      ShareAtLeastOne(n, |groups|, g);
    }
    forall g: nat, s: nat | g < |groups| && Owns(n, |groups|, g, s)
      ensures s < n && Logins(groups, n, |groups|)[s] == groups[g]
    {
      LoginAt(groups, n, g, |groups|, s);
    }
  }

  // ---- warming them ----

  // Warm slot after slot; the second component counts the successes.
  function WarmAll(cfg: PoolConfig, p: Pool, users: seq<string>): (r: (Pool, nat))
    requires |users| <= |p.conns|
    ensures |r.0.conns| == |p.conns|
    decreases |users|
  {
    if users == [] then (p, 0)
    else
      var n := |users| - 1;
      var (q, ok) := WarmAll(cfg, p, users[..n]);
      var (r, up) := WarmOne(cfg, q, n, users[n]);
      (r, if up then ok + 1 else ok)
  }

  // One more slot of the same group.
  lemma WarmOneMore(cfg: PoolConfig, p: Pool, done: seq<string>, user: string, j: nat)
    requires |done| + j < |p.conns|
    ensures var (q, ok) := WarmAll(cfg, p, done + Repeat(user, j));
            var (r, up) := WarmOne(cfg, q, |done| + j, user);
            WarmAll(cfg, p, done + Repeat(user, j + 1)) == (r, if up then ok + 1 else ok)
  {
    var users := done + Repeat(user, j);
    LastLogin(done, Repeat(user, j), user);
    assert done + Repeat(user, j + 1) == users + [user];
  }

  lemma LastLogin(a: seq<string>, b: seq<string>, user: string)
    ensures a + (b + [user]) == (a + b) + [user]
    ensures ((a + b) + [user])[..|a + b|] == a + b
  {
  }

  const UNUSED: BackendConn := BackendConn("", false, false, NO_PIPE)

  // Slots as the pool is allocated.
  ghost predicate Unused(p: Pool) { forall j :: 0 <= j < |p.conns| ==> p.conns[j] == UNUSED }

  // A slot is live with its own login, or has failed; lazy slots wait unused.
  ghost predicate Warmed(p: Pool, users: seq<string>) {
    && |users| <= |p.conns|
    && (forall j :: 0 <= j < |users| ==> !p.conns[j].busy && (p.conns[j].alive ==> p.conns[j].login == users[j]))
    && (forall j :: |users| <= j < |p.conns| ==> p.conns[j] == UNUSED)
  }

  lemma {:induction false} WarmAllMeaning(cfg: PoolConfig, p: Pool, users: seq<string>)
    requires Unused(p) && |users| <= |p.conns|
    ensures var (q, ok) := WarmAll(cfg, p, users);
            Warmed(q, users) && (ok > 0 <==> exists j :: 0 <= j < |q.conns| && q.conns[j].alive)
    decreases |users|
  {
    if users != [] {
      var n := |users| - 1;
      WarmAllMeaning(cfg, p, users[..n]);
      var (q, ok) := WarmAll(cfg, p, users[..n]);
      var (r, up) := WarmOne(cfg, q, n, users[n]);
      assert forall j :: 0 <= j < |q.conns| && j != n ==> r.conns[j] == q.conns[j];
      assert r.conns[n].alive == up;
      if ok > 0 {
        var j :| 0 <= j < |q.conns| && q.conns[j].alive;
        assert r.conns[j].alive;
      }
    }
  }

  // A new pool is consistent and nothing in it is busy; some slot is live iff a warm-up succeeded.
  lemma CreatedOk(cfg: PoolConfig, p: Pool, users: seq<string>)
    requires Unused(p) && |users| <= |p.conns| && forall j :: 0 <= j < |users| ==> users[j] != ""
    ensures var (q, ok) := WarmAll(cfg, p, users);
            && PoolOk(q) && (forall j :: 0 <= j < |q.conns| ==> !q.conns[j].busy)
            && (ok > 0 <==> exists j :: 0 <= j < |q.conns| && q.conns[j].alive)
  {
    WarmAllMeaning(cfg, p, users);
  }

  lemma {:induction false} LoginsNamed(groups: seq<string>, n: nat, g: nat)
    requires 0 < |groups| && g <= |groups| && forall i :: 0 <= i < |groups| ==> groups[i] != ""
    ensures forall j :: 0 <= j < |Logins(groups, n, g)| ==> Logins(groups, n, g)[j] != ""
  {
    if g > 0 { LoginsNamed(groups, n, g - 1); }
  }

  // ---- the whole of it ----

  function NewPool(slots: nat): (p: Pool)
    ensures |p.conns| == slots
  {
    Pool(seq(slots, i => UNUSED), 0, 0)
  }

  function SizesFor(cfg: PoolConfig, asked: nat, groups: seq<string>): Sizes {
    PoolSizes(asked, cfg.groupLogin, |groups|, cfg.lazy)
  }

  // The logins tried on the warm slots.
  function FirstLogins(cfg: PoolConfig, asked: nat, groups: seq<string>): (r: seq<string>)
    requires |groups| <= MAX_GROUPS
    ensures |r| == SizesFor(cfg, asked, groups).warm
  {
    var n := SizesFor(cfg, asked, groups).warm;
    if cfg.groupLogin && groups != [] then
      StartTotal(n, |groups|);
      Logins(groups, n, |groups|)
    else Repeat(cfg.user, n)
  }

  // The pool as created, and how many backends were reached.
  function Created(cfg: PoolConfig, asked: nat, groups: seq<string>): (Pool, nat)
    requires |groups| <= MAX_GROUPS
  {
    EveryGroupFits(asked, cfg.groupLogin, |groups|, cfg.lazy);
    WarmAll(cfg, NewPool(SizesFor(cfg, asked, groups).all), FirstLogins(cfg, asked, groups))
  }

  // Slot s of group g is logged in as that group, if it is live.
  ghost predicate OwnLogins(p: Pool, groups: seq<string>, n: nat) {
    forall g: nat, s: nat :: g < |groups| && s < |p.conns| && Owns(n, |groups|, g, s) && p.conns[s].alive ==>
      p.conns[s].login == groups[g]
  }

  // A created pool is consistent and nothing in it is busy; it has a live slot iff a backend was
  // reached; with group login every slot belongs to the group its share says, without it to the
  // pool's user; and the slots kept for lazy logins are unused.
  lemma CreatedMeaning(cfg: PoolConfig, asked: nat, groups: seq<string>)
    requires cfg.user != "" && |groups| <= MAX_GROUPS && forall i :: 0 <= i < |groups| ==> groups[i] != ""
    ensures var (p, ok) := Created(cfg, asked, groups);
            var z := SizesFor(cfg, asked, groups);
            && |p.conns| == z.all && z.warm <= z.all
            && PoolOk(p) && (forall j :: 0 <= j < |p.conns| ==> !p.conns[j].busy)
            && (ok > 0 <==> exists j :: 0 <= j < |p.conns| && p.conns[j].alive)
            && (forall j :: z.warm <= j < z.all ==> p.conns[j] == UNUSED)
            && (if cfg.groupLogin && groups != [] then OwnLogins(p, groups, z.warm)
                else forall j :: 0 <= j < z.warm && p.conns[j].alive ==> p.conns[j].login == cfg.user)
  {
    var z := SizesFor(cfg, asked, groups);
    EveryGroupFits(asked, cfg.groupLogin, |groups|, cfg.lazy);
    var users := FirstLogins(cfg, asked, groups);
    if cfg.groupLogin && groups != [] { LoginsNamed(groups, z.warm, |groups|); }
    CreatedOk(cfg, NewPool(z.all), users);
    WarmAllMeaning(cfg, NewPool(z.all), users);
    if cfg.groupLogin && groups != [] {
      SharesExact(groups, z.warm);
    }
  }
}
