// The backend pool as a value: what every pool operation does to it.
module BackendPool {
  import opened Wire
  import Ring
  import Framer

  // What the network answers. Every connection attempt, probe and blocking round trip
  // takes the next answer, so an arbitrary function stands for an arbitrary network.
  datatype Warm = NoTcp | NoAuth | Up
  // A blocking round trip writes `bytes` to the caller's buffer; it may fail after that, and
  // a failure may cost the connection.
  datatype Flushed = Flushed(bytes: Bytes, ok: bool, dead: bool)
  // What became of a forwarded query: the login it ran under and the answer, if a backend was
  // to be had.
  datatype Trip = NoBackend | Trip(login: string, answer: Flushed)
  datatype Network = Network(warm: nat -> Warm, probe: nat -> bool, flush: nat -> Flushed)

  datatype PoolConfig = PoolConfig(
    net: Network,
    user: string,
    groupLogin: bool,
    lazy: bool,
    autoReconnect: bool,
    healthCheck: bool,
    sendCap: nat)

  // The pipeline a slot is running: bytes to send and how many were taken, and the receive state.
  datatype Pipe = Pipe(sendBuf: Bytes, sendOff: nat, acc: Bytes, st: Framer.Status)

  const NO_PIPE: Pipe := Pipe([], 0, [], Framer.FRESH)

  datatype BackendConn = BackendConn(login: string, alive: bool, busy: bool, pipe: Pipe)

  datatype Pool = Pool(conns: seq<BackendConn>, rr: nat, clock: nat)

  // ---- warming a slot up ----

  function Teardown(c: BackendConn): BackendConn {
    c.(alive := false, pipe := c.pipe.(sendBuf := [], sendOff := 0, acc := []))
  }

  // The login is recorded once the connection is open, before authentication is tried.
  function WarmConn(c: BackendConn, user: string, w: Warm): BackendConn {
    match w
    case NoTcp => Teardown(c)
    case NoAuth => Teardown(c).(login := user)
    case Up => Teardown(c).(login := user, alive := true, busy := false)
  }

  function Set(p: Pool, i: nat, c: BackendConn): Pool
    requires i < |p.conns|
  {
    p.(conns := p.conns[i := c])
  }

  function WarmOne(cfg: PoolConfig, p: Pool, i: nat, user: string): (r: (Pool, bool))
    requires i < |p.conns|
    ensures |r.0.conns| == |p.conns|
  {
    var w := cfg.net.warm(p.clock);
    (Set(p, i, WarmConn(p.conns[i], user, w)).(clock := p.clock + 1), w.Up?)
  }

  function Reconnect(cfg: PoolConfig, p: Pool, i: nat): (r: (Pool, bool))
    requires i < |p.conns|
    ensures |r.0.conns| == |p.conns|
  {
    var busy := p.conns[i].busy;
    var user := if p.conns[i].login != "" then p.conns[i].login else cfg.user;
    var (q, ok) := WarmOne(cfg, p, i, user);
    if ok then (Set(q, i, q.conns[i].(busy := busy)), true) else (q, false)
  }

  // Re-warm every idle dead slot that has a login, from slot i on.
  function MaintainFrom(cfg: PoolConfig, p: Pool, i: nat): (r: Pool)
    requires i <= |p.conns|
    ensures |r.conns| == |p.conns|
    decreases |p.conns| - i
  {
    if i == |p.conns| then p
    else
      var c := p.conns[i];
      var q := if !c.busy && !c.alive && c.login != "" then Reconnect(cfg, p, i).0 else p;
      MaintainFrom(cfg, q, i + 1)
  }

  function Maintain(cfg: PoolConfig, p: Pool): (r: Pool)
    ensures |r.conns| == |p.conns|
  {
    if cfg.autoReconnect then MaintainFrom(cfg, p, 0) else p
  }

  // ---- checkout ----

  function SetBusy(p: Pool, i: nat, busy: bool): Pool
    requires i < |p.conns|
  {
    Set(p, i, p.conns[i].(busy := busy))
  }

  // Take a slot if it is live and idle, and healthy where that is checked.
  function CheckoutTry(cfg: PoolConfig, p: Pool, i: nat): (r: (Pool, bool))
    requires i < |p.conns|
    ensures |r.0.conns| == |p.conns|
  {
    var c := p.conns[i];
    if !c.alive || c.busy then (p, false)
    else if !cfg.healthCheck || cfg.net.probe(p.clock) then
      var q := if cfg.healthCheck then p.(clock := p.clock + 1) else p;
      (SetBusy(q, i, true), true)
    else
      var q := Set(p, i, Teardown(c)).(clock := p.clock + 1);
      if !cfg.autoReconnect then (q, false)
      else
        var (w, ok) := Reconnect(cfg, q, i);
        if ok then (SetBusy(w, i, true), true) else (w, false)
  }

  function SetCursor(p: Pool, i: nat): Pool
    requires i < |p.conns|
  {
    p.(rr := Ring.At(i, 1, |p.conns|))
  }

  datatype Scanned = Scanned(pool: Pool, got: Option<nat>, fallback: Option<nat>)

  // One turn round the pool: take the first slot of the group's login; remember the first
  // other live idle slot.
  function Scan(cfg: PoolConfig, p: Pool, group: string, start: nat, i: nat, fallback: Option<nat>): (r: Scanned)
    requires start < |p.conns| && i <= |p.conns|
    requires fallback.Some? ==> fallback.value < |p.conns|
    ensures |r.pool.conns| == |p.conns|
    ensures r.got.Some? ==> r.got.value < |p.conns|
    ensures r.fallback.Some? ==> r.fallback.value < |p.conns|
    decreases |p.conns| - i
  {
    if i == |p.conns| then Scanned(p, None, fallback)
    else
      var idx := Ring.At(start, i, |p.conns|);
      var c := p.conns[idx];
      if !c.alive || c.busy then Scan(cfg, p, group, start, i + 1, fallback)
      else if group != "" && c.login == group then
        var (q, ok) := CheckoutTry(cfg, p, idx);
        if ok then Scanned(SetCursor(q, idx), Some(idx), fallback)
        else Scan(cfg, q, group, start, i + 1, fallback)
      else Scan(cfg, p, group, start, i + 1, if fallback.None? then Some(idx) else fallback)
  }

  // The second look for the group's login.
  function Rescan(cfg: PoolConfig, p: Pool, group: string, start: nat, i: nat): (r: (Pool, Option<nat>))
    requires start < |p.conns| && i <= |p.conns|
    ensures |r.0.conns| == |p.conns|
    ensures r.1.Some? ==> r.1.value < |p.conns|
    decreases |p.conns| - i
  {
    if i == |p.conns| then (p, None)
    else
      var idx := Ring.At(start, i, |p.conns|);
      var c := p.conns[idx];
      if c.alive && !c.busy && c.login == group then
        var (q, ok) := CheckoutTry(cfg, p, idx);
        if ok then (SetCursor(q, idx), Some(idx)) else Rescan(cfg, q, group, start, i + 1)
      else Rescan(cfg, p, group, start, i + 1)
  }

  // Lazy login: warm the first dead slot as the group; one attempt only. The test is
  // `!alive` alone.
  function LazyLogin(cfg: PoolConfig, p: Pool, group: string, start: nat, i: nat): (r: (Pool, Option<nat>))
    requires start < |p.conns| && i <= |p.conns|
    ensures |r.0.conns| == |p.conns|
    ensures r.1.Some? ==> r.1.value < |p.conns|
    decreases |p.conns| - i
  {
    if i == |p.conns| then (p, None)
    else
      var idx := Ring.At(start, i, |p.conns|);
      if p.conns[idx].alive then LazyLogin(cfg, p, group, start, i + 1)
      else
        var (q, ok) := WarmOne(cfg, p, idx, group);
        if ok then (SetCursor(SetBusy(q, idx, true), idx), Some(idx)) else (q, None)
  }

  function Checkout(cfg: PoolConfig, p: Pool, group: string): (r: (Pool, Option<nat>))
    ensures |r.0.conns| == |p.conns|
    ensures r.1.Some? ==> r.1.value < |p.conns|
  {
    if |p.conns| == 0 then (p, None)
    else
      var m := Maintain(cfg, p);
      var start := m.rr % |m.conns|;
      var s := Scan(cfg, m, group, start, 0, None);
      if s.got.Some? then (s.pool, s.got)
      else if cfg.groupLogin && group != "" then
        var (q, got) := Rescan(cfg, s.pool, group, start, 0);
        if got.Some? then (q, got)
        else if cfg.lazy then LazyLogin(cfg, q, group, start, 0)
        else (q, None)
      else if s.fallback.Some? then
        var (q, ok) := CheckoutTry(cfg, s.pool, s.fallback.value);
        if ok then (SetCursor(q, s.fallback.value), s.fallback) else (q, None)
      else (s.pool, None)
  }

  function Checkin(p: Pool, i: nat): (r: Pool)
    requires i < |p.conns|
    ensures |r.conns| == |p.conns|
  {
    SetBusy(p, i, false)
  }

  // ---- pipelines ----

  // Start a pipeline: `bytes` is what the rewrite produced, None when it refused the Bind.
  function AsyncBegin(cfg: PoolConfig, p: Pool, group: string, bytes: Option<Bytes>): (r: (Pool, Option<nat>))
    ensures |r.0.conns| == |p.conns|
    ensures r.1.Some? ==> r.1.value < |p.conns|
  {
    var (q, got) := Checkout(cfg, p, group);
    if got.None? then (q, None)
    else
      var i := got.value;
      if bytes.None? || bytes.value == [] || |bytes.value| > cfg.sendCap then
        (Checkin(Set(q, i, q.conns[i].(pipe := NO_PIPE)), i), None)
      else
        (Set(q, i, q.conns[i].(pipe := NO_PIPE.(sendBuf := bytes.value))), Some(i))
  }

  function SendPending(c: BackendConn): Bytes {
    if c.pipe.sendOff >= |c.pipe.sendBuf| then [] else c.pipe.sendBuf[c.pipe.sendOff..]
  }

  function SendAdvance(p: Pool, i: nat, n: nat): (r: Pool)
    requires i < |p.conns|
    ensures |r.conns| == |p.conns|
  {
    var c := p.conns[i];
    var off := c.pipe.sendOff + n;
    Set(p, i, c.(pipe := c.pipe.(sendOff := if off > |c.pipe.sendBuf| then |c.pipe.sendBuf| else off)))
  }

  // Give a slot back; after a failure the connection is torn down and reconnected at once.
  function Finish(cfg: PoolConfig, p: Pool, i: nat, failed: bool): (r: Pool)
    requires i < |p.conns|
    ensures |r.conns| == |p.conns|
  {
    var q := if failed then
               var t := Set(p, i, Teardown(p.conns[i]));
               if cfg.autoReconnect && t.conns[i].login != "" then SetBusy(Reconnect(cfg, t, i).0, i, false) else t
             else p;
    var c := q.conns[i];
    Checkin(Set(q, i, c.(pipe := c.pipe.(sendBuf := [], sendOff := 0, acc := []))), i)
  }

  // Forward a simple query: one blocking round trip, which may lose the connection.
  function ExecQuery(cfg: PoolConfig, p: Pool, group: string): (r: (Pool, Trip))
    ensures |r.0.conns| == |p.conns|
  {
    var (q, got) := Checkout(cfg, p, group);
    if got.None? then (q, NoBackend)
    else
      var i := got.value;
      var f := cfg.net.flush(q.clock);
      var t := q.(clock := q.clock + 1);
      (Checkin(if f.dead && !f.ok then Set(t, i, t.conns[i].(alive := false)) else t, i),
       Trip(q.conns[i].login, f))
  }
}
