// Which waiters a scheduling turn can serve, in a homogeneous pool.
module Waiting {
  import opened Wire
  import opened Rewrite
  import opened Frontend
  import opened Scheduler
  import opened Invariant
  import opened History
  import BackendPool
  import PoolOwnership
  import PoolSupply
  import Ring

  ghost predicate Steady(cfg: Config) { Proper(cfg) && PoolSupply.Homogeneous(cfg.pool) }

  // The awaited Bind is well-formed: it starts whenever a backend is to be had.
  predicate Able(cfg: Config, fe: Fe) {
    && fe.queue != [] && fe.queue[0].Bind?
    && PoolOwnership.Sendable(cfg.pool, BindBytes(cfg, fe.core, fe.queue[0].bind))
  }

  // The pipeline it starts.
  function Awaited(fe: Fe): Pipeline
    requires fe.queue != [] && fe.queue[0].Bind? && OnBind(fe.core.cache, fe.queue[0].bind, fe.core.id).Some?
  {
    OnBind(fe.core.cache, fe.queue[0].bind, fe.core.id).value
  }

  // The number of backends to be had.
  function Supply(cfg: Config, s: State): nat { PoolSupply.Supply(cfg.pool, s.pool) }

  predicate Starved(cfg: Config, s: State) { Supply(cfg, s) == 0 }

  // No able waiter waits while a backend is to be had.
  ghost predicate Served(cfg: Config, s: State) {
    forall x :: x in s.ring && InRange(s, x) && Able(cfg, s.fes[x]) ==> Starved(cfg, s)
  }

  // The frontend waits for the same Bind as before; meanwhile its queue may have grown.
  ghost predicate Patient(a: Fe, b: Fe) {
    && b.core.wait == Waiting && a.queue != [] && a.queue <= b.queue
    && b.core.id == a.core.id && b.core.cache == a.core.cache && b.log.issued == a.log.issued
  }

  lemma PatientAble(cfg: Config, a: Fe, b: Fe)
    requires Patient(a, b)
    ensures Able(cfg, b) <==> Able(cfg, a)
    ensures Able(cfg, a) ==> Awaited(b) == Awaited(a)
  {
  }

  // What an attempt to start the Bind `b` of frontend f does, by the supply.
  lemma StartSupply(cfg: Config, s: State, f: nat, b: BindMsg, fromQueue: bool)
    requires Steady(cfg) && f < |s.fes| && PoolOwnership.PoolOk(s.pool)
    ensures var (t, ok) := StartBind(cfg, s, f, b, fromQueue);
            && (ok <==> PoolOwnership.Sendable(cfg.pool, BindBytes(cfg, s.fes[f].core, b)) && !Starved(cfg, s))
            && Supply(cfg, t) + (if ok then 1 else 0) == Supply(cfg, s)
  {
    var c := s.fes[f].core;
    var bytes := BindBytes(cfg, c, b);
    PoolSupply.BeginSupply(cfg.pool, s.pool, c.id.group, bytes);
    PoolSupply.NoSupply(cfg.pool, s.pool.conns);
    PoolOwnership.BeginMoves(cfg.pool, s.pool, c.id.group, bytes);
    var (q, got) := BackendPool.AsyncBegin(cfg.pool, s.pool, c.id.group, bytes);
    PoolSupply.SupplyLess(cfg.pool, s.pool, q, got);
  }

  // ---- one turn ----

  // The waiter w was tried: it got a backend iff it was able and one was spare; otherwise it
  // still waits, as it was.
  ghost predicate Tried(cfg: Config, s: State, t: State, w: nat)
    requires w < |s.fes| && s.ring != []
  {
    && Turned(s, t, w)
    && (t.fes[w].core.wait == Sending <==> Able(cfg, s.fes[w]) && !Starved(cfg, s))
    && (t.fes[w].core.wait == Waiting ==> SameStory(s.fes[w], t.fes[w]))
    && Supply(cfg, t) + (if t.fes[w].core.wait == Sending then 1 else 0) == Supply(cfg, s)
    && (t.fes[w].core.wait == Sending ==> Granted(s.fes[w], t.fes[w]))
  }

  // The frontend's awaited pipeline has been issued.
  ghost predicate Granted(a: Fe, b: Fe) {
    && a.queue != [] && a.queue[0].Bind? && OnBind(a.core.cache, a.queue[0].bind, a.core.id).Some?
    && b.core.wait == Sending
    && b.log.issued == a.log.issued + [Awaited(a)]
  }

  lemma AttemptTried(cfg: Config, s: State, o: int, w: nat)
    requires Steady(cfg) && Awaits(cfg, s, o) && w == s.ring[0] && PoolOwnership.PoolOk(s.pool)
    requires Turned(s, Attempt(cfg, s, w), w)
    ensures Tried(cfg, s, Attempt(cfg, s, w), w)
  {
    var fe := s.fes[w];
    var p, m := Popped(s, w), fe.queue[0];
    StartSupply(cfg, p, w, m.bind, true);
    StartConfined(cfg, p, w, m.bind, true);
    var (u, ok) := StartBind(cfg, p, w, m.bind, true);
    var t := StartOrPark(cfg, p, w, m);
    assert [m] + fe.queue[1..] == fe.queue;
    assert Attempt(cfg, s, w) == Flush(t, w);
  }

  lemma TurnTried(cfg: Config, s: State, o: int)
    requires Steady(cfg) && InvOpen(cfg, s, o, NONE) && s.ring != []
    ensures Awaits(cfg, s, o) && InvOpen(cfg, Turn(cfg, s), o, NONE)
    ensures Tried(cfg, s, Turn(cfg, s), s.ring[0])
  {
    HeadAwaits(cfg, s, o);
    TurnInv(cfg, s, o);
    Ring.DistinctTail(s.ring);
    Ring.Pigeonhole(s.ring, |s.fes|);
    TurnIsAttempt(cfg, s, o);
    AttemptTried(cfg, s, o, s.ring[0]);
  }
}
