// What every reachable state of the event loop looks like.
module Invariant {
  import opened Wire
  import opened Frontend
  import opened Scheduler
  import Ring
  import BackendPool
  import PoolOwnership

  predicate Real(m: Msg) { !m.Ignored? && !m.Terminate? }

  predicate AllReal(q: seq<Msg>) { forall k :: 0 <= k < |q| ==> Real(q[k]) }

  // What a frontend holds in each of its states.
  predicate Shape(cfg: Config, fe: Fe) {
    var c := fe.core;
    && |fe.queue| <= cfg.queueMax && AllReal(fe.queue)
    && (c.st == Free ==> c.wait == Idle && fe.queue == [])
    && match c.wait
       case Idle => c.be.None? && !c.sendPending && !c.recvPending
       case Waiting => c.be.None? && !c.sendPending && !c.recvPending
                       && fe.queue != [] && fe.queue[0].Bind? && c.ready
       case Sending => c.be.Some? && c.sendPending && !c.recvPending
       case Reading => c.be.Some? && !c.sendPending && c.recvPending
  }

  // An idle frontend has nothing left to do.
  predicate Quiet(fe: Fe) { fe.core.wait == Idle ==> fe.queue == [] }

  ghost predicate Holds(s: State, i: int, b: nat) {
    0 <= i < |s.fes| && s.fes[i].core.be == Some(b)
  }

  const NONE: int := -1

  predicate Open(i: int, o: int, w: int) { i == o || i == w }

  ghost predicate RingOk(s: State, o: int, w: int) {
    && Ring.AllDistinct(s.ring)
    && (forall a :: 0 <= a < |s.ring| ==>
          InRange(s, s.ring[a]) && !Open(s.ring[a], o, w) && s.fes[s.ring[a]].core.wait == Waiting)
    && (forall i :: InRange(s, i) && !Open(i, o, w) && s.fes[i].core.wait == Waiting ==> i in s.ring)
  }

  // Busy slots and pipelines in progress match one to one.
  ghost predicate Owned(s: State) {
    && PoolOwnership.PoolOk(s.pool)
    && (forall i, b: nat :: Holds(s, i, b) ==> b < |s.pool.conns| && s.pool.conns[b].busy)
    && (forall i, j, b: nat :: Holds(s, i, b) && Holds(s, j, b) ==> i == j)
    && (forall b: nat :: b < |s.pool.conns| && s.pool.conns[b].busy ==> exists i :: Holds(s, i, b))
  }

  ghost predicate Proper(cfg: Config) { PoolOwnership.Configured(cfg.pool) && cfg.queueMax > 0 }

  // In the middle of a step: o and w are the frontends it is still busy with, NONE for nobody.
  ghost predicate InvOpen(cfg: Config, s: State, o: int, w: int) {
    && RingOk(s, o, w) && Owned(s)
    && (forall i :: InRange(s, i) && !Open(i, o, w) ==> Shape(cfg, s.fes[i]) && Quiet(s.fes[i]))
    && (forall i :: InRange(s, i) && Open(i, o, w) ==> s.fes[i].core.be.None?)
  }

  // Between events.
  ghost predicate Inv(cfg: Config, s: State) { InvOpen(cfg, s, NONE, NONE) }

  // ---- pigeonhole: there is always room in the ring for one more frontend ----

  lemma RingHasRoom(s: State, o: int, w: int, f: nat)
    requires RingOk(s, o, w) && f < |s.fes| && f !in s.ring
    ensures |s.ring| < |s.fes|
  {
    Ring.Pigeonhole([f] + s.ring, |s.fes|);
  }

  // ---- one frontend at a time ----

  // A step confined to frontend f: it held no backend before; what it holds now is what the
  // pool gave out; and it is in the ring iff it waits.
  ghost predicate Confined(s: State, t: State, f: nat)
    requires f < |s.fes|
  {
    && |t.fes| == |s.fes| && t.fes == s.fes[f := t.fes[f]]
    && s.fes[f].core.be.None?
    && PoolOwnership.Moves(s.pool, t.pool, t.fes[f].core.be)
    && t.ring == if t.fes[f].core.wait == Waiting then s.ring + [f] else s.ring
  }

  lemma ConfinedKeepsRing(s: State, t: State, f: nat, o: int)
    requires f < |s.fes| && f != o && RingOk(s, o, f) && Confined(s, t, f)
    ensures RingOk(t, o, NONE)
  {
    assert f !in s.ring;
    forall i | InRange(t, i) && i != o && t.fes[i].core.wait == Waiting
      ensures i in t.ring
    {
      if i == f {
        assert t.ring[|s.ring|] == f;
      } else {
        assert i in s.ring;
      }
    }
  }

  lemma ConfinedKeepsOwned(s: State, t: State, f: nat)
    requires f < |s.fes| && Owned(s) && Confined(s, t, f)
    ensures Owned(t)
  {
    forall i, b: nat | i != f
      ensures Holds(t, i, b) <==> Holds(s, i, b)
    {
    }
    assert forall b: nat :: !Holds(s, f, b);
    forall b: nat | b < |t.pool.conns| && t.pool.conns[b].busy
      ensures exists i :: Holds(t, i, b)
    {
      if t.fes[f].core.be == Some(b) {
        assert Holds(t, f, b);
      } else {
        var i :| Holds(s, i, b);
        assert Holds(t, i, b);
      }
    }
  }

  lemma ConfinedKeepsInv(cfg: Config, s: State, t: State, f: nat, o: int)
    requires f < |s.fes| && f != o && InvOpen(cfg, s, o, f) && Confined(s, t, f)
    requires Shape(cfg, t.fes[f]) && Quiet(t.fes[f])
    ensures InvOpen(cfg, t, o, NONE)
  {
    ConfinedKeepsRing(s, t, f, o);
    ConfinedKeepsOwned(s, t, f);
  }

  // ---- draining a queue ----

  // What a frontend about to be drained looks like.
  predicate Drainable(cfg: Config, fe: Fe) {
    var c := fe.core;
    && |fe.queue| <= cfg.queueMax && AllReal(fe.queue)
    && c.wait == Idle && c.be.None? && !c.sendPending && !c.recvPending
    && (c.st == Free ==> fe.queue == [])
  }

  lemma StartConfined(cfg: Config, s: State, f: nat, b: BindMsg, fromQueue: bool)
    requires Proper(cfg) && f < |s.fes| && PoolOwnership.PoolOk(s.pool)
    ensures var (t, ok) := StartBind(cfg, s, f, b, fromQueue);
            && |t.fes| == |s.fes| && t.ring == s.ring
            && (!ok ==> t.fes == s.fes && PoolOwnership.Moves(s.pool, t.pool, None))
            && (ok ==> t.fes == s.fes[f := t.fes[f]] && t.fes[f].core.be.Some?
                       && t.fes[f].core == StartCore(s.fes[f].core, t.fes[f].core.be.value, fromQueue)
                       && t.fes[f].queue == s.fes[f].queue
                       && PoolOwnership.Moves(s.pool, t.pool, t.fes[f].core.be))
  {
    var c := s.fes[f].core;
    PoolOwnership.BeginMoves(cfg.pool, s.pool, c.id.group, BindBytes(cfg, c, b));
  }

  // Nothing about the backend side differs.
  predicate SameLink(c: Core, d: Core) {
    && d.wait == c.wait && d.be == c.be && d.sendPending == c.sendPending && d.recvPending == c.recvPending
    && d.ready == c.ready && d.id == c.id
  }

  lemma HandleParseLink(c: Core, cacheMax: nat, e: Prepared)
    ensures SameLink(c, HandleParse(c, cacheMax, e)) && HandleParse(c, cacheMax, e).st == c.st
  {
  }

  lemma AnswerLink(cfg: Config, c: Core, m: Msg)
    ensures SameLink(c, Answer(cfg, c, m))
    ensures Real(m) ==> Answer(cfg, c, m).st == c.st
    ensures c.st != Free ==> Answer(cfg, c, m).st != Free
  {
    if m.Parse? { HandleParseLink(c, cfg.cacheMax, ParseEntry(cfg, c.id, m.parse)); }
  }

  lemma HandleCoreLink(cfg: Config, c: Core, m: Msg)
    ensures SameLink(c, HandleCore(cfg, c, m))
    ensures Real(m) ==> HandleCore(cfg, c, m).st == c.st
    ensures c.st != Free ==> HandleCore(cfg, c, m).st != Free
  {
    AnswerLink(cfg, c, m);
  }

  lemma ResultLink(c: Core, f: BackendPool.Flushed)
    ensures SameLink(c, ResultCore(c, f)) && ResultCore(c, f).st == c.st && ResultCore(c, f).cache == c.cache
  {
  }

  lemma QueryLink(c: Core, t: BackendPool.Trip)
    ensures SameLink(c, QueryCore(c, t)) && QueryCore(c, t).st == c.st && QueryCore(c, t).cache == c.cache
  {
    if t.Trip? { ResultLink(c.(resp := Overwrite(c.resp, t.answer.bytes)), t.answer); }
  }

  // Only frontend f changed, it holds what it held, and the pool gave nothing out.
  ghost predicate Stays(s: State, t: State, f: nat)
    requires f < |s.fes|
  {
    && |t.fes| == |s.fes| && t.fes == s.fes[f := t.fes[f]] && t.ring == s.ring
    && t.fes[f].core.be == s.fes[f].core.be
    && PoolOwnership.Moves(s.pool, t.pool, None)
  }

  lemma ConfinedAfter(s: State, t: State, u: State, f: nat)
    requires f < |s.fes| && Stays(s, t, f) && Confined(t, u, f)
    ensures Confined(s, u, f)
  {
    PoolOwnership.MovesTrans(s.pool, t.pool, u.pool, u.fes[f].core.be);
  }

  lemma PopStays(s: State, f: nat)
    requires f < |s.fes| && PoolOwnership.PoolOk(s.pool) && s.fes[f].queue != []
    ensures Stays(s, SetFe(s, f, s.fes[f].(queue := s.fes[f].queue[1..])), f)
  {
  }

  lemma HandleConfined(cfg: Config, s: State, f: nat, m: Msg)
    requires Proper(cfg) && f < |s.fes| && PoolOwnership.PoolOk(s.pool)
    ensures var t := Handle(cfg, s, f, m);
            && Stays(s, t, f)
            && t.fes[f].queue == s.fes[f].queue
            && SameLink(s.fes[f].core, t.fes[f].core)
            && (Real(m) ==> t.fes[f].core.st == s.fes[f].core.st)
            && (s.fes[f].core.st != Free ==> t.fes[f].core.st != Free)
  {
    var c := s.fes[f].core;
    if m.Query? && c.ready && !cfg.rejectQuery {
      PoolOwnership.QueryMoves(cfg.pool, s.pool, c.id.group);
      QueryLink(c, BackendPool.ExecQuery(cfg.pool, s.pool, c.id.group).1);
    } else {
      HandleCoreLink(cfg, c, m);
    }
  }

  lemma StartOrParkConfined(cfg: Config, s: State, f: nat, m: Msg)
    requires Proper(cfg) && f < |s.fes| && PoolOwnership.PoolOk(s.pool)
    requires Drainable(cfg, s.fes[f]) && |s.fes[f].queue| < cfg.queueMax && s.fes[f].core.ready && m.Bind?
    requires s.fes[f].core.st != Free && f !in s.ring && |s.ring| < |s.fes|
    ensures var t := StartOrPark(cfg, s, f, m);
            && Confined(s, t, f) && Shape(cfg, t.fes[f])
            && (t.fes[f].core.wait == Waiting || t.fes[f].core.wait == Sending)
  {
    StartConfined(cfg, s, f, m.bind, true);
  }

  lemma FlushConfined(cfg: Config, s: State, t: State, f: nat)
    requires f < |s.fes| && Confined(s, t, f) && Shape(cfg, t.fes[f])
    ensures Confined(s, Flush(t, f), f) && Shape(cfg, Flush(t, f).fes[f])
    ensures Flush(t, f).fes[f].core.wait == t.fes[f].core.wait
  {
  }

  lemma {:induction false} DrainConfined(cfg: Config, s: State, f: nat)
    requires Proper(cfg) && f < |s.fes| && PoolOwnership.PoolOk(s.pool)
    requires Drainable(cfg, s.fes[f]) && f !in s.ring && |s.ring| < |s.fes|
    ensures var t := Drain(cfg, s, f);
            Confined(s, t, f) && Shape(cfg, t.fes[f]) && Quiet(t.fes[f])
    decreases |s.fes[f].queue|
  {
    var fe := s.fes[f];
    if fe.queue != [] {
      var m := fe.queue[0];
      var popped := SetFe(s, f, fe.(queue := fe.queue[1..]));
      PopStays(s, f);
      if m.Bind? && fe.core.ready {
        var t := StartOrPark(cfg, popped, f, m);
        StartOrParkConfined(cfg, popped, f, m);
        FlushConfined(cfg, popped, t, f);
        ConfinedAfter(s, popped, Flush(t, f), f);
      } else {
        var t := Handle(cfg, popped, f, m);
        HandleConfined(cfg, popped, f, m);
        DrainConfined(cfg, t, f);
        ConfinedAfter(popped, t, Drain(cfg, t, f), f);
        ConfinedAfter(s, popped, Drain(cfg, t, f), f);
      }
    }
  }

  // ---- the scheduling pass ----

  // The oldest waiter w leaves the ring with its Bind popped.
  function Popped(s: State, w: nat): (r: State)
    requires s.ring != [] && w < |s.fes| && s.fes[w].queue != []
    ensures |r.fes| == |s.fes|
  {
    var fe := s.fes[w];
    SetFe(s.(ring := s.ring[1..]), w, Fe(fe.core.(wait := Idle), fe.queue[1..], fe.log))
  }

  // Start the oldest waiter's Bind, or have it wait again.
  function Attempt(cfg: Config, s: State, w: nat): (r: State)
    requires s.ring != [] && w < |s.fes| && s.fes[w].queue != [] && s.fes[w].queue[0].Bind?
    ensures |r.fes| == |s.fes|
  {
    Flush(StartOrPark(cfg, Popped(s, w), w, s.fes[w].queue[0]), w)
  }

  // The head of the ring, in a proper state.
  predicate Awaits(cfg: Config, s: State, o: int) {
    && s.ring != [] && InRange(s, s.ring[0]) && s.ring[0] != o
    && Shape(cfg, s.fes[s.ring[0]]) && s.fes[s.ring[0]].core.wait == Waiting
  }

  lemma HeadAwaits(cfg: Config, s: State, o: int)
    requires InvOpen(cfg, s, o, NONE) && s.ring != []
    ensures Awaits(cfg, s, o)
  {
    assert InRange(s, s.ring[0]);
  }

  // In a proper state the turn is one attempt to start the awaited Bind: the branches for
  // stale ring entries and for an empty queue are never taken.
  lemma TurnIsAttempt(cfg: Config, s: State, o: int)
    requires Awaits(cfg, s, o) && s.ring[0] !in s.ring[1..] && |s.ring| <= |s.fes|
    ensures Turn(cfg, s) == Attempt(cfg, s, s.ring[0])
  {
    var w := s.ring[0];
    var fe := s.fes[w];
    var idle := SetCore(s.(ring := s.ring[1..]), w, fe.core.(wait := Idle));
    assert idle.fes[w].queue == fe.queue;
    assert SetFe(idle, w, idle.fes[w].(queue := fe.queue[1..])) == Popped(s, w);
    var t := StartOrPark(cfg, Popped(s, w), w, fe.queue[0]);
    assert Drain(cfg, idle, w) == Flush(t, w);
    StartOrParkNotIdle(cfg, Popped(s, w), w, fe.queue[0]);
  }

  // After the attempt the frontend runs its pipeline or has its Bind queued.
  lemma StartOrParkNotIdle(cfg: Config, s: State, f: nat, m: Msg)
    requires f < |s.fes| && m.Bind? && f !in s.ring && |s.ring| < |s.fes|
    ensures StartOrPark(cfg, s, f, m).fes[f].core.wait != Idle
  {
  }

  lemma PoppedOpen(cfg: Config, s: State, o: int, w: nat)
    requires InvOpen(cfg, s, o, NONE) && s.ring != [] && w == s.ring[0] && s.fes[w].queue != []
    ensures InvOpen(cfg, Popped(s, w), o, w)
    ensures w !in Popped(s, w).ring && |Popped(s, w).ring| < |s.fes|
  {
    var t := Popped(s, w);
    Ring.Pigeonhole(s.ring, |s.fes|);
    assert forall i, b: nat :: Holds(t, i, b) <==> Holds(s, i, b);
    assert forall i :: i in s.ring <==> i == w || i in t.ring;
  }

  // What one turn does to the state: it touches only the waiter it tries.
  ghost predicate Turned(s: State, t: State, w: nat)
    requires w < |s.fes| && s.ring != []
  {
    && |t.fes| == |s.fes| && t.fes == s.fes[w := t.fes[w]]
    && (t.fes[w].core.wait == Waiting || t.fes[w].core.wait == Sending)
    && t.ring == s.ring[1..] + if t.fes[w].core.wait == Waiting then [w] else []
  }

  lemma AttemptInv(cfg: Config, s: State, o: int, w: nat)
    requires Proper(cfg) && InvOpen(cfg, s, o, NONE) && Awaits(cfg, s, o) && w == s.ring[0]
    ensures InvOpen(cfg, Attempt(cfg, s, w), o, NONE) && Turned(s, Attempt(cfg, s, w), w)
  {
    var m, p := s.fes[w].queue[0], Popped(s, w);
    PoppedOpen(cfg, s, o, w);
    StartOrParkConfined(cfg, p, w, m);
    var u := StartOrPark(cfg, p, w, m);
    FlushConfined(cfg, p, u, w);
    ConfinedKeepsInv(cfg, p, Flush(u, w), w, o);
    AttemptTurned(s, p, Flush(u, w), w);
  }

  lemma AttemptTurned(s: State, p: State, t: State, w: nat)
    requires s.ring != [] && w < |s.fes| && s.fes[w].queue != [] && p == Popped(s, w)
    requires Confined(p, t, w) && t.fes[w].core.wait != Idle && t.fes[w].core.wait != Reading
    ensures Turned(s, t, w)
  {
  }

  lemma TurnInv(cfg: Config, s: State, o: int)
    requires Proper(cfg) && InvOpen(cfg, s, o, NONE) && s.ring != []
    ensures Awaits(cfg, s, o)
    ensures InvOpen(cfg, Turn(cfg, s), o, NONE) && Turned(s, Turn(cfg, s), s.ring[0])
  {
    HeadAwaits(cfg, s, o);
    Ring.Pigeonhole(s.ring, |s.fes|);
    TurnIsAttempt(cfg, s, o);
    AttemptInv(cfg, s, o, s.ring[0]);
  }

  // What passing over the ring leaves alone.
  ghost predicate Passed(s: State, t: State) {
    && |t.fes| == |s.fes|
    && (forall i :: InRange(s, i) && i !in s.ring ==> t.fes[i] == s.fes[i])
    && (forall x :: x in t.ring ==> x in s.ring)
  }

  lemma PassedTurn(s: State, u: State, t: State, w: nat)
    requires Passed(s, u) && u.ring != [] && w == u.ring[0] && w < |u.fes| && Turned(u, t, w)
    ensures Passed(s, t)
  {
    forall x | x in t.ring ensures x in s.ring {
      assert x in u.ring;
    }
  }

  // What every turn keeps, the pass keeps.
  lemma {:induction false} PassKeeps(cfg: Config, s: State, attempts: nat, good: State -> bool)
    requires good(s) && forall u :: good(u) && u.ring != [] ==> good(Turn(cfg, u))
    ensures good(Pass(cfg, s, attempts))
    decreases attempts
  {
    if attempts > 0 && s.ring != [] {
      PassKeeps(cfg, Turn(cfg, s), attempts - 1, good);
    }
  }

  lemma PassInv(cfg: Config, s: State, attempts: nat, o: int)
    requires Proper(cfg) && InvOpen(cfg, s, o, NONE)
    ensures InvOpen(cfg, Pass(cfg, s, attempts), o, NONE) && Passed(s, Pass(cfg, s, attempts))
  {
    var good := u => InvOpen(cfg, u, o, NONE) && Passed(s, u);
    forall u | good(u) && u.ring != [] ensures good(Turn(cfg, u)) {
      TurnInv(cfg, u, o);
      PassedTurn(s, u, Turn(cfg, u), u.ring[0]);
    }
    PassKeeps(cfg, s, attempts, good);
  }
}
