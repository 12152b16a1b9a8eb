// Runs from an initial state that end with an able waiter beside an idle backend.
module Counterexamples {
  import opened Wire
  import opened Frontend
  import opened Scheduler
  import opened Invariant
  import opened Steps
  import opened Waiting
  import opened Tally
  import opened Revival
  import Rewrite
  import Fairness
  import BackendPool
  import PoolSupply
  import Framer
  import StmtCache

  const ID: Identity := Identity([7], "", 0)
  const PARSE: ParseMsg := ParseMsg("", "", [])
  // A parameter for the identity, and a text value with a NUL in it.
  const BIND: BindMsg := BindMsg("", [Param(0, None), Param(0, Some([65, 0, 65]))], [])

  // The wire form of a pipeline: here just as long as its second parameter.
  function Encoded(p: Rewrite.Pipeline): Bytes {
    if |p.params| > 1 && p.params[1].value.Some? then p.params[1].value.value else []
  }

  function Example(net: BackendPool.Network, sendCap: nat): Config {
    Config(BackendPool.PoolConfig(net, "u", false, false, true, false, sendCap),
           Framer.Protocol(_ => true, (_, _) => false), -1, "", true, 1, 1, 0, 0, p => Encoded(p))
  }

  function Network(warm: nat -> BackendPool.Warm): BackendPool.Network {
    BackendPool.Network(warm, _ => true, _ => BackendPool.Flushed([], false, false))
  }

  const DEAD: BackendPool.BackendConn := BackendPool.BackendConn("u", false, false, BackendPool.NO_PIPE)

  function Start(frontends: nat, conns: seq<BackendPool.BackendConn>): State {
    State(seq(frontends, i => FreeFe()), [], BackendPool.Pool(conns, 0, 0))
  }

  // A connection of slot f that has prepared its statement and is idle.
  ghost predicate Prepares(cfg: Config, s: State, f: nat) {
    && f < |s.fes| && s.fes[f].core.st == Active && s.fes[f].core.wait == Idle && s.fes[f].core.ready
    && s.fes[f].core.id == ID && s.fes[f].core.cache == map["" := ParseEntry(cfg, ID, PARSE)]
    && s.fes[f].queue == []
  }

  // A new connection in slot f prepares the statement.
  function Opened(cfg: Config, s: State, f: nat): State
    requires f < |s.fes|
  {
    Process(cfg, SetFe(s, f, NewFe(ID, true)), f, Parse(PARSE))
  }

  lemma {:induction false} FirstFree(fes: seq<Fe>, f: nat)
    requires f < |fes| && fes[f].core.st == Free && forall i :: 0 <= i < f ==> fes[i].core.st != Free
    ensures FreeSlot(fes) == f
  {
    if f > 0 { FirstFree(fes[1..], f - 1); }
  }

  lemma OpenedPrepares(cfg: Config, s: State, f: nat)
    requires Proper(cfg) && Inv(cfg, s) && f < |s.fes| && FreeSlot(s.fes) == f && cfg.cacheMax > 0
    ensures var t := Opened(cfg, s, f);
            && Inv(cfg, t) && Prepares(cfg, t, f) && t.ring == s.ring && t.pool == s.pool
            && t.fes == s.fes[f := t.fes[f]]
  {
    var u := SetFe(s, f, NewFe(ID, true));
    AcceptInv(cfg, s, ID, true);
    assert Step(cfg, s, Accept(ID, true)) == u;
    ProcessInv(cfg, u, f, Parse(PARSE));
    assert StmtCache.PutFits(map[], cfg.cacheMax, "");
  }

  // The two events that open the connection and send the Bind.
  function Opening(f: nat): seq<Event> { [Accept(ID, true), Input(f, [Parse(PARSE), Bind(BIND)])] }

  lemma RunTwo(cfg: Config, s: State, a: Event, b: Event)
    ensures Run(cfg, s, [a, b]) == Step(cfg, Step(cfg, s, a), b)
  {
    assert [a, b][1..] == [b];
    assert [b][1..] == [];
    assert Run(cfg, Step(cfg, s, a), [b]) == Run(cfg, Step(cfg, Step(cfg, s, a), b), []);
  }

  lemma InputTwo(cfg: Config, s: State, f: nat, m: Msg, n: Msg)
    requires f < |s.fes|
    ensures ProcessAll(cfg, s, f, [m, n]) == Flush(Process(cfg, Process(cfg, s, f, m), f, n), f)
  {
    assert [m, n][1..] == [n];
    assert [n][1..] == [];
    var t := Process(cfg, s, f, m);
    assert ProcessAll(cfg, t, f, [n]) == ProcessAll(cfg, Process(cfg, t, f, n), f, []);
  }

  lemma OpeningRun(cfg: Config, s: State, f: nat)
    requires f < |s.fes| && FreeSlot(s.fes) == f
    ensures Run(cfg, s, Opening(f)) == Flush(Process(cfg, Opened(cfg, s, f), f, Bind(BIND)), f)
  {
    var u := SetFe(s, f, NewFe(ID, true));
    RunTwo(cfg, s, Accept(ID, true), Input(f, [Parse(PARSE), Bind(BIND)]));
    InputTwo(cfg, u, f, Parse(PARSE), Bind(BIND));
  }

  // What the example's Bind is rewritten to, at once and from the queue.
  lemma Forms(cfg: Config, c: Core, net: BackendPool.Network, sendCap: nat)
    requires cfg == Example(net, sendCap)
    requires c.id == ID && c.cache == map["" := ParseEntry(cfg, ID, PARSE)]
    ensures BindBytes(cfg, c, BIND) == Some([65, 0, 65]) && BindBytes(cfg, c, Rewrite.QueuedBind(BIND)) == Some([65])
  {
    var cut: Bytes := [65, 0, 65];
    assert cut[1..] == [0, 65];
    assert Rewrite.UpToNul(cut[1..]) == [];
    assert Rewrite.UpToNul(cut) == [65];
    assert Rewrite.QueuedParam(BIND.params[1]) == Param(0, Some([65]));
  }

  lemma FlushAble(cfg: Config, s: State, f: nat, x: int)
    requires f < |s.fes| && x in s.ring && InRange(s, x) && Able(cfg, s.fes[x])
    ensures AbleWaits(cfg, Flush(s, f)) && Able(cfg, Flush(s, f).fes[x])
  {
    var t := Flush(s, f);
    assert x in t.ring && InRange(t, x) && Able(cfg, t.fes[x]);
  }

  // The example's first connection, up to its Bind.
  lemma Opens(cfg: Config, conns: seq<BackendPool.BackendConn>, net: BackendPool.Network, sendCap: nat, frontends: nat)
    requires cfg == Example(net, sendCap) && frontends > 0
    requires forall j :: 0 <= j < |conns| ==> !conns[j].busy && (conns[j].alive ==> conns[j].login != "")
    ensures var s := Start(frontends, conns);
            var v := Opened(cfg, s, 0);
            && Proper(cfg) && Initial(s) && FreeSlot(s.fes) == 0
            && Inv(cfg, v) && Prepares(cfg, v, 0) && v.ring == [] && v.pool == s.pool
            && v.fes == s.fes[0 := v.fes[0]]
            && Run(cfg, s, Opening(0)) == Flush(Process(cfg, v, 0, Bind(BIND)), 0)
  {
    var s := Start(frontends, conns);
    InitialInv(cfg, s);
    FirstFree(s.fes, 0);
    OpenedPrepares(cfg, s, 0);
    OpeningRun(cfg, s, 0);
  }

  // A steady pool, and a Bind that is too long to be sent, though its copy in the queue is not:
  // it waits beside an idle backend that would do for it.
  lemma LongBindOverlooked() returns (cfg: Config, s: State)
    ensures Steady(cfg) && Initial(s) && !Served(cfg, Run(cfg, s, Opening(0)))
  {
    var net := Network(k => BackendPool.Up);
    cfg := Example(net, 2);
    s := Start(1, [DEAD.(alive := true)]);
    Opens(cfg, s.pool.conns, net, 2, 1);
    LongBindLeft(cfg, Opened(cfg, s, 0), net);
  }

  lemma LongBindLeft(cfg: Config, v: State, net: BackendPool.Network)
    requires cfg == Example(net, 2) && Steady(cfg) && Inv(cfg, v) && Prepares(cfg, v, 0)
    requires v.pool.conns == [DEAD.(alive := true)]
    ensures !Served(cfg, Flush(Process(cfg, v, 0, Bind(BIND)), 0))
  {
    LongBindUnserved(cfg, v, net);
    UnservedFlush(cfg, Process(cfg, v, 0, Bind(BIND)), 0);
  }

  lemma UnservedFlush(cfg: Config, s: State, f: nat)
    requires f < |s.fes| && !Served(cfg, s)
    ensures !Served(cfg, Flush(s, f))
  {
    var x :| x in s.ring && InRange(s, x) && Able(cfg, s.fes[x]) && !Starved(cfg, s);
    FlushAble(cfg, s, f, x);
    assert x in Flush(s, f).ring;
  }

  lemma LongBindUnserved(cfg: Config, v: State, net: BackendPool.Network)
    requires cfg == Example(net, 2) && Steady(cfg) && Inv(cfg, v) && Prepares(cfg, v, 0)
    requires v.pool.conns == [DEAD.(alive := true)]
    ensures !Served(cfg, Process(cfg, v, 0, Bind(BIND)))
  {
    LongBindOdd(cfg, v, net);
    Fairness.ProcessLocal(cfg, v, 0, Bind(BIND));
  }

  lemma LongBindOdd(cfg: Config, v: State, net: BackendPool.Network)
    requires cfg == Example(net, 2) && Steady(cfg) && Inv(cfg, v) && Prepares(cfg, v, 0)
    requires v.pool.conns == [DEAD.(alive := true)]
    ensures !Fairness.Serves(cfg, v, 0, Bind(BIND))
  {
    Forms(cfg, v.fes[0].core, net, 2);
    PoolSupply.NoSupply(cfg.pool, v.pool.conns);
    assert PoolSupply.Spare(cfg.pool, v.pool.conns[0]);
  }

  // The example's Bind arrives in slot f and finds no backend: it waits, and the pool has been
  // maintained in vain.
  lemma NoneFound(cfg: Config, v: State, f: nat, net: BackendPool.Network)
    requires cfg == Example(net, 3) && Proper(cfg) && Inv(cfg, v) && Prepares(cfg, v, f) && Found(cfg, v) == 0
    ensures var t := Process(cfg, v, f, Bind(BIND));
            && f in t.ring && Able(cfg, t.fes[f]) && LiveCount(t.pool.conns) == 0
            && (forall i :: InRange(v, i) && i != f ==> t.fes[i] == v.fes[i])
            && t.pool == BackendPool.Maintain(cfg.pool, v.pool)
  {
    Forms(cfg, v.fes[f].core, net, 3);
    ArrivalLanded(cfg, v, f, BIND);
    assert Process(cfg, v, f, Bind(BIND)).ring[|v.ring|] == f;
    var u := SetCore(SetFe(v, f, Arrive(v.fes[f], Bind(BIND))), f,
                     v.fes[f].core.(resp := [], gotExecute := false, gotSync := false));
    NoneChecked(cfg.pool, u.pool, ID.group, BindBytes(cfg, u.fes[f].core, BIND));
  }

  lemma OpeningInv(cfg: Config, v: State, f: nat)
    requires Proper(cfg) && Inv(cfg, v) && f < |v.fes| && v.fes[f].core.st != Free
    ensures Inv(cfg, Flush(Process(cfg, v, f, Bind(BIND)), f))
  {
    InputInv(cfg, v, f, [Bind(BIND)]);
    assert [Bind(BIND)][1..] == [];
    assert ProcessAll(cfg, v, f, [Bind(BIND)]) == ProcessAll(cfg, Process(cfg, v, f, Bind(BIND)), f, []);
  }

  // The state after that.
  lemma Waits(cfg: Config, v: State, f: nat, net: BackendPool.Network)
    requires cfg == Example(net, 3) && Proper(cfg) && Inv(cfg, v) && Prepares(cfg, v, f) && Found(cfg, v) == 0
    ensures var w := Flush(Process(cfg, v, f, Bind(BIND)), f);
            && Inv(cfg, w) && f in w.ring && Able(cfg, w.fes[f]) && AbleWaits(cfg, w) && w.fes[f].core.st != Free
            && LiveCount(w.pool.conns) == 0 && w.pool == BackendPool.Maintain(cfg.pool, v.pool)
            && forall i :: InRange(v, i) && i != f ==> w.fes[i] == v.fes[i]
  {
    NoneFound(cfg, v, f, net);
    FlushAble(cfg, Process(cfg, v, f, Bind(BIND)), f, f);
    OpeningInv(cfg, v, f);
    ProcessInv(cfg, v, f, Bind(BIND));
  }

  lemma {:induction false} RunConcat(cfg: Config, s: State, a: seq<Event>, b: seq<Event>)
    ensures Run(cfg, s, a + b) == Run(cfg, Run(cfg, s, a), b)
    decreases |a|
  {
    if a == [] {
      assert a + b == b;
    } else {
      var t := Step(cfg, s, a[0]);
      assert (a + b)[0] == a[0] && (a + b)[1..] == a[1..] + b;
      RunConcat(cfg, t, a[1..], b);
    }
  }

  function Late(n: nat): BackendPool.Network {
    Network((k: nat) => if k < n then BackendPool.NoTcp else BackendPool.Up)
  }

  // Maintenance fails on the dead slot.
  lemma OneMaintained(cfg: Config)
    requires cfg == Example(Late(1), 3)
    ensures BackendPool.Maintain(cfg.pool, BackendPool.Pool([DEAD], 0, 0)) == BackendPool.Pool([DEAD], 0, 1)
  {
    var p := BackendPool.Pool([DEAD], 0, 0);
    var q := BackendPool.Reconnect(cfg.pool, p, 0).0;
    assert q.conns == [DEAD];
    assert BackendPool.MaintainFrom(cfg.pool, q, 1) == q;
  }

  // The first attempt to reconnect fails and a later one does not: the periodic maintenance
  // leaves a waiter, whose Bind is well-formed, beside the backend it brings back.
  lemma TickOverlooked() returns (cfg: Config, s: State)
    ensures Proper(cfg) && Initial(s) && Attended(cfg, Run(cfg, s, Opening(0)))
    ensures !Attended(cfg, Run(cfg, s, Opening(0) + [Tick]))
  {
    cfg := Example(Late(1), 3);
    s := Start(1, [DEAD]);
    Opens(cfg, s.pool.conns, Late(1), 3, 1);
    var w := Run(cfg, s, Opening(0));
    LeftOne(cfg, Opened(cfg, s, 0), w);
    TickAfter(cfg, w);
    RunConcat(cfg, s, Opening(0), [Tick]);
  }

  lemma LeftOne(cfg: Config, v: State, w: State)
    requires cfg == Example(Late(1), 3) && Proper(cfg) && Inv(cfg, v) && Prepares(cfg, v, 0)
    requires v.pool == BackendPool.Pool([DEAD], 0, 0) && w == Flush(Process(cfg, v, 0, Bind(BIND)), 0)
    ensures AbleWaits(cfg, w) && LiveCount(w.pool.conns) == 0 && w.pool == BackendPool.Pool([DEAD], 0, 1)
  {
    CountDead();
    UpsMeaning(Late(1), 0, 1);
    Waits(cfg, v, 0, Late(1));
    OneMaintained(cfg);
  }

  lemma TickAfter(cfg: Config, w: State)
    requires cfg == Example(Late(1), 3) && AbleWaits(cfg, w) && w.pool == BackendPool.Pool([DEAD], 0, 1)
    ensures !Attended(cfg, Run(cfg, w, [Tick]))
  {
    CountDead();
    TickExact(cfg, w);
    RunOne(cfg, w, Tick);
    assert cfg.pool.net.warm(1).Up?;
  }

  lemma RunOne(cfg: Config, s: State, e: Event)
    ensures Run(cfg, s, [e]) == Step(cfg, s, e)
  {
    assert [e][1..] == [];
  }

  lemma CountDead()
    ensures LiveCount([DEAD]) == 0 && RevivableCount([DEAD]) == 1
  {
    assert [DEAD][1..] == [];
  }

  lemma CountTwoDead()
    ensures LiveCount([DEAD, DEAD]) == 0 && RevivableCount([DEAD, DEAD]) == 2
  {
    CountDead();
    assert [DEAD, DEAD][1..] == [DEAD];
  }

  lemma TwoMaintained(cfg: Config)
    requires cfg == Example(Late(2), 3)
    ensures BackendPool.Maintain(cfg.pool, BackendPool.Pool([DEAD, DEAD], 0, 0)) == BackendPool.Pool([DEAD, DEAD], 0, 2)
  {
    var p := BackendPool.Pool([DEAD, DEAD], 0, 0);
    var q := BackendPool.Reconnect(cfg.pool, p, 0).0;
    assert q.conns == [DEAD, DEAD];
    var r := BackendPool.Reconnect(cfg.pool, q, 1).0;
    assert r.conns == [DEAD, DEAD];
    assert BackendPool.MaintainFrom(cfg.pool, r, 2) == r;
    assert BackendPool.MaintainFrom(cfg.pool, q, 1) == r;
  }

  // Two backends come back while a newcomer is served: it takes one, and the frontend that
  // waited before it goes on waiting beside the other.
  lemma CheckoutOverlooked() returns (cfg: Config, s: State)
    ensures Proper(cfg) && Initial(s) && Attended(cfg, Run(cfg, s, Opening(0)))
    ensures !Attended(cfg, Run(cfg, s, Opening(0) + Opening(1)))
  {
    cfg := Example(Late(2), 3);
    s := Start(2, [DEAD, DEAD]);
    FirstWaits(cfg, s);
    var w := Run(cfg, s, Opening(0));
    SecondOverlooks(cfg, w, Late(2));
    RunConcat(cfg, s, Opening(0), Opening(1));
  }

  lemma FirstWaits(cfg: Config, s: State)
    requires cfg == Example(Late(2), 3) && s == Start(2, [DEAD, DEAD])
    ensures Proper(cfg) && Initial(s)
    ensures var w := Run(cfg, s, Opening(0));
            && Inv(cfg, w) && |w.fes| == 2 && 0 in w.ring && Able(cfg, w.fes[0])
            && w.fes[0].core.st != Free && w.fes[1].core.st == Free
            && LiveCount(w.pool.conns) == 0 && w.pool == BackendPool.Pool([DEAD, DEAD], 0, 2)
  {
    Opens(cfg, s.pool.conns, Late(2), 3, 2);
    LeftFirst(cfg, Opened(cfg, s, 0), Run(cfg, s, Opening(0)));
  }

  lemma LeftFirst(cfg: Config, v: State, w: State)
    requires cfg == Example(Late(2), 3) && Proper(cfg) && Inv(cfg, v) && Prepares(cfg, v, 0)
    requires |v.fes| == 2 && v.fes[1].core.st == Free && v.pool == BackendPool.Pool([DEAD, DEAD], 0, 0)
    requires w == Flush(Process(cfg, v, 0, Bind(BIND)), 0)
    ensures && Inv(cfg, w) && |w.fes| == 2 && 0 in w.ring && Able(cfg, w.fes[0])
            && w.fes[0].core.st != Free && w.fes[1].core.st == Free
            && LiveCount(w.pool.conns) == 0 && w.pool == BackendPool.Pool([DEAD, DEAD], 0, 2)
  {
    CountTwoDead();
    UpsMeaning(Late(2), 0, 2);
    Waits(cfg, v, 0, Late(2));
    TwoMaintained(cfg);
    assert InRange(v, 1);
  }

  lemma SecondOverlooks(cfg: Config, w: State, net: BackendPool.Network)
    requires net == Late(2) && cfg == Example(net, 3) && Proper(cfg) && Inv(cfg, w)
    requires |w.fes| == 2 && 0 in w.ring && Able(cfg, w.fes[0]) && w.fes[0].core.st != Free && w.fes[1].core.st == Free
    requires w.pool == BackendPool.Pool([DEAD, DEAD], 0, 2)
    ensures !Attended(cfg, Run(cfg, w, Opening(1)))
  {
    FirstFree(w.fes, 1);
    OpenedPrepares(cfg, w, 1);
    OpeningRun(cfg, w, 1);
    var x := Opened(cfg, w, 1);
    Forms(cfg, x.fes[1].core, net, 3);
    CountTwoDead();
    assert Ups(net, 3, 1) == 1;
    assert Found(cfg, x) == 2;
    assert 0 in x.ring && InRange(x, 0) && Able(cfg, x.fes[0]);
    ArrivalLanded(cfg, x, 1, BIND);
    var y := Process(cfg, x, 1, Bind(BIND));
    assert 0 in y.ring && InRange(y, 0) && Able(cfg, y.fes[0]);
    FlushAble(cfg, y, 1, 0);
  }
}
