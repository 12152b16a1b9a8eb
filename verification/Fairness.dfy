// Fair waiting over every event and every run, in a homogeneous pool.
module Fairness {
  import opened Wire
  import opened Frontend
  import opened Scheduler
  import opened Invariant
  import opened Steps
  import opened Waiting
  import opened FairPass
  import opened FairSteps
  import Rewrite
  import BackendPool
  import PoolOwnership
  import PoolSupply
  import Framer
  import Ring

  lemma InvAllWait(cfg: Config, s: State)
    requires Inv(cfg, s)
    ensures AllWait(s)
  {
    forall x | x in s.ring ensures Waits(s, x) && s.fes[x].queue != [] {
      assert Shape(cfg, s.fes[x]);
    }
  }

  // ---- pipelines in progress ----

  lemma {:induction false} SameSupply(cfg: BackendPool.PoolConfig, p: BackendPool.Pool, q: BackendPool.Pool, n: nat)
    requires SameSlots(p, q) && n <= |p.conns|
    ensures PoolSupply.SpareCount(cfg, q.conns[..n]) == PoolSupply.SpareCount(cfg, p.conns[..n])
  {
    if n > 0 {
      SameSupply(cfg, p, q, n - 1);
      assert p.conns[..n][..n - 1] == p.conns[..n - 1] && q.conns[..n][..n - 1] == q.conns[..n - 1];
    }
  }

  // A step of a pipeline in progress.
  lemma TouchFair(cfg: Config, s: State, t: State, f: nat)
    requires Inv(cfg, s) && Touches(s, t, f) && Runs(s, f) && t.fes[f].log.issued == s.fes[f].log.issued
    ensures FairStep(cfg, s, t, false, NONE)
  {
    SameSupply(cfg.pool, s.pool, t.pool, |s.pool.conns|);
    assert s.pool.conns[..|s.pool.conns|] == s.pool.conns && t.pool.conns[..|s.pool.conns|] == t.pool.conns;
    assert Shape(cfg, s.fes[f]);
    assert f !in s.ring;
    InvAllWait(cfg, s);
    LocalFair(cfg, s, t, f);
  }

  lemma SubmitFair(cfg: Config, s: State, t: State, f: nat)
    requires Steady(cfg) && Inv(cfg, s) && Between(cfg, s, t, f)
    requires t.fes[f].log.issued == s.fes[f].log.issued
    ensures FairStep(cfg, s, SubmitSend(t, f), false, NONE) && FairStep(cfg, s, SubmitRecv(t, f), false, NONE)
  {
    TouchFair(cfg, s, SubmitSend(t, f), f);
    TouchFair(cfg, s, SubmitRecv(t, f), f);
  }

  // Events that give a backend back, live or to be reconnected.
  predicate Releases(cfg: Config, s: State, e: Event) {
    match e
    case SendDone(f, res) =>
      Runs(s, f) && s.fes[f].core.sendPending && res.SendError? && cfg.pool.autoReconnect
    case RecvDone(f, res) =>
      Runs(s, f) && s.fes[f].core.recvPending &&
      (if res.RecvError? || res.bytes == [] then cfg.pool.autoReconnect
       else
         var r := Received(cfg, s, f, res.bytes);
         r.Done? || (r.Bad? && cfg.pool.autoReconnect))
    case CloseConn(f) => Runs(s, f) && cfg.pool.autoReconnect
    case _ => false
  }

  lemma SendDoneFair(cfg: Config, s: State, f: nat, res: SendResult)
    requires Steady(cfg) && Inv(cfg, s) && Runs(s, f) && s.fes[f].core.sendPending
    ensures FairStep(cfg, s, OnSendDone(cfg, s, f, res), Releases(cfg, s, SendDone(f, res)), NONE)
  {
    var t := SetCore(s, f, s.fes[f].core.(sendPending := false));
    assert Shape(cfg, s.fes[f]);
    assert Between(cfg, s, t, f);
    match res
    case Again => SubmitFair(cfg, s, t, f);
    case SendError => FailFair(cfg, s, t, f);
    case Sent(n) =>
      var u := t.(pool := BackendPool.SendAdvance(t.pool, t.fes[f].core.be.value, n));
      assert Between(cfg, s, u, f);
      SubmitFair(cfg, s, u, f);
  }

  lemma RecvMoreFair(cfg: Config, s: State, t: State, f: nat, acc: Bytes, st: Framer.Status, resp: Bytes)
    requires Steady(cfg) && Inv(cfg, s) && Between(cfg, s, t, f) && t.fes[f].log == s.fes[f].log
    ensures FairStep(cfg, s, SubmitRecv(Store(t, f, acc, st, resp), f), false, NONE)
  {
    StoreBetween(cfg, s, t, f, acc, st, resp);
    SubmitFair(cfg, s, Store(t, f, acc, st, resp), f);
  }

  lemma RecvAllFair(cfg: Config, s: State, t: State, f: nat, acc: Bytes, st: Framer.Status, resp: Bytes)
    requires Steady(cfg) && Inv(cfg, s) && Between(cfg, s, t, f) && t.fes[f].log == s.fes[f].log
    ensures FairStep(cfg, s, Complete(cfg, Store(t, f, acc, st, resp), f), true, NONE)
  {
    StoreBetween(cfg, s, t, f, acc, st, resp);
    CompleteFair(cfg, s, Store(t, f, acc, st, resp), f);
  }

  lemma DataFair(cfg: Config, s: State, f: nat, data: Bytes)
    requires Steady(cfg) && Inv(cfg, s) && Runs(s, f) && s.fes[f].core.recvPending && data != []
    ensures FairStep(cfg, s, OnRecvDone(cfg, s, f, Data(data)), Releases(cfg, s, RecvDone(f, Data(data))), NONE)
  {
    var t := SetCore(s, f, s.fes[f].core.(recvPending := false));
    RecvBetween(cfg, s, f);
    assert t.fes[f].log == s.fes[f].log;
    ReceivedSame(cfg, s, f, data);
    match Received(cfg, t, f, data)
    case Bad => FailFair(cfg, s, t, f);
    case More(acc, st, resp) => RecvMoreFair(cfg, s, t, f, acc, st, resp);
    case Done(acc, st, resp) => RecvAllFair(cfg, s, t, f, acc, st, resp);
  }

  lemma RecvDoneFair(cfg: Config, s: State, f: nat, res: RecvResult)
    requires Steady(cfg) && Inv(cfg, s) && Runs(s, f) && s.fes[f].core.recvPending
    ensures FairStep(cfg, s, OnRecvDone(cfg, s, f, res), Releases(cfg, s, RecvDone(f, res)), NONE)
  {
    if res.RecvError? || res.bytes == [] {
      RecvBetween(cfg, s, f);
      FailFair(cfg, s, SetCore(s, f, s.fes[f].core.(recvPending := false)), f);
    } else {
      DataFair(cfg, s, f, res.bytes);
    }
  }

  // ---- closing ----

  // Nobody loses a place when another leaves the ring.
  lemma {:induction false} RemoveOrder(ring: seq<int>, f: int, k: nat) returns (j: nat)
    requires k < |ring| && ring[k] != f
    ensures j <= k && j < |WaitersRemove(ring, f)| && WaitersRemove(ring, f)[j] == ring[k]
    ensures forall i :: 0 <= i < j ==> WaitersRemove(ring, f)[i] in ring[..k]
  {
    var rest := WaitersRemove(ring[1..], f);
    if k == 0 {
      j := 0;
    } else {
      var i := RemoveOrder(ring[1..], f, k - 1);
      j := if ring[0] == f then i else i + 1;
      assert ring[1..][..k - 1] == ring[..k][1..];
      assert ring[..k] == [ring[0]] + ring[..k][1..];
    }
  }

  lemma LeaveAhead(cfg: Config, s: State, t: State, f: nat, k: nat)
    requires AllWait(s) && f < |s.fes| && OnlyChanges(s, t, f)
    requires t.ring == WaitersRemove(s.ring, f) && t.fes[f].log.issued == s.fes[f].log.issued
    requires k < |s.ring| && s.ring[k] != f
    ensures InRange(s, s.ring[k]) && Fair(s, t, k, false)
  {
    assert s.ring[k] in s.ring;
    var j := RemoveOrder(s.ring, f, k);
    assert Ahead(s, t, k, j);
  }

  lemma LeaveFair(cfg: Config, s: State, t: State, f: nat)
    requires AllWait(s) && Ring.AllDistinct(s.ring) && f < |s.fes| && OnlyChanges(s, t, f)
    requires t.ring == WaitersRemove(s.ring, f) && t.fes[f].log.issued == s.fes[f].log.issued && t.pool == s.pool
    ensures FairStep(cfg, s, t, false, f)
  {
    forall k: nat | Hopes(cfg, s, k, f) ensures Fair(s, t, k, false) {
      LeaveAhead(cfg, s, t, f, k);
    }
    LocalUnpassed(cfg, s, t, f, f);
    RemoveMeaning(s.ring, f);
  }

  lemma CloseFair(cfg: Config, s: State, f: nat)
    requires Steady(cfg) && Inv(cfg, s) && f < |s.fes|
    ensures FairStep(cfg, s, Close(cfg, s, f), Releases(cfg, s, CloseConn(f)), f)
  {
    if s.fes[f].core.st == Free {
      InvAllWait(cfg, s);
      LocalFair(cfg, s, s, NONE);
      Excuse(cfg, s, s, false, f);
    } else {
      assert Shape(cfg, s.fes[f]);
      if s.fes[f].core.be.Some? {
        assert Holds(s, f, s.fes[f].core.be.value);
        HolderCloseFair(cfg, s, f);
        Excuse(cfg, s, Close(cfg, s, f), Releases(cfg, s, CloseConn(f)), f);
      } else {
        InvAllWait(cfg, s);
        LeaveFair(cfg, s, Close(cfg, s, f), f);
      }
    }
  }

  lemma Excuse(cfg: Config, s: State, t: State, strict: bool, f: int)
    requires FairStep(cfg, s, t, strict, NONE)
    ensures FairStep(cfg, s, t, strict, f)
  {
    forall k: nat | Hopes(cfg, s, k, f) ensures Hopes(cfg, s, k, NONE) {
    }
  }

  lemma HolderCloseFair(cfg: Config, s: State, f: nat)
    requires Steady(cfg) && Inv(cfg, s) && Runs(s, f) && Shape(cfg, s.fes[f])
    ensures FairStep(cfg, s, Close(cfg, s, f), cfg.pool.autoReconnect, NONE)
  {
    var b := s.fes[f].core.be.value;
    assert Holds(s, f, b);
    assert f !in s.ring;
    RemoveMeaning(s.ring, f);
    PoolOwnership.FinishFrees(cfg.pool, s.pool, b, true);
    var v := SetCore(s.(pool := BackendPool.Finish(cfg.pool, s.pool, b, true)), f, s.fes[f].core.(be := None));
    EndsInv(cfg, s, v, f, b);
    var u := FairSchedule(cfg, v);
    PassInv(cfg, v, |v.ring|, f);
    assert Solo(cfg, u, Close(cfg, s, f), f);
    PassFair(cfg, s, v, Close(cfg, s, f), f);
    FinishSpare(cfg, s.pool, b, true);
    StrictOrNot(cfg, s, Close(cfg, s, f), !Starved(cfg, v), cfg.pool.autoReconnect);
  }

  // ---- frontend input ----

  // A Bind whose queued copy would start has to be one that would start itself.
  predicate KeepsForm(cfg: Config, c: Core, b: BindMsg) {
    PoolOwnership.Sendable(cfg.pool, BindBytes(cfg, c, Rewrite.QueuedBind(b))) ==>
      PoolOwnership.Sendable(cfg.pool, BindBytes(cfg, c, b))
  }

  // So it is when the queued copy is rewritten to the same pipeline; see Rewrite.DeferredBindExact.
  lemma SameFormKept(cfg: Config, c: Core, b: BindMsg)
    requires Rewrite.OnBind(c.cache, Rewrite.QueuedBind(b), c.id) == Rewrite.OnBind(c.cache, b, c.id)
    ensures KeepsForm(cfg, c, b)
  {
  }

  // A Bind arrives that goes to a backend at once, if there is one.
  predicate Arrives(s: State, f: nat, m: Msg) {
    f < |s.fes| && m.Bind? && s.fes[f].core.wait == Idle && s.fes[f].core.ready
  }

  // The message leaves no able waiter beside a backend.
  predicate Serves(cfg: Config, s: State, f: nat, m: Msg) {
    Arrives(s, f, m) && !Starved(cfg, s) ==> KeepsForm(cfg, s.fes[f].core, m.bind)
  }

  lemma BindNowLocal(cfg: Config, u: State, f: nat, m: Msg)
    requires Steady(cfg) && f < |u.fes| && PoolOwnership.PoolOk(u.pool) && f !in u.ring && |u.ring| < |u.fes|
    requires m.Bind? && u.fes[f].queue == []
    ensures var t := BindNow(cfg, u, f, m);
            && Alone(cfg, u, t, f)
            && (t.ring != u.ring ==> Supply(cfg, t) == Supply(cfg, u))
            && (t.ring != u.ring && Able(cfg, t.fes[f]) && !Starved(cfg, u) <==>
                  !Starved(cfg, u) && !KeepsForm(cfg, u.fes[f].core, m.bind))
  {
    StartSupply(cfg, u, f, m.bind, false);
    StartConfined(cfg, u, f, m.bind, false);
  }

  // Input to a frontend that is not idle.
  lemma BusyLocal(cfg: Config, s: State, f: nat, m: Msg)
    requires Steady(cfg) && Inv(cfg, s) && f < |s.fes| && (!Real(m) || s.fes[f].core.wait != Idle)
    ensures var t := Process(cfg, s, f, m); Solo(cfg, s, t, f) && t.ring == s.ring && t.pool == s.pool
  {
    assert Shape(cfg, s.fes[f]);
    assert f in s.ring <==> s.fes[f].core.wait == Waiting;
  }

  // One message: f keeps or gets its place at the end, and as to a Bind left waiting beside a
  // backend, that happens exactly when its form does not keep.
  ghost predicate Processed(cfg: Config, s: State, f: nat, m: Msg, t: State) {
    && Alone(cfg, s, t, f)
    && (Served(cfg, s) ==> (Served(cfg, t) <==> Serves(cfg, s, f, m)))
    && (!Serves(cfg, s, f, m) ==> f in t.ring && InRange(t, f) && Able(cfg, t.fes[f]) && !Starved(cfg, t))
  }

  lemma ArrivedLocal(cfg: Config, s: State, u: State, t: State, f: nat, m: Msg)
    requires f < |s.fes| && f !in s.ring && Calm(cfg, s, u, f) && u.pool == s.pool && Arrives(s, f, m)
    requires BindBytes(cfg, u.fes[f].core, m.bind) == BindBytes(cfg, s.fes[f].core, m.bind)
    requires KeepsForm(cfg, u.fes[f].core, m.bind) == KeepsForm(cfg, s.fes[f].core, m.bind)
    requires Alone(cfg, u, t, f) && (t.ring != u.ring ==> Supply(cfg, t) == Supply(cfg, u))
    requires t.ring != u.ring && Able(cfg, t.fes[f]) && !Starved(cfg, u) <==>
      !Starved(cfg, u) && !KeepsForm(cfg, u.fes[f].core, m.bind)
    ensures Processed(cfg, s, f, m, t)
  {
    if Served(cfg, s) && Serves(cfg, s, f, m) {
      assert Solo(cfg, s, t, f);
      LocalServed(cfg, s, t, f);
    }
    if !Serves(cfg, s, f, m) {
      assert t.ring[|s.ring|] == f;
    }
  }

  lemma ProcessLocal(cfg: Config, s: State, f: nat, m: Msg)
    requires Steady(cfg) && Inv(cfg, s) && f < |s.fes| && s.fes[f].core.st != Free
    ensures Processed(cfg, s, f, m, Process(cfg, s, f, m))
  {
    var fe := s.fes[f];
    assert Quiet(fe) && Shape(cfg, fe);
    if !Real(m) || fe.core.wait != Idle {
      BusyLocal(cfg, s, f, m);
      QuietProcessed(cfg, s, f, m, Process(cfg, s, f, m));
    } else {
      OpenOne(cfg, s, f);
      RingHasRoom(s, NONE, f, f);
      IdleLocal(cfg, s, f, m);
    }
  }

  lemma IdleLocal(cfg: Config, s: State, f: nat, m: Msg)
    requires Steady(cfg) && PoolOwnership.PoolOk(s.pool) && f < |s.fes| && f !in s.ring && |s.ring| < |s.fes|
    requires Real(m) && s.fes[f].core.wait == Idle && s.fes[f].queue == []
    ensures Processed(cfg, s, f, m, Process(cfg, s, f, m))
  {
    var fe := s.fes[f];
    var t := SetFe(s, f, Arrive(fe, m));
    if !m.Bind? {
      HandleCalm(cfg, t, f, m);
      QuietProcessed(cfg, s, f, m, Handle(cfg, t, f, m));
    } else {
      var u := SetCore(t, f, fe.core.(resp := [], gotExecute := false, gotSync := false));
      if !fe.core.ready {
        HandleCalm(cfg, u, f, m);
        QuietProcessed(cfg, s, f, m, Handle(cfg, u, f, m));
      } else {
        BindNowLocal(cfg, u, f, m);
        ArrivedLocal(cfg, s, u, BindNow(cfg, u, f, m), f, m);
      }
    }
  }

  lemma QuietProcessed(cfg: Config, s: State, f: nat, m: Msg, t: State)
    requires f < |s.fes| && Solo(cfg, s, t, f) && !Arrives(s, f, m)
    ensures Processed(cfg, s, f, m, t)
  {
    if Served(cfg, s) { LocalServed(cfg, s, t, f); }
  }

  // The same for a batch of input.
  predicate ServesAll(cfg: Config, s: State, f: nat, ms: seq<Msg>)
    requires f < |s.fes|
    decreases |ms|
  {
    ms == [] || (Serves(cfg, s, f, ms[0]) && ServesAll(cfg, Process(cfg, s, f, ms[0]), f, ms[1..]))
  }

  lemma {:induction false} InputAlone(cfg: Config, s: State, f: nat, ms: seq<Msg>)
    requires Steady(cfg) && Inv(cfg, s) && f < |s.fes| && s.fes[f].core.st != Free
    ensures Alone(cfg, s, ProcessAll(cfg, s, f, ms), f)
    decreases |ms|
  {
    if ms == [] {
      assert Shape(cfg, s.fes[f]);
    } else {
      var t := Process(cfg, s, f, ms[0]);
      ProcessInv(cfg, s, f, ms[0]);
      ProcessLocal(cfg, s, f, ms[0]);
      InputAlone(cfg, t, f, ms[1..]);
      AloneTrans(cfg, s, t, ProcessAll(cfg, t, f, ms[1..]), f);
    }
  }

  // An able waiter beside a backend.
  ghost predicate Overlooked(cfg: Config, s: State, f: int) {
    f in s.ring && InRange(s, f) && Able(cfg, s.fes[f]) && !Starved(cfg, s)
  }

  lemma {:induction false} OverlookedStays(cfg: Config, s: State, f: nat, ms: seq<Msg>)
    requires Steady(cfg) && Inv(cfg, s) && f < |s.fes| && s.fes[f].core.st != Free && Overlooked(cfg, s, f)
    ensures Overlooked(cfg, ProcessAll(cfg, s, f, ms), f)
    decreases |ms|
  {
    assert s.fes[f].core.wait == Waiting;
    if ms != [] {
      var t := Process(cfg, s, f, ms[0]);
      BusyLocal(cfg, s, f, ms[0]);
      PatientAble(cfg, s.fes[f], t.fes[f]);
      ProcessInv(cfg, s, f, ms[0]);
      OverlookedStays(cfg, t, f, ms[1..]);
    }
  }

  lemma {:induction false} InputServed(cfg: Config, s: State, f: nat, ms: seq<Msg>)
    requires Steady(cfg) && Inv(cfg, s) && f < |s.fes| && s.fes[f].core.st != Free && Served(cfg, s)
    ensures Served(cfg, ProcessAll(cfg, s, f, ms)) <==> ServesAll(cfg, s, f, ms)
    decreases |ms|
  {
    if ms == [] {
      FlushServed(cfg, s, f);
    } else {
      var t := Process(cfg, s, f, ms[0]);
      ProcessInv(cfg, s, f, ms[0]);
      ProcessLocal(cfg, s, f, ms[0]);
      if Serves(cfg, s, f, ms[0]) {
        InputServed(cfg, t, f, ms[1..]);
      } else {
        OverlookedStays(cfg, t, f, ms[1..]);
      }
    }
  }

  lemma FlushServed(cfg: Config, s: State, f: nat)
    requires f < |s.fes| && Served(cfg, s)
    ensures Served(cfg, Flush(s, f))
  {
    forall x | x in s.ring && InRange(s, x) && Able(cfg, Flush(s, f).fes[x]) ensures Able(cfg, s.fes[x]) {
    }
  }

  // ---- every event ----

  // The frontend an event removes.
  function Removed(e: Event): int { if e.CloseConn? then e.f else NONE }

  lemma AcceptFair(cfg: Config, s: State, id: Identity, ready: bool)
    requires Steady(cfg) && Inv(cfg, s)
    ensures FairStep(cfg, s, Step(cfg, s, Accept(id, ready)), false, NONE)
  {
    var k := FreeSlot(s.fes);
    InvAllWait(cfg, s);
    if k < |s.fes| {
      assert Shape(cfg, s.fes[k]);
      LocalFair(cfg, s, Step(cfg, s, Accept(id, ready)), k);
    } else {
      LocalFair(cfg, s, s, NONE);
    }
  }

  lemma TickFair(cfg: Config, s: State)
    requires Steady(cfg) && Inv(cfg, s)
    ensures FairStep(cfg, s, Step(cfg, s, Tick), false, NONE)
  {
    PoolSupply.MaintainSupply(cfg.pool, s.pool);
    PoolSupply.SupplyLess(cfg.pool, s.pool, BackendPool.Maintain(cfg.pool, s.pool), None);
    InvAllWait(cfg, s);
    LocalFair(cfg, s, Step(cfg, s, Tick), NONE);
  }

  lemma StayFair(cfg: Config, s: State, e: Event)
    requires Inv(cfg, s)
    ensures FairStep(cfg, s, s, false, Removed(e))
  {
    InvAllWait(cfg, s);
    LocalFair(cfg, s, s, NONE);
    Excuse(cfg, s, s, false, Removed(e));
  }

  predicate ServesEvent(cfg: Config, s: State, e: Event) {
    e.Input? && e.f < |s.fes| && s.fes[e.f].core.st != Free ==> ServesAll(cfg, s, e.f, e.ms)
  }

  // What an event does for the waiters.
  ghost predicate Treated(cfg: Config, s: State, e: Event, t: State) {
    && |t.fes| == |s.fes|
    && Placed(cfg, s, t, Releases(cfg, s, e), Removed(e))
    && (Served(cfg, s) || !e.Input? ==> Unpassed(cfg, s, t, Removed(e)))
    && (Served(cfg, s) ==> (Served(cfg, t) <==> ServesEvent(cfg, s, e)))
  }

  lemma InputTreated(cfg: Config, s: State, f: nat, ms: seq<Msg>)
    requires Steady(cfg) && Inv(cfg, s) && f < |s.fes| && s.fes[f].core.st != Free
    ensures Treated(cfg, s, Input(f, ms), ProcessAll(cfg, s, f, ms))
  {
    var t := ProcessAll(cfg, s, f, ms);
    InputAlone(cfg, s, f, ms);
    InvAllWait(cfg, s);
    LocalPlaced(cfg, s, t, f);
    if Served(cfg, s) {
      LocalUnpassed(cfg, s, t, f, NONE);
      InputServed(cfg, s, f, ms);
    }
  }

  lemma FairTreated(cfg: Config, s: State, e: Event, t: State, strict: bool)
    requires FairStep(cfg, s, t, strict, Removed(e)) && strict == Releases(cfg, s, e) && ServesEvent(cfg, s, e)
    ensures Treated(cfg, s, e, t)
  {
  }

  // For every event: an able waiter gets its backend or keeps its place, and when a backend is
  // given back it gets one or moves up. Nobody is granted one past it, unless by input while
  // it waits beside a backend; and that comes about exactly by a Bind whose form does not keep.
  lemma NoOvertaking(cfg: Config, s: State, e: Event)
    requires Steady(cfg) && Inv(cfg, s)
    ensures Treated(cfg, s, e, Step(cfg, s, e))
  {
    match e
    case Accept(id, ready) => AcceptTreated(cfg, s, id, ready);
    case Input(f, ms) => InputEventTreated(cfg, s, f, ms);
    case SendDone(f, res) => SendTreated(cfg, s, f, res);
    case RecvDone(f, res) => RecvTreated(cfg, s, f, res);
    case CloseConn(f) => CloseTreated(cfg, s, f);
    case Tick => TickTreated(cfg, s);
  }

  lemma AcceptTreated(cfg: Config, s: State, id: Identity, ready: bool)
    requires Steady(cfg) && Inv(cfg, s)
    ensures Treated(cfg, s, Accept(id, ready), Step(cfg, s, Accept(id, ready)))
  {
    AcceptFair(cfg, s, id, ready);
    FairTreated(cfg, s, Accept(id, ready), Step(cfg, s, Accept(id, ready)), false);
  }

  lemma InputEventTreated(cfg: Config, s: State, f: nat, ms: seq<Msg>)
    requires Steady(cfg) && Inv(cfg, s)
    ensures Treated(cfg, s, Input(f, ms), Step(cfg, s, Input(f, ms)))
  {
    if f < |s.fes| && s.fes[f].core.st != Free {
      InputTreated(cfg, s, f, ms);
    } else {
      StayFair(cfg, s, Input(f, ms));
      FairTreated(cfg, s, Input(f, ms), s, false);
    }
  }

  lemma SendTreated(cfg: Config, s: State, f: nat, res: SendResult)
    requires Steady(cfg) && Inv(cfg, s)
    ensures Treated(cfg, s, SendDone(f, res), Step(cfg, s, SendDone(f, res)))
  {
    var e := SendDone(f, res);
    if Runs(s, f) && s.fes[f].core.sendPending { SendDoneFair(cfg, s, f, res); } else { StayFair(cfg, s, e); }
    FairTreated(cfg, s, e, Step(cfg, s, e), Releases(cfg, s, e));
  }

  lemma RecvTreated(cfg: Config, s: State, f: nat, res: RecvResult)
    requires Steady(cfg) && Inv(cfg, s)
    ensures Treated(cfg, s, RecvDone(f, res), Step(cfg, s, RecvDone(f, res)))
  {
    var e := RecvDone(f, res);
    if Runs(s, f) && s.fes[f].core.recvPending { RecvDoneFair(cfg, s, f, res); } else { StayFair(cfg, s, e); }
    FairTreated(cfg, s, e, Step(cfg, s, e), Releases(cfg, s, e));
  }

  lemma CloseTreated(cfg: Config, s: State, f: nat)
    requires Steady(cfg) && Inv(cfg, s)
    ensures Treated(cfg, s, CloseConn(f), Step(cfg, s, CloseConn(f)))
  {
    var e, t := CloseConn(f), Step(cfg, s, CloseConn(f));
    CloseStepFair(cfg, s, f);
    FairTreated(cfg, s, e, t, Releases(cfg, s, e));
  }

  lemma CloseStepFair(cfg: Config, s: State, f: nat)
    requires Steady(cfg) && Inv(cfg, s)
    ensures FairStep(cfg, s, Step(cfg, s, CloseConn(f)), Releases(cfg, s, CloseConn(f)), f)
  {
    if f < |s.fes| { CloseFair(cfg, s, f); } else { StayFair(cfg, s, CloseConn(f)); }
  }

  lemma TickTreated(cfg: Config, s: State)
    requires Steady(cfg) && Inv(cfg, s)
    ensures Treated(cfg, s, Tick, Step(cfg, s, Tick))
  {
    TickFair(cfg, s);
    FairTreated(cfg, s, Tick, Step(cfg, s, Tick), false);
  }

  // ---- every run ----

  // No Bind of the run is left waiting beside a backend as it arrives.
  predicate ServesRun(cfg: Config, s: State, es: seq<Event>)
    decreases |es|
  {
    es == [] || (ServesEvent(cfg, s, es[0]) && ServesRun(cfg, Step(cfg, s, es[0]), es[1..]))
  }

  // Exactly then no able waiter ever waits beside a backend.
  lemma {:induction false} ServedExactly(cfg: Config, s: State, es: seq<Event>)
    requires Steady(cfg) && Inv(cfg, s) && Served(cfg, s)
    ensures ServesRun(cfg, s, es) <==> forall n :: 0 <= n <= |es| ==> Served(cfg, Run(cfg, s, es[..n]))
    decreases |es|
  {
    if es != [] {
      var t := Step(cfg, s, es[0]);
      StepInv(cfg, s, es[0]);
      NoOvertaking(cfg, s, es[0]);
      forall n | 0 < n <= |es| ensures Run(cfg, s, es[..n]) == Run(cfg, t, es[1..][..n - 1]) {
        assert es[..n][1..] == es[1..][..n - 1];
      }
      assert es[1..][..0] == [];
      if ServesEvent(cfg, s, es[0]) {
        ServedExactly(cfg, t, es[1..]);
        ShiftServed(cfg, s, es);
      } else {
        assert !Served(cfg, Run(cfg, s, es[..1]));
      }
    }
  }

  lemma ShiftServed(cfg: Config, s: State, es: seq<Event>)
    requires es != [] && Served(cfg, s)
    ensures (forall n :: 0 <= n <= |es| ==> Served(cfg, Run(cfg, s, es[..n]))) <==>
            (forall n :: 0 <= n <= |es| - 1 ==> Served(cfg, Run(cfg, Step(cfg, s, es[0]), es[1..][..n])))
  {
    forall n | 0 < n <= |es| ensures Run(cfg, s, es[..n]) == Run(cfg, Step(cfg, s, es[0]), es[1..][..n - 1]) {
      assert es[..n][1..] == es[1..][..n - 1];
    }
    if forall n :: 0 <= n <= |es| ==> Served(cfg, Run(cfg, s, es[..n])) {
      forall n | 0 <= n <= |es| - 1 ensures Served(cfg, Run(cfg, Step(cfg, s, es[0]), es[1..][..n])) {
        assert Served(cfg, Run(cfg, s, es[..n + 1]));
      }
    }
    assert Run(cfg, s, es[..0]) == s;
  }

  lemma RunServed(cfg: Config, s: State, es: seq<Event>)
    requires Steady(cfg) && Inv(cfg, s) && Served(cfg, s) && ServesRun(cfg, s, es)
    ensures Served(cfg, Run(cfg, s, es))
  {
    ServedExactly(cfg, s, es);
    assert es[..|es|] == es;
  }

  // Between events, a waiter with a well-formed Bind implies that every live backend is busy,
  // and that no dead one could be reconnected for it.
  lemma WorkConservation(cfg: Config, s: State, es: seq<Event>, f: nat)
    requires Steady(cfg) && Initial(s) && ServesRun(cfg, s, es) && f < |s.fes|
    requires var fe := Run(cfg, s, es).fes[f]; fe.core.wait == Waiting && Able(cfg, fe)
    ensures var p := Run(cfg, s, es).pool;
            forall j :: 0 <= j < |p.conns| && !p.conns[j].busy ==>
              !p.conns[j].alive && (cfg.pool.autoReconnect ==> p.conns[j].login == "")
  {
    InitialInv(cfg, s);
    RunInv(cfg, s, es);
    RunServed(cfg, s, es);
    var t := Run(cfg, s, es);
    assert f in t.ring;
    PoolSupply.NoSupply(cfg.pool, t.pool.conns);
  }

  // How many events of a run give a backend back.
  function Releasing(cfg: Config, s: State, es: seq<Event>): nat
    decreases |es|
  {
    if es == [] then 0
    else (if Releases(cfg, s, es[0]) then 1 else 0) + Releasing(cfg, Step(cfg, s, es[0]), es[1..])
  }

  // The frontend at position k of the ring has its pipeline issued no later than the (k+1)-st
  // release from now, unless it is closed first; whatever arrives, and whoever waits beside a
  // backend.
  lemma {:induction false} BoundedWaiting(cfg: Config, s: State, es: seq<Event>, k: nat) returns (n: nat)
    requires Steady(cfg) && Inv(cfg, s) && Hopes(cfg, s, k, NONE)
    requires forall i :: 0 <= i < |es| ==> Removed(es[i]) != s.ring[k]
    requires Releasing(cfg, s, es) > k
    ensures n <= |es| && Releasing(cfg, s, es[..n]) <= k + 1
    ensures Granted(s.fes[s.ring[k]], Run(cfg, s, es[..n]).fes[s.ring[k]])
    decreases |es|
  {
    var f, t := s.ring[k], Step(cfg, s, es[0]);
    FairNow(cfg, s, es[0], k);
    if Granted(s.fes[f], t.fes[f]) && f !in t.ring {
      n := 1;
      RunOne(cfg, s, es[0], es);
    } else {
      var j: nat :| Ahead(s, t, k, j) && (Releases(cfg, s, es[0]) ==> j < k);
      PatientAble(cfg, s.fes[f], t.fes[f]);
      var m := BoundedWaiting(cfg, t, es[1..], j);
      n := m + 1;
      assert es[..n][1..] == es[1..][..m];
      PatientGranted(s.fes[f], t.fes[f], Run(cfg, t, es[1..][..m]).fes[f]);
    }
  }

  // The same in every state a run can reach.
  lemma ReachableBounded(cfg: Config, s: State, before: seq<Event>, es: seq<Event>, k: nat) returns (n: nat)
    requires Steady(cfg) && Initial(s)
    requires var t := Run(cfg, s, before);
             && Hopes(cfg, t, k, NONE)
             && (forall i :: 0 <= i < |es| ==> Removed(es[i]) != t.ring[k])
             && Releasing(cfg, t, es) > k
    ensures var t := Run(cfg, s, before);
            && n <= |es| && Releasing(cfg, t, es[..n]) <= k + 1
            && Granted(t.fes[t.ring[k]], Run(cfg, t, es[..n]).fes[t.ring[k]])
  {
    InitialInv(cfg, s);
    RunInv(cfg, s, before);
    n := BoundedWaiting(cfg, Run(cfg, s, before), es, k);
  }

  lemma FairNow(cfg: Config, s: State, e: Event, k: nat)
    requires Steady(cfg) && Inv(cfg, s) && Hopes(cfg, s, k, Removed(e))
    ensures var t := Step(cfg, s, e); Fair(s, t, k, Releases(cfg, s, e)) && Inv(cfg, t)
  {
    StepInv(cfg, s, e);
    NoOvertaking(cfg, s, e);
  }

  lemma RunOne(cfg: Config, s: State, e: Event, es: seq<Event>)
    requires es != [] && es[0] == e
    ensures Run(cfg, s, es[..1]) == Step(cfg, s, e)
    ensures Releasing(cfg, s, es[..1]) <= 1
  {
    assert es[..1][1..] == [];
  }

  lemma PatientGranted(a: Fe, b: Fe, c: Fe)
    requires Patient(a, b) && Granted(b, c)
    ensures Granted(a, c)
  {
  }

  // Exactly when a Bind that arrives at an idle frontend has to wait: it is ill-formed, or no
  // backend is to be had.
  lemma ArrivalExact(cfg: Config, s: State, f: nat, b: BindMsg)
    requires Steady(cfg) && Inv(cfg, s) && f < |s.fes|
    requires s.fes[f].core.st != Free && s.fes[f].core.wait == Idle && s.fes[f].core.ready
    ensures var t := Process(cfg, s, f, Bind(b));
            && (t.fes[f].core.wait == Sending <==>
                  PoolOwnership.Sendable(cfg.pool, BindBytes(cfg, s.fes[f].core, b)) && !Starved(cfg, s))
            && (t.fes[f].core.wait != Sending ==> t.fes[f].core.wait == Waiting && t.ring == s.ring + [f])
  {
    OpenOne(cfg, s, f);
    RingHasRoom(s, NONE, f, f);
    var u := SetCore(SetFe(s, f, Arrive(s.fes[f], Bind(b))), f,
                     s.fes[f].core.(resp := [], gotExecute := false, gotSync := false));
    assert BindBytes(cfg, u.fes[f].core, b) == BindBytes(cfg, s.fes[f].core, b);
    StartSupply(cfg, u, f, b, false);
    StartConfined(cfg, u, f, b, false);
  }
}
