// When messages are lost: exactly which events drop how many.
module Loss {
  import opened Wire
  import opened Frontend
  import opened Scheduler
  import opened Invariant
  import opened Steps
  import Framer
  import BackendPool
  import PoolOwnership

  // ---- what arrived and what was lost is untouched by scheduling ----

  predicate Even(a: Fe, b: Fe) { b.log.arrived == a.log.arrived && b.log.lost == a.log.lost }

  ghost predicate AllEven(s: State, t: State) {
    |t.fes| == |s.fes| && forall i :: InRange(s, i) ==> Even(s.fes[i], t.fes[i])
  }

  lemma StartEven(cfg: Config, s: State, f: nat, b: BindMsg, fromQueue: bool)
    requires f < |s.fes|
    ensures AllEven(s, StartBind(cfg, s, f, b, fromQueue).0)
  {
  }

  lemma HandleEven(cfg: Config, s: State, f: nat, m: Msg)
    requires f < |s.fes|
    ensures AllEven(s, Handle(cfg, s, f, m))
  {
  }

  lemma StartOrParkEven(cfg: Config, s: State, f: nat, m: Msg)
    requires f < |s.fes| && m.Bind?
    ensures AllEven(s, StartOrPark(cfg, s, f, m))
  {
    StartEven(cfg, s, f, m.bind, true);
  }

  lemma {:induction false} DrainEven(cfg: Config, s: State, f: nat)
    requires f < |s.fes|
    ensures AllEven(s, Drain(cfg, s, f))
    decreases |s.fes[f].queue|
  {
    var fe := s.fes[f];
    if fe.core.wait == Idle && fe.queue != [] {
      var m := fe.queue[0];
      var popped := SetFe(s, f, fe.(queue := fe.queue[1..]));
      if m.Bind? && fe.core.ready {
        StartOrParkEven(cfg, popped, f, m);
      } else {
        HandleEven(cfg, popped, f, m);
        DrainEven(cfg, Handle(cfg, popped, f, m), f);
      }
    }
  }

  lemma TurnEven(cfg: Config, s: State)
    requires s.ring != []
    ensures AllEven(s, Turn(cfg, s))
  {
    var w := s.ring[0];
    var t := s.(ring := s.ring[1..]);
    if InRange(t, w) && t.fes[w].core.st != Free && t.fes[w].core.wait == Waiting {
      DrainEven(cfg, SetCore(t, w, t.fes[w].core.(wait := Idle)), w);
    }
  }

  lemma {:induction false} PassEven(cfg: Config, s: State, attempts: nat)
    ensures AllEven(s, Pass(cfg, s, attempts))
    decreases attempts
  {
    if attempts > 0 && s.ring != [] {
      TurnEven(cfg, s);
      PassEven(cfg, Turn(cfg, s), attempts - 1);
    }
  }

  lemma AfterReleaseEven(cfg: Config, s: State, f: nat)
    requires f < |s.fes|
    ensures AllEven(s, AfterRelease(cfg, s, f))
  {
    var t := SetCore(s, f, ReleaseCore(s.fes[f].core));
    PassEven(cfg, t, |t.ring|);
    var u := if t.ring != [] then FairSchedule(cfg, t) else t;
    DrainEven(cfg, u, f);
  }

  // ---- what an event adds ----

  function Reals(ms: seq<Msg>): seq<Msg> {
    if ms == [] then [] else (if Real(ms[0]) then [ms[0]] else []) + Reals(ms[1..])
  }

  // The messages that find the queue full.
  function Overflow(cfg: Config, s: State, f: nat, ms: seq<Msg>): nat
    requires f < |s.fes|
    decreases |ms|
  {
    if ms == [] then 0
    else (if Real(ms[0]) && s.fes[f].core.wait != Idle && |s.fes[f].queue| >= cfg.queueMax then 1 else 0)
         + Overflow(cfg, Process(cfg, s, f, ms[0]), f, ms[1..])
  }

  // The receive completes the pipeline of f, which reported an SQL error.
  predicate EndsInError(cfg: Config, s: State, f: nat, res: RecvResult) {
    && Runs(s, f) && s.fes[f].core.recvPending && res.Data? && res.bytes != []
    && Received(cfg, s, f, res.bytes).Done? && Received(cfg, s, f, res.bytes).st.sawError
  }

  // The messages of connection f that an event brings, and those it loses.
  function Brought(s: State, e: Event, f: nat): seq<Msg>
    requires f < |s.fes|
  {
    if e.Input? && e.f == f && s.fes[f].core.st != Free then Reals(e.ms) else []
  }

  function LostBy(cfg: Config, s: State, e: Event, f: nat): nat
    requires f < |s.fes|
  {
    match e
    case Input(g, ms) => if g == f && s.fes[f].core.st != Free then Overflow(cfg, s, f, ms) else 0
    case RecvDone(g, res) => if g == f && EndsInError(cfg, s, f, res) then |s.fes[f].queue| else 0
    case CloseConn(g) => if g == f && s.fes[f].core.st != Free then |s.fes[f].queue| else 0
    case _ => 0
  }

  ghost predicate Adds(a: Fe, b: Fe, brought: seq<Msg>, lost: nat) {
    b.log.arrived == a.log.arrived + brought && b.log.lost == a.log.lost + lost
  }

  // Frontend g gains that much; the others nothing.
  ghost predicate AddsAt(s: State, t: State, g: int, brought: seq<Msg>, lost: nat) {
    && |t.fes| == |s.fes|
    && (forall i :: InRange(s, i) && i != g ==> Even(s.fes[i], t.fes[i]))
    && (InRange(s, g) ==> Adds(s.fes[g], t.fes[g], brought, lost))
  }

  lemma FailEven(cfg: Config, s: State, f: nat)
    requires Runs(s, f)
    ensures AllEven(s, Fail(cfg, s, f))
  {
    var pool := BackendPool.Finish(cfg.pool, s.pool, s.fes[f].core.be.value, true);
    AfterReleaseEven(cfg, SetCore(s.(pool := pool), f, FailCore(s.fes[f].core)), f);
  }

  lemma CompleteAdds(cfg: Config, s: State, f: nat)
    requires Runs(s, f)
    ensures AddsAt(s, Complete(cfg, s, f), f, [], if Conn(s, f).pipe.st.sawError then |s.fes[f].queue| else 0)
  {
    var sawError := Conn(s, f).pipe.st.sawError;
    var fe := if sawError then Drop(s.fes[f]) else s.fes[f];
    var pool := BackendPool.Finish(cfg.pool, s.pool, fe.core.be.value, false);
    AfterReleaseEven(cfg, SetFe(s.(pool := pool), f, fe.(core := CompleteCore(fe.core, sawError))), f);
  }

  lemma SubmitEven(s: State, f: nat)
    requires Runs(s, f)
    ensures AllEven(s, SubmitSend(s, f)) && AllEven(s, SubmitRecv(s, f))
  {
  }

  lemma SendDoneEven(cfg: Config, s: State, f: nat, res: SendResult)
    requires Runs(s, f)
    ensures AllEven(s, OnSendDone(cfg, s, f, res))
  {
    var t := SetCore(s, f, s.fes[f].core.(sendPending := false));
    match res
    case Again => SubmitEven(t, f);
    case SendError => FailEven(cfg, t, f);
    case Sent(n) => SubmitEven(t.(pool := BackendPool.SendAdvance(t.pool, t.fes[f].core.be.value, n)), f);
  }

  lemma RecvDoneAdds(cfg: Config, s: State, f: nat, res: RecvResult)
    requires Runs(s, f) && s.fes[f].core.recvPending
    ensures AddsAt(s, OnRecvDone(cfg, s, f, res), f, [], if EndsInError(cfg, s, f, res) then |s.fes[f].queue| else 0)
  {
    if res.RecvError? || res.bytes == [] {
      FailEven(cfg, SetCore(s, f, s.fes[f].core.(recvPending := false)), f);
    } else {
      DataAdds(cfg, s, f, res.bytes);
    }
  }

  lemma DataAdds(cfg: Config, s: State, f: nat, data: Bytes)
    requires Runs(s, f) && s.fes[f].core.recvPending && data != []
    ensures AddsAt(s, OnRecvDone(cfg, s, f, Data(data)), f, [],
                   if EndsInError(cfg, s, f, Data(data)) then |s.fes[f].queue| else 0)
  {
    var t := SetCore(s, f, s.fes[f].core.(recvPending := false));
    ReceivedSame(cfg, s, f, data);
    match Received(cfg, t, f, data)
    case Bad => FailEven(cfg, t, f);
    case More(acc, st, resp) => StoreMoreEven(t, f, acc, st, resp);
    case Done(acc, st, resp) => StoreDoneAdds(cfg, t, f, acc, st, resp);
  }

  lemma StoreMoreEven(s: State, f: nat, acc: Bytes, st: Framer.Status, resp: Bytes)
    requires Runs(s, f)
    ensures AllEven(s, SubmitRecv(Store(s, f, acc, st, resp), f))
  {
    SubmitEven(Store(s, f, acc, st, resp), f);
  }

  lemma StoreDoneAdds(cfg: Config, s: State, f: nat, acc: Bytes, st: Framer.Status, resp: Bytes)
    requires Runs(s, f)
    ensures AddsAt(s, Complete(cfg, Store(s, f, acc, st, resp), f), f, [], if st.sawError then |s.fes[f].queue| else 0)
  {
    CompleteAdds(cfg, Store(s, f, acc, st, resp), f);
  }

  lemma HolderCloseEven(cfg: Config, s: State, v: State, f: nat)
    requires Proper(cfg) && Inv(cfg, s) && Runs(s, f) && Shape(cfg, s.fes[f])
    requires v == SetCore(s.(pool := BackendPool.Finish(cfg.pool, s.pool, s.fes[f].core.be.value, true)), f,
                          s.fes[f].core.(be := None))
    ensures AllEven(s, FairSchedule(cfg, v)) && FairSchedule(cfg, v).fes[f] == v.fes[f]
  {
    var b := s.fes[f].core.be.value;
    assert Holds(s, f, b);
    PoolOwnership.FinishFrees(cfg.pool, s.pool, b, true);
    EndsInv(cfg, s, v, f, b);
    PassInv(cfg, v, |v.ring|, f);
    PassEven(cfg, v, |v.ring|);
  }

  lemma CloseAdds(cfg: Config, s: State, f: nat)
    requires Proper(cfg) && Inv(cfg, s) && f < |s.fes|
    ensures AddsAt(s, Close(cfg, s, f), f, [], if s.fes[f].core.st == Free then 0 else |s.fes[f].queue|)
  {
    assert Shape(cfg, s.fes[f]);
    if s.fes[f].core.st != Free && s.fes[f].core.be.Some? {
      assert Holds(s, f, s.fes[f].core.be.value);
      RemoveMeaning(s.ring, f);
      HolderCloseEven(cfg, s,
        SetCore(s.(pool := BackendPool.Finish(cfg.pool, s.pool, s.fes[f].core.be.value, true)), f,
                s.fes[f].core.(be := None)), f);
    }
  }

  lemma HandledAdds(cfg: Config, s: State, t: State, f: nat, m: Msg)
    requires f < |s.fes| && OnlyAdds(s, t, f, m)
    ensures OnlyAdds(s, Handle(cfg, t, f, m), f, m)
  {
    HandleEven(cfg, t, f, m);
  }

  ghost predicate OnlyAdds(s: State, t: State, f: nat, m: Msg) { AddsAt(s, t, f, if Real(m) then [m] else [], 0) }

  lemma BindNowAdds(cfg: Config, s: State, t: State, f: nat, m: Msg)
    requires f < |s.fes| && OnlyAdds(s, t, f, m) && m.Bind?
    ensures OnlyAdds(s, BindNow(cfg, t, f, m), f, m)
  {
    StartEven(cfg, t, f, m.bind, false);
  }

  lemma IdleAdds(cfg: Config, s: State, f: nat, m: Msg)
    requires f < |s.fes| && (s.fes[f].core.wait == Idle || !Real(m))
    ensures OnlyAdds(s, Process(cfg, s, f, m), f, m)
  {
    var fe := s.fes[f];
    if !Real(m) {
      HandledAdds(cfg, s, s, f, m);
    } else {
      var t := SetFe(s, f, Arrive(fe, m));
      if !m.Bind? {
        HandledAdds(cfg, s, t, f, m);
      } else {
        var u := SetCore(t, f, fe.core.(resp := [], gotExecute := false, gotSync := false));
        if !fe.core.ready { HandledAdds(cfg, s, u, f, m); } else { BindNowAdds(cfg, s, u, f, m); }
      }
    }
  }

  lemma ProcessAdds(cfg: Config, s: State, f: nat, m: Msg)
    requires f < |s.fes|
    ensures AddsAt(s, Process(cfg, s, f, m), f, Reals([m]), Overflow(cfg, s, f, [m]))
  {
    assert Reals([m]) == if Real(m) then [m] else [];
    var full := s.fes[f].core.wait != Idle && |s.fes[f].queue| >= cfg.queueMax;
    assert Overflow(cfg, s, f, [m]) == if Real(m) && full then 1 else 0;
    if s.fes[f].core.wait == Idle || !Real(m) { IdleAdds(cfg, s, f, m); }
  }

  lemma {:induction false} InputAdds(cfg: Config, s: State, f: nat, ms: seq<Msg>)
    requires f < |s.fes|
    ensures AddsAt(s, ProcessAll(cfg, s, f, ms), f, Reals(ms), Overflow(cfg, s, f, ms))
    decreases |ms|
  {
    if ms != [] {
      var t := Process(cfg, s, f, ms[0]);
      ProcessAdds(cfg, s, f, ms[0]);
      InputAdds(cfg, t, f, ms[1..]);
      AddsTrans(s, t, ProcessAll(cfg, t, f, ms[1..]), f, ms,
                Overflow(cfg, s, f, [ms[0]]), Overflow(cfg, t, f, ms[1..]));
    }
  }

  lemma AddsTrans(s: State, t: State, u: State, f: nat, ms: seq<Msg>, x: nat, y: nat)
    requires ms != [] && AddsAt(s, t, f, Reals([ms[0]]), x) && AddsAt(t, u, f, Reals(ms[1..]), y)
    ensures AddsAt(s, u, f, Reals(ms), x + y)
  {
    assert Reals([ms[0]]) == if Real(ms[0]) then [ms[0]] else [];
    if f < |s.fes| {
      assert u.fes[f].log.arrived == s.fes[f].log.arrived + (Reals([ms[0]]) + Reals(ms[1..]));
    }
  }

  // Messages arrive only as input of their connection, and are lost only when the queue is
  // full, when they are queued while the connection's pipeline ends in an SQL error, or when
  // the connection is closed: every event accounts exactly for every connection.
  lemma LossExact(cfg: Config, s: State, e: Event, f: nat)
    requires Proper(cfg) && Inv(cfg, s) && f < |s.fes|
    requires !(e.Accept? && f == FreeSlot(s.fes))
    ensures Adds(s.fes[f], Step(cfg, s, e).fes[f], Brought(s, e, f), LostBy(cfg, s, e, f))
  {
    match e
    case Accept(id, ready) =>
    case Input(g, ms) => if g < |s.fes| { InputAdds(cfg, s, g, ms); }
    case SendDone(g, res) => if Runs(s, g) { SendDoneEven(cfg, s, g, res); }
    case RecvDone(g, res) => if Runs(s, g) && s.fes[g].core.recvPending { RecvDoneAdds(cfg, s, g, res); }
    case CloseConn(g) => if g < |s.fes| { CloseAdds(cfg, s, g); }
    case Tick =>
  }
}
