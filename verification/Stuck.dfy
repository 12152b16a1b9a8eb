// A Bind that cannot be sent waits for ever: in every configuration, on every network.
module Stuck {
  import opened Wire
  import opened Frontend
  import opened Scheduler
  import opened Invariant
  import opened Steps
  import opened Waiting
  import BackendPool
  import PoolOwnership
  import Framer
  import Ring

  // The frontend waits on for the same Bind.
  ghost predicate Stays(s: State, t: State, x: int) {
    InRange(s, x) && InRange(t, x) && x in s.ring && x in t.ring && Patient(s.fes[x], t.fes[x])
  }

  lemma StaysTrans(s: State, t: State, u: State, x: int)
    requires Stays(s, t, x) && Stays(t, u, x)
    ensures Stays(s, u, x)
  {
  }

  // Only g changed, and the ring at most grew.
  ghost predicate Elsewhere(s: State, t: State, g: int) {
    && |t.fes| == |s.fes| && (forall i :: InRange(s, i) && i != g ==> t.fes[i] == s.fes[i])
    && s.ring <= t.ring
  }

  lemma ElsewhereStays(s: State, t: State, g: int, x: int)
    requires Elsewhere(s, t, g) && x != g && x in s.ring && InRange(s, x)
    requires s.fes[x].core.wait == Waiting && s.fes[x].queue != []
    ensures Stays(s, t, x)
  {
    var k :| 0 <= k < |s.ring| && s.ring[k] == x;
    assert t.ring[k] == x;
  }

  lemma ElsewhereTrans(s: State, t: State, u: State, g: int)
    requires Elsewhere(s, t, g) && Elsewhere(t, u, g)
    ensures Elsewhere(s, u, g)
  {
  }

  // Whatever the pool, the Bind does not start.
  lemma StartRefused(cfg: Config, s: State, f: nat, b: BindMsg, fromQueue: bool)
    requires Proper(cfg) && f < |s.fes| && PoolOwnership.PoolOk(s.pool)
    requires !PoolOwnership.Sendable(cfg.pool, BindBytes(cfg, s.fes[f].core, b))
    ensures !StartBind(cfg, s, f, b, fromQueue).1 && StartBind(cfg, s, f, b, fromQueue).0.fes == s.fes
    ensures StartBind(cfg, s, f, b, fromQueue).0.ring == s.ring
  {
    PoolOwnership.BeginMoves(cfg.pool, s.pool, s.fes[f].core.id.group, BindBytes(cfg, s.fes[f].core, b));
  }

  // ---- a pass ----

  lemma AttemptStays(cfg: Config, s: State, o: int, w: nat)
    requires Proper(cfg) && Awaits(cfg, s, o) && w == s.ring[0] && PoolOwnership.PoolOk(s.pool)
    requires !Able(cfg, s.fes[w]) && Turned(s, Attempt(cfg, s, w), w)
    ensures Stays(s, Attempt(cfg, s, w), w)
  {
    var fe := s.fes[w];
    var p, m := Popped(s, w), fe.queue[0];
    StartRefused(cfg, p, w, m.bind, true);
    assert [m] + fe.queue[1..] == fe.queue;
    assert Attempt(cfg, s, w) == Flush(StartOrPark(cfg, p, w, m), w);
  }

  lemma TurnStays(cfg: Config, s: State, o: int, x: int)
    requires Proper(cfg) && InvOpen(cfg, s, o, NONE) && x in s.ring && InRange(s, x) && !Able(cfg, s.fes[x])
    ensures InvOpen(cfg, Turn(cfg, s), o, NONE) && Stays(s, Turn(cfg, s), x)
  {
    HeadAwaits(cfg, s, o);
    TurnInv(cfg, s, o);
    Ring.DistinctTail(s.ring);
    Ring.Pigeonhole(s.ring, |s.fes|);
    TurnIsAttempt(cfg, s, o);
    var w := s.ring[0];
    if x == w {
      AttemptStays(cfg, s, o, w);
    } else {
      assert Shape(cfg, s.fes[x]);
      assert x in s.ring[1..];
    }
  }

  lemma PassStays(cfg: Config, s: State, attempts: nat, o: int, x: int)
    requires Proper(cfg) && InvOpen(cfg, s, o, NONE) && x in s.ring && InRange(s, x) && !Able(cfg, s.fes[x])
    ensures Stays(s, Pass(cfg, s, attempts), x)
  {
    assert Shape(cfg, s.fes[x]);
    var good := u => InvOpen(cfg, u, o, NONE) && Stays(s, u, x);
    forall u | good(u) && u.ring != [] ensures good(Turn(cfg, u)) {
      PatientAble(cfg, s.fes[x], u.fes[x]);
      TurnStays(cfg, u, o, x);
      StaysTrans(s, u, Turn(cfg, u), x);
    }
    PassKeeps(cfg, s, attempts, good);
  }

  // ---- steps of another frontend ----

  lemma StartElsewhere(cfg: Config, s: State, g: nat, b: BindMsg, fromQueue: bool)
    requires g < |s.fes|
    ensures Elsewhere(s, StartBind(cfg, s, g, b, fromQueue).0, g)
  {
  }

  lemma ParkElsewhere(s: State, g: nat)
    requires g < |s.fes|
    ensures Elsewhere(s, Park(s, g).0, g)
  {
  }

  lemma StartOrParkElsewhere(cfg: Config, s: State, g: nat, m: Msg)
    requires g < |s.fes| && m.Bind?
    ensures Elsewhere(s, StartOrPark(cfg, s, g, m), g)
  {
    var (t, ok) := StartBind(cfg, s, g, m.bind, true);
    StartElsewhere(cfg, s, g, m.bind, true);
    if !ok { ParkElsewhere(SetFe(t, g, t.fes[g].(queue := [m] + t.fes[g].queue)), g); }
  }

  lemma {:induction false} DrainElsewhere(cfg: Config, s: State, g: nat)
    requires g < |s.fes|
    ensures Elsewhere(s, Drain(cfg, s, g), g)
    decreases |s.fes[g].queue|
  {
    var fe := s.fes[g];
    if fe.core.wait == Idle && fe.queue != [] {
      var m := fe.queue[0];
      var popped := SetFe(s, g, fe.(queue := fe.queue[1..]));
      if m.Bind? && fe.core.ready {
        StartOrParkElsewhere(cfg, popped, g, m);
      } else {
        DrainElsewhere(cfg, Handle(cfg, popped, g, m), g);
        ElsewhereTrans(s, Handle(cfg, popped, g, m), Drain(cfg, s, g), g);
      }
    }
  }

  lemma ProcessElsewhere(cfg: Config, s: State, g: nat, m: Msg)
    requires g < |s.fes|
    ensures Elsewhere(s, Process(cfg, s, g, m), g)
  {
    var fe := s.fes[g];
    if Real(m) && fe.core.wait == Idle && m.Bind? && fe.core.ready {
      var u := SetCore(SetFe(s, g, Arrive(fe, m)), g, fe.core.(resp := [], gotExecute := false, gotSync := false));
      BindElsewhere(cfg, u, g, m);
    }
  }

  lemma BindElsewhere(cfg: Config, u: State, g: nat, m: Msg)
    requires g < |u.fes| && m.Bind?
    ensures Elsewhere(u, BindNow(cfg, u, g, m), g)
  {
    StartElsewhere(cfg, u, g, m.bind, false);
  }

  // Input of the waiter itself only joins its queue.
  lemma OwnInput(cfg: Config, s: State, f: nat, m: Msg)
    requires f < |s.fes| && f in s.ring && s.fes[f].core.wait == Waiting && s.fes[f].queue != []
    ensures Stays(s, Process(cfg, s, f, m), f)
  {
  }

  lemma {:induction false} InputStays(cfg: Config, s: State, g: nat, ms: seq<Msg>, x: int)
    requires Proper(cfg) && Inv(cfg, s) && g < |s.fes| && s.fes[g].core.st != Free && x in s.ring && InRange(s, x)
    ensures Stays(s, ProcessAll(cfg, s, g, ms), x)
    decreases |ms|
  {
    assert Shape(cfg, s.fes[x]);
    if ms != [] {
      var t := Process(cfg, s, g, ms[0]);
      ProcessInv(cfg, s, g, ms[0]);
      if x == g {
        OwnInput(cfg, s, g, ms[0]);
      } else {
        ProcessElsewhere(cfg, s, g, ms[0]);
        ElsewhereStays(s, t, g, x);
      }
      InputStays(cfg, t, g, ms[1..], x);
      StaysTrans(s, t, ProcessAll(cfg, t, g, ms[1..]), x);
    }
  }

  // ---- the end of a pipeline ----

  lemma ReleaseStays(cfg: Config, s: State, w: State, g: nat, x: int)
    requires Proper(cfg) && g < |w.fes| && x != g && x in w.ring && InRange(w, x) && !Able(cfg, w.fes[x])
    requires var v := SetCore(w, g, ReleaseCore(w.fes[g].core)); InvOpen(cfg, v, g, NONE)
    requires Stays(s, w, x)
    ensures Stays(s, AfterRelease(cfg, w, g), x)
  {
    var v := SetCore(w, g, ReleaseCore(w.fes[g].core));
    var u := FairSchedule(cfg, v);
    PassStays(cfg, v, |v.ring|, g, x);
    assert v.ring != [];
    DrainElsewhere(cfg, u, g);
    ElsewhereStays(u, AfterRelease(cfg, w, g), g, x);
  }

  lemma FailStays(cfg: Config, s: State, t: State, g: nat, x: int)
    requires Proper(cfg) && Inv(cfg, s) && Between(cfg, s, t, g)
    requires x in s.ring && InRange(s, x) && !Able(cfg, s.fes[x])
    ensures Stays(s, Fail(cfg, t, g), x)
  {
    var b := s.fes[g].core.be.value;
    var fe := t.fes[g].(core := FailCore(t.fes[g].core));
    var w := SetFe(t.(pool := BackendPool.Finish(cfg.pool, t.pool, b, true)), g, fe);
    EndOpen(cfg, s, t, w, g, fe, true);
    assert Shape(cfg, s.fes[x]);
    ReleaseStays(cfg, s, w, g, x);
  }

  lemma CompleteStays(cfg: Config, s: State, t: State, g: nat, x: int)
    requires Proper(cfg) && Inv(cfg, s) && Between(cfg, s, t, g)
    requires x in s.ring && InRange(s, x) && !Able(cfg, s.fes[x])
    ensures Stays(s, Complete(cfg, t, g), x)
  {
    var b := s.fes[g].core.be.value;
    var sawError := Conn(t, g).pipe.st.sawError;
    var fe := if sawError then Drop(t.fes[g]) else t.fes[g];
    var d := fe.(core := CompleteCore(fe.core, sawError));
    var w := SetFe(t.(pool := BackendPool.Finish(cfg.pool, t.pool, b, false)), g, d);
    EndOpen(cfg, s, t, w, g, d, false);
    assert Shape(cfg, s.fes[x]);
    ReleaseStays(cfg, s, w, g, x);
  }

  lemma SubmitStays(cfg: Config, s: State, t: State, g: nat, x: int)
    requires Inv(cfg, s) && Between(cfg, s, t, g) && x in s.ring && InRange(s, x)
    ensures Stays(s, SubmitSend(t, g), x) && Stays(s, SubmitRecv(t, g), x)
  {
    assert Shape(cfg, s.fes[x]);
    ElsewhereStays(s, SubmitSend(t, g), g, x);
    ElsewhereStays(s, SubmitRecv(t, g), g, x);
  }

  lemma SendDoneStays(cfg: Config, s: State, g: nat, res: SendResult, x: int)
    requires Proper(cfg) && Inv(cfg, s) && Runs(s, g) && s.fes[g].core.sendPending
    requires x in s.ring && InRange(s, x) && !Able(cfg, s.fes[x])
    ensures Stays(s, OnSendDone(cfg, s, g, res), x)
  {
    var t := SetCore(s, g, s.fes[g].core.(sendPending := false));
    assert Shape(cfg, s.fes[g]);
    assert Between(cfg, s, t, g);
    match res
    case Again => SubmitStays(cfg, s, t, g, x);
    case SendError => FailStays(cfg, s, t, g, x);
    case Sent(n) =>
      var u := t.(pool := BackendPool.SendAdvance(t.pool, t.fes[g].core.be.value, n));
      assert Between(cfg, s, u, g);
      SubmitStays(cfg, s, u, g, x);
  }

  lemma MoreStays(cfg: Config, s: State, t: State, g: nat, acc: Bytes, st: Framer.Status, resp: Bytes, x: int)
    requires Proper(cfg) && Inv(cfg, s) && Between(cfg, s, t, g) && x in s.ring && InRange(s, x)
    ensures Stays(s, SubmitRecv(Store(t, g, acc, st, resp), g), x)
  {
    StoreBetween(cfg, s, t, g, acc, st, resp);
    SubmitStays(cfg, s, Store(t, g, acc, st, resp), g, x);
  }

  lemma DoneStays(cfg: Config, s: State, t: State, g: nat, acc: Bytes, st: Framer.Status, resp: Bytes, x: int)
    requires Proper(cfg) && Inv(cfg, s) && Between(cfg, s, t, g)
    requires x in s.ring && InRange(s, x) && !Able(cfg, s.fes[x])
    ensures Stays(s, Complete(cfg, Store(t, g, acc, st, resp), g), x)
  {
    StoreBetween(cfg, s, t, g, acc, st, resp);
    CompleteStays(cfg, s, Store(t, g, acc, st, resp), g, x);
  }

  lemma RecvDoneStays(cfg: Config, s: State, g: nat, res: RecvResult, x: int)
    requires Proper(cfg) && Inv(cfg, s) && Runs(s, g) && s.fes[g].core.recvPending
    requires x in s.ring && InRange(s, x) && !Able(cfg, s.fes[x])
    ensures Stays(s, OnRecvDone(cfg, s, g, res), x)
  {
    var t := SetCore(s, g, s.fes[g].core.(recvPending := false));
    RecvBetween(cfg, s, g);
    if res.RecvError? || res.bytes == [] {
      FailStays(cfg, s, t, g, x);
    } else {
      match Received(cfg, t, g, res.bytes)
      case Bad => FailStays(cfg, s, t, g, x);
      case More(acc, st, resp) => MoreStays(cfg, s, t, g, acc, st, resp, x);
      case Done(acc, st, resp) => DoneStays(cfg, s, t, g, acc, st, resp, x);
    }
  }

  lemma HolderStays(cfg: Config, s: State, v: State, g: nat, x: int)
    requires Proper(cfg) && Inv(cfg, s) && Runs(s, g) && Shape(cfg, s.fes[g])
    requires x in s.ring && InRange(s, x) && !Able(cfg, s.fes[x])
    requires v == SetCore(s.(pool := BackendPool.Finish(cfg.pool, s.pool, s.fes[g].core.be.value, true)), g,
                          s.fes[g].core.(be := None))
    ensures x != g && Stays(s, FairSchedule(cfg, v), x)
  {
    var b := s.fes[g].core.be.value;
    assert Holds(s, g, b);
    assert Shape(cfg, s.fes[x]);
    PoolOwnership.FinishFrees(cfg.pool, s.pool, b, true);
    EndsInv(cfg, s, v, g, b);
    PassStays(cfg, v, |v.ring|, g, x);
  }

  lemma CloseStays(cfg: Config, s: State, g: nat, x: int)
    requires Proper(cfg) && Inv(cfg, s) && g < |s.fes| && x != g
    requires x in s.ring && InRange(s, x) && !Able(cfg, s.fes[x])
    ensures Stays(s, Close(cfg, s, g), x)
  {
    assert Shape(cfg, s.fes[g]) && Shape(cfg, s.fes[x]);
    RemoveMeaning(s.ring, g);
    if s.fes[g].core.st != Free && s.fes[g].core.be.Some? {
      assert Holds(s, g, s.fes[g].core.be.value);
      var pool := BackendPool.Finish(cfg.pool, s.pool, s.fes[g].core.be.value, true);
      HolderStays(cfg, s, SetCore(s.(pool := pool), g, s.fes[g].core.(be := None)), g, x);
    }
  }

  // ---- every event, every run ----

  lemma StepStays(cfg: Config, s: State, e: Event, x: int)
    requires Proper(cfg) && Inv(cfg, s) && x in s.ring && InRange(s, x) && !Able(cfg, s.fes[x])
    requires !(e.CloseConn? && e.f == x)
    ensures Stays(s, Step(cfg, s, e), x)
  {
    assert Shape(cfg, s.fes[x]);
    match e
    case Accept(id, ready) =>
    case Input(g, ms) => if g < |s.fes| && s.fes[g].core.st != Free { InputStays(cfg, s, g, ms, x); }
    case SendDone(g, res) => if Runs(s, g) && s.fes[g].core.sendPending { SendDoneStays(cfg, s, g, res, x); }
    case RecvDone(g, res) => if Runs(s, g) && s.fes[g].core.recvPending { RecvDoneStays(cfg, s, g, res, x); }
    case CloseConn(g) => if g < |s.fes| { CloseStays(cfg, s, g, x); }
    case Tick =>
  }

  // A Bind that the rewrite refuses, or whose rewritten form does not fit, waits until its
  // connection is closed, however many backends become idle: nothing is promised to it.
  lemma {:induction false} IllFormedWaitsForever(cfg: Config, s: State, es: seq<Event>, x: int)
    requires Proper(cfg) && Inv(cfg, s) && x in s.ring && InRange(s, x) && !Able(cfg, s.fes[x])
    requires forall i :: 0 <= i < |es| ==> !(es[i].CloseConn? && es[i].f == x)
    ensures x in Run(cfg, s, es).ring && Run(cfg, s, es).fes[x].log.issued == s.fes[x].log.issued
    decreases |es|
  {
    if es != [] {
      var t := Step(cfg, s, es[0]);
      StepInv(cfg, s, es[0]);
      StepStays(cfg, s, es[0], x);
      PatientAble(cfg, s.fes[x], t.fes[x]);
      IllFormedWaitsForever(cfg, t, es[1..], x);
    }
  }
}
