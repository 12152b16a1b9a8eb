// Every event keeps the invariant, so every reachable state has it.
module Steps {
  import opened Wire
  import opened Frontend
  import opened Scheduler
  import opened Invariant
  import Rewrite
  import Framer
  import BackendPool
  import PoolOwnership
  import Ring

  // ---- giving a backend back ----

  // The end of f's pipeline on slot b: f is open now, and b is idle.
  ghost predicate Ends(s: State, t: State, f: nat, b: nat) {
    && f < |s.fes| && |t.fes| == |s.fes| && t.fes == s.fes[f := t.fes[f]] && t.ring == s.ring
    && Holds(s, f, b) && t.fes[f].core.be.None?
    && b < |s.pool.conns| && PoolOwnership.Frees(s.pool, t.pool, b)
  }

  lemma EndsOwned(s: State, t: State, f: nat, b: nat)
    requires Owned(s) && Ends(s, t, f, b)
    ensures Owned(t)
  {
    forall i, c: nat | i != f
      ensures Holds(t, i, c) <==> Holds(s, i, c)
    {
    }
    assert forall c: nat :: !Holds(t, f, c);
    forall c: nat | c < |t.pool.conns| && t.pool.conns[c].busy
      ensures exists i :: Holds(t, i, c)
    {
      var i :| Holds(s, i, c);
      assert Holds(t, i, c);
    }
    forall i, c: nat | Holds(t, i, c)
      ensures c < |t.pool.conns| && t.pool.conns[c].busy
    {
      assert Holds(s, i, c);
    }
  }

  lemma EndsInv(cfg: Config, s: State, t: State, f: nat, b: nat)
    requires Inv(cfg, s) && Ends(s, t, f, b)
    ensures InvOpen(cfg, t, f, NONE) && f !in t.ring
  {
    EndsOwned(s, t, f, b);
    assert Shape(cfg, s.fes[f]);
    assert f !in s.ring;
  }

  lemma OpenSwap(cfg: Config, s: State, f: nat)
    requires InvOpen(cfg, s, f, NONE)
    ensures InvOpen(cfg, s, NONE, f)
  {
  }

  lemma FlushIdle(cfg: Config, s: State, f: nat)
    requires f < |s.fes| && Drainable(cfg, s.fes[f]) && s.fes[f].queue == [] && PoolOwnership.PoolOk(s.pool)
    ensures var t := Flush(s, f);
            Confined(s, t, f) && Shape(cfg, t.fes[f]) && Quiet(t.fes[f])
  {
  }

  // Waiters first, then f's own queue.
  lemma ResumeInv(cfg: Config, t: State, f: nat)
    requires Proper(cfg) && f < |t.fes| && InvOpen(cfg, t, f, NONE) && f !in t.ring && Drainable(cfg, t.fes[f])
    ensures var u := if t.ring != [] then FairSchedule(cfg, t) else t;
            var v := if u.fes[f].core.wait == Idle && u.fes[f].queue != [] then Drain(cfg, u, f) else Flush(u, f);
            Inv(cfg, v)
  {
    PassInv(cfg, t, |t.ring|, f);
    var u := if t.ring != [] then FairSchedule(cfg, t) else t;
    assert u.fes[f] == t.fes[f];
    FinishInv(cfg, u, f);
  }

  lemma FinishInv(cfg: Config, u: State, f: nat)
    requires Proper(cfg) && f < |u.fes| && InvOpen(cfg, u, f, NONE) && f !in u.ring && Drainable(cfg, u.fes[f])
    ensures Inv(cfg, if u.fes[f].core.wait == Idle && u.fes[f].queue != [] then Drain(cfg, u, f) else Flush(u, f))
  {
    OpenSwap(cfg, u, f);
    RingHasRoom(u, f, NONE, f);
    if u.fes[f].queue != [] {
      DrainConfined(cfg, u, f);
      ConfinedKeepsInv(cfg, u, Drain(cfg, u, f), f, NONE);
    } else {
      FlushIdle(cfg, u, f);
      ConfinedKeepsInv(cfg, u, Flush(u, f), f, NONE);
    }
  }

  lemma AfterReleaseInv(cfg: Config, s: State, f: nat)
    requires Proper(cfg) && f < |s.fes| && f !in s.ring
    requires var t := SetCore(s, f, ReleaseCore(s.fes[f].core));
             InvOpen(cfg, t, f, NONE) && Drainable(cfg, t.fes[f])
    ensures Inv(cfg, AfterRelease(cfg, s, f))
  {
    ResumeInv(cfg, SetCore(s, f, ReleaseCore(s.fes[f].core)), f);
  }

  // ---- pipelines in progress ----

  // No slot's flags or login changed.
  ghost predicate SameSlots(p: BackendPool.Pool, q: BackendPool.Pool) {
    && |q.conns| == |p.conns|
    && forall j :: 0 <= j < |p.conns| ==>
         && q.conns[j].busy == p.conns[j].busy && q.conns[j].alive == p.conns[j].alive
         && q.conns[j].login == p.conns[j].login
  }

  // A change to frontend f that leaves what it holds, and whether it waits.
  ghost predicate Touches(s: State, t: State, f: nat) {
    && f < |s.fes| && |t.fes| == |s.fes| && t.fes == s.fes[f := t.fes[f]] && t.ring == s.ring
    && t.fes[f].core.be == s.fes[f].core.be
    && SameSlots(s.pool, t.pool)
  }

  lemma TouchInv(cfg: Config, s: State, t: State, f: nat)
    requires Inv(cfg, s) && Touches(s, t, f)
    requires Shape(cfg, t.fes[f]) && Quiet(t.fes[f])
    requires t.fes[f].core.wait == Waiting <==> s.fes[f].core.wait == Waiting
    ensures Inv(cfg, t)
  {
    forall i, b: nat ensures Holds(t, i, b) <==> Holds(s, i, b) {
    }
    forall i | InRange(t, i) && t.fes[i].core.wait == Waiting ensures i in t.ring {
      assert s.fes[i].core.wait == Waiting;
    }
  }

  // Pipeline f is between two submissions.
  ghost predicate Between(cfg: Config, s: State, t: State, f: nat) {
    && Touches(s, t, f) && Runs(s, f) && Shape(cfg, s.fes[f])
    && t.fes[f].queue == s.fes[f].queue
    && t.fes[f].core.st != Free && !t.fes[f].core.sendPending && !t.fes[f].core.recvPending
    && (forall j :: 0 <= j < |s.pool.conns| && Some(j) != s.fes[f].core.be ==> t.pool.conns[j] == s.pool.conns[j])
  }

  lemma FinishEnds(cfg: Config, s: State, t: State, f: nat, failed: bool, fe: Fe)
    requires Inv(cfg, s) && Between(cfg, s, t, f) && fe.core.be.None?
    ensures var b := s.fes[f].core.be.value;
            Ends(s, SetFe(t.(pool := BackendPool.Finish(cfg.pool, t.pool, b, failed)), f, fe), f, b)
  {
    var b := s.fes[f].core.be.value;
    assert Holds(s, f, b);
    PoolOwnership.FinishFrees(cfg.pool, t.pool, b, failed);
  }

  // The backend of f has been given back, and f is left as fe until it resumes.
  lemma EndOpen(cfg: Config, s: State, t: State, w: State, f: nat, fe: Fe, failed: bool)
    requires Proper(cfg) && Inv(cfg, s) && Between(cfg, s, t, f)
    requires w == SetFe(t.(pool := BackendPool.Finish(cfg.pool, t.pool, s.fes[f].core.be.value, failed)), f, fe)
    ensures InvOpen(cfg, SetCore(w, f, ReleaseCore(fe.core)), f, NONE) && f !in w.ring && w.ring == s.ring
  {
    FinishEnds(cfg, s, t, f, failed, fe.(core := ReleaseCore(fe.core)));
    EndsInv(cfg, s, SetCore(w, f, ReleaseCore(fe.core)), f, s.fes[f].core.be.value);
  }

  lemma FailInv(cfg: Config, s: State, t: State, f: nat)
    requires Proper(cfg) && Inv(cfg, s) && Between(cfg, s, t, f)
    ensures Inv(cfg, Fail(cfg, t, f))
  {
    var b := s.fes[f].core.be.value;
    var fe := t.fes[f].(core := FailCore(t.fes[f].core));
    var u := SetFe(t.(pool := BackendPool.Finish(cfg.pool, t.pool, b, true)), f, fe);
    FinishEnds(cfg, s, t, f, true, fe.(core := ReleaseCore(fe.core)));
    var v := SetCore(u, f, ReleaseCore(fe.core));
    EndsInv(cfg, s, v, f, b);
    AfterReleaseInv(cfg, u, f);
  }

  lemma CompleteInv(cfg: Config, s: State, t: State, f: nat)
    requires Proper(cfg) && Inv(cfg, s) && Between(cfg, s, t, f)
    ensures Inv(cfg, Complete(cfg, t, f))
  {
    var b := s.fes[f].core.be.value;
    var sawError := Conn(t, f).pipe.st.sawError;
    var fe := if sawError then Drop(t.fes[f]) else t.fes[f];
    var d := fe.(core := CompleteCore(fe.core, sawError));
    var u := SetFe(t.(pool := BackendPool.Finish(cfg.pool, t.pool, b, false)), f, d);
    FinishEnds(cfg, s, t, f, false, d.(core := ReleaseCore(d.core)));
    var v := SetCore(u, f, ReleaseCore(d.core));
    EndsInv(cfg, s, v, f, b);
    AfterReleaseInv(cfg, u, f);
  }

  lemma SubmitSendInv(cfg: Config, s: State, t: State, f: nat)
    requires Proper(cfg) && Inv(cfg, s) && Between(cfg, s, t, f)
    ensures Inv(cfg, SubmitSend(t, f))
  {
    if BackendPool.SendPending(Conn(t, f)) == [] {
      SubmitRecvInv(cfg, s, SetCore(t, f, t.fes[f].core.(wait := Reading)), f);
    } else {
      TouchInv(cfg, s, SubmitSend(t, f), f);
    }
  }

  lemma SubmitRecvInv(cfg: Config, s: State, t: State, f: nat)
    requires Proper(cfg) && Inv(cfg, s) && Between(cfg, s, t, f)
    ensures Inv(cfg, SubmitRecv(t, f))
  {
    TouchInv(cfg, s, SubmitRecv(t, f), f);
  }

  lemma SendDoneInv(cfg: Config, s: State, f: nat, res: SendResult)
    requires Proper(cfg) && Inv(cfg, s) && Runs(s, f) && s.fes[f].core.sendPending
    ensures Inv(cfg, OnSendDone(cfg, s, f, res))
  {
    var t := SetCore(s, f, s.fes[f].core.(sendPending := false));
    assert Shape(cfg, s.fes[f]);
    assert Between(cfg, s, t, f);
    match res
    case Again => SubmitSendInv(cfg, s, t, f);
    case SendError => FailInv(cfg, s, t, f);
    case Sent(n) =>
      var u := t.(pool := BackendPool.SendAdvance(t.pool, t.fes[f].core.be.value, n));
      assert Between(cfg, s, u, f);
      SubmitSendInv(cfg, s, u, f);
  }

  lemma RecvBetween(cfg: Config, s: State, f: nat)
    requires Inv(cfg, s) && Runs(s, f) && s.fes[f].core.recvPending
    ensures Between(cfg, s, SetCore(s, f, s.fes[f].core.(recvPending := false)), f)
  {
    assert Shape(cfg, s.fes[f]);
  }

  lemma StoreBetween(cfg: Config, s: State, t: State, f: nat, acc: Bytes, st: Framer.Status, resp: Bytes)
    requires Between(cfg, s, t, f)
    ensures var u := Store(t, f, acc, st, resp); Between(cfg, s, u, f) && u.fes[f].log == t.fes[f].log
  {
  }

  // What the data amounts to, whether or not the receive is still marked as pending.
  lemma ReceivedSame(cfg: Config, s: State, f: nat, data: Bytes)
    requires Runs(s, f)
    ensures Received(cfg, SetCore(s, f, s.fes[f].core.(recvPending := false)), f, data) == Received(cfg, s, f, data)
  {
  }

  lemma RecvDoneInv(cfg: Config, s: State, f: nat, res: RecvResult)
    requires Proper(cfg) && Inv(cfg, s) && Runs(s, f) && s.fes[f].core.recvPending
    ensures Inv(cfg, OnRecvDone(cfg, s, f, res))
  {
    var t := SetCore(s, f, s.fes[f].core.(recvPending := false));
    RecvBetween(cfg, s, f);
    if res.RecvError? || res.bytes == [] {
      FailInv(cfg, s, t, f);
    } else {
      match Received(cfg, t, f, res.bytes)
      case Bad => FailInv(cfg, s, t, f);
      case More(acc, st, resp) =>
        StoreBetween(cfg, s, t, f, acc, st, resp);
        SubmitRecvInv(cfg, s, Store(t, f, acc, st, resp), f);
      case Done(acc, st, resp) =>
        StoreBetween(cfg, s, t, f, acc, st, resp);
        CompleteInv(cfg, s, Store(t, f, acc, st, resp), f);
    }
  }

  // ---- frontends coming, going and talking ----

  // A frontend that neither waits nor holds a backend can be opened for a step.
  lemma OpenOne(cfg: Config, s: State, f: nat)
    requires Inv(cfg, s) && f < |s.fes| && s.fes[f].core.wait != Waiting && s.fes[f].core.be.None?
    ensures InvOpen(cfg, s, NONE, f) && InvOpen(cfg, s, f, NONE) && f !in s.ring
  {
  }

  lemma ReplaceInv(cfg: Config, s: State, t: State, f: nat)
    requires Inv(cfg, s) && f < |s.fes| && s.fes[f].core.wait != Waiting && Confined(s, t, f)
    requires Shape(cfg, t.fes[f]) && Quiet(t.fes[f])
    ensures Inv(cfg, t)
  {
    OpenOne(cfg, s, f);
    ConfinedKeepsInv(cfg, s, t, f, NONE);
  }

  lemma AcceptInv(cfg: Config, s: State, id: Identity, ready: bool)
    requires Proper(cfg) && Inv(cfg, s)
    ensures Inv(cfg, Step(cfg, s, Accept(id, ready)))
  {
    var k := FreeSlot(s.fes);
    if k < |s.fes| {
      assert Shape(cfg, s.fes[k]);
      ReplaceInv(cfg, s, SetFe(s, k, NewFe(id, ready)), k);
    }
  }

  // waiters_remove drops f and keeps the rest in order.
  lemma {:induction false} RemoveMeaning(ring: seq<int>, f: int)
    requires Ring.AllDistinct(ring)
    ensures Ring.AllDistinct(WaitersRemove(ring, f))
    ensures forall x :: x in WaitersRemove(ring, f) <==> x in ring && x != f
    ensures f !in ring ==> WaitersRemove(ring, f) == ring
  {
    if ring != [] {
      Ring.DistinctTail(ring);
      RemoveMeaning(ring[1..], f);
      var r := WaitersRemove(ring[1..], f);
      Ring.DistinctCons(ring[0], r);
      assert forall x :: x in ring <==> x == ring[0] || x in ring[1..];
      assert forall x :: x in [ring[0]] + r <==> x == ring[0] || x in r;
    }
  }

  lemma RemoveOpens(cfg: Config, s: State, f: nat)
    requires Inv(cfg, s) && f < |s.fes| && s.fes[f].core.be.None?
    ensures var t := s.(ring := WaitersRemove(s.ring, f)); InvOpen(cfg, t, NONE, f) && f !in t.ring
  {
    RemoveMeaning(s.ring, f);
    var t := s.(ring := WaitersRemove(s.ring, f));
    forall i, b: nat ensures Holds(t, i, b) <==> Holds(s, i, b) {
    }
    forall a | 0 <= a < |t.ring|
      ensures InRange(t, t.ring[a]) && !Open(t.ring[a], NONE, f) && t.fes[t.ring[a]].core.wait == Waiting
    {
      assert t.ring[a] in t.ring;
    }
  }

  lemma CloseInv(cfg: Config, s: State, f: nat)
    requires Proper(cfg) && Inv(cfg, s) && f < |s.fes|
    ensures Inv(cfg, Close(cfg, s, f))
  {
    if s.fes[f].core.st != Free {
      assert Shape(cfg, s.fes[f]);
      var t := s.(ring := WaitersRemove(s.ring, f));
      if s.fes[f].core.be.Some? {
        var b := s.fes[f].core.be.value;
        assert Holds(s, f, b);
        assert f !in s.ring;
        RemoveMeaning(s.ring, f);
        PoolOwnership.FinishFrees(cfg.pool, s.pool, b, true);
        var v := SetCore(t.(pool := BackendPool.Finish(cfg.pool, t.pool, b, true)), f, t.fes[f].core.(be := None));
        EndsInv(cfg, s, v, f, b);
        PassInv(cfg, v, |v.ring|, f);
        OpenSwap(cfg, FairSchedule(cfg, v), f);
        ClosedInv(cfg, FairSchedule(cfg, v), f);
      } else {
        RemoveOpens(cfg, s, f);
        ClosedInv(cfg, t, f);
      }
    }
  }

  lemma ClosedInv(cfg: Config, u: State, f: nat)
    requires Proper(cfg) && f < |u.fes| && InvOpen(cfg, u, NONE, f)
    ensures Inv(cfg, SetFe(u, f, Drop(u.fes[f]).(core := CloseCore(u.fes[f].core))))
  {
    ConfinedKeepsInv(cfg, u, SetFe(u, f, Drop(u.fes[f]).(core := CloseCore(u.fes[f].core))), f, NONE);
  }

  lemma TickInv(cfg: Config, s: State)
    requires Proper(cfg) && Inv(cfg, s)
    ensures Inv(cfg, Step(cfg, s, Tick))
  {
    PoolOwnership.MaintainMoves(cfg.pool, s.pool);
    var t := Step(cfg, s, Tick);
    forall i, b: nat ensures Holds(t, i, b) <==> Holds(s, i, b) {
    }
  }

  // ---- frontend input ----

  lemma HandleInv(cfg: Config, s: State, t: State, f: nat, m: Msg)
    requires Proper(cfg) && Inv(cfg, s) && f < |s.fes| && s.fes[f].core.wait == Idle && s.fes[f].core.st != Free
    requires Arrived(s, t, f)
    ensures Inv(cfg, Handle(cfg, t, f, m)) && Handle(cfg, t, f, m).fes[f].core.st != Free
  {
    assert Shape(cfg, s.fes[f]) && Quiet(s.fes[f]);
    HandleConfined(cfg, t, f, m);
    var u := Handle(cfg, t, f, m);
    assert Confined(s, u, f);
    ReplaceInv(cfg, s, u, f);
  }

  // The message is noted, and perhaps the reply state reset; nothing else.
  ghost predicate Arrived(s: State, t: State, f: nat)
    requires f < |s.fes|
  {
    && |t.fes| == |s.fes| && t.fes == s.fes[f := t.fes[f]] && t.ring == s.ring && t.pool == s.pool
    && t.fes[f].queue == s.fes[f].queue && t.fes[f].core.st == s.fes[f].core.st
    && SameLink(s.fes[f].core, t.fes[f].core)
  }

  lemma EnqueueInv(cfg: Config, s: State, f: nat, m: Msg)
    requires Proper(cfg) && Inv(cfg, s) && f < |s.fes| && Real(m)
    requires s.fes[f].core.wait != Idle && s.fes[f].core.st != Free
    ensures Inv(cfg, SetFe(s, f, Enqueue(cfg, s.fes[f], m)))
    ensures SetFe(s, f, Enqueue(cfg, s.fes[f], m)).fes[f].core.st != Free
  {
    assert Shape(cfg, s.fes[f]);
    EnqueueShape(cfg, s.fes[f], m);
    TouchInv(cfg, s, SetFe(s, f, Enqueue(cfg, s.fes[f], m)), f);
  }

  lemma EnqueueShape(cfg: Config, fe: Fe, m: Msg)
    requires Shape(cfg, fe) && Real(m) && fe.core.wait != Idle
    ensures var e := Enqueue(cfg, fe, m);
            Shape(cfg, e) && e.core.be == fe.core.be && e.core.wait == fe.core.wait && e.core.st == fe.core.st
  {
    EnqueueLink(fe.core, m, Fits(cfg, fe));
    assert fe.queue != [] ==> (fe.queue + [Rewrite.Queued(m)])[0] == fe.queue[0];
  }

  lemma EnqueueLink(c: Core, m: Msg, fits: bool)
    ensures SameLink(c, EnqueueCore(c, m, fits)) && EnqueueCore(c, m, fits).st == c.st
  {
  }

  // Terminate marks the connection as closing, whatever it is doing; anything else is ignored.
  lemma MarkInv(cfg: Config, s: State, f: nat, m: Msg)
    requires Proper(cfg) && Inv(cfg, s) && f < |s.fes| && s.fes[f].core.st != Free && !Real(m)
    ensures Inv(cfg, Handle(cfg, s, f, m)) && Handle(cfg, s, f, m).fes[f].core.st != Free
  {
    assert Shape(cfg, s.fes[f]) && Quiet(s.fes[f]);
    TouchInv(cfg, s, Handle(cfg, s, f, m), f);
  }

  // The Bind of an idle frontend: start it, or be the newest waiter.
  function BindNow(cfg: Config, u: State, f: nat, m: Msg): (r: State)
    requires f < |u.fes| && m.Bind?
    ensures |r.fes| == |u.fes|
  {
    var (v, ok) := StartBind(cfg, u, f, m.bind, false);
    if ok then v else Park(SetFe(v, f, v.fes[f].(queue := v.fes[f].queue + [Rewrite.Queued(m)])), f).0
  }

  lemma BindNowInv(cfg: Config, s: State, u: State, f: nat, m: Msg)
    requires Proper(cfg) && Inv(cfg, s) && f < |s.fes| && s.fes[f].core.wait == Idle && s.fes[f].core.st != Free
    requires Arrived(s, u, f) && u.fes[f].core.ready && m.Bind?
    ensures Inv(cfg, BindNow(cfg, u, f, m)) && BindNow(cfg, u, f, m).fes[f].core.st != Free
  {
    assert Shape(cfg, s.fes[f]) && Quiet(s.fes[f]);
    OpenOne(cfg, s, f);
    RingHasRoom(s, NONE, f, f);
    StartConfined(cfg, u, f, m.bind, false);
    var v := BindNow(cfg, u, f, m);
    assert Confined(s, v, f);
    ReplaceInv(cfg, s, v, f);
  }

  lemma ProcessInv(cfg: Config, s: State, f: nat, m: Msg)
    requires Proper(cfg) && Inv(cfg, s) && f < |s.fes| && s.fes[f].core.st != Free
    ensures Inv(cfg, Process(cfg, s, f, m)) && Process(cfg, s, f, m).fes[f].core.st != Free
  {
    var fe := s.fes[f];
    if !Real(m) {
      MarkInv(cfg, s, f, m);
    } else if fe.core.wait != Idle {
      EnqueueInv(cfg, s, f, m);
    } else {
      var t := SetFe(s, f, Arrive(fe, m));
      if !m.Bind? {
        HandleInv(cfg, s, t, f, m);
      } else {
        var u := SetCore(t, f, fe.core.(resp := [], gotExecute := false, gotSync := false));
        if !fe.core.ready {
          HandleInv(cfg, s, u, f, m);
        } else {
          BindNowInv(cfg, s, u, f, m);
        }
      }
    }
  }

  lemma {:induction false} InputInv(cfg: Config, s: State, f: nat, ms: seq<Msg>)
    requires Proper(cfg) && Inv(cfg, s) && f < |s.fes| && s.fes[f].core.st != Free
    ensures Inv(cfg, ProcessAll(cfg, s, f, ms))
    decreases |ms|
  {
    if ms == [] {
      assert Shape(cfg, s.fes[f]) && Quiet(s.fes[f]);
      TouchInv(cfg, s, Flush(s, f), f);
    } else {
      ProcessInv(cfg, s, f, ms[0]);
      InputInv(cfg, Process(cfg, s, f, ms[0]), f, ms[1..]);
    }
  }

  // ---- every step, every run ----

  lemma StepInv(cfg: Config, s: State, e: Event)
    requires Proper(cfg) && Inv(cfg, s)
    ensures Inv(cfg, Step(cfg, s, e))
  {
    match e
    case Accept(id, ready) => AcceptInv(cfg, s, id, ready);
    case Input(f, ms) => if f < |s.fes| && s.fes[f].core.st != Free { InputInv(cfg, s, f, ms); }
    case SendDone(f, res) => if Runs(s, f) && s.fes[f].core.sendPending { SendDoneInv(cfg, s, f, res); }
    case RecvDone(f, res) => if Runs(s, f) && s.fes[f].core.recvPending { RecvDoneInv(cfg, s, f, res); }
    case CloseConn(f) => if f < |s.fes| { CloseInv(cfg, s, f); }
    case Tick => TickInv(cfg, s);
  }

  // Before the first event: no connections, nobody waits, and no backend is busy.
  ghost predicate Initial(s: State) {
    && (forall i :: InRange(s, i) ==> s.fes[i] == FreeFe())
    && s.ring == [] && PoolOwnership.PoolOk(s.pool)
    && forall j :: 0 <= j < |s.pool.conns| ==> !s.pool.conns[j].busy
  }

  lemma {:induction false} RunInv(cfg: Config, s: State, es: seq<Event>)
    requires Proper(cfg) && Inv(cfg, s)
    ensures Inv(cfg, Run(cfg, s, es))
    decreases |es|
  {
    if es != [] {
      StepInv(cfg, s, es[0]);
      RunInv(cfg, Step(cfg, s, es[0]), es[1..]);
    }
  }

  lemma InitialInv(cfg: Config, s: State)
    requires Proper(cfg) && Initial(s)
    ensures Inv(cfg, s)
  {
  }

  lemma ReachableInv(cfg: Config, s: State, es: seq<Event>)
    requires Proper(cfg) && Initial(s)
    ensures Inv(cfg, Run(cfg, s, es))
  {
    InitialInv(cfg, s);
    RunInv(cfg, s, es);
  }
}
