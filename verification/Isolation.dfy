// Whose reply a connection is given: over every run, the receive state of a pipeline is that of
// the bytes delivered to this pipeline and to no other.
module Isolation {
  import opened Wire
  import opened Frontend
  import opened Scheduler
  import opened Invariant
  import opened Steps
  import BackendPool
  import PoolOwnership
  import Framer
  import Ring

  // ---- what a step does to the pipelines in progress ----

  // The pipeline of connection a on slot c goes on in b and d: nothing was sent or received.
  ghost predicate GoesOn(a: Fe, c: BackendPool.BackendConn, b: Fe, d: BackendPool.BackendConn) {
    && b.core.resp == a.core.resp && b.core.wait == a.core.wait && b.log.issued == a.log.issued
    && d.pipe == c.pipe && d.login == c.login
  }

  // Connection a has issued a new pipeline: all of it is still to be sent, nothing has been
  // received, and where groups log in themselves it is on a slot of the connection's group.
  ghost predicate Fresh(cfg: Config, a: Fe, b: Fe, d: BackendPool.BackendConn) {
    && b.core.resp == [] && b.core.wait == Sending && |b.log.issued| > |a.log.issued|
    && d.pipe == BackendPool.NO_PIPE.(sendBuf := cfg.encode(b.log.issued[|b.log.issued| - 1])) && d.pipe.sendBuf != []
    && (cfg.pool.groupLogin && b.core.id.group != "" ==> d.login == b.core.id.group)
  }

  ghost predicate Touch(cfg: Config, s: State, t: State, i: int)
    requires InRange(s, i) && |t.fes| == |s.fes|
  {
    var a, b := s.fes[i], t.fes[i];
    && b.core.id == a.core.id && |a.log.issued| <= |b.log.issued|
    && (b.core.be.Some? ==>
          && b.core.be.value < |t.pool.conns|
          && (Fresh(cfg, a, b, t.pool.conns[b.core.be.value])
              || (a.core.be == b.core.be && b.core.be.value < |s.pool.conns|
                  && GoesOn(a, s.pool.conns[b.core.be.value], b, t.pool.conns[b.core.be.value]))))
  }

  ghost predicate AllTouch(cfg: Config, s: State, t: State) {
    |t.fes| == |s.fes| && forall i :: InRange(s, i) ==> Touch(cfg, s, t, i)
  }

  lemma TouchTrans(cfg: Config, s: State, t: State, u: State)
    requires AllTouch(cfg, s, t) && AllTouch(cfg, t, u)
    ensures AllTouch(cfg, s, u)
  {
    forall i | InRange(s, i) ensures Touch(cfg, s, u, i) {
      assert Touch(cfg, s, t, i) && Touch(cfg, t, u, i);
    }
  }

  lemma SameHolders(s: State, t: State)
    requires Owned(s) && t.pool == s.pool && |t.fes| == |s.fes|
    requires forall i :: InRange(s, i) ==> t.fes[i].core.be == s.fes[i].core.be
    ensures Owned(t)
  {
    forall i, b: nat ensures Holds(t, i, b) <==> Holds(s, i, b) {}
  }

  // Slots that are held stay as they are.
  ghost predicate Unharmed(s: State, t: State) {
    forall i, b: nat :: Holds(s, i, b) ==>
      b < |s.pool.conns| && b < |t.pool.conns|
      && t.pool.conns[b].pipe == s.pool.conns[b].pipe && t.pool.conns[b].login == s.pool.conns[b].login
  }

  lemma MovesUnharmed(s: State, t: State, taken: Option<nat>)
    requires Owned(s) && PoolOwnership.Moves(s.pool, t.pool, taken)
    ensures Unharmed(s, t)
  {
  }

  // Only f changed, and it is touched.
  lemma OneTouched(cfg: Config, s: State, t: State, f: nat)
    requires f < |s.fes| == |t.fes| && (forall i :: InRange(s, i) && i != f ==> t.fes[i] == s.fes[i])
    requires Unharmed(s, t) && Touch(cfg, s, t, f)
    ensures AllTouch(cfg, s, t)
  {
    forall i | InRange(s, i) ensures Touch(cfg, s, t, i) {
      if i != f && s.fes[i].core.be.Some? { assert Holds(s, i, s.fes[i].core.be.value); }
    }
  }

  // ---- starting, draining ----

  // f held no backend; what it holds now is fresh.
  ghost predicate Began(cfg: Config, s: State, t: State, f: nat)
    requires f < |s.fes|
  {
    && Confined(s, t, f) && t.fes[f].core.id == s.fes[f].core.id && |s.fes[f].log.issued| <= |t.fes[f].log.issued|
    && (t.fes[f].core.be.Some? ==>
          && t.fes[f].core.be.value < |t.pool.conns|
          && Fresh(cfg, s.fes[f], t.fes[f], t.pool.conns[t.fes[f].core.be.value]))
  }

  lemma BeganTouched(cfg: Config, s: State, t: State, f: nat)
    requires f < |s.fes| && Owned(s) && Began(cfg, s, t, f)
    ensures AllTouch(cfg, s, t)
  {
    MovesUnharmed(s, t, t.fes[f].core.be);
    OneTouched(cfg, s, t, f);
  }

  lemma StartFresh(cfg: Config, s: State, f: nat, b: BindMsg, fromQueue: bool)
    requires Proper(cfg) && f < |s.fes| && PoolOwnership.PoolOk(s.pool)
    ensures var (t, ok) := StartBind(cfg, s, f, b, fromQueue);
            && |t.fes| == |s.fes|
            && (!ok ==> t.fes == s.fes)
            && (ok ==> t.fes[f].core.be.Some? && t.fes[f].core.be.value < |t.pool.conns|
                       && Fresh(cfg, s.fes[f], t.fes[f], t.pool.conns[t.fes[f].core.be.value]))
  {
    var c := s.fes[f].core;
    PoolOwnership.BeginMoves(cfg.pool, s.pool, c.id.group, BindBytes(cfg, c, b));
  }

  lemma StartOrParkBegan(cfg: Config, s: State, f: nat, m: Msg)
    requires Proper(cfg) && f < |s.fes| && PoolOwnership.PoolOk(s.pool)
    requires Drainable(cfg, s.fes[f]) && |s.fes[f].queue| < cfg.queueMax && s.fes[f].core.ready && m.Bind?
    requires s.fes[f].core.st != Free && f !in s.ring && |s.ring| < |s.fes|
    ensures Began(cfg, s, StartOrPark(cfg, s, f, m), f)
  {
    StartOrParkConfined(cfg, s, f, m);
    StartFresh(cfg, s, f, m.bind, true);
  }

  lemma FlushBegan(cfg: Config, s: State, t: State, f: nat)
    requires f < |s.fes| && Began(cfg, s, t, f)
    ensures Began(cfg, s, Flush(t, f), f)
  {
  }

  lemma BeganAfter(cfg: Config, s: State, t: State, u: State, f: nat)
    requires f < |s.fes| && Stays(s, t, f) && Began(cfg, t, u, f) && |s.fes[f].log.issued| <= |t.fes[f].log.issued|
    requires t.fes[f].core.id == s.fes[f].core.id
    ensures Began(cfg, s, u, f)
  {
    ConfinedAfter(s, t, u, f);
  }

  lemma HandleIssues(cfg: Config, s: State, f: nat, m: Msg)
    requires f < |s.fes|
    ensures Handle(cfg, s, f, m).fes[f].log.issued == s.fes[f].log.issued
  {
  }

  lemma {:induction false} DrainBegan(cfg: Config, s: State, f: nat)
    requires Proper(cfg) && f < |s.fes| && PoolOwnership.PoolOk(s.pool)
    requires Drainable(cfg, s.fes[f]) && f !in s.ring && |s.ring| < |s.fes|
    ensures Began(cfg, s, Drain(cfg, s, f), f)
    decreases |s.fes[f].queue|
  {
    var fe := s.fes[f];
    if fe.queue != [] {
      var m := fe.queue[0];
      var popped := SetFe(s, f, fe.(queue := fe.queue[1..]));
      PopStays(s, f);
      if m.Bind? && fe.core.ready {
        StartOrParkBegan(cfg, popped, f, m);
        FlushBegan(cfg, popped, StartOrPark(cfg, popped, f, m), f);
      } else {
        var t := Handle(cfg, popped, f, m);
        HandleConfined(cfg, popped, f, m);
        HandleIssues(cfg, popped, f, m);
        DrainBegan(cfg, t, f);
        BeganAfter(cfg, popped, t, Drain(cfg, t, f), f);
      }
      BeganAfter(cfg, s, popped, Drain(cfg, s, f), f);
    }
  }

  // ---- a pass ----

  lemma PoppedTouched(cfg: Config, s: State, o: int, w: nat)
    requires InvOpen(cfg, s, o, NONE) && Awaits(cfg, s, o) && w == s.ring[0]
    ensures AllTouch(cfg, s, Popped(s, w))
  {
    var p := Popped(s, w);
    SamePoolUnharmed(s, p);
    OneTouched(cfg, s, p, w);
  }

  lemma SamePoolUnharmed(s: State, t: State)
    requires Owned(s) && t.pool == s.pool
    ensures Unharmed(s, t)
  {
  }

  lemma AttemptTouched(cfg: Config, s: State, o: int, w: nat)
    requires Proper(cfg) && InvOpen(cfg, s, o, NONE) && Awaits(cfg, s, o) && w == s.ring[0]
    ensures AllTouch(cfg, s, Attempt(cfg, s, w))
  {
    var m, p := s.fes[w].queue[0], Popped(s, w);
    PoppedOpen(cfg, s, o, w);
    PoppedTouched(cfg, s, o, w);
    StartOrParkBegan(cfg, p, w, m);
    var u := StartOrPark(cfg, p, w, m);
    FlushBegan(cfg, p, u, w);
    BeganTouched(cfg, p, Flush(u, w), w);
    TouchTrans(cfg, s, p, Flush(u, w));
  }

  lemma TurnTouched(cfg: Config, s: State, o: int)
    requires Proper(cfg) && InvOpen(cfg, s, o, NONE) && s.ring != []
    ensures InvOpen(cfg, Turn(cfg, s), o, NONE) && AllTouch(cfg, s, Turn(cfg, s))
  {
    HeadAwaits(cfg, s, o);
    TurnInv(cfg, s, o);
    Ring.DistinctTail(s.ring);
    Ring.Pigeonhole(s.ring, |s.fes|);
    TurnIsAttempt(cfg, s, o);
    AttemptTouched(cfg, s, o, s.ring[0]);
  }

  lemma SelfTouched(cfg: Config, s: State, o: int, w: int)
    requires InvOpen(cfg, s, o, w)
    ensures AllTouch(cfg, s, s)
  {
    forall i | InRange(s, i) ensures Touch(cfg, s, s, i) {
      if s.fes[i].core.be.Some? { assert Holds(s, i, s.fes[i].core.be.value); }
    }
  }

  lemma PassTouched(cfg: Config, s: State, attempts: nat, o: int)
    requires Proper(cfg) && InvOpen(cfg, s, o, NONE)
    ensures AllTouch(cfg, s, Pass(cfg, s, attempts))
  {
    SelfTouched(cfg, s, o, NONE);
    var good := u => InvOpen(cfg, u, o, NONE) && AllTouch(cfg, s, u);
    forall u | good(u) && u.ring != [] ensures good(Turn(cfg, u)) {
      TurnTouched(cfg, u, o);
      TouchTrans(cfg, s, u, Turn(cfg, u));
    }
    PassKeeps(cfg, s, attempts, good);
  }

  // ---- the end of a pipeline ----

  lemma ResumeTouched(cfg: Config, u: State, f: nat)
    requires Proper(cfg) && f < |u.fes| && InvOpen(cfg, u, f, NONE) && f !in u.ring && Drainable(cfg, u.fes[f])
    ensures var t := if u.fes[f].core.wait == Idle && u.fes[f].queue != [] then Drain(cfg, u, f) else Flush(u, f);
            AllTouch(cfg, u, t)
  {
    RingHasRoom(u, f, NONE, f);
    if u.fes[f].queue != [] {
      DrainBegan(cfg, u, f);
      BeganTouched(cfg, u, Drain(cfg, u, f), f);
    } else {
      SamePoolUnharmed(u, Flush(u, f));
      OneTouched(cfg, u, Flush(u, f), f);
    }
  }

  lemma ReleaseTouched(cfg: Config, s: State, w: State, f: nat)
    requires Proper(cfg) && f < |w.fes| && f !in w.ring
    requires var v := SetCore(w, f, ReleaseCore(w.fes[f].core));
             InvOpen(cfg, v, f, NONE) && Drainable(cfg, v.fes[f]) && AllTouch(cfg, s, v)
    ensures AllTouch(cfg, s, AfterRelease(cfg, w, f))
  {
    var v := SetCore(w, f, ReleaseCore(w.fes[f].core));
    var u := FairSchedule(cfg, v);
    PassInv(cfg, v, |v.ring|, f);
    PassTouched(cfg, v, |v.ring|, f);
    assert v.ring == [] ==> u == v;
    TouchTrans(cfg, s, v, u);
    ResumeTouched(cfg, u, f);
    TouchTrans(cfg, s, u, AfterRelease(cfg, w, f));
  }

  // f gives its backend back; the others' are unharmed.
  lemma GivenTouched(cfg: Config, s: State, t: State, v: State, f: nat, failed: bool)
    requires Inv(cfg, s) && Between(cfg, s, t, f) && |v.fes| == |s.fes| && v.fes == s.fes[f := v.fes[f]]
    requires v.pool == BackendPool.Finish(cfg.pool, t.pool, s.fes[f].core.be.value, failed)
    requires v.fes[f].core.be.None? && v.fes[f].core.id == s.fes[f].core.id
    requires |s.fes[f].log.issued| <= |v.fes[f].log.issued|
    ensures AllTouch(cfg, s, v)
  {
    var b := s.fes[f].core.be.value;
    assert Holds(s, f, b);
    PoolOwnership.FinishFrees(cfg.pool, t.pool, b, failed);
    forall i | InRange(s, i) ensures Touch(cfg, s, v, i) {
      if i != f && s.fes[i].core.be.Some? {
        assert Holds(s, i, s.fes[i].core.be.value);
        assert s.fes[i].core.be.value != b;
      }
    }
  }

  lemma EndTouched(cfg: Config, s: State, t: State, w: State, f: nat, fe: Fe, failed: bool)
    requires Proper(cfg) && Inv(cfg, s) && Between(cfg, s, t, f)
    requires w == SetFe(t.(pool := BackendPool.Finish(cfg.pool, t.pool, s.fes[f].core.be.value, failed)), f, fe)
    requires |s.fes[f].log.issued| <= |fe.log.issued| && fe.core.id == s.fes[f].core.id
    requires Drainable(cfg, fe.(core := ReleaseCore(fe.core)))
    ensures AllTouch(cfg, s, AfterRelease(cfg, w, f))
  {
    EndOpen(cfg, s, t, w, f, fe, failed);
    GivenTouched(cfg, s, t, SetCore(w, f, ReleaseCore(fe.core)), f, failed);
    ReleaseTouched(cfg, s, w, f);
  }

  lemma FailTouched(cfg: Config, s: State, t: State, f: nat)
    requires Proper(cfg) && Inv(cfg, s) && Between(cfg, s, t, f) && t.fes[f].log.issued == s.fes[f].log.issued
    requires t.fes[f].core.id == s.fes[f].core.id
    ensures AllTouch(cfg, s, Fail(cfg, t, f))
  {
    var fe := t.fes[f].(core := FailCore(t.fes[f].core));
    var pool := BackendPool.Finish(cfg.pool, t.pool, s.fes[f].core.be.value, true);
    EndTouched(cfg, s, t, SetFe(t.(pool := pool), f, fe), f, fe, true);
  }

  lemma CompleteTouched(cfg: Config, s: State, t: State, f: nat)
    requires Proper(cfg) && Inv(cfg, s) && Between(cfg, s, t, f) && t.fes[f].log.issued == s.fes[f].log.issued
    requires t.fes[f].core.id == s.fes[f].core.id
    ensures AllTouch(cfg, s, Complete(cfg, t, f))
  {
    var sawError := Conn(t, f).pipe.st.sawError;
    var fe := if sawError then Drop(t.fes[f]) else t.fes[f];
    var d := fe.(core := CompleteCore(fe.core, sawError));
    var pool := BackendPool.Finish(cfg.pool, t.pool, s.fes[f].core.be.value, false);
    EndTouched(cfg, s, t, SetFe(t.(pool := pool), f, d), f, d, false);
  }

  // ---- events ----

  // The others, while f's pipeline is between two submissions.
  lemma OthersTouched(cfg: Config, s: State, t: State, f: nat, i: int)
    requires Inv(cfg, s) && Between(cfg, s, t, f) && InRange(s, i) && i != f
    ensures Touch(cfg, s, t, i)
  {
    var b := s.fes[f].core.be.value;
    assert Holds(s, f, b);
    if s.fes[i].core.be.Some? {
      assert Holds(s, i, s.fes[i].core.be.value);
      assert s.fes[i].core.be.value != b;
    }
  }

  // Some of the pipeline has been taken, or none yet, and the rest is submitted.
  predicate Sends(s: State, e: Event, f: nat) {
    e.SendDone? && e.f == f && Runs(s, f) && s.fes[f].core.sendPending && !e.sres.SendError?
  }

  lemma SendTouched(cfg: Config, s: State, f: nat, res: SendResult, i: int)
    requires Proper(cfg) && Inv(cfg, s) && Runs(s, f) && s.fes[f].core.sendPending && InRange(s, i)
    requires i == f ==> res.SendError?
    ensures Touch(cfg, s, OnSendDone(cfg, s, f, res), i)
  {
    var t := SetCore(s, f, s.fes[f].core.(sendPending := false));
    SendBetween(cfg, s, f);
    match res
    case Again => SubmittedTouched(cfg, s, t, f, i);
    case SendError => FailTouched(cfg, s, t, f);
    case Sent(n) =>
      var u := t.(pool := BackendPool.SendAdvance(t.pool, t.fes[f].core.be.value, n));
      AdvanceBetween(cfg, s, t, f, n);
      SubmittedTouched(cfg, s, u, f, i);
  }

  lemma SubmittedTouched(cfg: Config, s: State, t: State, f: nat, i: int)
    requires Inv(cfg, s) && Between(cfg, s, t, f) && InRange(s, i) && i != f
    ensures Touch(cfg, s, SubmitSend(t, f), i)
  {
    OthersTouched(cfg, s, t, f, i);
    SubmitSame(t, f);
  }

  // Submitting changes only what is pending.
  lemma SubmitSame(t: State, f: nat)
    requires Runs(t, f)
    ensures var u := SubmitSend(t, f);
            && u.pool == t.pool && u.fes == t.fes[f := u.fes[f]]
            && u.fes[f].log == t.fes[f].log && u.fes[f].core.be == t.fes[f].core.be
            && u.fes[f].core.resp == t.fes[f].core.resp && u.fes[f].core.id == t.fes[f].core.id
            && (!t.fes[f].core.sendPending ==>
                  u.fes[f].core.wait == if BackendPool.SendPending(Conn(t, f)) == [] then Reading else Sending)
  {
  }

  lemma SendBetween(cfg: Config, s: State, f: nat)
    requires Inv(cfg, s) && Runs(s, f) && s.fes[f].core.sendPending
    ensures Between(cfg, s, SetCore(s, f, s.fes[f].core.(sendPending := false)), f)
  {
    assert Shape(cfg, s.fes[f]);
  }

  lemma AdvanceBetween(cfg: Config, s: State, t: State, f: nat, n: nat)
    requires Between(cfg, s, t, f)
    ensures Between(cfg, s, t.(pool := BackendPool.SendAdvance(t.pool, t.fes[f].core.be.value, n)), f)
  {
  }

  // More of the reply has come in, and it is not complete.
  predicate Takes(cfg: Config, s: State, e: Event, f: nat) {
    && e.RecvDone? && e.f == f && Runs(s, f) && s.fes[f].core.recvPending
    && e.rres.Data? && e.rres.bytes != [] && Received(cfg, s, f, e.rres.bytes).More?
  }

  // The others, when f receives.
  lemma StoreTouched(cfg: Config, s: State, t: State, f: nat, acc: Bytes, st: Framer.Status, resp: Bytes, i: int)
    requires Inv(cfg, s) && Between(cfg, s, t, f) && InRange(s, i) && i != f
    ensures Touch(cfg, s, SubmitRecv(Store(t, f, acc, st, resp), f), i)
  {
    StoreBetween(cfg, s, t, f, acc, st, resp);
    OthersTouched(cfg, s, Store(t, f, acc, st, resp), f, i);
  }

  lemma StoreComplete(cfg: Config, s: State, t: State, f: nat, acc: Bytes, st: Framer.Status, resp: Bytes)
    requires Proper(cfg) && Inv(cfg, s) && Between(cfg, s, t, f) && t.fes[f].log.issued == s.fes[f].log.issued
    requires t.fes[f].core.id == s.fes[f].core.id
    ensures AllTouch(cfg, s, Complete(cfg, Store(t, f, acc, st, resp), f))
  {
    StoreBetween(cfg, s, t, f, acc, st, resp);
    CompleteTouched(cfg, s, Store(t, f, acc, st, resp), f);
  }

  lemma DataTouched(cfg: Config, s: State, f: nat, data: Bytes, i: int)
    requires Proper(cfg) && Inv(cfg, s) && Runs(s, f) && s.fes[f].core.recvPending && data != [] && InRange(s, i)
    requires i == f ==> !Received(cfg, s, f, data).More?
    ensures Touch(cfg, s, OnRecvDone(cfg, s, f, Data(data)), i)
  {
    var t := SetCore(s, f, s.fes[f].core.(recvPending := false));
    RecvBetween(cfg, s, f);
    ReceivedSame(cfg, s, f, data);
    match Received(cfg, t, f, data)
    case Bad => FailTouched(cfg, s, t, f);
    case More(acc, st, resp) => StoreTouched(cfg, s, t, f, acc, st, resp, i);
    case Done(acc, st, resp) => StoreComplete(cfg, s, t, f, acc, st, resp);
  }

  lemma NoDataTouched(cfg: Config, s: State, f: nat, res: RecvResult)
    requires Proper(cfg) && Inv(cfg, s) && Runs(s, f) && s.fes[f].core.recvPending
    requires res.RecvError? || res.bytes == []
    ensures AllTouch(cfg, s, OnRecvDone(cfg, s, f, res))
  {
    var t := SetCore(s, f, s.fes[f].core.(recvPending := false));
    RecvBetween(cfg, s, f);
    FailTouched(cfg, s, t, f);
  }

  lemma RecvTouched(cfg: Config, s: State, f: nat, res: RecvResult, i: int)
    requires Proper(cfg) && Inv(cfg, s) && Runs(s, f) && s.fes[f].core.recvPending && InRange(s, i)
    requires i == f ==> !Takes(cfg, s, RecvDone(f, res), f)
    ensures Touch(cfg, s, OnRecvDone(cfg, s, f, res), i)
  {
    match res
    case RecvError => NoDataTouched(cfg, s, f, res);
    case Data(bytes) => if bytes == [] { NoDataTouched(cfg, s, f, res); } else { DataTouched(cfg, s, f, bytes, i); }
  }

  // ---- input ----

  lemma BindNowBegan(cfg: Config, u: State, f: nat, m: Msg)
    requires Proper(cfg) && f < |u.fes| && PoolOwnership.PoolOk(u.pool) && m.Bind?
    requires u.fes[f].core.be.None? && f !in u.ring && |u.ring| < |u.fes| && u.fes[f].core.wait == Idle
    ensures Began(cfg, u, BindNow(cfg, u, f, m), f)
  {
    StartConfined(cfg, u, f, m.bind, false);
    StartFresh(cfg, u, f, m.bind, false);
  }

  lemma BindTouched(cfg: Config, s: State, u: State, f: nat, m: Msg)
    requires Proper(cfg) && Owned(s) && f < |s.fes| == |u.fes| && m.Bind?
    requires u == s.(fes := s.fes[f := u.fes[f]]) && u.fes[f].log.issued == s.fes[f].log.issued
    requires u.fes[f].core.id == s.fes[f].core.id
    requires s.fes[f].core.be.None? && u.fes[f].core.be.None?
    requires f !in s.ring && |s.ring| < |s.fes| && u.fes[f].core.wait == Idle
    ensures AllTouch(cfg, s, BindNow(cfg, u, f, m))
  {
    BindNowBegan(cfg, u, f, m);
    SameHolders(s, u);
    BeganTouched(cfg, u, BindNow(cfg, u, f, m), f);
    SamePoolUnharmed(s, u);
    OneTouched(cfg, s, u, f);
    TouchTrans(cfg, s, u, BindNow(cfg, u, f, m));
  }

  lemma IdleTouched(cfg: Config, s: State, f: nat, m: Msg)
    requires Proper(cfg) && Owned(s) && f < |s.fes| && Real(m)
    requires s.fes[f].core.wait == Idle && s.fes[f].core.be.None? && f !in s.ring && |s.ring| < |s.fes|
    ensures AllTouch(cfg, s, Process(cfg, s, f, m))
  {
    var fe := s.fes[f];
    var t := SetFe(s, f, Arrive(fe, m));
    if !m.Bind? {
      HandledTouched(cfg, s, t, f, m);
    } else {
      var u := SetCore(t, f, fe.core.(resp := [], gotExecute := false, gotSync := false));
      if !fe.core.ready {
        HandledTouched(cfg, s, u, f, m);
      } else {
        BindTouched(cfg, s, u, f, m);
      }
    }
  }

  lemma HandledTouched(cfg: Config, s: State, t: State, f: nat, m: Msg)
    requires Proper(cfg) && Owned(s) && f < |s.fes| == |t.fes| && t.fes == s.fes[f := t.fes[f]] && t.pool == s.pool
    requires t.fes[f].core.be.None? && t.fes[f].log.issued == s.fes[f].log.issued
    requires t.fes[f].core.id == s.fes[f].core.id
    ensures AllTouch(cfg, s, Handle(cfg, t, f, m))
  {
    HandleConfined(cfg, t, f, m);
    HandleIssues(cfg, t, f, m);
    MovesUnharmed(s, Handle(cfg, t, f, m), None);
    OneTouched(cfg, s, Handle(cfg, t, f, m), f);
  }

  lemma ProcessTouched(cfg: Config, s: State, f: nat, m: Msg)
    requires Proper(cfg) && Inv(cfg, s) && f < |s.fes| && s.fes[f].core.st != Free
    ensures AllTouch(cfg, s, Process(cfg, s, f, m))
  {
    assert Shape(cfg, s.fes[f]);
    if Real(m) && s.fes[f].core.wait == Idle {
      OpenOne(cfg, s, f);
      RingHasRoom(s, NONE, f, f);
      IdleTouched(cfg, s, f, m);
    } else {
      SamePoolUnharmed(s, Process(cfg, s, f, m));
      BusyTouch(cfg, s, f, m);
      OneTouched(cfg, s, Process(cfg, s, f, m), f);
    }
  }

  // A frontend that is not idle only queues its input, or is marked.
  lemma BusyTouch(cfg: Config, s: State, f: nat, m: Msg)
    requires Inv(cfg, s) && f < |s.fes| && (!Real(m) || s.fes[f].core.wait != Idle)
    ensures |Process(cfg, s, f, m).fes| == |s.fes| && Touch(cfg, s, Process(cfg, s, f, m), f)
    ensures Process(cfg, s, f, m).pool == s.pool
    ensures forall i :: InRange(s, i) && i != f ==> Process(cfg, s, f, m).fes[i] == s.fes[i]
  {
    if s.fes[f].core.be.Some? { assert Holds(s, f, s.fes[f].core.be.value); }
  }

  lemma {:induction false} InputTouched(cfg: Config, s: State, f: nat, ms: seq<Msg>)
    requires Proper(cfg) && Inv(cfg, s) && f < |s.fes| && s.fes[f].core.st != Free
    ensures AllTouch(cfg, s, ProcessAll(cfg, s, f, ms))
    decreases |ms|
  {
    if ms == [] {
      SelfTouched(cfg, s, NONE, NONE);
    } else {
      var t := Process(cfg, s, f, ms[0]);
      ProcessInv(cfg, s, f, ms[0]);
      ProcessTouched(cfg, s, f, ms[0]);
      InputTouched(cfg, t, f, ms[1..]);
      TouchTrans(cfg, s, t, ProcessAll(cfg, t, f, ms[1..]));
    }
  }

  // ---- closing, maintenance ----

  lemma ClosedTouched(cfg: Config, u: State, f: nat)
    requires f < |u.fes| && Owned(u)
    ensures AllTouch(cfg, u, SetFe(u, f, Drop(u.fes[f]).(core := CloseCore(u.fes[f].core))))
  {
    var t := SetFe(u, f, Drop(u.fes[f]).(core := CloseCore(u.fes[f].core)));
    SamePoolUnharmed(u, t);
    OneTouched(cfg, u, t, f);
  }

  lemma HolderTouched(cfg: Config, s: State, v: State, f: nat)
    requires Proper(cfg) && Inv(cfg, s) && Runs(s, f) && Shape(cfg, s.fes[f])
    requires v == SetCore(s.(pool := BackendPool.Finish(cfg.pool, s.pool, s.fes[f].core.be.value, true)), f,
                          s.fes[f].core.(be := None))
    ensures AllTouch(cfg, s, FairSchedule(cfg, v)) && Owned(FairSchedule(cfg, v)) && f !in s.ring
  {
    var b := s.fes[f].core.be.value;
    assert Holds(s, f, b);
    PoolOwnership.FinishFrees(cfg.pool, s.pool, b, true);
    EndsInv(cfg, s, v, f, b);
    forall i | InRange(s, i) ensures Touch(cfg, s, v, i) {
      if i != f && s.fes[i].core.be.Some? {
        assert Holds(s, i, s.fes[i].core.be.value);
        assert s.fes[i].core.be.value != b;
      }
    }
    PassInv(cfg, v, |v.ring|, f);
    PassTouched(cfg, v, |v.ring|, f);
    TouchTrans(cfg, s, v, FairSchedule(cfg, v));
  }

  lemma CloseTouched(cfg: Config, s: State, f: nat)
    requires Proper(cfg) && Inv(cfg, s) && f < |s.fes|
    ensures AllTouch(cfg, s, Close(cfg, s, f))
  {
    assert Shape(cfg, s.fes[f]);
    SelfTouched(cfg, s, NONE, NONE);
    if s.fes[f].core.st != Free {
      if s.fes[f].core.be.Some? {
        assert Holds(s, f, s.fes[f].core.be.value);
        RunningTouched(cfg, s, f);
      } else {
        SameHolders(s, s.(ring := WaitersRemove(s.ring, f)));
        ClosedTouched(cfg, s.(ring := WaitersRemove(s.ring, f)), f);
      }
    }
  }

  lemma RunningTouched(cfg: Config, s: State, f: nat)
    requires Proper(cfg) && Inv(cfg, s) && Runs(s, f) && Shape(cfg, s.fes[f])
    ensures AllTouch(cfg, s, Close(cfg, s, f))
  {
    var pool := BackendPool.Finish(cfg.pool, s.pool, s.fes[f].core.be.value, true);
    var v := SetCore(s.(pool := pool), f, s.fes[f].core.(be := None));
    HolderTouched(cfg, s, v, f);
    RemoveMeaning(s.ring, f);
    ClosedTouched(cfg, FairSchedule(cfg, v), f);
    TouchTrans(cfg, s, FairSchedule(cfg, v), Close(cfg, s, f));
  }

  lemma TickTouched(cfg: Config, s: State)
    requires Proper(cfg) && Inv(cfg, s)
    ensures AllTouch(cfg, s, Step(cfg, s, Tick))
  {
    PoolOwnership.MaintainMoves(cfg.pool, s.pool);
    MovesUnharmed(s, Step(cfg, s, Tick), None);
    forall i | InRange(s, i) ensures Touch(cfg, s, Step(cfg, s, Tick), i) {
      if s.fes[i].core.be.Some? { assert Holds(s, i, s.fes[i].core.be.value); }
    }
  }

  // The event gives slot i to a new connection.
  predicate Renews(s: State, e: Event, i: int) { e.Accept? && FreeSlot(s.fes) == i }

  lemma AcceptTouched(cfg: Config, s: State, id: Identity, ready: bool, i: int)
    requires Inv(cfg, s) && InRange(s, i) && !Renews(s, Accept(id, ready), i)
    ensures Touch(cfg, s, Step(cfg, s, Accept(id, ready)), i)
  {
    SelfTouched(cfg, s, NONE, NONE);
    assert Touch(cfg, s, s, i);
  }

  // Whatever happens, a pipeline in progress goes on untouched unless it ends, or its own slot
  // delivers; and a pipeline that starts has received nothing.
  lemma StepTouched(cfg: Config, s: State, e: Event, i: nat)
    requires Proper(cfg) && Inv(cfg, s) && i < |s.fes| && !Renews(s, e, i) && !Takes(cfg, s, e, i) && !Sends(s, e, i)
    ensures Touch(cfg, s, Step(cfg, s, e), i)
  {
    SelfTouched(cfg, s, NONE, NONE);
    match e
    case Accept(id, ready) => AcceptTouched(cfg, s, id, ready, i);
    case Input(f, ms) => if f < |s.fes| && s.fes[f].core.st != Free { InputTouched(cfg, s, f, ms); }
    case SendDone(f, res) => if Runs(s, f) && s.fes[f].core.sendPending { SendTouched(cfg, s, f, res, i); }
    case RecvDone(f, res) => if Runs(s, f) && s.fes[f].core.recvPending { RecvTouched(cfg, s, f, res, i); }
    case CloseConn(f) => if f < |s.fes| { CloseTouched(cfg, s, f); }
    case Tick => TickTouched(cfg, s);
  }

  // ---- what a pipeline has heard ----

  function Receiving(cfg: Config): Framer.Params { Framer.Params(cfg.proto, true, cfg.respCap) }

  // The bytes delivered to the pipeline that f runs, since it was issued.
  function HeardAfter(cfg: Config, s: State, e: Event, f: nat, h: Bytes): Bytes {
    if f < |s.fes| && |Step(cfg, s, e).fes[f].log.issued| != |s.fes[f].log.issued| then []
    else if Takes(cfg, s, e, f) then h + e.rres.bytes
    else h
  }

  function Heard(cfg: Config, s: State, es: seq<Event>, f: nat, h: Bytes): Bytes
    decreases |es|
  {
    if es == [] then h else Heard(cfg, Step(cfg, s, es[0]), es[1..], f, HeardAfter(cfg, s, es[0], f, h))
  }

  // The receive state of f's pipeline is that of a scan of these bytes.
  ghost predicate Hears(cfg: Config, s: State, f: nat, h: Bytes)
    requires f < |s.fes|
  {
    s.fes[f].core.be.Some? ==>
      && s.fes[f].core.be.value < |s.pool.conns|
      && var pipe := s.pool.conns[s.fes[f].core.be.value].pipe;
         Framer.Frames(Receiving(cfg), h, Framer.FRESH, []) == Framer.More(pipe.acc, pipe.st, s.fes[f].core.resp)
  }

  lemma TouchHears(cfg: Config, s: State, t: State, f: nat, h: Bytes)
    requires f < |s.fes| == |t.fes| && Touch(cfg, s, t, f) && Hears(cfg, s, f, h)
    ensures Hears(cfg, t, f, if |t.fes[f].log.issued| != |s.fes[f].log.issued| then [] else h)
  {
  }

  // A receive that is not complete.
  lemma TakesHears(cfg: Config, s: State, e: Event, f: nat, h: Bytes)
    requires Proper(cfg) && Inv(cfg, s) && f < |s.fes| && Takes(cfg, s, e, f) && Hears(cfg, s, f, h)
    ensures var t := Step(cfg, s, e);
            Hears(cfg, t, f, h + e.rres.bytes) && t.fes[f].log.issued == s.fes[f].log.issued
  {
    var data := e.rres.bytes;
    ReceivedSame(cfg, s, f, data);
    Framer.FramesExtend(Receiving(cfg), h, data, Framer.FRESH, []);
  }

  // What a send makes of the state.
  function Advanced(s: State, f: nat, res: SendResult): (t: State)
    requires Runs(s, f)
    ensures |t.fes| == |s.fes| && Runs(t, f)
  {
    var t := SetCore(s, f, s.fes[f].core.(sendPending := false));
    match res
    case Sent(n) => t.(pool := BackendPool.SendAdvance(t.pool, t.fes[f].core.be.value, n))
    case _ => t
  }

  lemma SendIsSubmit(cfg: Config, s: State, e: Event, f: nat)
    requires Sends(s, e, f)
    ensures Step(cfg, s, e) == SubmitSend(Advanced(s, f, e.sres), f)
  {
  }

  lemma AdvancedSame(s: State, f: nat, res: SendResult)
    requires Runs(s, f)
    ensures var t := Advanced(s, f, res);
            && t.fes[f].core.resp == s.fes[f].core.resp && t.fes[f].core.be == s.fes[f].core.be
            && t.fes[f].log == s.fes[f].log && t.fes[f].core.id == s.fes[f].core.id && !t.fes[f].core.sendPending
            && Conn(t, f).pipe.acc == Conn(s, f).pipe.acc && Conn(t, f).pipe.st == Conn(s, f).pipe.st
            && Conn(t, f).login == Conn(s, f).login
  {
  }

  // A send changes nothing of what was received.
  lemma SendHears(cfg: Config, s: State, e: Event, f: nat, h: Bytes)
    requires Inv(cfg, s) && f < |s.fes| && Sends(s, e, f) && Hears(cfg, s, f, h)
    ensures Hears(cfg, Step(cfg, s, e), f, h) && Step(cfg, s, e).fes[f].log.issued == s.fes[f].log.issued
  {
    SendIsSubmit(cfg, s, e, f);
    AdvancedSame(s, f, e.sres);
    SubmitSame(Advanced(s, f, e.sres), f);
  }

  lemma StepHears(cfg: Config, s: State, e: Event, f: nat, h: Bytes)
    requires Proper(cfg) && Inv(cfg, s) && f < |s.fes| && Hears(cfg, s, f, h)
    ensures Inv(cfg, Step(cfg, s, e)) && Hears(cfg, Step(cfg, s, e), f, HeardAfter(cfg, s, e, f, h))
  {
    StepInv(cfg, s, e);
    if Takes(cfg, s, e, f) {
      TakesHears(cfg, s, e, f, h);
    } else if Sends(s, e, f) {
      SendHears(cfg, s, e, f, h);
    } else if !Renews(s, e, f) {
      StepTouched(cfg, s, e, f);
      TouchHears(cfg, s, Step(cfg, s, e), f, h);
    }
  }

  lemma {:induction false} RunHears(cfg: Config, s: State, es: seq<Event>, f: nat, h: Bytes)
    requires Proper(cfg) && Inv(cfg, s) && f < |s.fes| && Hears(cfg, s, f, h)
    ensures Inv(cfg, Run(cfg, s, es)) && Hears(cfg, Run(cfg, s, es), f, Heard(cfg, s, es, f, h))
    decreases |es|
  {
    if es != [] {
      StepHears(cfg, s, es[0], f, h);
      RunHears(cfg, Step(cfg, s, es[0]), es[1..], f, HeardAfter(cfg, s, es[0], f, h));
    }
  }

  // Over every run: when a receive completes the pipeline of a connection, its response is what
  // the filter keeps of the messages delivered to this pipeline since it was issued, up to the
  // first ReadyForQuery -- nothing of any other pipeline, on any slot, before or beside it.
  lemma ResponseIsOwn(cfg: Config, s: State, es: seq<Event>, f: nat, data: Bytes)
    requires Proper(cfg) && Initial(s) && f < |s.fes|
    requires var u := Run(cfg, s, es); Runs(u, f) && Received(cfg, u, f, data).Done?
    ensures var r := Received(cfg, Run(cfg, s, es), f, data);
            var ms := Framer.Messages(Heard(cfg, s, es, f, []) + data);
            && r.out == Framer.Kept(Receiving(cfg), ms)
            && r.st == Framer.Status(Framer.HasError(ms), true) && Framer.Ready(ms)
            && r.rest == Framer.Unparsed(Heard(cfg, s, es, f, []) + data)
  {
    InitialInv(cfg, s);
    RunHears(cfg, s, es, f, []);
    var h := Heard(cfg, s, es, f, []);
    Framer.FramesExtend(Receiving(cfg), h, data, Framer.FRESH, []);
    Framer.FramesMeaning(Receiving(cfg), h + data, Framer.FRESH, []);
    var kept := Framer.Kept(Receiving(cfg), Framer.Messages(h + data));
    assert [] + kept == kept;
  }
}
