// Every event keeps every connection's history in step with one-at-a-time handling.
module Refinement {
  import opened Wire
  import opened Rewrite
  import opened Frontend
  import opened Scheduler
  import opened Invariant
  import opened Steps
  import opened History
  import BackendPool
  import PoolOwnership
  import Ring
  import StmtCache
  import Framer

  // Only f changed, and its history is still in step.
  ghost predicate Keeps(cfg: Config, s: State, t: State, f: nat) {
    && f < |s.fes| && |t.fes| == |s.fes| && t.fes == s.fes[f := t.fes[f]]
    && (Traced(cfg, s.fes[f]) ==> Traced(cfg, t.fes[f]))
  }

  lemma KeepsAll(cfg: Config, s: State, t: State, f: nat)
    requires AllTraced(cfg, s) && Keeps(cfg, s, t, f)
    ensures AllTraced(cfg, t)
  {
  }

  lemma KeepsTrans(cfg: Config, s: State, t: State, u: State, f: nat)
    requires Keeps(cfg, s, t, f) && Keeps(cfg, t, u, f)
    ensures Keeps(cfg, s, u, f)
  {
  }

  lemma SameStoryKeeps(cfg: Config, s: State, t: State, f: nat)
    requires f < |s.fes| && |t.fes| == |s.fes| && t.fes == s.fes[f := t.fes[f]]
    requires SameStory(s.fes[f], t.fes[f])
    ensures Keeps(cfg, s, t, f)
  {
    if Traced(cfg, s.fes[f]) { SameStoryTraced(cfg, s.fes[f], t.fes[f]); }
  }

  lemma HandleParseStory(c: Core, cacheMax: nat, e: Prepared)
    ensures var d := HandleParse(c, cacheMax, e);
            d.cache == StmtCache.PutSpec(c.cache, cacheMax, e) && d.id == c.id && d.ready == c.ready
  {
  }

  lemma HandleCoreStory(cfg: Config, c: Core, m: Msg)
    ensures var d := HandleCore(cfg, c, m);
            d.cache == CacheStep(cfg, c.id, c.cache, m) && d.id == c.id && d.ready == c.ready
  {
    if m.Parse? { HandleParseStory(c, cfg.cacheMax, ParseEntry(cfg, c.id, m.parse)); }
  }

  // What handling a message without a backend does to the history.
  lemma HandleStory(cfg: Config, s: State, f: nat, m: Msg)
    requires f < |s.fes| && Real(m)
    ensures var a, t := s.fes[f], Handle(cfg, s, f, m);
            && |t.fes| == |s.fes| && t.fes == s.fes[f := t.fes[f]]
            && t.fes[f].queue == a.queue && t.fes[f].log == Handled(a.log, m)
            && t.fes[f].core.id == a.core.id && t.fes[f].core.ready == a.core.ready
            && t.fes[f].core.cache == CacheStep(cfg, a.core.id, a.core.cache, m)
  {
    HandleCoreStory(cfg, s.fes[f].core, m);
  }

  // What starting a Bind does to the history.
  lemma StartStory(cfg: Config, s: State, f: nat, b: BindMsg, fromQueue: bool)
    requires Proper(cfg) && f < |s.fes| && PoolOwnership.PoolOk(s.pool)
    ensures var (t, ok) := StartBind(cfg, s, f, b, fromQueue);
            var a := s.fes[f];
            && |t.fes| == |s.fes|
            && (!ok ==> t.fes == s.fes)
            && (ok ==> t.fes == s.fes[f := t.fes[f]] && t.fes[f].queue == a.queue
                       && OnBind(a.core.cache, b, a.core.id).Some?
                       && t.fes[f].log == Issue(a.log, Bind(b), OnBind(a.core.cache, b, a.core.id).value)
                       && t.fes[f].core.id == a.core.id && t.fes[f].core.ready == a.core.ready
                       && t.fes[f].core.cache == a.core.cache)
  {
  }

  lemma ParkStory(s: State, f: nat)
    requires f < |s.fes|
    ensures var t := Park(s, f).0;
            |t.fes| == |s.fes| && t.fes == s.fes[f := t.fes[f]] && SameStory(s.fes[f], t.fes[f])
  {
  }

  // From a to b the Bind m was taken off the queue's head and issued, or put back.
  lemma StartOrParkKeeps(cfg: Config, s: State, f: nat, a: Fe, m: Msg)
    requires Proper(cfg) && f < |s.fes| && PoolOwnership.PoolOk(s.pool)
    requires a.queue != [] && m == a.queue[0] && m.Bind? && a.core.ready
    requires s.fes[f].queue == a.queue[1..] && s.fes[f].log == a.log
    requires s.fes[f].core == a.core.(wait := Idle)
    ensures var t := StartOrPark(cfg, s, f, m);
            && |t.fes| == |s.fes| && t.fes == s.fes[f := t.fes[f]]
            && (Traced(cfg, a) ==> Traced(cfg, t.fes[f]))
  {
    StartStory(cfg, s, f, m.bind, true);
    var (u, ok) := StartBind(cfg, s, f, m.bind, true);
    var t := StartOrPark(cfg, s, f, m);
    if ok {
      if Traced(cfg, a) { MovesTraced(cfg, a, t.fes[f], m); }
    } else {
      var back := SetFe(u, f, u.fes[f].(queue := [m] + u.fes[f].queue));
      ParkStory(back, f);
      assert [m] + a.queue[1..] == a.queue;
      if Traced(cfg, a) { SameStoryTraced(cfg, a, t.fes[f]); }
    }
  }

  lemma FlushKeeps(cfg: Config, s: State, f: nat)
    requires f < |s.fes|
    ensures Keeps(cfg, s, Flush(s, f), f)
  {
    SameStoryKeeps(cfg, s, Flush(s, f), f);
  }

  lemma HandlePoppedKeeps(cfg: Config, s: State, f: nat, m: Msg)
    requires f < |s.fes| && s.fes[f].queue != [] && m == s.fes[f].queue[0] && Real(m)
    requires !(m.Bind? && s.fes[f].core.ready)
    ensures Keeps(cfg, s, Handle(cfg, SetFe(s, f, s.fes[f].(queue := s.fes[f].queue[1..])), f, m), f)
  {
    var popped := SetFe(s, f, s.fes[f].(queue := s.fes[f].queue[1..]));
    HandleStory(cfg, popped, f, m);
    if Traced(cfg, s.fes[f]) { MovesTraced(cfg, s.fes[f], Handle(cfg, popped, f, m).fes[f], m); }
  }

  lemma {:induction false} DrainKeeps(cfg: Config, s: State, f: nat)
    requires Proper(cfg) && f < |s.fes| && PoolOwnership.PoolOk(s.pool) && AllReal(s.fes[f].queue)
    ensures Keeps(cfg, s, Drain(cfg, s, f), f)
    decreases |s.fes[f].queue|
  {
    var fe := s.fes[f];
    if fe.core.wait != Idle || fe.queue == [] {
      FlushKeeps(cfg, s, f);
    } else {
      var m := fe.queue[0];
      var popped := SetFe(s, f, fe.(queue := fe.queue[1..]));
      if m.Bind? && fe.core.ready {
        StartOrParkKeeps(cfg, popped, f, fe, m);
        var t := StartOrPark(cfg, popped, f, m);
        FlushKeeps(cfg, t, f);
        KeepsTrans(cfg, s, t, Flush(t, f), f);
      } else {
        HandleConfined(cfg, popped, f, m);
        HandlePoppedKeeps(cfg, s, f, m);
        var t := Handle(cfg, popped, f, m);
        DrainKeeps(cfg, t, f);
        KeepsTrans(cfg, s, t, Drain(cfg, t, f), f);
      }
    }
  }

  // ---- the scheduling pass ----

  lemma AttemptKeeps(cfg: Config, s: State, o: int, w: nat)
    requires Proper(cfg) && Awaits(cfg, s, o) && w == s.ring[0] && PoolOwnership.PoolOk(s.pool)
    ensures Keeps(cfg, s, Attempt(cfg, s, w), w)
  {
    var fe := s.fes[w];
    var p := Popped(s, w);
    StartOrParkKeeps(cfg, p, w, fe, fe.queue[0]);
    var t := StartOrPark(cfg, p, w, fe.queue[0]);
    FlushKeeps(cfg, t, w);
    KeepsTrans(cfg, s, t, Flush(t, w), w);
  }

  lemma TurnTraced(cfg: Config, s: State, o: int)
    requires Proper(cfg) && InvOpen(cfg, s, o, NONE) && AllTraced(cfg, s) && s.ring != []
    ensures AllTraced(cfg, Turn(cfg, s))
  {
    HeadAwaits(cfg, s, o);
    Ring.DistinctTail(s.ring);
    Ring.Pigeonhole(s.ring, |s.fes|);
    TurnIsAttempt(cfg, s, o);
    AttemptKeeps(cfg, s, o, s.ring[0]);
    KeepsAll(cfg, s, Attempt(cfg, s, s.ring[0]), s.ring[0]);
  }

  lemma TurnGood(cfg: Config, s: State, o: int)
    requires Proper(cfg) && InvOpen(cfg, s, o, NONE) && AllTraced(cfg, s) && s.ring != []
    ensures InvOpen(cfg, Turn(cfg, s), o, NONE) && AllTraced(cfg, Turn(cfg, s))
  {
    TurnInv(cfg, s, o);
    TurnTraced(cfg, s, o);
  }

  lemma PassTraced(cfg: Config, s: State, attempts: nat, o: int)
    requires Proper(cfg) && InvOpen(cfg, s, o, NONE) && AllTraced(cfg, s)
    ensures AllTraced(cfg, Pass(cfg, s, attempts))
  {
    var good := u => InvOpen(cfg, u, o, NONE) && AllTraced(cfg, u);
    forall u | good(u) && u.ring != [] ensures good(Turn(cfg, u)) {
      TurnGood(cfg, u, o);
    }
    PassKeeps(cfg, s, attempts, good);
  }

  lemma AfterReleaseTraced(cfg: Config, s: State, f: nat)
    requires Proper(cfg) && f < |s.fes| && f !in s.ring && AllTraced(cfg, s)
    requires var t := SetCore(s, f, ReleaseCore(s.fes[f].core));
             InvOpen(cfg, t, f, NONE) && Drainable(cfg, t.fes[f])
    ensures AllTraced(cfg, AfterRelease(cfg, s, f))
  {
    var t := SetCore(s, f, ReleaseCore(s.fes[f].core));
    SameStoryKeeps(cfg, s, t, f);
    KeepsAll(cfg, s, t, f);
    PassTraced(cfg, t, |t.ring|, f);
    PassInv(cfg, t, |t.ring|, f);
    var u := if t.ring != [] then FairSchedule(cfg, t) else t;
    assert u.fes[f] == t.fes[f];
    LastTraced(cfg, u, f);
  }

  lemma LastTraced(cfg: Config, u: State, f: nat)
    requires Proper(cfg) && f < |u.fes| && AllTraced(cfg, u) && PoolOwnership.PoolOk(u.pool) && AllReal(u.fes[f].queue)
    ensures AllTraced(cfg, if u.fes[f].core.wait == Idle && u.fes[f].queue != [] then Drain(cfg, u, f) else Flush(u, f))
  {
    if u.fes[f].core.wait == Idle && u.fes[f].queue != [] {
      DrainKeeps(cfg, u, f);
      KeepsAll(cfg, u, Drain(cfg, u, f), f);
    } else {
      FlushKeeps(cfg, u, f);
      KeepsAll(cfg, u, Flush(u, f), f);
    }
  }

  // ---- pipelines ending, connections closing ----

  lemma FailTraced(cfg: Config, s: State, t: State, f: nat)
    requires Proper(cfg) && Inv(cfg, s) && Between(cfg, s, t, f) && AllTraced(cfg, t)
    ensures AllTraced(cfg, Fail(cfg, t, f))
  {
    var b := s.fes[f].core.be.value;
    var fe := t.fes[f].(core := FailCore(t.fes[f].core));
    var u := SetFe(t.(pool := BackendPool.Finish(cfg.pool, t.pool, b, true)), f, fe);
    EndOpen(cfg, s, t, u, f, fe, true);
    SameStoryKeeps(cfg, t, u, f);
    KeepsAll(cfg, t, u, f);
    AfterReleaseTraced(cfg, u, f);
  }

  lemma CompleteStory(cfg: Config, t: State, f: nat, fe: Fe, sawError: bool)
    requires AllTraced(cfg, t) && f < |t.fes|
    requires fe == if sawError then Drop(t.fes[f]) else t.fes[f]
    ensures Traced(cfg, fe.(core := CompleteCore(fe.core, sawError)))
  {
    if sawError { DropTraced(cfg, t.fes[f]); }
    SameStoryTraced(cfg, fe, fe.(core := CompleteCore(fe.core, sawError)));
  }

  lemma CompleteTraced(cfg: Config, s: State, t: State, f: nat)
    requires Proper(cfg) && Inv(cfg, s) && Between(cfg, s, t, f) && AllTraced(cfg, t)
    ensures AllTraced(cfg, Complete(cfg, t, f))
  {
    var b := s.fes[f].core.be.value;
    var sawError := Conn(t, f).pipe.st.sawError;
    var fe := if sawError then Drop(t.fes[f]) else t.fes[f];
    var d := fe.(core := CompleteCore(fe.core, sawError));
    var u := SetFe(t.(pool := BackendPool.Finish(cfg.pool, t.pool, b, false)), f, d);
    EndOpen(cfg, s, t, u, f, d, false);
    CompleteStory(cfg, t, f, fe, sawError);
    AfterReleaseTraced(cfg, u, f);
  }

  lemma SubmitTraced(cfg: Config, t: State, f: nat)
    requires Runs(t, f) && AllTraced(cfg, t)
    ensures AllTraced(cfg, SubmitSend(t, f)) && AllTraced(cfg, SubmitRecv(t, f))
  {
    SameStoryKeeps(cfg, t, SubmitSend(t, f), f);
    SameStoryKeeps(cfg, t, SubmitRecv(t, f), f);
    KeepsAll(cfg, t, SubmitSend(t, f), f);
    KeepsAll(cfg, t, SubmitRecv(t, f), f);
  }

  lemma SendDoneTraced(cfg: Config, s: State, f: nat, res: SendResult)
    requires Proper(cfg) && Inv(cfg, s) && AllTraced(cfg, s) && Runs(s, f) && s.fes[f].core.sendPending
    ensures AllTraced(cfg, OnSendDone(cfg, s, f, res))
  {
    var t := SetCore(s, f, s.fes[f].core.(sendPending := false));
    assert Shape(cfg, s.fes[f]);
    SameStoryKeeps(cfg, s, t, f);
    KeepsAll(cfg, s, t, f);
    match res
    case Again => SubmitTraced(cfg, t, f);
    case SendError => FailTraced(cfg, s, t, f);
    case Sent(n) => SubmitTraced(cfg, t.(pool := BackendPool.SendAdvance(t.pool, t.fes[f].core.be.value, n)), f);
  }

  lemma StoreTraced(cfg: Config, t: State, f: nat, acc: Bytes, st: Framer.Status, resp: Bytes)
    requires Runs(t, f) && AllTraced(cfg, t)
    ensures AllTraced(cfg, Store(t, f, acc, st, resp))
  {
    SameStoryKeeps(cfg, t, Store(t, f, acc, st, resp), f);
    KeepsAll(cfg, t, Store(t, f, acc, st, resp), f);
  }

  lemma RecvDoneTraced(cfg: Config, s: State, f: nat, res: RecvResult)
    requires Proper(cfg) && Inv(cfg, s) && AllTraced(cfg, s) && Runs(s, f) && s.fes[f].core.recvPending
    ensures AllTraced(cfg, OnRecvDone(cfg, s, f, res))
  {
    var t := SetCore(s, f, s.fes[f].core.(recvPending := false));
    assert Shape(cfg, s.fes[f]);
    assert Between(cfg, s, t, f);
    SameStoryKeeps(cfg, s, t, f);
    KeepsAll(cfg, s, t, f);
    if res.RecvError? || res.bytes == [] {
      FailTraced(cfg, s, t, f);
    } else {
      match Received(cfg, t, f, res.bytes)
      case Bad => FailTraced(cfg, s, t, f);
      case More(acc, st, resp) =>
        StoreTraced(cfg, t, f, acc, st, resp);
        SubmitTraced(cfg, Store(t, f, acc, st, resp), f);
      case Done(acc, st, resp) =>
        StoreTraced(cfg, t, f, acc, st, resp);
        assert Between(cfg, s, Store(t, f, acc, st, resp), f);
        CompleteTraced(cfg, s, Store(t, f, acc, st, resp), f);
    }
  }

  lemma ClosedTraced(cfg: Config, u: State, f: nat)
    requires AllTraced(cfg, u) && f < |u.fes|
    ensures AllTraced(cfg, SetFe(u, f, Drop(u.fes[f]).(core := CloseCore(u.fes[f].core))))
  {
    DropTraced(cfg, u.fes[f]);
    SameStoryTraced(cfg, Drop(u.fes[f]), Drop(u.fes[f]).(core := CloseCore(u.fes[f].core)));
  }

  lemma CloseTraced(cfg: Config, s: State, f: nat)
    requires Proper(cfg) && Inv(cfg, s) && AllTraced(cfg, s) && f < |s.fes|
    ensures AllTraced(cfg, Close(cfg, s, f))
  {
    if s.fes[f].core.st != Free {
      assert Shape(cfg, s.fes[f]);
      var t := s.(ring := WaitersRemove(s.ring, f));
      if s.fes[f].core.be.Some? {
        var b := s.fes[f].core.be.value;
        assert Holds(s, f, b);
        assert f !in s.ring;
        RemoveMeaning(s.ring, f);
        PoolOwnership.FinishFrees(cfg.pool, s.pool, b, true);
        var v := SetCore(t.(pool := BackendPool.Finish(cfg.pool, t.pool, b, true)), f, t.fes[f].core.(be := None));
        EndsInv(cfg, s, v, f, b);
        SameStoryKeeps(cfg, s, v, f);
        KeepsAll(cfg, s, v, f);
        PassTraced(cfg, v, |v.ring|, f);
        ClosedTraced(cfg, FairSchedule(cfg, v), f);
      } else {
        ClosedTraced(cfg, t, f);
      }
    }
  }

  // ---- input ----

  lemma HandleNowTraced(cfg: Config, s: State, t: State, f: nat, m: Msg)
    requires f < |s.fes| && s.fes[f].queue == [] && Traced(cfg, s.fes[f]) && Real(m)
    requires !(m.Bind? && s.fes[f].core.ready)
    requires f < |t.fes| && t.fes[f].queue == [] && t.fes[f].log == Arrive(s.fes[f], m).log
    requires t.fes[f].core.id == s.fes[f].core.id && t.fes[f].core.ready == s.fes[f].core.ready
    requires t.fes[f].core.cache == s.fes[f].core.cache
    ensures Traced(cfg, Handle(cfg, t, f, m).fes[f])
  {
    HandleStory(cfg, t, f, m);
    HandlesNowTraced(cfg, s.fes[f], Handle(cfg, t, f, m).fes[f], m);
  }

  lemma BindNowTraced(cfg: Config, s: State, u: State, f: nat, m: Msg)
    requires Proper(cfg) && f < |s.fes| && s.fes[f].queue == [] && Traced(cfg, s.fes[f]) && PoolOwnership.PoolOk(u.pool)
    requires f < |u.fes| && u.fes[f].queue == [] && u.fes[f].log == Arrive(s.fes[f], m).log
    requires m.Bind? && u.fes[f].core.ready
    requires u.fes[f].core.id == s.fes[f].core.id && u.fes[f].core.ready == s.fes[f].core.ready
    requires u.fes[f].core.cache == s.fes[f].core.cache
    ensures Traced(cfg, BindNow(cfg, u, f, m).fes[f])
  {
    StartStory(cfg, u, f, m.bind, false);
    var (v, ok) := StartBind(cfg, u, f, m.bind, false);
    if ok {
      HandlesNowTraced(cfg, s.fes[f], v.fes[f], m);
    } else {
      var w := SetFe(v, f, v.fes[f].(queue := v.fes[f].queue + [Queued(m)]));
      JoinsTraced(cfg, s.fes[f], w.fes[f], m, true);
      ParkStory(w, f);
      SameStoryTraced(cfg, w.fes[f], Park(w, f).0.fes[f]);
    }
  }

  lemma BindNowOthers(cfg: Config, u: State, f: nat, m: Msg)
    requires Proper(cfg) && f < |u.fes| && m.Bind? && PoolOwnership.PoolOk(u.pool)
    ensures var t := BindNow(cfg, u, f, m); t.fes == u.fes[f := t.fes[f]]
  {
    StartStory(cfg, u, f, m.bind, false);
  }

  lemma IdleTraced(cfg: Config, s: State, f: nat, m: Msg)
    requires Proper(cfg) && PoolOwnership.PoolOk(s.pool) && AllTraced(cfg, s) && f < |s.fes| && Real(m)
    requires s.fes[f].core.wait == Idle && s.fes[f].queue == []
    ensures AllTraced(cfg, Process(cfg, s, f, m))
  {
    var fe := s.fes[f];
    var t := SetFe(s, f, Arrive(fe, m));
    if !m.Bind? {
      HandleStory(cfg, t, f, m);
      HandleNowTraced(cfg, s, t, f, m);
    } else {
      var u := SetCore(t, f, fe.core.(resp := [], gotExecute := false, gotSync := false));
      if !fe.core.ready {
        HandleStory(cfg, u, f, m);
        HandleNowTraced(cfg, s, u, f, m);
      } else {
        BindNowOthers(cfg, u, f, m);
        BindNowTraced(cfg, s, u, f, m);
      }
    }
  }

  lemma ProcessTraced(cfg: Config, s: State, f: nat, m: Msg)
    requires Proper(cfg) && Inv(cfg, s) && AllTraced(cfg, s) && f < |s.fes|
    ensures AllTraced(cfg, Process(cfg, s, f, m))
  {
    var fe := s.fes[f];
    assert Shape(cfg, fe) && Quiet(fe);
    if !Real(m) {
      SameStoryKeeps(cfg, s, Handle(cfg, s, f, m), f);
      KeepsAll(cfg, s, Handle(cfg, s, f, m), f);
    } else if fe.core.wait != Idle {
      JoinsTraced(cfg, fe, Enqueue(cfg, fe, m), m, Fits(cfg, fe));
    } else {
      IdleTraced(cfg, s, f, m);
    }
  }

  lemma {:induction false} InputTraced(cfg: Config, s: State, f: nat, ms: seq<Msg>)
    requires Proper(cfg) && Inv(cfg, s) && AllTraced(cfg, s) && f < |s.fes| && s.fes[f].core.st != Free
    ensures AllTraced(cfg, ProcessAll(cfg, s, f, ms))
    decreases |ms|
  {
    if ms == [] {
      FlushKeeps(cfg, s, f);
      KeepsAll(cfg, s, Flush(s, f), f);
    } else {
      ProcessInv(cfg, s, f, ms[0]);
      ProcessTraced(cfg, s, f, ms[0]);
      InputTraced(cfg, Process(cfg, s, f, ms[0]), f, ms[1..]);
    }
  }

  // ---- every run ----

  lemma StepTraced(cfg: Config, s: State, e: Event)
    requires Proper(cfg) && Inv(cfg, s) && AllTraced(cfg, s)
    ensures AllTraced(cfg, Step(cfg, s, e))
  {
    match e
    case Accept(id, ready) => NewTraced(cfg, id, ready);
    case Input(f, ms) => if f < |s.fes| && s.fes[f].core.st != Free { InputTraced(cfg, s, f, ms); }
    case SendDone(f, res) => if Runs(s, f) && s.fes[f].core.sendPending { SendDoneTraced(cfg, s, f, res); }
    case RecvDone(f, res) => if Runs(s, f) && s.fes[f].core.recvPending { RecvDoneTraced(cfg, s, f, res); }
    case CloseConn(f) => if f < |s.fes| { CloseTraced(cfg, s, f); }
    case Tick =>
  }

  lemma {:induction false} RunTraced(cfg: Config, s: State, es: seq<Event>)
    requires Proper(cfg) && Inv(cfg, s) && AllTraced(cfg, s)
    ensures AllTraced(cfg, Run(cfg, s, es))
    decreases |es|
  {
    if es != [] {
      StepInv(cfg, s, es[0]);
      StepTraced(cfg, s, es[0]);
      RunTraced(cfg, Step(cfg, s, es[0]), es[1..]);
    }
  }

  lemma ReachableTraced(cfg: Config, s: State, es: seq<Event>, f: nat)
    requires Proper(cfg) && Initial(s) && f < |s.fes|
    ensures Traced(cfg, Run(cfg, s, es).fes[f])
  {
    NewTraced(cfg, NOBODY, false);
    RunTraced(cfg, s, es);
  }

  // ---- deferred execution refines sequential execution ----

  lemma CleanFlow(fe: Fe)
    requires Pairwise(Flow(fe), fe.log.arrived)
    requires forall k :: 0 <= k < |fe.log.arrived| ==> Clean(fe.log.arrived[k])
    ensures Flow(fe) == fe.log.arrived
  {
    forall k | 0 <= k < |fe.log.arrived| ensures Flow(fe)[k] == fe.log.arrived[k] {
      QueuedMeaning(fe.log.arrived[k]);
      assert Clean(fe.log.arrived[k]);
      assert Seen(fe.log.arrived[k], Flow(fe)[k]);
    }
  }

  // In every reachable state: if a connection has lost no message and none has a NUL in a text
  // parameter, what it handled is a prefix of what arrived, its cache is what the sequential
  // proxy has after that prefix, and the pipelines issued are exactly that prefix's -- so a
  // prefix of what the sequential proxy issues on all arrivals.
  lemma DeferredRefinesSequential(cfg: Config, s: State, es: seq<Event>, f: nat)
    requires Proper(cfg) && Initial(s) && f < |s.fes|
    requires var l := Run(cfg, s, es).fes[f].log;
             l.lost == 0 && forall k :: 0 <= k < |l.arrived| ==> Clean(l.arrived[k])
    ensures var fe := Run(cfg, s, es).fes[f];
            && fe.log.handled <= fe.log.arrived
            && fe.log.handled + fe.queue == fe.log.arrived
            && fe.core.cache == CacheAfter(cfg, fe.core.id, fe.log.handled)
            && fe.log.issued == Issues(cfg, fe.core.id, fe.core.ready, fe.log.handled)
            && fe.log.issued <= Issues(cfg, fe.core.id, fe.core.ready, fe.log.arrived)
  {
    ReachableTraced(cfg, s, es, f);
    var fe := Run(cfg, s, es).fes[f];
    CleanFlow(fe);
    var n := |fe.log.handled|;
    assert fe.log.arrived[..n] == fe.log.handled;
    IssuesPrefix(cfg, fe.core.id, fe.core.ready, fe.log.arrived, n);
  }

  // Pipeline k is the rewrite of message src[k], by the cache as it was then.
  ghost predicate IssuedBy(cfg: Config, id: Identity, ms: seq<Msg>, issues: seq<Pipeline>, src: seq<nat>, k: nat)
    requires k < |src| == |issues|
  {
    && src[k] < |ms| && ms[src[k]].Bind?
    && Injected(issues[k], CacheAfter(cfg, id, ms[..src[k]]), ms[src[k]].bind, id)
  }

  ghost predicate OneToOne(cfg: Config, id: Identity, ms: seq<Msg>, issues: seq<Pipeline>, src: seq<nat>) {
    && |src| == |issues|
    && (forall k: nat :: k < |src| ==> IssuedBy(cfg, id, ms, issues, src, k))
    && (forall j: nat, k: nat :: j < k < |src| ==> src[j] < src[k])
  }

  lemma OneToOneMore(cfg: Config, id: Identity, ms: seq<Msg>, issues: seq<Pipeline>, src: seq<nat>, m: Msg)
    requires OneToOne(cfg, id, ms, issues, src)
    ensures OneToOne(cfg, id, ms + [m], issues, src)
  {
    forall k: nat | k < |src| ensures IssuedBy(cfg, id, ms + [m], issues, src, k) {
      assert IssuedBy(cfg, id, ms, issues, src, k);
      assert (ms + [m])[..src[k]] == ms[..src[k]];
    }
  }

  lemma OneToOneNext(cfg: Config, id: Identity, ms: seq<Msg>, issues: seq<Pipeline>, src: seq<nat>, m: Msg)
    requires OneToOne(cfg, id, ms, issues, src) && m.Bind? && OnBind(CacheAfter(cfg, id, ms), m.bind, id).Some?
    ensures OneToOne(cfg, id, ms + [m], issues + [OnBind(CacheAfter(cfg, id, ms), m.bind, id).value], src + [|ms|])
  {
    var p := OnBind(CacheAfter(cfg, id, ms), m.bind, id).value;
    OneToOneMore(cfg, id, ms, issues, src, m);
    OnBindInjects(CacheAfter(cfg, id, ms), m.bind, id);
    assert (ms + [m])[..|ms|] == ms;
    forall k: nat | k < |src| + 1 ensures IssuedBy(cfg, id, ms + [m], issues + [p], src + [|ms|], k) {
      if k < |src| { assert IssuedBy(cfg, id, ms + [m], issues, src, k); }
    }
    forall j: nat, k: nat | j < k < |src| + 1 ensures (src + [|ms|])[j] < (src + [|ms|])[k] {
      assert IssuedBy(cfg, id, ms, issues, src, j);
    }
  }

  // The pipelines come from as many different Binds, in their order.
  lemma {:induction false} IssuedInjected(cfg: Config, id: Identity, ready: bool, ms: seq<Msg>)
    ensures OneToOne(cfg, id, ms, Issues(cfg, id, ready, ms), Sources(cfg, id, ready, ms))
  {
    if ms != [] {
      var n := |ms| - 1;
      var before, m := ms[..n], ms[n];
      IssuedInjected(cfg, id, ready, before);
      assert before + [m] == ms;
      var cache := CacheAfter(cfg, id, before);
      if IssueOf(cache, id, ready, m) == [] {
        assert Issues(cfg, id, ready, ms) == Issues(cfg, id, ready, before);
        assert Sources(cfg, id, ready, ms) == Sources(cfg, id, ready, before);
        OneToOneMore(cfg, id, before, Issues(cfg, id, ready, before), Sources(cfg, id, ready, before), m);
      } else {
        OneToOneNext(cfg, id, before, Issues(cfg, id, ready, before), Sources(cfg, id, ready, before), m);
      }
    }
  }

  // Whatever was lost or truncated: the pipelines ever issued come from as many different Binds
  // that the connection handled, in their order, and each carries the connection's verified
  // identity in the slot prescribed, and else the Bind as it was handled.
  lemma IdentityAlwaysInjected(cfg: Config, s: State, es: seq<Event>, f: nat)
    requires Proper(cfg) && Initial(s) && f < |s.fes|
    ensures var fe := Run(cfg, s, es).fes[f];
            var id, ms := fe.core.id, fe.log.handled;
            OneToOne(cfg, id, ms, fe.log.issued, Sources(cfg, id, fe.core.ready, ms))
  {
    ReachableTraced(cfg, s, es, f);
    var fe := Run(cfg, s, es).fes[f];
    IssuedInjected(cfg, fe.core.id, fe.core.ready, fe.log.handled);
  }
}
