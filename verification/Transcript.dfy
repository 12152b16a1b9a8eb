// What connections are told, over every run.
module Transcript {
  import opened Wire
  import opened Rewrite
  import opened Frontend
  import opened Scheduler
  import opened Invariant
  import opened Steps
  import opened Dialogue
  import opened DialogueSteps
  import BackendPool
  import PoolOwnership
  import Framer

  // ---- events that end pipelines ----

  function DataActs(cfg: Config, s: State, f: nat, data: Bytes): seq<Act>
    requires Runs(s, f)
  {
    match Received(cfg, s, f, data)
    case Bad => [Broke]
    case More(_, _, _) => []
    case Done(_, st, resp) => [Ended(resp, st.sawError)]
  }

  // How the event ends the pipeline of f, if it does.
  function EndActs(cfg: Config, s: State, e: Event, f: nat): seq<Act> {
    match e
    case SendDone(g, res) =>
      if g == f && Runs(s, f) && s.fes[f].core.sendPending && res.SendError? then [Broke] else []
    case RecvDone(g, res) =>
      if g == f && Runs(s, f) && s.fes[f].core.recvPending then
        (if res.RecvError? || res.bytes == [] then [Broke] else DataActs(cfg, s, f, res.bytes))
      else []
    case _ => []
  }

  lemma SubmitTalks(cfg: Config, s: State, t: State, f: nat)
    requires Inv(cfg, s) && AllHonest(cfg, s) && Mute(cfg, s, t, f)
    ensures AllTalk(cfg, s, SubmitSend(t, f), f, []) && AllTalk(cfg, s, SubmitRecv(t, f), f, [])
  {
    SubmittedTalks(cfg, s.fes[f], SubmitSend(t, f).fes[f]);
    SubmittedTalks(cfg, s.fes[f], SubmitRecv(t, f).fes[f]);
    OneTalks(cfg, s, SubmitSend(t, f), f, []);
    OneTalks(cfg, s, SubmitRecv(t, f), f, []);
  }

  // The pipeline goes on.
  lemma SubmittedTalks(cfg: Config, a: Fe, b: Fe)
    requires Honest(cfg, a) && b.log == a.log && Shape(cfg, a) && a.core.be.Some?
    requires b.core.wait == Sending || b.core.wait == Reading
    requires var c, d := a.core, b.core;
             && d.sent == c.sent && d.pend == c.pend && d.acts == c.acts && d.cache == c.cache
             && d.id == c.id && d.ready == c.ready && d.st == c.st && d.gotSync == c.gotSync
    ensures Talks(cfg, a, b, [])
  {
    SameFrank(cfg, a, b);
    MoreSame(a.core.acts);
  }

  lemma SendDoneTalks(cfg: Config, s: State, f: nat, res: SendResult)
    requires Proper(cfg) && Inv(cfg, s) && AllHonest(cfg, s) && Runs(s, f) && s.fes[f].core.sendPending
    ensures AllTalk(cfg, s, OnSendDone(cfg, s, f, res), f, if res.SendError? then [Broke] else [])
  {
    var t := SetCore(s, f, s.fes[f].core.(sendPending := false));
    SendMute(cfg, s, f);
    match res
    case Again => SubmitTalks(cfg, s, t, f);
    case SendError => FailTalks(cfg, s, t, f);
    case Sent(n) =>
      AdvanceMute(cfg, s, t, f, n);
      SubmitTalks(cfg, s, t.(pool := BackendPool.SendAdvance(t.pool, t.fes[f].core.be.value, n)), f);
  }

  lemma SendMute(cfg: Config, s: State, f: nat)
    requires Inv(cfg, s) && Runs(s, f) && s.fes[f].core.sendPending
    ensures Mute(cfg, s, SetCore(s, f, s.fes[f].core.(sendPending := false)), f)
  {
    assert Shape(cfg, s.fes[f]);
  }

  lemma AdvanceMute(cfg: Config, s: State, t: State, f: nat, n: nat)
    requires Mute(cfg, s, t, f)
    ensures Runs(t, f) && Mute(cfg, s, t.(pool := BackendPool.SendAdvance(t.pool, t.fes[f].core.be.value, n)), f)
  {
  }

  lemma RecvMute(cfg: Config, s: State, f: nat)
    requires Inv(cfg, s) && Runs(s, f) && s.fes[f].core.recvPending
    ensures Mute(cfg, s, SetCore(s, f, s.fes[f].core.(recvPending := false)), f)
  {
    RecvBetween(cfg, s, f);
  }

  lemma StoreMute(cfg: Config, s: State, t: State, f: nat, acc: Bytes, st: Framer.Status, resp: Bytes)
    requires Mute(cfg, s, t, f)
    ensures var u := Store(t, f, acc, st, resp);
            Mute(cfg, s, u, f) && Runs(u, f) && Conn(u, f).pipe.st == st && u.fes[f].core.resp == resp
  {
    StoreBetween(cfg, s, t, f, acc, st, resp);
  }

  lemma MoreTalks(cfg: Config, s: State, t: State, f: nat, acc: Bytes, st: Framer.Status, resp: Bytes)
    requires Inv(cfg, s) && AllHonest(cfg, s) && Mute(cfg, s, t, f)
    ensures AllTalk(cfg, s, SubmitRecv(Store(t, f, acc, st, resp), f), f, [])
  {
    StoreMute(cfg, s, t, f, acc, st, resp);
    SubmitTalks(cfg, s, Store(t, f, acc, st, resp), f);
  }

  lemma DoneTalks(cfg: Config, s: State, t: State, f: nat, acc: Bytes, st: Framer.Status, resp: Bytes)
    requires Proper(cfg) && Inv(cfg, s) && AllHonest(cfg, s) && Mute(cfg, s, t, f)
    ensures AllTalk(cfg, s, Complete(cfg, Store(t, f, acc, st, resp), f), f, [Ended(resp, st.sawError)])
  {
    StoreMute(cfg, s, t, f, acc, st, resp);
    CompleteTalks(cfg, s, Store(t, f, acc, st, resp), f);
  }

  lemma DataTalks(cfg: Config, s: State, f: nat, data: Bytes)
    requires Proper(cfg) && Inv(cfg, s) && AllHonest(cfg, s) && Runs(s, f) && s.fes[f].core.recvPending && data != []
    ensures AllTalk(cfg, s, OnRecvDone(cfg, s, f, Data(data)), f, DataActs(cfg, s, f, data))
  {
    var t := SetCore(s, f, s.fes[f].core.(recvPending := false));
    RecvMute(cfg, s, f);
    ReceivedSame(cfg, s, f, data);
    match Received(cfg, t, f, data)
    case Bad => FailTalks(cfg, s, t, f);
    case More(acc, st, resp) => MoreTalks(cfg, s, t, f, acc, st, resp);
    case Done(acc, st, resp) => DoneTalks(cfg, s, t, f, acc, st, resp);
  }

  lemma RecvDoneTalks(cfg: Config, s: State, f: nat, res: RecvResult)
    requires Proper(cfg) && Inv(cfg, s) && AllHonest(cfg, s) && Runs(s, f) && s.fes[f].core.recvPending
    ensures AllTalk(cfg, s, OnRecvDone(cfg, s, f, res), f,
                    if res.RecvError? || res.bytes == [] then [Broke] else DataActs(cfg, s, f, res.bytes))
  {
    if res.RecvError? || res.bytes == [] {
      RecvMute(cfg, s, f);
      FailTalks(cfg, s, SetCore(s, f, s.fes[f].core.(recvPending := false)), f);
    } else {
      DataTalks(cfg, s, f, res.bytes);
    }
  }

  // ---- closing ----

  lemma ClosedTalks(cfg: Config, u: State, f: nat)
    requires f < |u.fes| && AllHonest(cfg, u)
    ensures AllTalk(cfg, u, SetFe(u, f, Drop(u.fes[f]).(core := CloseCore(u.fes[f].core))), f, [])
  {
    var t := SetFe(u, f, Drop(u.fes[f]).(core := CloseCore(u.fes[f].core)));
    SameFrank(cfg, u.fes[f], t.fes[f]);
    MoreSame(u.fes[f].core.acts);
    OneTalks(cfg, u, t, f, []);
  }

  lemma HolderCloseTalks(cfg: Config, s: State, v: State, f: nat)
    requires Proper(cfg) && Inv(cfg, s) && AllHonest(cfg, s) && Runs(s, f) && Shape(cfg, s.fes[f])
    requires v == SetCore(s.(pool := BackendPool.Finish(cfg.pool, s.pool, s.fes[f].core.be.value, true)), f,
                          s.fes[f].core.(be := None))
    ensures AllTalk(cfg, s, FairSchedule(cfg, v), f, []) && AllHonest(cfg, FairSchedule(cfg, v))
  {
    var b := s.fes[f].core.be.value;
    assert Holds(s, f, b);
    PoolOwnership.FinishFrees(cfg.pool, s.pool, b, true);
    EndsInv(cfg, s, v, f, b);
    SubmittedTalks(cfg, s.fes[f], v.fes[f]);
    OneTalks(cfg, s, v, f, []);
    PassTalks(cfg, v, |v.ring|, f);
    AllTalkOthers(cfg, v, FairSchedule(cfg, v), NONE, f);
    AllTalkTrans(cfg, s, v, FairSchedule(cfg, v), f, []);
  }

  lemma CloseTalks(cfg: Config, s: State, f: nat)
    requires Proper(cfg) && Inv(cfg, s) && AllHonest(cfg, s) && f < |s.fes|
    ensures AllTalk(cfg, s, Close(cfg, s, f), f, [])
  {
    assert Shape(cfg, s.fes[f]);
    if s.fes[f].core.st == Free {
      NoneTalks(cfg, s, s, f);
    } else if s.fes[f].core.be.Some? {
      assert Holds(s, f, s.fes[f].core.be.value);
      RunningCloseTalks(cfg, s, f);
    } else {
      LeaveTalks(cfg, s, f);
    }
  }

  lemma RunningCloseTalks(cfg: Config, s: State, f: nat)
    requires Proper(cfg) && Inv(cfg, s) && AllHonest(cfg, s) && Runs(s, f) && Shape(cfg, s.fes[f])
    ensures AllTalk(cfg, s, Close(cfg, s, f), f, [])
  {
    var v := SetCore(s.(pool := BackendPool.Finish(cfg.pool, s.pool, s.fes[f].core.be.value, true)), f,
                     s.fes[f].core.(be := None));
    var u := FairSchedule(cfg, v);
    assert f !in s.ring;
    RemoveMeaning(s.ring, f);
    HolderCloseTalks(cfg, s, v, f);
    ClosedTalks(cfg, u, f);
    AllTalkTrans(cfg, s, u, Close(cfg, s, f), f, []);
  }

  lemma LeaveTalks(cfg: Config, s: State, f: nat)
    requires f < |s.fes| && s.fes[f].core.be.None? && s.fes[f].core.st != Free && AllHonest(cfg, s)
    ensures AllTalk(cfg, s, Close(cfg, s, f), f, [])
  {
    var t := s.(ring := WaitersRemove(s.ring, f));
    NoneTalks(cfg, s, t, f);
    ClosedTalks(cfg, t, f);
    AllTalkTrans(cfg, s, t, Close(cfg, s, f), f, []);
  }

  // ---- input ----

  lemma BindNowTalks(cfg: Config, u: State, f: nat, m: Msg)
    requires f < |u.fes| && m.Bind? && Frank(cfg, u.fes[f]) && u.fes[f].core.ready && !u.fes[f].core.gotSync
    requires f !in u.ring && |u.ring| < |u.fes|
    ensures var t := BindNow(cfg, u, f, m); Only(u, t, f) && Talks(cfg, u.fes[f], t.fes[f], [])
  {
    var (v, ok) := StartBind(cfg, u, f, m.bind, false);
    StartTalks(cfg, u, f, m.bind, false);
    if !ok { ParkTalks(cfg, v, f, v.fes[f].queue + [Queued(m)]); }
  }

  lemma IdleTalks(cfg: Config, s: State, f: nat, m: Msg)
    requires Proper(cfg) && PoolOwnership.PoolOk(s.pool)
    requires f < |s.fes| && Honest(cfg, s.fes[f]) && Real(m) && s.fes[f].core.wait == Idle && s.fes[f].core.st != Free
    requires f !in s.ring && |s.ring| < |s.fes|
    ensures var t := Process(cfg, s, f, m); Only(s, t, f) && Speaks(cfg, s.fes[f], t.fes[f], [])
  {
    var t := SetFe(s, f, Arrive(s.fes[f], m));
    SameFrank(cfg, s.fes[f], t.fes[f]);
    if m.Bind? {
      BindTalks(cfg, s, t, f, m);
    } else {
      HandleTalks(cfg, t, f, m);
      SpeaksFrom(cfg, s, t, Handle(cfg, t, f, m), f);
    }
  }

  // The Bind of an idle frontend clears what is left of the last response.
  lemma BindTalks(cfg: Config, s: State, t: State, f: nat, m: Msg)
    requires Proper(cfg) && PoolOwnership.PoolOk(t.pool)
    requires Only(s, t, f) && t.ring == s.ring && m.Bind? && Frank(cfg, t.fes[f]) && t.fes[f].core == s.fes[f].core
    requires s.fes[f].core.wait == Idle && s.fes[f].core.st != Free && f !in s.ring && |s.ring| < |s.fes|
    ensures var u := SetCore(t, f, s.fes[f].core.(resp := [], gotExecute := false, gotSync := false));
            var v := if s.fes[f].core.ready then BindNow(cfg, u, f, m) else Handle(cfg, u, f, m);
            Only(s, v, f) && Speaks(cfg, s.fes[f], v.fes[f], [])
  {
    var u := SetCore(t, f, s.fes[f].core.(resp := [], gotExecute := false, gotSync := false));
    SameFrank(cfg, t.fes[f], u.fes[f]);
    ClearedBind(cfg, s, u, f, m);
  }

  lemma ClearedBind(cfg: Config, s: State, u: State, f: nat, m: Msg)
    requires Proper(cfg) && PoolOwnership.PoolOk(u.pool)
    requires Only(s, u, f) && u.ring == s.ring && m.Bind? && Frank(cfg, u.fes[f])
    requires f !in s.ring && |s.ring| < |s.fes|
    requires var c, d := s.fes[f].core, u.fes[f].core;
             d.acts == c.acts && d.ready == c.ready && d.wait == Idle && d.st != Free && d.resp == [] && !d.gotSync
    ensures var v := if s.fes[f].core.ready then BindNow(cfg, u, f, m) else Handle(cfg, u, f, m);
            Only(s, v, f) && Speaks(cfg, s.fes[f], v.fes[f], [])
  {
    if s.fes[f].core.ready {
      BindNowTalks(cfg, u, f, m);
      SpeaksFrom(cfg, s, u, BindNow(cfg, u, f, m), f);
    } else {
      HandleTalks(cfg, u, f, m);
      SpeaksFrom(cfg, s, u, Handle(cfg, u, f, m), f);
    }
  }

  lemma SpeaksFrom(cfg: Config, s: State, u: State, v: State, f: nat)
    requires Only(s, u, f) && Only(u, v, f) && Speaks(cfg, u.fes[f], v.fes[f], [])
    requires u.fes[f].core.acts == s.fes[f].core.acts
    ensures Only(s, v, f) && Speaks(cfg, s.fes[f], v.fes[f], [])
  {
  }

  lemma ProcessTalks(cfg: Config, s: State, f: nat, m: Msg)
    requires Proper(cfg) && Inv(cfg, s) && f < |s.fes| && Honest(cfg, s.fes[f]) && s.fes[f].core.st != Free
    ensures var t := Process(cfg, s, f, m); Only(s, t, f) && Speaks(cfg, s.fes[f], t.fes[f], [])
  {
    assert Shape(cfg, s.fes[f]);
    if !Real(m) {
      HandleTalks(cfg, s, f, m);
    } else if s.fes[f].core.wait != Idle {
      EnqueuedTalks(cfg, s.fes[f], m);
    } else {
      OpenOne(cfg, s, f);
      RingHasRoom(s, NONE, f, f);
      IdleTalks(cfg, s, f, m);
    }
  }

  lemma {:induction false} InputSpoke(cfg: Config, s: State, f: nat, ms: seq<Msg>)
    requires Proper(cfg) && Inv(cfg, s) && f < |s.fes| && Honest(cfg, s.fes[f]) && s.fes[f].core.st != Free
    ensures Spoke(cfg, s, ProcessAll(cfg, s, f, ms), f)
    decreases |ms|
  {
    if ms == [] {
      MoreSame(s.fes[f].core.acts);
      FlushSpoke(cfg, s, s, f);
    } else {
      var t := Process(cfg, s, f, ms[0]);
      ProcessInv(cfg, s, f, ms[0]);
      ProcessTalks(cfg, s, f, ms[0]);
      InputSpoke(cfg, t, f, ms[1..]);
      SpokeAfter(cfg, s, t, ProcessAll(cfg, t, f, ms[1..]), f);
    }
  }

  lemma InputTalks(cfg: Config, s: State, f: nat, ms: seq<Msg>)
    requires Proper(cfg) && Inv(cfg, s) && AllHonest(cfg, s) && f < |s.fes| && s.fes[f].core.st != Free
    ensures AllTalk(cfg, s, ProcessAll(cfg, s, f, ms), f, [])
  {
    InputSpoke(cfg, s, f, ms);
    OneTalks(cfg, s, ProcessAll(cfg, s, f, ms), f, []);
  }

  // ---- every event ----

  // The event gives slot f to a new connection.
  predicate Renews(s: State, e: Event, f: nat) { e.Accept? && FreeSlot(s.fes) == f }

  // Every event: the pipeline it ends is on record with its outcome before anything that follows,
  // and every connection has been told what it is owed.
  lemma StepTalks(cfg: Config, s: State, e: Event, f: nat)
    requires Proper(cfg) && Inv(cfg, s) && AllHonest(cfg, s) && f < |s.fes| && !Renews(s, e, f)
    ensures Talks(cfg, s.fes[f], Step(cfg, s, e).fes[f], EndActs(cfg, s, e, f))
  {
    NoneTalks(cfg, s, s, f);
    match e
    case Accept(id, ready) =>
    case Input(g, ms) => if g < |s.fes| && s.fes[g].core.st != Free { InputTalks(cfg, s, g, ms); }
    case SendDone(g, res) => if Runs(s, g) && s.fes[g].core.sendPending { SendDoneTalks(cfg, s, g, res); }
    case RecvDone(g, res) => if Runs(s, g) && s.fes[g].core.recvPending { RecvDoneTalks(cfg, s, g, res); }
    case CloseConn(g) => if g < |s.fes| { CloseTalks(cfg, s, g); }
    case Tick =>
  }

  lemma NewHonest(cfg: Config, id: Identity, ready: bool)
    ensures Honest(cfg, NewFe(id, ready)) && Settled(NewFe(id, ready))
    ensures Honest(cfg, FreeFe()) && Settled(FreeFe())
  {
  }

  // Told what it is owed, all of it delivered.
  ghost predicate Served(cfg: Config, fe: Fe) { Honest(cfg, fe) && Settled(fe) }

  ghost predicate AllServed(cfg: Config, s: State) { forall i :: InRange(s, i) ==> Served(cfg, s.fes[i]) }

  lemma StepServed(cfg: Config, s: State, e: Event)
    requires Proper(cfg) && Inv(cfg, s) && AllServed(cfg, s)
    ensures Inv(cfg, Step(cfg, s, e)) && AllServed(cfg, Step(cfg, s, e))
  {
    StepInv(cfg, s, e);
    forall i | InRange(s, i) ensures Served(cfg, Step(cfg, s, e).fes[i]) {
      if Renews(s, e, i) { NewHonest(cfg, e.id, e.ready); } else { StepTalks(cfg, s, e, i); }
    }
  }

  lemma {:induction false} RunServed(cfg: Config, s: State, es: seq<Event>)
    requires Proper(cfg) && Inv(cfg, s) && AllServed(cfg, s)
    ensures Inv(cfg, Run(cfg, s, es)) && AllServed(cfg, Run(cfg, s, es))
    decreases |es|
  {
    if es != [] {
      StepServed(cfg, s, es[0]);
      RunServed(cfg, Step(cfg, s, es[0]), es[1..]);
    }
  }

  lemma ReachableServed(cfg: Config, s: State, es: seq<Event>)
    requires Proper(cfg) && Initial(s)
    ensures Inv(cfg, Run(cfg, s, es)) && AllServed(cfg, Run(cfg, s, es))
  {
    InitialInv(cfg, s);
    NewHonest(cfg, NOBODY, false);
    RunServed(cfg, s, es);
  }

  // ---- every run ----

  // In every reachable state every connection has been told exactly what it is owed: the
  // proxy's own messages, in order, and the output relayed, in order; none of it is held back.
  // The acts handle the messages handled, in order, and issue the pipelines issued.
  lemma ToldExactly(cfg: Config, s: State, es: seq<Event>, f: nat)
    requires Proper(cfg) && Initial(s) && f < |s.fes|
    ensures var fe := Run(cfg, s, es).fes[f];
            var c := fe.core;
            && Spoken(c.sent) == Told(cfg.cacheMax, c.acts) && c.pend == []
            && Relays(c.sent) == Bodies(Pieces(c.acts))
            && Matched(c.acts, fe.log.handled) && IssuedCount(c.acts) == |fe.log.issued|
            && (c.st != Free ==> (c.st == Closing <==> Did(Terminate) in c.acts))
  {
    ReachableServed(cfg, s, es);
    var c := Run(cfg, s, es).fes[f].core;
    assert Spoken(c.sent) + [] == Spoken(c.sent);
  }

  // Whatever was forwarded ran under the login of the frontend's group, and the answer on record
  // is the network's.
  lemma QueriesTravel(cfg: Config, s: State, es: seq<Event>, f: nat, t: BackendPool.Trip)
    requires Proper(cfg) && Initial(s) && f < |s.fes|
    requires Asked(t) in Run(cfg, s, es).fes[f].core.acts && t.Trip?
    ensures cfg.pool.groupLogin && Run(cfg, s, es).fes[f].core.id.group != "" ==>
              t.login == Run(cfg, s, es).fes[f].core.id.group
    ensures exists k: nat :: t.answer == cfg.pool.net.flush(k)
  {
    ReachableServed(cfg, s, es);
  }

  // A later history adds to what was told and relayed, and changes nothing of it.
  lemma {:induction false} ToldPrefix(max: nat, acts: seq<Act>, n: nat)
    requires n <= |acts|
    ensures Told(max, acts[..n]) <= Told(max, acts) && Pieces(acts[..n]) <= Pieces(acts)
    decreases |acts|
  {
    if n == |acts| {
      assert acts[..n] == acts;
    } else {
      var before := acts[..|acts| - 1];
      ToldPrefix(max, before, n);
      assert before[..n] == acts[..n];
    }
  }

  lemma ToldNext(max: nat, before: seq<Act>, a: Act)
    ensures Told(max, before + [a]) == Told(max, before) + ToldBy(max, before, a)
    ensures Pieces(before + [a]) == Pieces(before) + PiecesBy(before, a)
  {
    Snoc(before, a);
  }

  // So each act is answered in its place.
  lemma AnsweredInPlace(max: nat, acts: seq<Act>, n: nat)
    requires n < |acts|
    ensures Told(max, acts[..n]) + ToldBy(max, acts[..n], acts[n]) <= Told(max, acts)
    ensures Pieces(acts[..n]) + PiecesBy(acts[..n], acts[n]) <= Pieces(acts)
  {
    ToldPrefix(max, acts, n + 1);
    assert acts[..n + 1] == acts[..n] + [acts[n]];
    ToldNext(max, acts[..n], acts[n]);
  }

  // ---- a message to a busy frontend ----

  // It is on record as it arrives: kept if the queue has room, and refused if not.
  lemma BusyActs(cfg: Config, s: State, f: nat, m: Msg)
    requires f < |s.fes| && s.fes[f].core.wait != Idle && Real(m)
    ensures var t := Process(cfg, s, f, m);
            && t.fes[f].core.acts
               == s.fes[f].core.acts + [if |s.fes[f].queue| < cfg.queueMax then Kept(m) else Refused(m)]
            && (SyncSeen(t.fes[f].core.acts) <==> m.Sync? || SyncSeen(s.fes[f].core.acts))
  {
    var fits := Fits(cfg, s.fes[f]);
    EnqueuedActs(s.fes[f].core, m, fits);
    Snoc(s.fes[f].core.acts, if fits then Kept(m) else Refused(m));
  }

  // ---- the end of a pipeline ----

  lemma MoreNow(a: seq<Act>, x: Act, b: seq<Act>)
    requires More(a, [x], b)
    ensures |a| < |b| && b[..|a|] == a && b[|a|] == x
  {
    assert b[..|a + [x]|] == a + [x];
  }

  lemma BodiesPrefix(a: seq<Piece>, b: seq<Piece>)
    requires a <= b
    ensures Bodies(a) <= Bodies(b)
  {
  }

  // Of two deliveries the later one adds the answer to what happened first in between.
  lemma ActTold(max: nat, c: Core, d: Core, x: Act)
    requires Faithful(max, c) && Faithful(max, d) && c.pend == [] && d.pend == [] && More(c.acts, [x], d.acts)
    ensures Relays(c.sent) + Bodies(PiecesBy(c.acts, x)) <= Relays(d.sent)
    ensures Spoken(c.sent) + ToldBy(max, c.acts, x) <= Spoken(d.sent)
  {
    MoreNow(c.acts, x, d.acts);
    AnsweredInPlace(max, d.acts, |c.acts|);
    BodiesConcat(Pieces(c.acts), PiecesBy(c.acts, x));
    BodiesPrefix(Pieces(c.acts) + PiecesBy(c.acts, x), Pieces(d.acts));
    assert Spoken(c.sent) + [] == Spoken(c.sent) && Spoken(d.sent) + [] == Spoken(d.sent);
  }

  // The end of a pipeline with ReadyForQuery is answered between c and d: the output is relayed at
  // once if it is not empty and a Sync has arrived since the pipeline was issued or the backend
  // reported an error. The proxy adds a BindComplete if there was no error, and its own
  // ReadyForQuery if there is no output to relay to a Sync.
  ghost predicate EndTold(c: Core, d: Core, out: Bytes, failed: bool) {
    && Relays(c.sent) + (if out != [] && (failed || SyncSeen(c.acts)) then [out] else []) <= Relays(d.sent)
    && Spoken(c.sent)
       + ((if failed then [] else [BindComplete]) + if out == [] && SyncSeen(c.acts) then [ReadyForQuery] else [])
       <= Spoken(d.sent)
  }

  lemma ActEndTold(max: nat, c: Core, d: Core, out: Bytes, failed: bool)
    requires Faithful(max, c) && Faithful(max, d) && c.pend == [] && d.pend == []
    requires More(c.acts, [Ended(out, failed)], d.acts)
    ensures EndTold(c, d, out, failed)
  {
    ActTold(max, c, d, Ended(out, failed));
    assert Bodies(PiecesBy(c.acts, Ended(out, failed)))
        == if out != [] && (failed || SyncSeen(c.acts)) then [out] else [];
  }

  lemma DoneActs(cfg: Config, s: State, f: nat, data: Bytes)
    requires Runs(s, f) && s.fes[f].core.recvPending && data != [] && Received(cfg, s, f, data).Done?
    ensures var r := Received(cfg, s, f, data);
            EndActs(cfg, s, RecvDone(f, Data(data)), f) == [Ended(r.out, r.st.sawError)]
  {
  }

  // Every receive that completes a pipeline is answered so, at once, whatever follows.
  lemma CompletionTold(cfg: Config, s: State, e: Event)
    requires Proper(cfg) && Inv(cfg, s) && AllServed(cfg, s)
    requires e.RecvDone? && Runs(s, e.f) && s.fes[e.f].core.recvPending && e.rres.Data? && e.rres.bytes != []
    requires Received(cfg, s, e.f, e.rres.bytes).Done?
    ensures var r := Received(cfg, s, e.f, e.rres.bytes);
            EndTold(s.fes[e.f].core, Step(cfg, s, e).fes[e.f].core, r.out, r.st.sawError)
  {
    var r, t := Received(cfg, s, e.f, e.rres.bytes), Step(cfg, s, e);
    DoneActs(cfg, s, e.f, e.rres.bytes);
    StepServed(cfg, s, e);
    StepTalks(cfg, s, e, e.f);
    ActEndTold(cfg.cacheMax, s.fes[e.f].core, t.fes[e.f].core, r.out, r.st.sawError);
  }

  // ---- the outcomes on record ----

  // The acts that end pipelines.
  function EndsOf(acts: seq<Act>): seq<Act> {
    if acts == [] then []
    else
      var a := acts[|acts| - 1];
      EndsOf(acts[..|acts| - 1]) + if a.Ended? || a.Broke? then [a] else []
  }

  lemma {:induction false} EndsMore(a: seq<Act>, e: seq<Act>, b: seq<Act>)
    requires More(a, e, b) && |e| <= 1 && forall k :: 0 <= k < |e| ==> e[k].Ended? || e[k].Broke?
    ensures EndsOf(b) == EndsOf(a) + e
    decreases |b|
  {
    if |b| == |a + e| {
      assert b == a + e;
      if e == [] { assert a + e == a; } else { Snoc(a, e[0]); }
    } else {
      var n := |b| - 1;
      EndsMore(a, e, b[..n]);
    }
  }

  function EndsAfter(cfg: Config, s: State, e: Event, f: nat, h: seq<Act>): seq<Act> {
    if Renews(s, e, f) then [] else h + EndActs(cfg, s, e, f)
  }

  // What the events of a run make of the pipelines of f.
  function RunEnds(cfg: Config, s: State, es: seq<Event>, f: nat, h: seq<Act>): seq<Act>
    decreases |es|
  {
    if es == [] then h else RunEnds(cfg, Step(cfg, s, es[0]), es[1..], f, EndsAfter(cfg, s, es[0], f, h))
  }

  lemma StepRecords(cfg: Config, s: State, e: Event, f: nat, h: seq<Act>)
    requires Proper(cfg) && Inv(cfg, s) && AllServed(cfg, s) && f < |s.fes| && EndsOf(s.fes[f].core.acts) == h
    ensures var t := Step(cfg, s, e);
            Inv(cfg, t) && AllServed(cfg, t) && EndsOf(t.fes[f].core.acts) == EndsAfter(cfg, s, e, f, h)
  {
    StepServed(cfg, s, e);
    if !Renews(s, e, f) {
      StepTalks(cfg, s, e, f);
      EndActsEnd(cfg, s, e, f);
      EndsMore(s.fes[f].core.acts, EndActs(cfg, s, e, f), Step(cfg, s, e).fes[f].core.acts);
    }
  }

  lemma EndActsEnd(cfg: Config, s: State, e: Event, f: nat)
    ensures var x := EndActs(cfg, s, e, f); |x| <= 1 && forall k :: 0 <= k < |x| ==> x[k].Ended? || x[k].Broke?
  {
  }

  lemma {:induction false} RunRecords(cfg: Config, s: State, es: seq<Event>, f: nat, h: seq<Act>)
    requires Proper(cfg) && Inv(cfg, s) && AllServed(cfg, s) && f < |s.fes| && EndsOf(s.fes[f].core.acts) == h
    ensures EndsOf(Run(cfg, s, es).fes[f].core.acts) == RunEnds(cfg, s, es, f, h)
    decreases |es|
  {
    if es != [] {
      StepRecords(cfg, s, es[0], f, h);
      RunRecords(cfg, Step(cfg, s, es[0]), es[1..], f, EndsAfter(cfg, s, es[0], f, h));
    }
  }

  // In every reachable state the outcomes on record are those of the events, in order: the output
  // of every receive that ended a pipeline of this connection, and every pipeline that was lost.
  lemma OutcomesRecorded(cfg: Config, s: State, es: seq<Event>, f: nat)
    requires Proper(cfg) && Initial(s) && f < |s.fes|
    ensures EndsOf(Run(cfg, s, es).fes[f].core.acts) == RunEnds(cfg, s, es, f, [])
  {
    InitialInv(cfg, s);
    NewHonest(cfg, NOBODY, false);
    RunRecords(cfg, s, es, f, []);
  }
}
