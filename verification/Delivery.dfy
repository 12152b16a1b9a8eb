// Where a pipeline runs and what the backend gets of it: the slot's login is the frontend's group,
// and the bytes taken are the pipeline's, whatever the sizes in which they are taken.
module Delivery {
  import opened Wire
  import opened Frontend
  import opened Scheduler
  import opened Invariant
  import opened Steps
  import opened Isolation
  import BackendPool

  // ---- receives ----

  // What a receive that does not complete makes of the state.
  function Stored(cfg: Config, s: State, f: nat, data: Bytes): (t: State)
    requires Runs(s, f) && Received(cfg, s, f, data).More?
    ensures |t.fes| == |s.fes| && Runs(t, f)
  {
    var r := Received(cfg, s, f, data);
    Store(SetCore(s, f, s.fes[f].core.(recvPending := false)), f, r.rest, r.st, r.out)
  }

  lemma TakeIsSubmit(cfg: Config, s: State, e: Event, f: nat)
    requires Takes(cfg, s, e, f)
    ensures Step(cfg, s, e) == SubmitRecv(Stored(cfg, s, f, e.rres.bytes), f)
  {
    ReceivedSame(cfg, s, f, e.rres.bytes);
  }

  lemma StoredSame(cfg: Config, s: State, f: nat, data: Bytes)
    requires Runs(s, f) && Received(cfg, s, f, data).More?
    ensures var t := Stored(cfg, s, f, data);
            && t.fes[f].core.be == s.fes[f].core.be && t.fes[f].log == s.fes[f].log
            && t.fes[f].core.id == s.fes[f].core.id && !t.fes[f].core.recvPending
            && Conn(t, f).login == Conn(s, f).login
            && Conn(t, f).pipe.sendBuf == Conn(s, f).pipe.sendBuf && Conn(t, f).pipe.sendOff == Conn(s, f).pipe.sendOff
  {
  }

  lemma ReceiveSame(t: State, f: nat)
    requires Runs(t, f)
    ensures var u := SubmitRecv(t, f);
            && u.pool == t.pool && u.fes[f].log == t.fes[f].log && u.fes[f].core.be == t.fes[f].core.be
            && u.fes[f].core.id == t.fes[f].core.id && (!t.fes[f].core.recvPending ==> u.fes[f].core.wait == Reading)
  {
  }

  // ---- the login ----

  ghost predicate RunsAsGroup(cfg: Config, s: State, f: nat)
    requires f < |s.fes|
  {
    var c := s.fes[f].core;
    c.be.Some? ==>
      && c.be.value < |s.pool.conns|
      && (cfg.pool.groupLogin && c.id.group != "" ==> s.pool.conns[c.be.value].login == c.id.group)
  }

  lemma TouchedAsGroup(cfg: Config, s: State, t: State, f: nat)
    requires f < |s.fes| == |t.fes| && Touch(cfg, s, t, f) && RunsAsGroup(cfg, s, f)
    ensures RunsAsGroup(cfg, t, f)
  {
  }

  lemma StepAsGroup(cfg: Config, s: State, e: Event, f: nat)
    requires Proper(cfg) && Inv(cfg, s) && f < |s.fes| && RunsAsGroup(cfg, s, f)
    ensures Inv(cfg, Step(cfg, s, e)) && RunsAsGroup(cfg, Step(cfg, s, e), f)
  {
    StepInv(cfg, s, e);
    if Takes(cfg, s, e, f) {
      TakeIsSubmit(cfg, s, e, f);
      StoredSame(cfg, s, f, e.rres.bytes);
      ReceiveSame(Stored(cfg, s, f, e.rres.bytes), f);
    } else if Sends(s, e, f) {
      SendIsSubmit(cfg, s, e, f);
      AdvancedSame(s, f, e.sres);
      SubmitSame(Advanced(s, f, e.sres), f);
    } else if !Renews(s, e, f) {
      StepTouched(cfg, s, e, f);
      TouchedAsGroup(cfg, s, Step(cfg, s, e), f);
    }
  }

  lemma {:induction false} RunAsGroup(cfg: Config, s: State, es: seq<Event>, f: nat)
    requires Proper(cfg) && Inv(cfg, s) && f < |s.fes| && RunsAsGroup(cfg, s, f)
    ensures RunsAsGroup(cfg, Run(cfg, s, es), f)
    decreases |es|
  {
    if es != [] {
      StepAsGroup(cfg, s, es[0], f);
      RunAsGroup(cfg, Step(cfg, s, es[0]), es[1..], f);
    }
  }

  // In every reachable state: where groups log in themselves, a frontend with a group holds only
  // a slot that is logged in as that group.
  lemma PipelinesRunAsGroup(cfg: Config, s: State, es: seq<Event>, f: nat, b: nat)
    requires Proper(cfg) && Initial(s) && f < |s.fes|
    requires var c := Run(cfg, s, es).fes[f].core;
             c.be == Some(b) && cfg.pool.groupLogin && c.id.group != ""
    ensures var t := Run(cfg, s, es); b < |t.pool.conns| && t.pool.conns[b].login == t.fes[f].core.id.group
  {
    InitialInv(cfg, s);
    RunAsGroup(cfg, s, es, f);
  }

  // ---- the bytes ----

  // What is still to be sent of the pipeline of f.
  function ToSend(s: State, f: nat): Bytes
    requires Runs(s, f)
  {
    BackendPool.SendPending(Conn(s, f))
  }

  // What the backend takes in a send: no more than was to be sent.
  function TakenBy(s: State, e: Event, f: nat): (r: Bytes)
    requires Sends(s, e, f)
    ensures r <= ToSend(s, f)
  {
    match e.sres
    case Sent(n) => ToSend(s, f)[..if n < |ToSend(s, f)| then n else |ToSend(s, f)|]
    case _ => []
  }

  // What it has taken of the pipeline in progress since that was issued.
  function TakenAfter(cfg: Config, s: State, e: Event, f: nat, h: Bytes): Bytes {
    if f < |s.fes| && |Step(cfg, s, e).fes[f].log.issued| != |s.fes[f].log.issued| then []
    else if Sends(s, e, f) then h + TakenBy(s, e, f)
    else h
  }

  function Taken(cfg: Config, s: State, es: seq<Event>, f: nat, h: Bytes): Bytes
    decreases |es|
  {
    if es == [] then h else Taken(cfg, Step(cfg, s, es[0]), es[1..], f, TakenAfter(cfg, s, es[0], f, h))
  }

  // What was taken, and then what is still to be sent, is the pipeline; and f reads the reply
  // exactly when all of it has been taken.
  ghost predicate Delivers(cfg: Config, s: State, f: nat, h: Bytes)
    requires f < |s.fes|
  {
    var fe := s.fes[f];
    fe.core.be.Some? ==>
      && Runs(s, f) && fe.log.issued != [] && Conn(s, f).pipe.sendOff <= |Conn(s, f).pipe.sendBuf|
      && h + ToSend(s, f) == cfg.encode(fe.log.issued[|fe.log.issued| - 1])
      && (fe.core.wait == Reading <==> ToSend(s, f) == [])
  }

  lemma FreshDelivers(cfg: Config, s: State, t: State, f: nat)
    requires Inv(cfg, t) && f < |s.fes| == |t.fes| && t.fes[f].core.be.Some? && Runs(t, f)
    requires Fresh(cfg, s.fes[f], t.fes[f], Conn(t, f))
    ensures Delivers(cfg, t, f, [])
  {
    assert ToSend(t, f) == Conn(t, f).pipe.sendBuf;
    assert [] + ToSend(t, f) == ToSend(t, f);
  }

  lemma HolderRuns(cfg: Config, s: State, f: nat)
    requires Inv(cfg, s) && f < |s.fes| && s.fes[f].core.be.Some?
    ensures Runs(s, f)
  {
    assert Shape(cfg, s.fes[f]) && Holds(s, f, s.fes[f].core.be.value);
  }

  lemma TouchDelivers(cfg: Config, s: State, t: State, f: nat, h: Bytes)
    requires Inv(cfg, t) && f < |s.fes| == |t.fes| && Touch(cfg, s, t, f) && Delivers(cfg, s, f, h)
    ensures Delivers(cfg, t, f, if |t.fes[f].log.issued| != |s.fes[f].log.issued| then [] else h)
  {
    if t.fes[f].core.be.Some? {
      HolderRuns(cfg, t, f);
      if Fresh(cfg, s.fes[f], t.fes[f], Conn(t, f)) { FreshDelivers(cfg, s, t, f); }
    }
  }

  // The offset moves by what was taken.
  lemma AdvancedToSend(s: State, e: Event, f: nat)
    requires Sends(s, e, f) && Conn(s, f).pipe.sendOff <= |Conn(s, f).pipe.sendBuf|
    ensures var t := Advanced(s, f, e.sres);
            && Conn(t, f).pipe.sendOff <= |Conn(t, f).pipe.sendBuf|
            && TakenBy(s, e, f) + ToSend(t, f) == ToSend(s, f)
  {
  }

  lemma SendDelivers(cfg: Config, s: State, e: Event, f: nat, h: Bytes)
    requires Inv(cfg, s) && f < |s.fes| && Sends(s, e, f) && Delivers(cfg, s, f, h)
    ensures Delivers(cfg, Step(cfg, s, e), f, TakenAfter(cfg, s, e, f, h))
  {
    var t := Advanced(s, f, e.sres);
    SendIsSubmit(cfg, s, e, f);
    AdvancedSame(s, f, e.sres);
    AdvancedToSend(s, e, f);
    SubmitSame(t, f);
    assert (h + TakenBy(s, e, f)) + ToSend(t, f) == h + (TakenBy(s, e, f) + ToSend(t, f));
  }

  lemma TakeDelivers(cfg: Config, s: State, e: Event, f: nat, h: Bytes)
    requires Inv(cfg, s) && f < |s.fes| && Takes(cfg, s, e, f) && Delivers(cfg, s, f, h)
    ensures Delivers(cfg, Step(cfg, s, e), f, TakenAfter(cfg, s, e, f, h))
  {
    assert Shape(cfg, s.fes[f]);
    TakeIsSubmit(cfg, s, e, f);
    StoredSame(cfg, s, f, e.rres.bytes);
    ReceiveSame(Stored(cfg, s, f, e.rres.bytes), f);
  }

  lemma StepDelivers(cfg: Config, s: State, e: Event, f: nat, h: Bytes)
    requires Proper(cfg) && Inv(cfg, s) && f < |s.fes| && Delivers(cfg, s, f, h)
    ensures Inv(cfg, Step(cfg, s, e)) && Delivers(cfg, Step(cfg, s, e), f, TakenAfter(cfg, s, e, f, h))
  {
    StepInv(cfg, s, e);
    if Takes(cfg, s, e, f) {
      TakeDelivers(cfg, s, e, f, h);
    } else if Sends(s, e, f) {
      SendDelivers(cfg, s, e, f, h);
    } else if !Renews(s, e, f) {
      StepTouched(cfg, s, e, f);
      TouchDelivers(cfg, s, Step(cfg, s, e), f, h);
    }
  }

  lemma {:induction false} RunDelivers(cfg: Config, s: State, es: seq<Event>, f: nat, h: Bytes)
    requires Proper(cfg) && Inv(cfg, s) && f < |s.fes| && Delivers(cfg, s, f, h)
    ensures Inv(cfg, Run(cfg, s, es)) && Delivers(cfg, Run(cfg, s, es), f, Taken(cfg, s, es, f, h))
    decreases |es|
  {
    if es != [] {
      StepDelivers(cfg, s, es[0], f, h);
      RunDelivers(cfg, Step(cfg, s, es[0]), es[1..], f, TakenAfter(cfg, s, es[0], f, h));
    }
  }

  // In every reachable state: what the backend has taken of the pipeline in progress, followed by
  // what is still to be sent, is the encoding of the pipeline last issued; and the frontend reads
  // the reply exactly when all of it has been taken.
  lemma PipelineDelivered(cfg: Config, s: State, es: seq<Event>, f: nat)
    requires Proper(cfg) && Initial(s) && f < |s.fes| && Run(cfg, s, es).fes[f].core.be.Some?
    ensures var t, h := Run(cfg, s, es), Taken(cfg, s, es, f, []);
            var issued := t.fes[f].log.issued;
            && Runs(t, f) && issued != []
            && h + ToSend(t, f) == cfg.encode(issued[|issued| - 1])
            && (t.fes[f].core.wait == Reading <==> h == cfg.encode(issued[|issued| - 1]))
            && (t.fes[f].core.wait == Sending <==> ToSend(t, f) != [])
  {
    InitialInv(cfg, s);
    RunDelivers(cfg, s, es, f, []);
    assert Shape(cfg, Run(cfg, s, es).fes[f]);
    var h := Taken(cfg, s, es, f, []);
    assert h + [] == h;
  }
}
