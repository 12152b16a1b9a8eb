// Every event tells every connection what it is owed, so every run does.
module DialogueSteps {
  import opened Wire
  import opened Rewrite
  import opened Frontend
  import opened Scheduler
  import opened Invariant
  import opened Steps
  import opened Dialogue
  import BackendPool
  import PoolOwnership
  import Ring

  // ---- what goes on ----

  // After a come first e, then acts that end no pipeline.
  ghost predicate More(a: seq<Act>, e: seq<Act>, b: seq<Act>) {
    a + e <= b && forall k :: |a + e| <= k < |b| ==> !b[k].Ended? && !b[k].Broke?
  }

  lemma MoreTrans(a: seq<Act>, e: seq<Act>, b: seq<Act>, c: seq<Act>)
    requires More(a, e, b) && More(b, [], c)
    ensures More(a, e, c)
  {
    assert b + [] == b;
  }

  lemma MoreSame(a: seq<Act>)
    ensures More(a, [], a)
  {
  }

  lemma MoreOne(a: seq<Act>, x: Act)
    requires !x.Ended? && !x.Broke?
    ensures More(a, [], a + [x])
  {
  }

  // Nothing the proxy said is held back.
  predicate Settled(fe: Fe) { fe.core.pend == [] }

  ghost predicate Speaks(cfg: Config, a: Fe, b: Fe, e: seq<Act>) {
    Honest(cfg, b) && More(a.core.acts, e, b.core.acts)
  }

  ghost predicate Talks(cfg: Config, a: Fe, b: Fe, e: seq<Act>) {
    Speaks(cfg, a, b, e) && (Settled(a) ==> Settled(b))
  }

  lemma SpeaksTrans(cfg: Config, a: Fe, b: Fe, c: Fe, e: seq<Act>)
    requires Speaks(cfg, a, b, e) && Speaks(cfg, b, c, [])
    ensures Speaks(cfg, a, c, e)
  {
    MoreTrans(a.core.acts, e, b.core.acts, c.core.acts);
  }

  ghost predicate AllHonest(cfg: Config, s: State) { forall i :: InRange(s, i) ==> Honest(cfg, s.fes[i]) }

  // Every connection goes on; f's pipeline ends by e.
  ghost predicate AllTalk(cfg: Config, s: State, t: State, f: int, e: seq<Act>) {
    |t.fes| == |s.fes| && forall i :: InRange(s, i) ==> Talks(cfg, s.fes[i], t.fes[i], if i == f then e else [])
  }

  lemma OneTalks(cfg: Config, s: State, t: State, f: nat, e: seq<Act>)
    requires AllHonest(cfg, s) && f < |s.fes| && |t.fes| == |s.fes| && t.fes == s.fes[f := t.fes[f]]
    requires Talks(cfg, s.fes[f], t.fes[f], e)
    ensures AllTalk(cfg, s, t, f, e) && AllHonest(cfg, t)
  {
    forall i | InRange(s, i) && i != f ensures Talks(cfg, s.fes[i], t.fes[i], []) {
      MoreSame(s.fes[i].core.acts);
    }
  }

  lemma NoneTalks(cfg: Config, s: State, t: State, f: int)
    requires AllHonest(cfg, s) && t.fes == s.fes
    ensures AllTalk(cfg, s, t, f, []) && AllHonest(cfg, t)
  {
    forall i | InRange(s, i) ensures Talks(cfg, s.fes[i], t.fes[i], []) {
      MoreSame(s.fes[i].core.acts);
    }
  }

  lemma AllTalkTrans(cfg: Config, s: State, t: State, u: State, f: int, e: seq<Act>)
    requires AllTalk(cfg, s, t, f, e) && AllTalk(cfg, t, u, f, [])
    ensures AllTalk(cfg, s, u, f, e) && AllHonest(cfg, u)
  {
    forall i | InRange(s, i) ensures Talks(cfg, s.fes[i], u.fes[i], if i == f then e else []) {
      SpeaksTrans(cfg, s.fes[i], t.fes[i], u.fes[i], if i == f then e else []);
    }
  }

  lemma AllTalkOthers(cfg: Config, s: State, t: State, f: int, g: int)
    requires AllTalk(cfg, s, t, f, [])
    ensures AllTalk(cfg, s, t, g, []) && AllHonest(cfg, t)
  {
    forall i | InRange(t, i) ensures Honest(cfg, t.fes[i]) {
      assert InRange(s, i);
    }
  }

  // ---- one connection ----

  // Nothing but what it holds, waits for or keeps queued.
  lemma SameFrank(cfg: Config, a: Fe, b: Fe)
    requires Frank(cfg, a) && b.log.handled == a.log.handled && b.log.issued == a.log.issued
    requires var c, d := a.core, b.core;
             && d.sent == c.sent && d.pend == c.pend && d.acts == c.acts && d.cache == c.cache
             && d.ready == c.ready && d.id == c.id && (d.st == c.st || d.st == Free)
    ensures Frank(cfg, b)
  {
  }

  lemma TravelsNext(cfg: BackendPool.PoolConfig, c: Core, d: Core, x: Act)
    requires Travels(cfg, c) && d.acts == c.acts + [x] && d.id == c.id
    requires x.Asked? ==> Travelled(cfg, c.id.group, x.trip)
    ensures Travels(cfg, d)
  {
  }

  lemma DidTravels(cfg: Config, c: Core, m: Msg)
    requires Travels(cfg.pool, c)
    ensures Travels(cfg.pool, HandleCore(cfg, c, m))
  {
    DidActs(cfg, c, m);
    HandleCoreLink(cfg, c, m);
    TravelsNext(cfg.pool, c, HandleCore(cfg, c, m), Did(m));
  }

  lemma AskedTravels(cfg: BackendPool.PoolConfig, c: Core, t: BackendPool.Trip)
    requires Travels(cfg, c) && Travelled(cfg, c.id.group, t)
    ensures Travels(cfg, QueryCore(c, t))
  {
    AskedMarks(c, t);
    TravelsNext(cfg, c, QueryCore(c, t), Asked(t));
  }

  lemma EndedTravels(cfg: BackendPool.PoolConfig, c: Core, sawError: bool)
    requires Travels(cfg, c)
    ensures Travels(cfg, ReleaseCore(CompleteCore(c, sawError)))
  {
    UnflushedSame(c, sawError);
    var d := ReleaseCore(FlushOut(Unflushed(c, sawError)));
    assert ReleaseCore(CompleteCore(c, sawError)) == d;
    TravelsNext(cfg, c, d, Ended(c.resp, sawError));
  }

  lemma FlushTalks(cfg: Config, a: Fe)
    requires Honest(cfg, a)
    ensures var b := a.(core := FlushOut(a.core)); Talks(cfg, a, b, []) && Settled(b)
  {
    FlushFaithful(cfg.cacheMax, a.core);
    MoreSame(a.core.acts);
  }

  lemma StartedTalks(cfg: Config, a: Fe, m: Msg, b: nat, p: Pipeline, fromQueue: bool)
    requires Frank(cfg, a) && m.Bind? && a.core.ready && (fromQueue || !a.core.gotSync)
    ensures Talks(cfg, a, Fe(StartCore(a.core, b, fromQueue), a.queue, Issue(a.log, m, p)), [])
  {
    StartedFaithful(cfg.cacheMax, a.core, b, fromQueue);
    StartedChronicled(a, m, b, p, fromQueue);
    TravelsNext(cfg.pool, a.core, StartCore(a.core, b, fromQueue), Issued);
    MoreOne(a.core.acts, Issued);
  }

  lemma StartedChronicled(a: Fe, m: Msg, b: nat, p: Pipeline, fromQueue: bool)
    requires Chronicled(a) && m.Bind?
    ensures Chronicled(Fe(StartCore(a.core, b, fromQueue), a.queue, Issue(a.log, m, p)))
  {
    MatchedHandles(a.core.acts, a.log.handled, Issued, m);
    IssuedNext(a.core.acts, Issued);
    assert StartCore(a.core, b, fromQueue).acts == a.core.acts + [Issued];
  }

  lemma DidTalks(cfg: Config, a: Fe, m: Msg)
    requires Honest(cfg, a) && a.core.st != Free && (Real(m) ==> a.core.wait == Idle)
    ensures Speaks(cfg, a, Fe(HandleCore(cfg, a.core, m), a.queue, if Real(m) then Handled(a.log, m) else a.log), [])
  {
    DidFaithful(cfg, a.core, m);
    DidChronicled(cfg, a, m);
    DidCurrent(cfg, a.core, m);
    DidActs(cfg, a.core, m);
    DidTravels(cfg, a.core, m);
    MoreOne(a.core.acts, Did(m));
  }

  lemma DidChronicled(cfg: Config, a: Fe, m: Msg)
    requires Chronicled(a)
    ensures Chronicled(Fe(HandleCore(cfg, a.core, m), a.queue, if Real(m) then Handled(a.log, m) else a.log))
  {
    if Real(m) { MatchedHandles(a.core.acts, a.log.handled, Did(m), m); }
    else { MatchedOther(a.core.acts, a.log.handled, Did(m)); }
    IssuedNext(a.core.acts, Did(m));
    DidActs(cfg, a.core, m);
  }

  lemma DidActs(cfg: Config, c: Core, m: Msg)
    ensures HandleCore(cfg, c, m).acts == c.acts + [Did(m)]
  {
    AnswerActs(cfg, c, m);
  }

  lemma AnswerActs(cfg: Config, c: Core, m: Msg)
    ensures Answer(cfg, c, m).acts == c.acts
  {
    if m.Parse? { ParseActs(c, cfg.cacheMax, ParseEntry(cfg, c.id, m.parse)); }
  }

  lemma ParseActs(c: Core, cacheMax: nat, e: Prepared)
    ensures HandleParse(c, cacheMax, e).acts == c.acts
  {
  }

  lemma DidCurrent(cfg: Config, c: Core, m: Msg)
    requires Current(c) && c.st != Free && (Real(m) ==> c.wait == Idle)
    ensures Current(HandleCore(cfg, c, m))
  {
    DidMarks(cfg, c, m);
    DidActs(cfg, c, m);
    if c.wait == Idle { DidOutput(cfg, c, m); } else { Snoc(c.acts, Did(m)); }
  }

  lemma AskedTalks(cfg: Config, a: Fe, m: Msg, t: BackendPool.Trip)
    requires Honest(cfg, a) && a.core.st != Free && a.core.wait == Idle && m.Query?
    requires Travelled(cfg.pool, a.core.id.group, t)
    ensures Speaks(cfg, a, Fe(QueryCore(a.core, t), a.queue, Handled(a.log, m)), [])
  {
    AskedFaithful(cfg.cacheMax, a.core, t);
    AskedOutput(a.core, t);
    AskedMarks(a.core, t);
    AskedTravels(cfg.pool, a.core, t);
    AskedChronicled(a, Fe(QueryCore(a.core, t), a.queue, Handled(a.log, m)), m, t);
    MoreOne(a.core.acts, Asked(t));
  }

  lemma AskedChronicled(a: Fe, b: Fe, m: Msg, t: BackendPool.Trip)
    requires Chronicled(a) && m.Query? && b.log == Handled(a.log, m) && b.core.acts == a.core.acts + [Asked(t)]
    ensures Chronicled(b)
  {
    MatchedHandles(a.core.acts, a.log.handled, Asked(t), m);
    IssuedNext(a.core.acts, Asked(t));
  }

  lemma EnqueuedTalks(cfg: Config, a: Fe, m: Msg)
    requires Honest(cfg, a) && a.core.wait != Idle && Real(m)
    ensures Speaks(cfg, a, Enqueue(cfg, a, m), [])
  {
    var fits := Fits(cfg, a);
    var x := if fits then Kept(m) else Refused(m);
    EnqueuedFaithful(cfg.cacheMax, a.core, m, fits);
    EnqueueLink(a.core, m, fits);
    EnqueuedActs(a.core, m, fits);
    MatchedOther(a.core.acts, a.log.handled, x);
    IssuedNext(a.core.acts, x);
    MoreOne(a.core.acts, x);
    if a.core.wait != Waiting { EnqueuedSync(a.core, m, fits); }
  }

  lemma EnqueuedActs(c: Core, m: Msg, fits: bool)
    ensures EnqueueCore(c, m, fits).acts == c.acts + [if fits then Kept(m) else Refused(m)]
  {
  }

  // ---- starting and draining ----

  // Only f changed.
  predicate Only(s: State, t: State, f: nat) {
    f < |s.fes| == |t.fes| && t.fes == s.fes[f := t.fes[f]]
  }

  lemma StartTalks(cfg: Config, s: State, f: nat, b: BindMsg, fromQueue: bool)
    requires f < |s.fes| && Frank(cfg, s.fes[f]) && s.fes[f].core.ready && (fromQueue || !s.fes[f].core.gotSync)
    ensures var (t, ok) := StartBind(cfg, s, f, b, fromQueue);
            && |t.fes| == |s.fes| && (!ok ==> t.fes == s.fes)
            && (ok ==> Only(s, t, f) && Talks(cfg, s.fes[f], t.fes[f], []))
  {
    var a := s.fes[f];
    var (t, ok) := StartBind(cfg, s, f, b, fromQueue);
    if ok {
      StartedTalks(cfg, a, Bind(b), t.fes[f].core.be.value, OnBind(a.core.cache, b, a.core.id).value, fromQueue);
    }
  }

  // It waits, with its Bind queued.
  lemma ParkTalks(cfg: Config, s: State, f: nat, q: seq<Msg>)
    requires f < |s.fes| && Frank(cfg, s.fes[f]) && f !in s.ring && |s.ring| < |s.fes|
    ensures var t := Park(SetFe(s, f, s.fes[f].(queue := q)), f).0;
            Only(s, t, f) && Talks(cfg, s.fes[f], t.fes[f], [])
  {
    var t := Park(SetFe(s, f, s.fes[f].(queue := q)), f).0;
    SameFrank(cfg, s.fes[f], t.fes[f]);
    MoreSame(s.fes[f].core.acts);
  }

  lemma StartOrParkTalks(cfg: Config, s: State, f: nat, m: Msg)
    requires f < |s.fes| && Frank(cfg, s.fes[f]) && s.fes[f].core.ready && m.Bind?
    requires f !in s.ring && |s.ring| < |s.fes|
    ensures var t := StartOrPark(cfg, s, f, m); Only(s, t, f) && Talks(cfg, s.fes[f], t.fes[f], [])
  {
    var (t, ok) := StartBind(cfg, s, f, m.bind, true);
    StartTalks(cfg, s, f, m.bind, true);
    if !ok { ParkTalks(cfg, t, f, [m] + t.fes[f].queue); }
  }

  lemma HandleTalks(cfg: Config, s: State, f: nat, m: Msg)
    requires Proper(cfg) && PoolOwnership.PoolOk(s.pool)
    requires f < |s.fes| && Honest(cfg, s.fes[f]) && s.fes[f].core.st != Free
    requires Real(m) ==> s.fes[f].core.wait == Idle
    ensures var t := Handle(cfg, s, f, m); Only(s, t, f) && Speaks(cfg, s.fes[f], t.fes[f], [])
  {
    var a := s.fes[f];
    if m.Query? && a.core.ready && !cfg.rejectQuery {
      PoolOwnership.QueryTrip(cfg.pool, s.pool, a.core.id.group);
      AskedTalks(cfg, a, m, BackendPool.ExecQuery(cfg.pool, s.pool, a.core.id.group).1);
    } else {
      DidTalks(cfg, a, m);
    }
  }

  // f went on speaking, and holds nothing back.
  ghost predicate Spoke(cfg: Config, s: State, t: State, f: nat) {
    Only(s, t, f) && Speaks(cfg, s.fes[f], t.fes[f], []) && Settled(t.fes[f])
  }

  lemma FlushSpoke(cfg: Config, s: State, t: State, f: nat)
    requires Only(s, t, f) && Speaks(cfg, s.fes[f], t.fes[f], [])
    ensures Spoke(cfg, s, Flush(t, f), f)
  {
    FlushTalks(cfg, t.fes[f]);
    SpeaksTrans(cfg, s.fes[f], t.fes[f], Flush(t, f).fes[f], []);
  }

  lemma SpokeAfter(cfg: Config, s: State, t: State, u: State, f: nat)
    requires Only(s, t, f) && Speaks(cfg, s.fes[f], t.fes[f], []) && Spoke(cfg, t, u, f)
    ensures Spoke(cfg, s, u, f)
  {
    SpeaksTrans(cfg, s.fes[f], t.fes[f], u.fes[f], []);
  }

  // After one message the queue can be worked off further.
  lemma HandledNext(cfg: Config, s: State, f: nat, m: Msg)
    requires Proper(cfg) && f < |s.fes| && PoolOwnership.PoolOk(s.pool) && Honest(cfg, s.fes[f])
    requires Drainable(cfg, s.fes[f]) && s.fes[f].core.st != Free && Real(m)
    ensures var t := Handle(cfg, s, f, m);
            && Only(s, t, f) && Speaks(cfg, s.fes[f], t.fes[f], []) && Drainable(cfg, t.fes[f])
            && t.fes[f].queue == s.fes[f].queue && t.ring == s.ring && PoolOwnership.PoolOk(t.pool)
  {
    HandleConfined(cfg, s, f, m);
    HandleTalks(cfg, s, f, m);
  }

  lemma {:induction false} DrainSpoke(cfg: Config, s: State, f: nat)
    requires Proper(cfg) && f < |s.fes| && PoolOwnership.PoolOk(s.pool) && Honest(cfg, s.fes[f])
    requires Drainable(cfg, s.fes[f]) && f !in s.ring && |s.ring| < |s.fes|
    ensures Spoke(cfg, s, Drain(cfg, s, f), f)
    decreases |s.fes[f].queue|
  {
    var fe := s.fes[f];
    MoreSame(fe.core.acts);
    if fe.queue == [] {
      FlushSpoke(cfg, s, s, f);
    } else {
      var m := fe.queue[0];
      var popped := SetFe(s, f, fe.(queue := fe.queue[1..]));
      if m.Bind? && fe.core.ready {
        StartedOrParked(cfg, popped, f, m);
      } else {
        var t := Handle(cfg, popped, f, m);
        HandledNext(cfg, popped, f, m);
        DrainSpoke(cfg, t, f);
        SpokeAfter(cfg, popped, t, Drain(cfg, t, f), f);
      }
      SpokeAfter(cfg, s, popped, Drain(cfg, s, f), f);
    }
  }

  // ---- a pass ----

  lemma AttemptTalks(cfg: Config, s: State, o: int, w: nat)
    requires Proper(cfg) && InvOpen(cfg, s, o, NONE) && Awaits(cfg, s, o) && w == s.ring[0] && AllHonest(cfg, s)
    ensures AllTalk(cfg, s, Attempt(cfg, s, w), NONE, []) && AllHonest(cfg, Attempt(cfg, s, w))
  {
    PoppedOpen(cfg, s, o, w);
    PoppedFrank(cfg, s, o, w);
    StartedOrParked(cfg, Popped(s, w), w, s.fes[w].queue[0]);
    AttemptSpeaks(cfg, s.fes[w], Popped(s, w).fes[w], Attempt(cfg, s, w).fes[w]);
    OneTalks(cfg, s, Attempt(cfg, s, w), w, []);
    AllTalkOthers(cfg, s, Attempt(cfg, s, w), w, NONE);
  }

  lemma PoppedFrank(cfg: Config, s: State, o: int, w: nat)
    requires Awaits(cfg, s, o) && w == s.ring[0] && AllHonest(cfg, s)
    ensures Only(s, Popped(s, w), w) && Frank(cfg, Popped(s, w).fes[w])
  {
    SameFrank(cfg, s.fes[w], Popped(s, w).fes[w]);
  }

  lemma StartedOrParked(cfg: Config, p: State, w: nat, m: Msg)
    requires w < |p.fes| && Frank(cfg, p.fes[w]) && p.fes[w].core.ready && m.Bind?
    requires w !in p.ring && |p.ring| < |p.fes|
    ensures Spoke(cfg, p, Flush(StartOrPark(cfg, p, w, m), w), w)
  {
    StartOrParkTalks(cfg, p, w, m);
    FlushSpoke(cfg, p, StartOrPark(cfg, p, w, m), w);
  }

  lemma AttemptSpeaks(cfg: Config, a: Fe, p: Fe, b: Fe)
    requires Speaks(cfg, p, b, []) && Settled(b) && p.core.acts == a.core.acts
    ensures Talks(cfg, a, b, [])
  {
  }

  lemma TurnTalks(cfg: Config, s: State, o: int)
    requires Proper(cfg) && InvOpen(cfg, s, o, NONE) && s.ring != [] && AllHonest(cfg, s)
    ensures InvOpen(cfg, Turn(cfg, s), o, NONE)
    ensures AllTalk(cfg, s, Turn(cfg, s), NONE, []) && AllHonest(cfg, Turn(cfg, s))
  {
    TurnInv(cfg, s, o);
    Ring.DistinctTail(s.ring);
    Ring.Pigeonhole(s.ring, |s.fes|);
    TurnIsAttempt(cfg, s, o);
    AttemptTalks(cfg, s, o, s.ring[0]);
  }

  lemma PassTalks(cfg: Config, s: State, attempts: nat, o: int)
    requires Proper(cfg) && InvOpen(cfg, s, o, NONE) && AllHonest(cfg, s)
    ensures AllTalk(cfg, s, Pass(cfg, s, attempts), NONE, []) && AllHonest(cfg, Pass(cfg, s, attempts))
  {
    NoneTalks(cfg, s, s, NONE);
    var good := u => InvOpen(cfg, u, o, NONE) && AllTalk(cfg, s, u, NONE, []) && AllHonest(cfg, u);
    forall u | good(u) && u.ring != [] ensures good(Turn(cfg, u)) {
      TurnTalks(cfg, u, o);
      AllTalkTrans(cfg, s, u, Turn(cfg, u), NONE, []);
    }
    PassKeeps(cfg, s, attempts, good);
  }

  // ---- the end of a pipeline ----

  lemma LastTalks(cfg: Config, u: State, f: nat)
    requires Proper(cfg) && f < |u.fes| && InvOpen(cfg, u, f, NONE) && f !in u.ring && Drainable(cfg, u.fes[f])
    requires AllHonest(cfg, u)
    ensures var v := if u.fes[f].core.wait == Idle && u.fes[f].queue != [] then Drain(cfg, u, f) else Flush(u, f);
            AllTalk(cfg, u, v, f, []) && AllHonest(cfg, v)
  {
    RingHasRoom(u, f, NONE, f);
    DrainSpoke(cfg, u, f);
    MoreSame(u.fes[f].core.acts);
    FlushSpoke(cfg, u, u, f);
    OneTalks(cfg, u, Drain(cfg, u, f), f, []);
    OneTalks(cfg, u, Flush(u, f), f, []);
  }

  lemma ReleaseTalks(cfg: Config, s: State, w: State, f: nat, e: seq<Act>)
    requires Proper(cfg) && f < |w.fes| && f !in w.ring
    requires var v := SetCore(w, f, ReleaseCore(w.fes[f].core));
             && InvOpen(cfg, v, f, NONE) && Drainable(cfg, v.fes[f])
             && AllTalk(cfg, s, v, f, e) && AllHonest(cfg, v)
    ensures AllTalk(cfg, s, AfterRelease(cfg, w, f), f, e) && AllHonest(cfg, AfterRelease(cfg, w, f))
  {
    var v := SetCore(w, f, ReleaseCore(w.fes[f].core));
    var u := FairSchedule(cfg, v);
    PassInv(cfg, v, |v.ring|, f);
    PassTalks(cfg, v, |v.ring|, f);
    AllTalkOthers(cfg, v, u, NONE, f);
    AllTalkTrans(cfg, s, v, u, f, e);
    assert v.ring == [] ==> u == v;
    LastTalks(cfg, u, f);
    AllTalkTrans(cfg, s, u, AfterRelease(cfg, w, f), f, e);
  }

  // Between two submissions nothing is said; only the response may have grown.
  ghost predicate Mute(cfg: Config, s: State, t: State, f: nat) {
    && Between(cfg, s, t, f) && t.fes[f].log == s.fes[f].log
    && var c, d := s.fes[f].core, t.fes[f].core;
       && d.sent == c.sent && d.pend == c.pend && d.acts == c.acts && d.cache == c.cache
       && d.id == c.id && d.ready == c.ready && d.st == c.st && d.gotSync == c.gotSync
  }

  // f gives its backend back, left as fe.
  lemma EndTalks(cfg: Config, s: State, t: State, w: State, f: nat, fe: Fe, failed: bool, e: Act)
    requires Proper(cfg) && Inv(cfg, s) && Between(cfg, s, t, f) && AllHonest(cfg, s)
    requires w == SetFe(t.(pool := BackendPool.Finish(cfg.pool, t.pool, s.fes[f].core.be.value, failed)), f, fe)
    requires var d := fe.(core := ReleaseCore(fe.core)); Drainable(cfg, d) && Talks(cfg, s.fes[f], d, [e])
    ensures AllTalk(cfg, s, AfterRelease(cfg, w, f), f, [e]) && AllHonest(cfg, AfterRelease(cfg, w, f))
  {
    var v := SetCore(w, f, ReleaseCore(fe.core));
    EndOpen(cfg, s, t, w, f, fe, failed);
    OneTalks(cfg, s, v, f, [e]);
    ReleaseTalks(cfg, s, w, f, [e]);
  }

  lemma BrokenTalks(cfg: Config, a: Fe, b: Fe)
    requires Frank(cfg, a) && b == a.(core := ReleaseCore(FailCore(a.core)))
    ensures Talks(cfg, a, b, [Broke])
  {
    BrokeFaithful(cfg.cacheMax, a.core);
    OutcomeChronicled(a, b, Broke);
  }

  lemma FailTalks(cfg: Config, s: State, t: State, f: nat)
    requires Proper(cfg) && Inv(cfg, s) && AllHonest(cfg, s) && Mute(cfg, s, t, f)
    ensures AllTalk(cfg, s, Fail(cfg, t, f), f, [Broke]) && AllHonest(cfg, Fail(cfg, t, f))
  {
    var fe := t.fes[f].(core := FailCore(t.fes[f].core));
    var pool := BackendPool.Finish(cfg.pool, t.pool, s.fes[f].core.be.value, true);
    SameFrank(cfg, s.fes[f], t.fes[f]);
    BrokenTalks(cfg, t.fes[f], fe.(core := ReleaseCore(fe.core)));
    EndTalks(cfg, s, t, SetFe(t.(pool := pool), f, fe), f, fe, true, Broke);
  }

  lemma EndedTalks(cfg: Config, a: Fe, fe: Fe, sawError: bool)
    requires Frank(cfg, a) && a.core.ready && (a.core.gotSync <==> SyncSeen(a.core.acts))
    requires fe == if sawError then Drop(a) else a
    ensures Talks(cfg, a, fe.(core := ReleaseCore(CompleteCore(a.core, sawError))), [Ended(a.core.resp, sawError)])
  {
    var e := Ended(a.core.resp, sawError);
    EndedFaithful(cfg.cacheMax, a.core, sawError);
    EndedOutput(a.core, sawError);
    EndedTravels(cfg.pool, a.core, sawError);
    OutcomeChronicled(a, fe.(core := ReleaseCore(CompleteCore(a.core, sawError))), e);
  }

  lemma OutcomeChronicled(a: Fe, b: Fe, e: Act)
    requires Chronicled(a) && !Handling(e) && b.core.acts == a.core.acts + [e]
    requires b.log.handled == a.log.handled && b.log.issued == a.log.issued
    ensures Chronicled(b)
  {
    MatchedOther(a.core.acts, a.log.handled, e);
    IssuedNext(a.core.acts, e);
  }

  lemma CompleteTalks(cfg: Config, s: State, t: State, f: nat)
    requires Proper(cfg) && Inv(cfg, s) && AllHonest(cfg, s) && Mute(cfg, s, t, f)
    ensures var e := Ended(t.fes[f].core.resp, Conn(t, f).pipe.st.sawError);
            AllTalk(cfg, s, Complete(cfg, t, f), f, [e]) && AllHonest(cfg, Complete(cfg, t, f))
  {
    var sawError := Conn(t, f).pipe.st.sawError;
    var fe := if sawError then Drop(t.fes[f]) else t.fes[f];
    var d := fe.(core := CompleteCore(fe.core, sawError));
    var pool := BackendPool.Finish(cfg.pool, t.pool, s.fes[f].core.be.value, false);
    SameFrank(cfg, s.fes[f], t.fes[f]);
    EndedTalks(cfg, t.fes[f], fe, sawError);
    EndTalks(cfg, s, t, SetFe(t.(pool := pool), f, d), f, d, false, Ended(t.fes[f].core.resp, sawError));
  }
}
