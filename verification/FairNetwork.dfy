// Places in the ring, and bounded waiting, on any network: in a pool without group login and
// health checks it is enough to count the releases that leave a live backend.
module FairNetwork {
  import opened Wire
  import opened Frontend
  import opened Scheduler
  import opened Invariant
  import opened Steps
  import opened Waiting
  import opened FairPass
  import opened FairSteps
  import opened Tally
  import opened Census
  import opened CensusSteps
  import Fairness
  import Stuck
  import BackendPool
  import Framer

  // ---- steps of one frontend ----

  lemma ElsewherePlaced(cfg: Config, s: State, t: State, g: int)
    requires AllWait(s) && Stuck.Elsewhere(s, t, g)
    requires g in s.ring ==> InRange(s, g) && Patient(s.fes[g], t.fes[g])
    ensures Placed(cfg, s, t, false, NONE)
  {
    forall k: nat | Hopes(cfg, s, k, NONE) ensures Fair(s, t, k, false) {
      assert s.ring[k] in s.ring;
      PrefixAhead(s, t, k);
    }
  }

  lemma PrefixAhead(s: State, t: State, k: nat)
    requires k < |s.ring| && |t.fes| == |s.fes| && InRange(s, s.ring[k]) && s.ring <= t.ring
    requires Patient(s.fes[s.ring[k]], t.fes[s.ring[k]])
    ensures Ahead(s, t, k, k)
  {
    forall i | 0 <= i < k ensures t.ring[i] in s.ring[..k] {
      assert t.ring[i] == s.ring[..k][i];
    }
  }

  // ---- a pass, and what the releaser does after it ----

  lemma PassAhead(cfg: Config, v: State, u: State, k: nat) returns (j: nat)
    requires Counted(cfg, v, u, v.ring) && u.ring == StillWaiting(u, v.ring) && |u.fes| == |v.fes|
    requires k < |v.ring| && Left(cfg, v, u, v.ring[k])
    ensures Ahead(v, u, k, j) && (CountOf(v.pool).live > 0 ==> j < k)
  {
    var r := v.ring;
    assert r[k] in r && Outcome(cfg, v, u, r[k]);
    j := |StillWaiting(u, r[..k])|;
    StillWaitingSplit(u, r, k);
    assert r[k..][0] == r[k];
    assert u.ring[j] == r[k];
    StillWaitingAll(u, r[..k]);
    AheadOnly(u, r, k, j);
    if CountOf(v.pool).live > 0 {
      var b := ServedAhead(cfg, v, u, k);
      assert r[b] in r[..k] && !Waits(u, r[b]);
    }
  }

  lemma ServedAhead(cfg: Config, v: State, u: State, k: nat) returns (b: nat)
    requires Counted(cfg, v, u, v.ring) && k < |v.ring| && Left(cfg, v, u, v.ring[k]) && CountOf(v.pool).live > 0
    ensures b < k && Got(u, v.ring[b])
  {
    var fes, y := FesOf(v, v.ring), CountOf(v.pool);
    assert Able(cfg, fes[k]) && !PassCount(cfg, fes, y).1[k];
    MissedBehind(cfg, fes, y, k);
    b :| 0 <= b < k && PassCount(cfg, fes, y).1[b];
  }

  // s before the release, v when g has given its backend back, u after the pass, t in the end.
  lemma PassPlaced(cfg: Config, s: State, v: State, u: State, t: State, g: int)
    requires Opens(s, v, g) && Counted(cfg, v, u, v.ring) && |u.fes| == |v.fes| && u.ring == StillWaiting(u, v.ring)
    requires Stuck.Elsewhere(u, t, g) && t.ring <= u.ring + [g]
    ensures |t.fes| == |s.fes| && Placed(cfg, s, t, CountOf(v.pool).live > 0, NONE)
  {
    forall k: nat | Hopes(cfg, s, k, NONE) ensures Fair(s, t, k, CountOf(v.pool).live > 0) {
      ResumedPlaced(cfg, s, v, u, t, g, k);
    }
  }

  lemma ResumedPlaced(cfg: Config, s: State, v: State, u: State, t: State, g: int, k: nat)
    requires Opens(s, v, g) && Counted(cfg, v, u, v.ring) && |u.fes| == |v.fes| && u.ring == StillWaiting(u, v.ring)
    requires Stuck.Elsewhere(u, t, g) && t.ring <= u.ring + [g] && Hopes(cfg, s, k, NONE)
    ensures |t.fes| == |s.fes| && Fair(s, t, k, CountOf(v.pool).live > 0)
  {
    var f := s.ring[k];
    assert f in s.ring && f != g;
    StillWaitingMeaning(u, v.ring, f);
    assert Outcome(cfg, v, u, f);
    if f in u.ring {
      var j := PassAhead(cfg, v, u, k);
      PrefixKeeps(s, v, u, t, g, k, j);
    }
  }

  lemma PrefixKeeps(s: State, v: State, u: State, t: State, g: int, k: nat, j: nat)
    requires Opens(s, v, g) && k < |s.ring| && InRange(s, s.ring[k]) && s.ring[k] != g && |u.fes| == |v.fes|
    requires Ahead(v, u, k, j) && Stuck.Elsewhere(u, t, g)
    ensures |t.fes| == |s.fes| && Ahead(s, t, k, j)
  {
    forall i | 0 <= i < j ensures t.ring[i] in s.ring[..k] {
      assert t.ring[i] == u.ring[i];
    }
  }

  // ---- the end of a pipeline ----

  // f has given its backend back, and resumes after the waiters.
  lemma ReleasePlaced(cfg: Config, s: State, w: State, f: nat)
    requires Proper(cfg) && AnyLogin(cfg.pool) && f < |w.fes|
    requires var v := SetCore(w, f, ReleaseCore(w.fes[f].core)); Opens(s, v, f) && InvOpen(cfg, v, f, NONE)
    ensures |AfterRelease(cfg, w, f).fes| == |s.fes|
    ensures Placed(cfg, s, AfterRelease(cfg, w, f), CountOf(w.pool).live > 0, NONE)
  {
    var v := SetCore(w, f, ReleaseCore(w.fes[f].core));
    var u := FairSchedule(cfg, v);
    FairScheduleCounted(cfg, v, f);
    PassInv(cfg, v, |v.ring|, f);
    assert v.ring == [] ==> u == v;
    ResumeElsewhere(cfg, u, f);
    PassPlaced(cfg, s, v, u, AfterRelease(cfg, w, f), f);
  }

  lemma ResumeElsewhere(cfg: Config, u: State, f: nat)
    requires Proper(cfg) && AnyLogin(cfg.pool) && f < |u.fes| && InvOpen(cfg, u, f, NONE) && u.fes[f].core.wait == Idle
    ensures var t := if u.fes[f].core.wait == Idle && u.fes[f].queue != [] then Drain(cfg, u, f) else Flush(u, f);
            Stuck.Elsewhere(u, t, f) && t.ring <= u.ring + [f]
  {
    Stuck.DrainElsewhere(cfg, u, f);
    RingHasRoom(u, f, NONE, f);
    DrainCounted(cfg, u, f);
  }

  lemma GivePlaced(cfg: Config, s: State, t: State, w: State, f: nat, fe: Fe, failed: bool)
    requires Proper(cfg) && AnyLogin(cfg.pool) && Inv(cfg, s) && Midway(cfg, s, t, f)
    requires w == SetFe(t.(pool := BackendPool.Finish(cfg.pool, t.pool, s.fes[f].core.be.value, failed)), f, fe)
    requires fe.log.issued == s.fes[f].log.issued
    ensures |AfterRelease(cfg, w, f).fes| == |s.fes|
    ensures Placed(cfg, s, AfterRelease(cfg, w, f), Freed(cfg.pool, CountOf(s.pool), failed).live > 0, NONE)
  {
    HolderOutside(cfg, s, f);
    FreedCount(cfg, s, t, f, failed);
    EndOpen(cfg, s, t, w, f, fe, failed);
    ReleasePlaced(cfg, s, w, f);
  }

  lemma FailPlaced(cfg: Config, s: State, t: State, f: nat)
    requires Proper(cfg) && AnyLogin(cfg.pool) && Inv(cfg, s) && Midway(cfg, s, t, f) && t.fes[f].log == s.fes[f].log
    ensures |Fail(cfg, t, f).fes| == |s.fes|
    ensures Placed(cfg, s, Fail(cfg, t, f), Freed(cfg.pool, CountOf(s.pool), true).live > 0, NONE)
  {
    var fe := t.fes[f].(core := FailCore(t.fes[f].core));
    var pool := BackendPool.Finish(cfg.pool, t.pool, s.fes[f].core.be.value, true);
    GivePlaced(cfg, s, t, SetFe(t.(pool := pool), f, fe), f, fe, true);
  }

  lemma CompletePlaced(cfg: Config, s: State, t: State, f: nat)
    requires Proper(cfg) && AnyLogin(cfg.pool) && Inv(cfg, s) && Midway(cfg, s, t, f) && t.fes[f].log == s.fes[f].log
    ensures |Complete(cfg, t, f).fes| == |s.fes| && Placed(cfg, s, Complete(cfg, t, f), true, NONE)
  {
    var sawError := Conn(t, f).pipe.st.sawError;
    var fe := if sawError then Drop(t.fes[f]) else t.fes[f];
    var d := fe.(core := CompleteCore(fe.core, sawError));
    var pool := BackendPool.Finish(cfg.pool, t.pool, s.fes[f].core.be.value, false);
    GivePlaced(cfg, s, t, SetFe(t.(pool := pool), f, d), f, d, false);
  }

  lemma SubmitPlaced(cfg: Config, s: State, t: State, f: nat)
    requires Inv(cfg, s) && Between(cfg, s, t, f)
    ensures Placed(cfg, s, SubmitSend(t, f), false, NONE) && Placed(cfg, s, SubmitRecv(t, f), false, NONE)
  {
    HolderOutside(cfg, s, f);
    Fairness.InvAllWait(cfg, s);
    ElsewherePlaced(cfg, s, SubmitSend(t, f), f);
    ElsewherePlaced(cfg, s, SubmitRecv(t, f), f);
  }

  // ---- events ----

  // What is given back, and whether a live slot is there then.
  predicate LiveThen(cfg: Config, s: State, g: Option<Give>) {
    g.Some? && Freed(cfg.pool, CountOf(s.pool), g.value.failed).live > 0
  }

  predicate LiveAfterClose(cfg: Config, s: State, f: nat) {
    Runs(s, f) && Freed(cfg.pool, CountOf(s.pool), true).live > 0
  }

  // The event gives a backend back, and a live one is there for the waiters.
  predicate FreesLive(cfg: Config, s: State, e: Event) {
    LiveThen(cfg, s, GivenBack(cfg, s, e)) || (e.CloseConn? && LiveAfterClose(cfg, s, e.f))
  }

  lemma SendPlaced(cfg: Config, s: State, f: nat, res: SendResult)
    requires Proper(cfg) && AnyLogin(cfg.pool) && Inv(cfg, s) && Runs(s, f) && s.fes[f].core.sendPending
    ensures Placed(cfg, s, OnSendDone(cfg, s, f, res), LiveThen(cfg, s, SendGives(s, f, res)), NONE)
  {
    var t := SetCore(s, f, s.fes[f].core.(sendPending := false));
    SendMidway(cfg, s, f);
    match res
    case Again => SubmitPlaced(cfg, s, t, f);
    case SendError => FailPlaced(cfg, s, t, f);
    case Sent(n) => SentPlaced(cfg, s, t, f, n);
  }

  lemma SendMidway(cfg: Config, s: State, f: nat)
    requires Inv(cfg, s) && Runs(s, f) && s.fes[f].core.sendPending
    ensures Midway(cfg, s, SetCore(s, f, s.fes[f].core.(sendPending := false)), f)
  {
    assert Shape(cfg, s.fes[f]);
  }

  lemma SentPlaced(cfg: Config, s: State, t: State, f: nat, n: nat)
    requires Inv(cfg, s) && Midway(cfg, s, t, f)
    ensures var u := t.(pool := BackendPool.SendAdvance(t.pool, t.fes[f].core.be.value, n));
            Runs(u, f) && Placed(cfg, s, SubmitSend(u, f), false, NONE)
  {
    SubmitPlaced(cfg, s, t.(pool := BackendPool.SendAdvance(t.pool, t.fes[f].core.be.value, n)), f);
  }

  lemma MorePlaced(cfg: Config, s: State, t: State, f: nat, acc: Bytes, st: Framer.Status, resp: Bytes)
    requires Inv(cfg, s) && Between(cfg, s, t, f)
    ensures Placed(cfg, s, SubmitRecv(Store(t, f, acc, st, resp), f), false, NONE)
  {
    StoreBetween(cfg, s, t, f, acc, st, resp);
    SubmitPlaced(cfg, s, Store(t, f, acc, st, resp), f);
  }

  lemma DonePlaced(cfg: Config, s: State, t: State, f: nat, acc: Bytes, st: Framer.Status, resp: Bytes)
    requires Proper(cfg) && AnyLogin(cfg.pool) && Inv(cfg, s) && Midway(cfg, s, t, f) && t.fes[f].log == s.fes[f].log
    ensures Placed(cfg, s, Complete(cfg, Store(t, f, acc, st, resp), f), true, NONE)
  {
    StoreMidway(cfg, s, t, f, acc, st, resp);
    CompletePlaced(cfg, s, Store(t, f, acc, st, resp), f);
  }

  lemma DataPlaced(cfg: Config, s: State, f: nat, data: Bytes)
    requires Proper(cfg) && AnyLogin(cfg.pool) && Inv(cfg, s) && Runs(s, f) && s.fes[f].core.recvPending && data != []
    ensures Placed(cfg, s, OnRecvDone(cfg, s, f, Data(data)), LiveThen(cfg, s, DataGives(cfg, s, f, data)), NONE)
  {
    var t := SetCore(s, f, s.fes[f].core.(recvPending := false));
    RecvMidway(cfg, s, f);
    ReceivedSame(cfg, s, f, data);
    match Received(cfg, t, f, data)
    case Bad => FailPlaced(cfg, s, t, f);
    case More(acc, st, resp) => MorePlaced(cfg, s, t, f, acc, st, resp);
    case Done(acc, st, resp) => DonePlaced(cfg, s, t, f, acc, st, resp);
  }

  lemma NoDataPlaced(cfg: Config, s: State, f: nat, res: RecvResult)
    requires Proper(cfg) && AnyLogin(cfg.pool) && Inv(cfg, s) && Runs(s, f) && s.fes[f].core.recvPending
    requires res.RecvError? || res.bytes == []
    ensures Placed(cfg, s, OnRecvDone(cfg, s, f, res), LiveThen(cfg, s, Some(Give(f, true, s.fes[f].queue))), NONE)
  {
    var t := SetCore(s, f, s.fes[f].core.(recvPending := false));
    RecvMidway(cfg, s, f);
    FailPlaced(cfg, s, t, f);
  }

  lemma RecvPlaced(cfg: Config, s: State, f: nat, res: RecvResult)
    requires Proper(cfg) && AnyLogin(cfg.pool) && Inv(cfg, s) && Runs(s, f) && s.fes[f].core.recvPending
    ensures Placed(cfg, s, OnRecvDone(cfg, s, f, res), LiveThen(cfg, s, RecvGives(cfg, s, f, res)), NONE)
  {
    match res
    case RecvError => NoDataPlaced(cfg, s, f, res);
    case Data(bytes) => if bytes == [] { NoDataPlaced(cfg, s, f, res); } else { DataPlaced(cfg, s, f, bytes); }
  }

  lemma InputPlaced(cfg: Config, s: State, f: nat, ms: seq<Msg>)
    requires Inv(cfg, s) && Proper(cfg) && f < |s.fes| && s.fes[f].core.st != Free
    ensures Placed(cfg, s, ProcessAll(cfg, s, f, ms), false, NONE)
  {
    Fairness.InvAllWait(cfg, s);
    InputElsewhere(cfg, s, f, ms);
    if f in s.ring { Stuck.InputStays(cfg, s, f, ms, f); }
    ElsewherePlaced(cfg, s, ProcessAll(cfg, s, f, ms), f);
  }

  lemma HolderClosePlaced(cfg: Config, s: State, f: nat)
    requires Proper(cfg) && AnyLogin(cfg.pool) && Inv(cfg, s) && Runs(s, f)
    ensures Placed(cfg, s, Close(cfg, s, f), Freed(cfg.pool, CountOf(s.pool), true).live > 0, NONE)
  {
    var v := Released(cfg, s, f);
    ReleasedOpen(cfg, s, f);
    var u := FairSchedule(cfg, v);
    FairScheduleCounted(cfg, v, f);
    ForgetElsewhere(u, f);
    PassPlaced(cfg, s, v, u, Close(cfg, s, f), f);
  }

  lemma ForgetElsewhere(u: State, f: nat)
    requires f < |u.fes|
    ensures var t := SetFe(u, f, Drop(u.fes[f]).(core := CloseCore(u.fes[f].core)));
            Stuck.Elsewhere(u, t, f) && t.ring <= u.ring + [f]
  {
  }

  lemma LeavePlaced(cfg: Config, s: State, t: State, f: nat)
    requires AllWait(s) && f < |s.fes| && OnlyChanges(s, t, f)
    requires t.ring == WaitersRemove(s.ring, f) && t.fes[f].log.issued == s.fes[f].log.issued
    ensures Placed(cfg, s, t, false, f)
  {
    forall k: nat | Hopes(cfg, s, k, f) ensures Fair(s, t, k, false) {
      Fairness.LeaveAhead(cfg, s, t, f, k);
    }
  }

  lemma ClosePlaced(cfg: Config, s: State, f: nat)
    requires Proper(cfg) && AnyLogin(cfg.pool) && Inv(cfg, s) && f < |s.fes|
    ensures Placed(cfg, s, Close(cfg, s, f), LiveAfterClose(cfg, s, f), f)
  {
    assert Shape(cfg, s.fes[f]);
    Fairness.InvAllWait(cfg, s);
    if s.fes[f].core.st == Free {
      SamePlaced(cfg, s, f);
    } else if s.fes[f].core.be.Some? {
      assert Holds(s, f, s.fes[f].core.be.value);
      HolderClosePlaced(cfg, s, f);
      ExcusePlaced(cfg, s, Close(cfg, s, f), LiveAfterClose(cfg, s, f), f);
    } else {
      LeavePlaced(cfg, s, Close(cfg, s, f), f);
    }
  }

  lemma ExcusePlaced(cfg: Config, s: State, t: State, strict: bool, f: int)
    requires |t.fes| == |s.fes| && Placed(cfg, s, t, strict, NONE)
    ensures Placed(cfg, s, t, strict, f)
  {
    forall k: nat | Hopes(cfg, s, k, f) ensures Hopes(cfg, s, k, NONE) {
    }
  }

  lemma SamePlaced(cfg: Config, s: State, f: int)
    requires AllWait(s)
    ensures Placed(cfg, s, s, false, f)
  {
    ElsewherePlaced(cfg, s, s, NONE);
    ExcusePlaced(cfg, s, s, false, f);
  }

  lemma QuietPlaced(cfg: Config, s: State, t: State, g: nat)
    requires AllWait(s) && g < |s.fes| == |t.fes| && t.fes == s.fes[g := t.fes[g]] && g !in s.ring && t.ring == s.ring
    ensures Placed(cfg, s, t, false, NONE)
  {
    ElsewherePlaced(cfg, s, t, g);
  }

  lemma AcceptPlaced(cfg: Config, s: State, id: Identity, ready: bool)
    requires Inv(cfg, s)
    ensures Placed(cfg, s, Step(cfg, s, Accept(id, ready)), false, NONE)
  {
    var k := FreeSlot(s.fes);
    Fairness.InvAllWait(cfg, s);
    if k < |s.fes| {
      assert Shape(cfg, s.fes[k]);
      QuietPlaced(cfg, s, Step(cfg, s, Accept(id, ready)), k);
    } else {
      SamePlaced(cfg, s, NONE);
    }
  }

  lemma PipelinePlaced(cfg: Config, s: State, e: Event)
    requires Proper(cfg) && AnyLogin(cfg.pool) && Inv(cfg, s) && (e.SendDone? || e.RecvDone?)
    ensures Placed(cfg, s, Step(cfg, s, e), FreesLive(cfg, s, e), NONE)
  {
    Fairness.InvAllWait(cfg, s);
    if e.SendDone? && Runs(s, e.f) && s.fes[e.f].core.sendPending {
      SendPlaced(cfg, s, e.f, e.sres);
    } else if e.RecvDone? && Runs(s, e.f) && s.fes[e.f].core.recvPending {
      RecvPlaced(cfg, s, e.f, e.rres);
    } else {
      SamePlaced(cfg, s, NONE);
    }
  }

  // Every event, on any network: an able waiter gets its backend or keeps its place, and when a
  // live backend is left for the waiters it gets one or moves up.
  lemma StepPlaced(cfg: Config, s: State, e: Event)
    requires Proper(cfg) && AnyLogin(cfg.pool) && Inv(cfg, s)
    ensures Placed(cfg, s, Step(cfg, s, e), FreesLive(cfg, s, e), Fairness.Removed(e))
  {
    Fairness.InvAllWait(cfg, s);
    match e
    case Accept(id, ready) => AcceptPlaced(cfg, s, id, ready);
    case Input(f, ms) =>
      if f < |s.fes| && s.fes[f].core.st != Free { InputPlaced(cfg, s, f, ms); } else { SamePlaced(cfg, s, NONE); }
    case SendDone(f, res) => PipelinePlaced(cfg, s, e);
    case RecvDone(f, res) => PipelinePlaced(cfg, s, e);
    case CloseConn(f) => if f < |s.fes| { ClosePlaced(cfg, s, f); } else { SamePlaced(cfg, s, f); }
    case Tick => ElsewherePlaced(cfg, s, Step(cfg, s, Tick), NONE);
  }

  // ---- every run ----

  // How many events of a run leave a live backend for the waiters.
  function LiveReleases(cfg: Config, s: State, es: seq<Event>): nat
    decreases |es|
  {
    if es == [] then 0
    else (if FreesLive(cfg, s, es[0]) then 1 else 0) + LiveReleases(cfg, Step(cfg, s, es[0]), es[1..])
  }

  // On any network: the able waiter at position k has its pipeline issued no later than the
  // (k+1)-st release that leaves a live backend, unless it is closed first.
  lemma {:induction false} BoundedAnywhere(cfg: Config, s: State, es: seq<Event>, k: nat) returns (n: nat)
    requires Proper(cfg) && AnyLogin(cfg.pool) && Inv(cfg, s) && Hopes(cfg, s, k, NONE)
    requires forall i :: 0 <= i < |es| ==> Fairness.Removed(es[i]) != s.ring[k]
    requires LiveReleases(cfg, s, es) > k
    ensures n <= |es| && LiveReleases(cfg, s, es[..n]) <= k + 1
    ensures Granted(s.fes[s.ring[k]], Run(cfg, s, es[..n]).fes[s.ring[k]])
    decreases |es|
  {
    var f, t := s.ring[k], Step(cfg, s, es[0]);
    PlacedNow(cfg, s, es[0], k);
    if Granted(s.fes[f], t.fes[f]) && f !in t.ring {
      n := 1;
      OneRelease(cfg, s, es);
    } else {
      var j: nat :| Ahead(s, t, k, j) && (FreesLive(cfg, s, es[0]) ==> j < k);
      StillHopes(cfg, s, t, k, j);
      var m := BoundedAnywhere(cfg, t, es[1..], j);
      n := m + 1;
      MoreReleases(cfg, s, es, m);
      Fairness.PatientGranted(s.fes[f], t.fes[f], Run(cfg, t, es[1..][..m]).fes[f]);
    }
  }

  lemma StillHopes(cfg: Config, s: State, t: State, k: nat, j: nat)
    requires |t.fes| == |s.fes| && Hopes(cfg, s, k, NONE) && Ahead(s, t, k, j)
    ensures Hopes(cfg, t, j, NONE) && t.ring[j] == s.ring[k] && Patient(s.fes[s.ring[k]], t.fes[s.ring[k]])
  {
    PatientAble(cfg, s.fes[s.ring[k]], t.fes[s.ring[k]]);
  }

  lemma PlacedNow(cfg: Config, s: State, e: Event, k: nat)
    requires Proper(cfg) && AnyLogin(cfg.pool) && Inv(cfg, s) && Hopes(cfg, s, k, Fairness.Removed(e))
    ensures var t := Step(cfg, s, e); Fair(s, t, k, FreesLive(cfg, s, e)) && Inv(cfg, t)
  {
    StepInv(cfg, s, e);
    StepPlaced(cfg, s, e);
  }

  lemma OneRelease(cfg: Config, s: State, es: seq<Event>)
    requires es != []
    ensures Run(cfg, s, es[..1]) == Step(cfg, s, es[0]) && LiveReleases(cfg, s, es[..1]) <= 1
  {
    assert es[..1][1..] == [];
  }

  lemma MoreReleases(cfg: Config, s: State, es: seq<Event>, m: nat)
    requires m + 1 <= |es|
    ensures Run(cfg, s, es[..m + 1]) == Run(cfg, Step(cfg, s, es[0]), es[1..][..m])
    ensures LiveReleases(cfg, s, es[..m + 1])
         == (if FreesLive(cfg, s, es[0]) then 1 else 0) + LiveReleases(cfg, Step(cfg, s, es[0]), es[1..][..m])
  {
    assert es[..m + 1][1..] == es[1..][..m];
  }
}
