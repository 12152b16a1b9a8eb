// The count of the pool, and whether an able waiter is left, after every event: on any network,
// in a pool without group login and health checks.
module CensusSteps {
  import opened Wire
  import opened Frontend
  import opened Scheduler
  import opened Invariant
  import opened Steps
  import opened History
  import opened Waiting
  import opened FairPass
  import opened Tally
  import opened Revival
  import opened Census
  import Refinement
  import Stuck
  import Rewrite
  import BackendPool
  import PoolOwnership
  import Framer
  import Ring

  // ---- handling messages ----

  // What decides how a frontend's messages fare.
  datatype Key = Key(id: Identity, ready: bool, cache: map<string, Prepared>)

  function KeyOf(c: Core): Key { Key(c.id, c.ready, c.cache) }

  function KeyBytes(cfg: Config, k: Key, b: BindMsg): Option<Bytes> {
    match Rewrite.OnBind(k.cache, b, k.id)
    case None => None
    case Some(p) => Some(cfg.encode(p))
  }

  predicate Sends(cfg: Config, k: Key, b: BindMsg) { PoolOwnership.Sendable(cfg.pool, KeyBytes(cfg, k, b)) }

  lemma KeySends(cfg: Config, c: Core, b: BindMsg)
    ensures Sends(cfg, KeyOf(c), b) == PoolOwnership.Sendable(cfg.pool, BindBytes(cfg, c, b))
  {
  }

  // A waiter is able if the Bind at the head of its queue can be sent.
  lemma KeyAble(cfg: Config, fe: Fe)
    requires fe.queue != [] && fe.queue[0].Bind?
    ensures Able(cfg, fe) == Sends(cfg, KeyOf(fe.core), fe.queue[0].bind)
  {
    KeySends(cfg, fe.core, fe.queue[0].bind);
  }

  predicate Forwards(cfg: Config, k: Key, m: Msg) { m.Query? && k.ready && !cfg.rejectQuery }

  function Next(cfg: Config, k: Key, m: Msg): Key { k.(cache := CacheStep(cfg, k.id, k.cache, m)) }

  function HandleCount(cfg: Config, k: Key, m: Msg, y: Count): Count {
    if Forwards(cfg, k, m) then Queried(cfg.pool, y) else y
  }

  lemma HandleCounted(cfg: Config, s: State, f: nat, m: Msg)
    requires Proper(cfg) && AnyLogin(cfg.pool) && f < |s.fes| && PoolOwnership.PoolOk(s.pool)
    ensures var t, k := Handle(cfg, s, f, m), KeyOf(s.fes[f].core);
            && CountOf(t.pool) == HandleCount(cfg, k, m, CountOf(s.pool))
            && KeyOf(t.fes[f].core) == Next(cfg, k, m) && t.fes[f].core.wait == s.fes[f].core.wait
            && t.fes[f].queue == s.fes[f].queue && t.ring == s.ring && |t.fes| == |s.fes|
            && PoolOwnership.PoolOk(t.pool)
  {
    var c := s.fes[f].core;
    HandleConfined(cfg, s, f, m);
    if Forwards(cfg, KeyOf(c), m) {
      QueryTally(cfg.pool, s.pool, c.id.group);
    } else {
      Refinement.HandleCoreStory(cfg, c, m);
    }
  }

  // ---- draining ----

  // The count after the queue `q` of an idle frontend is worked off, and whether it then waits with
  // a Bind that is able.
  function DrainCount(cfg: Config, k: Key, q: seq<Msg>, y: Count): (Count, bool)
    decreases |q|
  {
    if q == [] then (y, false)
    else if q[0].Bind? && k.ready then
      var sends := Sends(cfg, k, q[0].bind);
      var (z, got) := if q[0].bind.statement in k.cache then Begun(cfg.pool, y, sends) else (y, false);
      (z, sends && !got)
    else DrainCount(cfg, Next(cfg, k, q[0]), q[1..], HandleCount(cfg, k, q[0], y))
  }

  // f was idle and outside the ring: what came of it.
  ghost predicate Worked(cfg: Config, s: State, t: State, f: nat, e: (Count, bool)) {
    && f < |s.fes| == |t.fes| && CountOf(t.pool) == e.0
    && (t.ring == s.ring || t.ring == s.ring + [f])
    && (t.ring != s.ring && Able(cfg, t.fes[f]) <==> e.1)
  }

  lemma FlushWorked(cfg: Config, s: State, t: State, f: nat, e: (Count, bool))
    requires Worked(cfg, s, t, f, e)
    ensures Worked(cfg, s, Flush(t, f), f, e)
  {
  }

  lemma ParkWorked(cfg: Config, s: State, f: nat, m: Msg)
    requires Proper(cfg) && AnyLogin(cfg.pool) && f < |s.fes| && PoolOwnership.PoolOk(s.pool)
    requires s.fes[f].core.wait == Idle && f !in s.ring && |s.ring| < |s.fes| && m.Bind? && s.fes[f].core.ready
    ensures Worked(cfg, s, StartOrPark(cfg, s, f, m), f, DrainCount(cfg, KeyOf(s.fes[f].core), [m], CountOf(s.pool)))
  {
    StartOrParkCount(cfg, s, f, m);
    KeySends(cfg, s.fes[f].core, m.bind);
    KeySends(cfg, s.fes[f].core.(wait := Waiting), m.bind);
  }

  lemma FirstOnly(cfg: Config, k: Key, q: seq<Msg>, y: Count)
    requires q != [] && q[0].Bind? && k.ready
    ensures DrainCount(cfg, k, q, y) == DrainCount(cfg, k, [q[0]], y)
  {
  }

  lemma {:induction false} DrainCounted(cfg: Config, s: State, f: nat)
    requires Proper(cfg) && AnyLogin(cfg.pool) && f < |s.fes| && PoolOwnership.PoolOk(s.pool)
    requires s.fes[f].core.wait == Idle && f !in s.ring && |s.ring| < |s.fes|
    ensures Worked(cfg, s, Drain(cfg, s, f), f, DrainCount(cfg, KeyOf(s.fes[f].core), s.fes[f].queue, CountOf(s.pool)))
    decreases |s.fes[f].queue|
  {
    var fe := s.fes[f];
    if fe.queue != [] {
      var m := fe.queue[0];
      var popped := SetFe(s, f, fe.(queue := fe.queue[1..]));
      if m.Bind? && fe.core.ready {
        ParkWorked(cfg, popped, f, m);
        FirstOnly(cfg, KeyOf(fe.core), fe.queue, CountOf(s.pool));
        var d := DrainCount(cfg, KeyOf(fe.core), [m], CountOf(s.pool));
        FlushWorked(cfg, popped, StartOrPark(cfg, popped, f, m), f, d);
      } else {
        var t := Handle(cfg, popped, f, m);
        HandleCounted(cfg, popped, f, m);
        DrainCounted(cfg, t, f);
      }
    }
  }

  // ---- releases ----

  // First the waiters, then the frontend that gave its backend back.
  function ReleaseCount(cfg: Config, waiters: seq<Fe>, y: Count, k: Key, q: seq<Msg>): (Count, bool) {
    var (z, served) := PassCount(cfg, waiters, y);
    var (e, joins) := DrainCount(cfg, k, q, z);
    (e, Missed(cfg, waiters, served) || joins)
  }

  ghost predicate InRing(s: State) { forall x :: x in s.ring ==> InRange(s, x) }

  // The count at the end, and whether an able waiter is left.
  ghost predicate Ends(cfg: Config, t: State, e: (Count, bool)) {
    CountOf(t.pool) == e.0 && (AbleWaits(cfg, t) <==> e.1)
  }

  lemma PassPart(cfg: Config, v: State, f: nat)
    requires Proper(cfg) && AnyLogin(cfg.pool) && f < |v.fes| && InvOpen(cfg, v, f, NONE)
    ensures InRing(v) && f !in v.ring
    ensures var u := if v.ring != [] then FairSchedule(cfg, v) else v;
            var (z, served) := PassCount(cfg, FesOf(v, v.ring), CountOf(v.pool));
            && Ends(cfg, u, (z, Missed(cfg, FesOf(v, v.ring), served)))
            && |u.fes| == |v.fes| && u.fes[f] == v.fes[f] && InvOpen(cfg, u, f, NONE)
  {
    FairScheduleCounted(cfg, v, f);
    MissedWaits(cfg, v, FairSchedule(cfg, v));
    PassInv(cfg, v, |v.ring|, f);
    assert v.ring == [] ==> FairSchedule(cfg, v) == v;
  }

  lemma LastPart(cfg: Config, u: State, f: nat)
    requires Proper(cfg) && AnyLogin(cfg.pool) && f < |u.fes| && InvOpen(cfg, u, f, NONE) && u.fes[f].core.wait == Idle
    ensures var t := if u.fes[f].core.wait == Idle && u.fes[f].queue != [] then Drain(cfg, u, f) else Flush(u, f);
            var (e, joins) := DrainCount(cfg, KeyOf(u.fes[f].core), u.fes[f].queue, CountOf(u.pool));
            Ends(cfg, t, (e, AbleWaits(cfg, u) || joins))
  {
    RingHasRoom(u, f, NONE, f);
    assert f !in u.ring;
    DrainCounted(cfg, u, f);
    Stuck.DrainElsewhere(cfg, u, f);
    AbleJoined(cfg, u, Drain(cfg, u, f), f);
  }

  // Exactly what a release makes of pool and waiters.
  lemma ReleaseCounted(cfg: Config, w: State, f: nat)
    requires Proper(cfg) && AnyLogin(cfg.pool) && f < |w.fes|
    requires InvOpen(cfg, SetCore(w, f, ReleaseCore(w.fes[f].core)), f, NONE)
    ensures var v := SetCore(w, f, ReleaseCore(w.fes[f].core));
            && InRing(v)
            && Ends(cfg, AfterRelease(cfg, w, f),
                    ReleaseCount(cfg, FesOf(v, v.ring), CountOf(v.pool), KeyOf(v.fes[f].core), v.fes[f].queue))
  {
    var v := SetCore(w, f, ReleaseCore(w.fes[f].core));
    PassPart(cfg, v, f);
    var u := if v.ring != [] then FairSchedule(cfg, v) else v;
    LastPart(cfg, u, f);
  }

  // The same, said of the state s before the event that ends f's pipeline: w differs from it in
  // f alone.
  lemma ReleasedFrom(cfg: Config, s: State, w: State, f: nat, y: Count, q: seq<Msg>)
    requires Proper(cfg) && AnyLogin(cfg.pool) && InRing(s) && f < |s.fes| == |w.fes| && f !in s.ring
    requires InvOpen(cfg, SetCore(w, f, ReleaseCore(w.fes[f].core)), f, NONE)
    requires w.ring == s.ring && w.fes == s.fes[f := w.fes[f]] && CountOf(w.pool) == y
    requires KeyOf(w.fes[f].core) == KeyOf(s.fes[f].core) && w.fes[f].queue == q
    ensures Ends(cfg, AfterRelease(cfg, w, f), ReleaseCount(cfg, FesOf(s, s.ring), y, KeyOf(s.fes[f].core), q))
  {
    var v := SetCore(w, f, ReleaseCore(w.fes[f].core));
    ReleaseCounted(cfg, w, f);
    FesSame(s, v, s.ring);
  }

  // Between two submissions, with the pool's count as it was.
  ghost predicate Midway(cfg: Config, s: State, t: State, f: nat) {
    Between(cfg, s, t, f) && CountOf(t.pool) == CountOf(s.pool) && KeyOf(t.fes[f].core) == KeyOf(s.fes[f].core)
  }

  lemma HolderOutside(cfg: Config, s: State, f: nat)
    requires Inv(cfg, s) && Runs(s, f)
    ensures InRing(s) && f !in s.ring && s.pool.conns[s.fes[f].core.be.value].busy
  {
    assert Holds(s, f, s.fes[f].core.be.value);
    assert Shape(cfg, s.fes[f]);
  }

  lemma FreedCount(cfg: Config, s: State, t: State, f: nat, failed: bool)
    requires Inv(cfg, s) && Midway(cfg, s, t, f)
    ensures var b := s.fes[f].core.be.value;
            CountOf(BackendPool.Finish(cfg.pool, t.pool, b, failed)) == Freed(cfg.pool, CountOf(s.pool), failed)
  {
    HolderOutside(cfg, s, f);
    FinishTally(cfg.pool, t.pool, s.fes[f].core.be.value, failed);
  }

  // The backend of f is given back, and f is left as fe until it resumes.
  lemma EndCounted(cfg: Config, s: State, t: State, w: State, f: nat, fe: Fe, failed: bool)
    requires Proper(cfg) && AnyLogin(cfg.pool) && Inv(cfg, s) && Midway(cfg, s, t, f)
    requires KeyOf(fe.core) == KeyOf(s.fes[f].core)
    requires w == SetFe(t.(pool := BackendPool.Finish(cfg.pool, t.pool, s.fes[f].core.be.value, failed)), f, fe)
    ensures InRing(s)
    ensures var y := Freed(cfg.pool, CountOf(s.pool), failed);
            Ends(cfg, AfterRelease(cfg, w, f), ReleaseCount(cfg, FesOf(s, s.ring), y, KeyOf(s.fes[f].core), fe.queue))
  {
    HolderOutside(cfg, s, f);
    FreedCount(cfg, s, t, f, failed);
    EndOpen(cfg, s, t, w, f, fe, failed);
    ReleasedFrom(cfg, s, w, f, Freed(cfg.pool, CountOf(s.pool), failed), fe.queue);
  }

  lemma FailCounted(cfg: Config, s: State, t: State, f: nat)
    requires Proper(cfg) && AnyLogin(cfg.pool) && Inv(cfg, s) && Midway(cfg, s, t, f)
    ensures InRing(s)
    ensures Ends(cfg, Fail(cfg, t, f), ReleaseCount(cfg, FesOf(s, s.ring), Freed(cfg.pool, CountOf(s.pool), true),
                                                    KeyOf(s.fes[f].core), s.fes[f].queue))
  {
    var fe := t.fes[f].(core := FailCore(t.fes[f].core));
    var pool := BackendPool.Finish(cfg.pool, t.pool, s.fes[f].core.be.value, true);
    EndCounted(cfg, s, t, SetFe(t.(pool := pool), f, fe), f, fe, true);
  }

  lemma CompleteKey(c: Core, sawError: bool)
    ensures KeyOf(CompleteCore(c, sawError)) == KeyOf(c)
  {
  }

  lemma CompleteCounted(cfg: Config, s: State, t: State, f: nat)
    requires Proper(cfg) && AnyLogin(cfg.pool) && Inv(cfg, s) && Midway(cfg, s, t, f)
    ensures InRing(s)
    ensures Ends(cfg, Complete(cfg, t, f), ReleaseCount(cfg, FesOf(s, s.ring), Freed(cfg.pool, CountOf(s.pool), false),
                                                        KeyOf(s.fes[f].core),
                                                        if Conn(t, f).pipe.st.sawError then [] else s.fes[f].queue))
  {
    var sawError := Conn(t, f).pipe.st.sawError;
    var fe := if sawError then Drop(t.fes[f]) else t.fes[f];
    var d := fe.(core := CompleteCore(fe.core, sawError));
    var pool := BackendPool.Finish(cfg.pool, t.pool, s.fes[f].core.be.value, false);
    CompleteKey(fe.core, sawError);
    EndCounted(cfg, s, t, SetFe(t.(pool := pool), f, d), f, d, false);
  }

  // ---- input ----

  // The count after a batch of input to a frontend, and whether it then waits with a Bind that is
  // able. From an event even an unknown statement takes a checkout.
  function InputCount(cfg: Config, k: Key, ms: seq<Msg>, y: Count): (Count, bool)
    decreases |ms|
  {
    if ms == [] then (y, false)
    else if !Real(ms[0]) then InputCount(cfg, k, ms[1..], y)
    else if ms[0].Bind? && k.ready then
      var (z, got) := Begun(cfg.pool, y, Sends(cfg, k, ms[0].bind));
      (z, !got && Sends(cfg, k, Rewrite.QueuedBind(ms[0].bind)))
    else InputCount(cfg, Next(cfg, k, ms[0]), ms[1..], HandleCount(cfg, k, ms[0], y))
  }

  // A frontend that is not idle only queues its input, or is marked.
  lemma BusyStill(cfg: Config, s: State, f: nat, m: Msg)
    requires f < |s.fes| && (s.fes[f].core.wait != Idle || !Real(m))
    ensures var t := Process(cfg, s, f, m);
            && |t.fes| == |s.fes| && t.pool == s.pool && t.ring == s.ring
            && KeyOf(t.fes[f].core) == KeyOf(s.fes[f].core) && t.fes[f].core.wait == s.fes[f].core.wait
            && s.fes[f].queue <= t.fes[f].queue
  {
  }

  lemma AbleGrown(cfg: Config, a: Fe, b: Fe)
    requires a.queue != [] && a.queue <= b.queue && KeyOf(b.core) == KeyOf(a.core)
    ensures Able(cfg, b) == Able(cfg, a)
  {
    if a.queue[0].Bind? {
      KeyAble(cfg, a);
      KeyAble(cfg, b);
    }
  }

  // All the input meets a frontend that is not idle.
  lemma {:induction false} BusyCounted(cfg: Config, s: State, f: nat, ms: seq<Msg>)
    requires f < |s.fes| && s.fes[f].core.wait != Idle
    ensures var t := ProcessAll(cfg, s, f, ms);
            && |t.fes| == |s.fes| && t.pool == s.pool && t.ring == s.ring
            && KeyOf(t.fes[f].core) == KeyOf(s.fes[f].core) && s.fes[f].queue <= t.fes[f].queue
    decreases |ms|
  {
    if ms != [] {
      BusyStill(cfg, s, f, ms[0]);
      BusyCounted(cfg, Process(cfg, s, f, ms[0]), f, ms[1..]);
    }
  }

  // A Bind of an idle frontend.
  lemma ArrivedCounted(cfg: Config, s: State, f: nat, m: Msg)
    requires Proper(cfg) && AnyLogin(cfg.pool) && Inv(cfg, s) && f < |s.fes| && s.fes[f].core.st != Free
    requires m.Bind? && s.fes[f].core.wait == Idle && s.fes[f].core.ready
    ensures var t := Process(cfg, s, f, m);
            && Worked(cfg, s, t, f, InputCount(cfg, KeyOf(s.fes[f].core), [m], CountOf(s.pool)))
            && t.fes[f].core.wait != Idle
            && (t.ring != s.ring ==> t.fes[f].queue != [])
  {
    OpenOne(cfg, s, f);
    RingHasRoom(s, NONE, f, f);
    assert Quiet(s.fes[f]);
    var u := SetCore(SetFe(s, f, Arrive(s.fes[f], m)), f,
                     s.fes[f].core.(resp := [], gotExecute := false, gotSync := false));
    BindNowCounted(cfg, u, f, m);
  }

  lemma BindNowCounted(cfg: Config, u: State, f: nat, m: Msg)
    requires Proper(cfg) && AnyLogin(cfg.pool) && f < |u.fes| && PoolOwnership.PoolOk(u.pool)
    requires f !in u.ring && |u.ring| < |u.fes| && u.fes[f].queue == []
    requires m.Bind? && u.fes[f].core.wait == Idle && u.fes[f].core.ready
    ensures var t := BindNow(cfg, u, f, m);
            && Worked(cfg, u, t, f, InputCount(cfg, KeyOf(u.fes[f].core), [m], CountOf(u.pool)))
            && t.fes[f].core.wait != Idle && (t.ring != u.ring ==> t.fes[f].queue != [])
  {
    var c := u.fes[f].core;
    KeySends(cfg, c, m.bind);
    KeySends(cfg, c.(wait := Waiting), Rewrite.QueuedBind(m.bind));
    BeginTally(cfg.pool, u.pool, c.id.group, BindBytes(cfg, c, m.bind));
    StartConfined(cfg, u, f, m.bind, false);
  }

  // Any other message of an idle frontend.
  lemma IdleHandled(cfg: Config, s: State, f: nat, m: Msg)
    requires Proper(cfg) && AnyLogin(cfg.pool) && f < |s.fes| && PoolOwnership.PoolOk(s.pool)
    requires Real(m) && s.fes[f].core.wait == Idle && !(m.Bind? && s.fes[f].core.ready)
    ensures var t, k := Process(cfg, s, f, m), KeyOf(s.fes[f].core);
            && CountOf(t.pool) == HandleCount(cfg, k, m, CountOf(s.pool)) && KeyOf(t.fes[f].core) == Next(cfg, k, m)
            && t.fes[f].core.wait == Idle && t.ring == s.ring && |t.fes| == |s.fes|
  {
    var fe := s.fes[f];
    var t := SetFe(s, f, Arrive(fe, m));
    HandleCounted(cfg, t, f, m);
    HandleCounted(cfg, SetCore(t, f, fe.core.(resp := [], gotExecute := false, gotSync := false)), f, m);
  }

  lemma InputFirst(cfg: Config, k: Key, ms: seq<Msg>, y: Count)
    requires ms != [] && ms[0].Bind? && k.ready
    ensures InputCount(cfg, k, ms, y) == InputCount(cfg, k, [ms[0]], y)
  {
  }

  // After the Bind the rest of the batch is queued.
  lemma RestCounted(cfg: Config, s: State, u: State, f: nat, ms: seq<Msg>, e: (Count, bool))
    requires Worked(cfg, s, u, f, e) && u.fes[f].core.wait != Idle && (u.ring != s.ring ==> u.fes[f].queue != [])
    ensures Worked(cfg, s, ProcessAll(cfg, u, f, ms), f, e)
  {
    BusyCounted(cfg, u, f, ms);
    if u.ring != s.ring { AbleGrown(cfg, u.fes[f], ProcessAll(cfg, u, f, ms).fes[f]); }
  }

  lemma {:induction false} InputCounted(cfg: Config, s: State, f: nat, ms: seq<Msg>)
    requires Proper(cfg) && AnyLogin(cfg.pool) && Inv(cfg, s) && f < |s.fes|
    requires s.fes[f].core.st != Free && s.fes[f].core.wait == Idle
    ensures Worked(cfg, s, ProcessAll(cfg, s, f, ms), f, InputCount(cfg, KeyOf(s.fes[f].core), ms, CountOf(s.pool)))
    decreases |ms|
  {
    if ms != [] {
      var m, u := ms[0], Process(cfg, s, f, ms[0]);
      ProcessInv(cfg, s, f, m);
      if m.Bind? && s.fes[f].core.ready {
        ArrivedCounted(cfg, s, f, m);
        InputFirst(cfg, KeyOf(s.fes[f].core), ms, CountOf(s.pool));
        RestCounted(cfg, s, u, f, ms[1..], InputCount(cfg, KeyOf(s.fes[f].core), [m], CountOf(s.pool)));
      } else {
        if Real(m) { IdleHandled(cfg, s, f, m); } else { BusyStill(cfg, s, f, m); }
        InputCounted(cfg, u, f, ms[1..]);
      }
    }
  }

  lemma {:induction false} InputElsewhere(cfg: Config, s: State, f: nat, ms: seq<Msg>)
    requires f < |s.fes|
    ensures Stuck.Elsewhere(s, ProcessAll(cfg, s, f, ms), f)
    decreases |ms|
  {
    if ms != [] {
      var u := Process(cfg, s, f, ms[0]);
      Stuck.ProcessElsewhere(cfg, s, f, ms[0]);
      InputElsewhere(cfg, u, f, ms[1..]);
      Stuck.ElsewhereTrans(s, u, ProcessAll(cfg, u, f, ms[1..]), f);
    }
  }

  lemma IdleInputEnds(cfg: Config, s: State, f: nat, ms: seq<Msg>)
    requires Proper(cfg) && AnyLogin(cfg.pool) && Inv(cfg, s) && f < |s.fes|
    requires s.fes[f].core.st != Free && s.fes[f].core.wait == Idle
    ensures var (y, joins) := InputCount(cfg, KeyOf(s.fes[f].core), ms, CountOf(s.pool));
            Ends(cfg, ProcessAll(cfg, s, f, ms), (y, AbleWaits(cfg, s) || joins))
  {
    OpenOne(cfg, s, f);
    InputCounted(cfg, s, f, ms);
    InputElsewhere(cfg, s, f, ms);
    AbleJoined(cfg, s, ProcessAll(cfg, s, f, ms), f);
  }

  // Only f has changed, the ring is the same, and f is as able a waiter as before.
  lemma AbleStill(cfg: Config, s: State, t: State, f: nat)
    requires f < |s.fes| == |t.fes| && t.ring == s.ring && forall i :: InRange(s, i) && i != f ==> t.fes[i] == s.fes[i]
    requires f in s.ring ==> Able(cfg, t.fes[f]) == Able(cfg, s.fes[f])
    ensures AbleWaits(cfg, t) <==> AbleWaits(cfg, s)
  {
    if AbleWaits(cfg, s) {
      var x :| x in s.ring && InRange(s, x) && Able(cfg, s.fes[x]);
      assert x in t.ring && InRange(t, x) && Able(cfg, t.fes[x]);
    }
    if AbleWaits(cfg, t) {
      var x :| x in t.ring && InRange(t, x) && Able(cfg, t.fes[x]);
      assert x in s.ring && InRange(s, x) && Able(cfg, s.fes[x]);
    }
  }

  lemma BusyInputEnds(cfg: Config, s: State, f: nat, ms: seq<Msg>)
    requires Inv(cfg, s) && f < |s.fes| && s.fes[f].core.wait != Idle
    ensures Ends(cfg, ProcessAll(cfg, s, f, ms), (CountOf(s.pool), AbleWaits(cfg, s)))
  {
    assert Shape(cfg, s.fes[f]);
    var t := ProcessAll(cfg, s, f, ms);
    BusyCounted(cfg, s, f, ms);
    InputElsewhere(cfg, s, f, ms);
    if f in s.ring { AbleGrown(cfg, s.fes[f], t.fes[f]); }
    AbleStill(cfg, s, t, f);
  }

  // ---- closing ----

  // f gives its backend back, and is otherwise as it was.
  function Released(cfg: Config, s: State, f: nat): State
    requires Runs(s, f)
  {
    var pool := BackendPool.Finish(cfg.pool, s.pool, s.fes[f].core.be.value, true);
    SetCore(s.(pool := pool), f, s.fes[f].core.(be := None))
  }

  lemma ReleasedOpen(cfg: Config, s: State, f: nat)
    requires Proper(cfg) && Inv(cfg, s) && Runs(s, f)
    ensures InRing(s) && f !in s.ring && WaitersRemove(s.ring, f) == s.ring
    ensures var v := Released(cfg, s, f);
            InvOpen(cfg, v, f, NONE) && CountOf(v.pool) == Freed(cfg.pool, CountOf(s.pool), true)
  {
    var b := s.fes[f].core.be.value;
    HolderOutside(cfg, s, f);
    assert Holds(s, f, b);
    RemoveMeaning(s.ring, f);
    PoolOwnership.FinishFrees(cfg.pool, s.pool, b, true);
    FinishTally(cfg.pool, s.pool, b, true);
    EndsInv(cfg, s, Released(cfg, s, f), f, b);
  }

  lemma HolderCloseCounted(cfg: Config, s: State, f: nat)
    requires Proper(cfg) && AnyLogin(cfg.pool) && Inv(cfg, s) && Runs(s, f)
    ensures InRing(s)
    ensures var (y, served) := PassCount(cfg, FesOf(s, s.ring), Freed(cfg.pool, CountOf(s.pool), true));
            Ends(cfg, Close(cfg, s, f), (y, Missed(cfg, FesOf(s, s.ring), served)))
  {
    ReleasedOpen(cfg, s, f);
    HolderPassCounted(cfg, s, Released(cfg, s, f), f);
  }

  lemma HolderPassCounted(cfg: Config, s: State, v: State, f: nat)
    requires Proper(cfg) && AnyLogin(cfg.pool) && InRing(s) && f < |s.fes| == |v.fes| && f !in s.ring
    requires v.ring == s.ring && v.fes == s.fes[f := v.fes[f]] && InvOpen(cfg, v, f, NONE)
    ensures var u := FairSchedule(cfg, v);
            var t := SetFe(u, f, Drop(u.fes[f]).(core := CloseCore(u.fes[f].core)));
            var (y, served) := PassCount(cfg, FesOf(s, s.ring), CountOf(v.pool));
            Ends(cfg, t, (y, Missed(cfg, FesOf(s, s.ring), served)))
  {
    PassPart(cfg, v, f);
    FesSame(s, v, s.ring);
    var u := FairSchedule(cfg, v);
    assert v.ring == [] ==> u == v;
    assert f !in u.ring;
    AbleStill(cfg, u, SetFe(u, f, Drop(u.fes[f]).(core := CloseCore(u.fes[f].core))), f);
  }

  // An able waiter other than f.
  ghost predicate OtherAble(cfg: Config, s: State, f: int) {
    exists x :: x in s.ring && InRange(s, x) && x != f && Able(cfg, s.fes[x])
  }

  lemma OtherAbleLeft(cfg: Config, s: State, t: State, f: nat)
    requires Ring.AllDistinct(s.ring) && t.ring == WaitersRemove(s.ring, f) && f < |s.fes| == |t.fes|
    requires forall i :: InRange(s, i) && i != f ==> t.fes[i] == s.fes[i]
    ensures AbleWaits(cfg, t) <==> OtherAble(cfg, s, f)
  {
    RemoveMeaning(s.ring, f);
    if OtherAble(cfg, s, f) {
      var x :| x in s.ring && InRange(s, x) && x != f && Able(cfg, s.fes[x]);
      assert x in t.ring && InRange(t, x) && Able(cfg, t.fes[x]);
    }
    if AbleWaits(cfg, t) {
      var x :| x in t.ring && InRange(t, x) && Able(cfg, t.fes[x]);
      assert x in s.ring && InRange(s, x) && x != f && Able(cfg, s.fes[x]);
    }
  }

  lemma LeaveCounted(cfg: Config, s: State, f: nat)
    requires Inv(cfg, s) && f < |s.fes| && s.fes[f].core.st != Free && s.fes[f].core.be.None?
    ensures Ends(cfg, Close(cfg, s, f), (CountOf(s.pool), OtherAble(cfg, s, f)))
  {
    OtherAbleLeft(cfg, s, Close(cfg, s, f), f);
  }

  // ---- every event ----

  // The frontend that gives its backend back, whether the connection is lost, and the queue it
  // resumes with.
  datatype Give = Give(f: nat, failed: bool, queue: seq<Msg>)

  function DataGives(cfg: Config, s: State, f: nat, data: Bytes): Option<Give>
    requires Runs(s, f)
  {
    match Received(cfg, s, f, data)
    case Bad => Some(Give(f, true, s.fes[f].queue))
    case More(_, _, _) => None
    case Done(_, st, _) => Some(Give(f, false, if st.sawError then [] else s.fes[f].queue))
  }

  function RecvGives(cfg: Config, s: State, f: nat, res: RecvResult): Option<Give>
    requires Runs(s, f)
  {
    match res
    case RecvError => Some(Give(f, true, s.fes[f].queue))
    case Data(bytes) => if bytes == [] then Some(Give(f, true, s.fes[f].queue)) else DataGives(cfg, s, f, bytes)
  }

  function SendGives(s: State, f: nat, res: SendResult): Option<Give>
    requires f < |s.fes|
  {
    if res.SendError? then Some(Give(f, true, s.fes[f].queue)) else None
  }

  function GivenBack(cfg: Config, s: State, e: Event): Option<Give> {
    match e
    case SendDone(f, res) =>
      if Runs(s, f) && s.fes[f].core.sendPending then SendGives(s, f, res) else None
    case RecvDone(f, res) =>
      if Runs(s, f) && s.fes[f].core.recvPending then RecvGives(cfg, s, f, res) else None
    case _ => None
  }

  lemma SubmitEnds(cfg: Config, s: State, t: State, f: nat)
    requires Inv(cfg, s) && Midway(cfg, s, t, f)
    ensures Ends(cfg, SubmitSend(t, f), (CountOf(s.pool), AbleWaits(cfg, s)))
    ensures Ends(cfg, SubmitRecv(t, f), (CountOf(s.pool), AbleWaits(cfg, s)))
  {
    HolderOutside(cfg, s, f);
    AbleStill(cfg, s, SubmitSend(t, f), f);
    AbleStill(cfg, s, SubmitRecv(t, f), f);
  }

  // One slot's pipeline state differs.
  lemma PipeCount(p: BackendPool.Pool, q: BackendPool.Pool, b: nat)
    requires SameSlots(p, q) && b < |p.conns| && q.conns == p.conns[b := q.conns[b]] && q.clock == p.clock
    ensures CountOf(q) == CountOf(p)
  {
    SlotCount(p, q, b);
  }

  lemma StoreMidway(cfg: Config, s: State, t: State, f: nat, acc: Bytes, st: Framer.Status, resp: Bytes)
    requires Midway(cfg, s, t, f)
    ensures var u := Store(t, f, acc, st, resp); Midway(cfg, s, u, f) && Runs(u, f) && Conn(u, f).pipe.st == st
  {
    StoreBetween(cfg, s, t, f, acc, st, resp);
    PipeCount(t.pool, Store(t, f, acc, st, resp).pool, t.fes[f].core.be.value);
  }

  lemma SendEnds(cfg: Config, s: State, f: nat, res: SendResult)
    requires Proper(cfg) && AnyLogin(cfg.pool) && Inv(cfg, s) && Runs(s, f) && s.fes[f].core.sendPending
    ensures InRing(s)
    ensures Ends(cfg, OnSendDone(cfg, s, f, res),
                 if res.SendError? then
                   ReleaseCount(cfg, FesOf(s, s.ring), Freed(cfg.pool, CountOf(s.pool), true),
                                KeyOf(s.fes[f].core), s.fes[f].queue)
                 else (CountOf(s.pool), AbleWaits(cfg, s)))
  {
    var t := SetCore(s, f, s.fes[f].core.(sendPending := false));
    HolderOutside(cfg, s, f);
    assert Shape(cfg, s.fes[f]);
    assert Midway(cfg, s, t, f);
    match res
    case Again => SubmitEnds(cfg, s, t, f);
    case SendError => FailCounted(cfg, s, t, f);
    case Sent(n) =>
      var b := t.fes[f].core.be.value;
      var u := t.(pool := BackendPool.SendAdvance(t.pool, b, n));
      PipeCount(t.pool, u.pool, b);
      assert Midway(cfg, s, u, f);
      SubmitEnds(cfg, s, u, f);
  }

  lemma MoreEnds(cfg: Config, s: State, t: State, f: nat, acc: Bytes, st: Framer.Status, resp: Bytes)
    requires Inv(cfg, s) && Midway(cfg, s, t, f)
    ensures Ends(cfg, SubmitRecv(Store(t, f, acc, st, resp), f), (CountOf(s.pool), AbleWaits(cfg, s)))
  {
    StoreMidway(cfg, s, t, f, acc, st, resp);
    SubmitEnds(cfg, s, Store(t, f, acc, st, resp), f);
  }

  lemma DoneEnds(cfg: Config, s: State, t: State, f: nat, acc: Bytes, st: Framer.Status, resp: Bytes)
    requires Proper(cfg) && AnyLogin(cfg.pool) && Inv(cfg, s) && Midway(cfg, s, t, f)
    ensures InRing(s)
    ensures Ends(cfg, Complete(cfg, Store(t, f, acc, st, resp), f),
                 ReleaseCount(cfg, FesOf(s, s.ring), Freed(cfg.pool, CountOf(s.pool), false),
                              KeyOf(s.fes[f].core), if st.sawError then [] else s.fes[f].queue))
  {
    StoreMidway(cfg, s, t, f, acc, st, resp);
    CompleteCounted(cfg, s, Store(t, f, acc, st, resp), f);
  }

  // What the event makes of it, given what is given back.
  ghost predicate EndsBy(cfg: Config, s: State, t: State, f: nat, g: Option<Give>)
    requires InRing(s) && f < |s.fes|
  {
    Ends(cfg, t, if g.Some? then
                   ReleaseCount(cfg, FesOf(s, s.ring), Freed(cfg.pool, CountOf(s.pool), g.value.failed),
                                KeyOf(s.fes[f].core), g.value.queue)
                 else (CountOf(s.pool), AbleWaits(cfg, s)))
  }

  lemma RecvMidway(cfg: Config, s: State, f: nat)
    requires Inv(cfg, s) && Runs(s, f) && s.fes[f].core.recvPending
    ensures Midway(cfg, s, SetCore(s, f, s.fes[f].core.(recvPending := false)), f)
  {
    RecvBetween(cfg, s, f);
  }

  lemma DataEnds(cfg: Config, s: State, f: nat, data: Bytes)
    requires Proper(cfg) && AnyLogin(cfg.pool) && Inv(cfg, s) && Runs(s, f) && s.fes[f].core.recvPending && data != []
    ensures InRing(s) && EndsBy(cfg, s, OnRecvDone(cfg, s, f, Data(data)), f, DataGives(cfg, s, f, data))
  {
    var t := SetCore(s, f, s.fes[f].core.(recvPending := false));
    HolderOutside(cfg, s, f);
    RecvMidway(cfg, s, f);
    ReceivedSame(cfg, s, f, data);
    match Received(cfg, t, f, data)
    case Bad => FailCounted(cfg, s, t, f);
    case More(acc, st, resp) => MoreEnds(cfg, s, t, f, acc, st, resp);
    case Done(acc, st, resp) => DoneEnds(cfg, s, t, f, acc, st, resp);
  }

  lemma NoDataEnds(cfg: Config, s: State, f: nat, res: RecvResult)
    requires Proper(cfg) && AnyLogin(cfg.pool) && Inv(cfg, s) && Runs(s, f) && s.fes[f].core.recvPending
    requires res.RecvError? || res.bytes == []
    ensures InRing(s) && EndsBy(cfg, s, OnRecvDone(cfg, s, f, res), f, Some(Give(f, true, s.fes[f].queue)))
  {
    var t := SetCore(s, f, s.fes[f].core.(recvPending := false));
    RecvMidway(cfg, s, f);
    FailCounted(cfg, s, t, f);
  }

  lemma RecvEnds(cfg: Config, s: State, f: nat, res: RecvResult)
    requires Proper(cfg) && AnyLogin(cfg.pool) && Inv(cfg, s) && Runs(s, f) && s.fes[f].core.recvPending
    ensures InRing(s) && EndsBy(cfg, s, OnRecvDone(cfg, s, f, res), f, RecvGives(cfg, s, f, res))
  {
    match res
    case RecvError => NoDataEnds(cfg, s, f, res);
    case Data(bytes) => if bytes == [] { NoDataEnds(cfg, s, f, res); } else { DataEnds(cfg, s, f, bytes); }
  }

  // What any event makes of the pool's count and of the waiters, by the counts alone: a state with
  // its waiters in the ring, before the event.
  ghost function Outlook(cfg: Config, s: State, e: Event): (Count, bool)
    requires InRing(s)
  {
    var y, g := CountOf(s.pool), GivenBack(cfg, s, e);
    if g.Some? && g.value.f < |s.fes| then
      var fe, x := s.fes[g.value.f], Freed(cfg.pool, y, g.value.failed);
      ReleaseCount(cfg, FesOf(s, s.ring), x, KeyOf(fe.core), g.value.queue)
    else
      match e
      case Tick => (Maintained(cfg.pool, y), AbleWaits(cfg, s))
      case Input(f, ms) =>
        if f < |s.fes| && s.fes[f].core.st != Free && s.fes[f].core.wait == Idle then
          var (z, joins) := InputCount(cfg, KeyOf(s.fes[f].core), ms, y);
          (z, AbleWaits(cfg, s) || joins)
        else (y, AbleWaits(cfg, s))
      case CloseConn(f) =>
        if !(f < |s.fes| && s.fes[f].core.st != Free) then (y, AbleWaits(cfg, s))
        else if s.fes[f].core.be.Some? then
          var (z, served) := PassCount(cfg, FesOf(s, s.ring), Freed(cfg.pool, y, true));
          (z, Missed(cfg, FesOf(s, s.ring), served))
        else (y, OtherAble(cfg, s, f))
      case _ => (y, AbleWaits(cfg, s))
  }

  lemma CloseEnds(cfg: Config, s: State, f: nat)
    requires Proper(cfg) && AnyLogin(cfg.pool) && Inv(cfg, s)
    ensures InRing(s) && Ends(cfg, Step(cfg, s, CloseConn(f)), Outlook(cfg, s, CloseConn(f)))
  {
    if f < |s.fes| && s.fes[f].core.st != Free {
      if s.fes[f].core.be.Some? {
        assert Holds(s, f, s.fes[f].core.be.value);
        HolderCloseCounted(cfg, s, f);
      } else {
        LeaveCounted(cfg, s, f);
      }
    }
  }

  lemma AcceptEnds(cfg: Config, s: State, id: Identity, ready: bool)
    requires Inv(cfg, s)
    ensures InRing(s) && Ends(cfg, Step(cfg, s, Accept(id, ready)), (CountOf(s.pool), AbleWaits(cfg, s)))
  {
    var k := FreeSlot(s.fes);
    if k < |s.fes| {
      assert Shape(cfg, s.fes[k]);
      AbleStill(cfg, s, Step(cfg, s, Accept(id, ready)), k);
    }
  }

  lemma InputEnds(cfg: Config, s: State, f: nat, ms: seq<Msg>)
    requires Proper(cfg) && AnyLogin(cfg.pool) && Inv(cfg, s)
    ensures InRing(s) && Ends(cfg, Step(cfg, s, Input(f, ms)), Outlook(cfg, s, Input(f, ms)))
  {
    if f < |s.fes| && s.fes[f].core.st != Free {
      if s.fes[f].core.wait == Idle { IdleInputEnds(cfg, s, f, ms); } else { BusyInputEnds(cfg, s, f, ms); }
    }
  }

  lemma TickEnds(cfg: Config, s: State)
    requires Inv(cfg, s)
    ensures InRing(s) && Ends(cfg, Step(cfg, s, Tick), Outlook(cfg, s, Tick))
  {
    MaintainTally(cfg.pool, s.pool);
    AbleSame(cfg, s, Step(cfg, s, Tick));
  }

  lemma SendDoneEnds(cfg: Config, s: State, f: nat, res: SendResult)
    requires Proper(cfg) && AnyLogin(cfg.pool) && Inv(cfg, s)
    ensures InRing(s) && Ends(cfg, Step(cfg, s, SendDone(f, res)), Outlook(cfg, s, SendDone(f, res)))
  {
    if Runs(s, f) && s.fes[f].core.sendPending {
      HolderOutside(cfg, s, f);
      SendEnds(cfg, s, f, res);
    }
  }

  lemma RecvDoneEnds(cfg: Config, s: State, f: nat, res: RecvResult)
    requires Proper(cfg) && AnyLogin(cfg.pool) && Inv(cfg, s)
    ensures InRing(s) && Ends(cfg, Step(cfg, s, RecvDone(f, res)), Outlook(cfg, s, RecvDone(f, res)))
  {
    if Runs(s, f) && s.fes[f].core.recvPending {
      HolderOutside(cfg, s, f);
      RecvEnds(cfg, s, f, res);
    }
  }

  // Every event, on any network: the counts of the pool after it, and whether an able waiter is
  // left. So an able waiter stands beside a live idle backend afterwards exactly if the counts
  // say that one is left and a slot is live.
  lemma StepExact(cfg: Config, s: State, e: Event)
    requires Proper(cfg) && AnyLogin(cfg.pool) && Inv(cfg, s)
    ensures InRing(s)
    ensures var t, (y, left) := Step(cfg, s, e), Outlook(cfg, s, e);
            CountOf(t.pool) == y && (AbleWaits(cfg, t) <==> left) && (Attended(cfg, t) <==> !left || y.live == 0)
  {
    match e
    case Accept(id, ready) => AcceptEnds(cfg, s, id, ready);
    case Input(f, ms) => InputEnds(cfg, s, f, ms);
    case SendDone(f, res) => SendDoneEnds(cfg, s, f, res);
    case RecvDone(f, res) => RecvDoneEnds(cfg, s, f, res);
    case CloseConn(f) => CloseEnds(cfg, s, f);
    case Tick => TickEnds(cfg, s);
  }
}
