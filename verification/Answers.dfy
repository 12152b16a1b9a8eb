// What the frontends are told: the answers to Parse and Query, and one answer for every pipeline.
module Answers {
  import opened Wire
  import opened Rewrite
  import opened Frontend
  import opened Scheduler
  import opened Invariant
  import opened Steps
  import opened History
  import Refinement
  import StmtCache
  import BackendPool
  import PoolOwnership
  import Ring
  import Framer

  // ---- counting and picking replies ----

  function Completes(rs: seq<Reply>): nat {
    if rs == [] then 0 else Completes(rs[..|rs| - 1]) + if rs[|rs| - 1].BindComplete? then 1 else 0
  }

  // The replies that depend on the messages handled alone.
  predicate Determined(r: Reply) { r == ParseComplete || r == ErrorResponse("26000") || r == ErrorResponse("0A000") }

  function Pick(rs: seq<Reply>): seq<Reply> {
    if rs == [] then [] else Pick(rs[..|rs| - 1]) + if Determined(rs[|rs| - 1]) then [rs[|rs| - 1]] else []
  }

  lemma {:induction false} Concat(a: seq<Reply>, b: seq<Reply>)
    ensures Completes(a + b) == Completes(a) + Completes(b) && Pick(a + b) == Pick(a) + Pick(b)
    decreases |b|
  {
    if b == [] {
      assert a + b == a;
    } else {
      var n := |b| - 1;
      Concat(a, b[..n]);
      assert (a + b)[..|a + b| - 1] == a + b[..n];
    }
  }

  lemma One(r: Reply)
    ensures Completes([r]) == (if r.BindComplete? then 1 else 0) && Pick([r]) == if Determined(r) then [r] else []
  {
    assert [r][..0] == [];
  }

  lemma Two(q: Reply, r: Reply)
    ensures Completes([q, r]) == Completes([q]) + Completes([r]) && Pick([q, r]) == Pick([q]) + Pick([r])
  {
    Concat([q], [r]);
    assert [q, r] == [q] + [r];
  }

  // ---- what a change adds to what the frontend is told ----

  function Told(c: Core): seq<Reply> { Pick(c.sent) + Pick(c.pend) }

  function Completed(c: Core): nat { Completes(c.sent) + Completes(c.pend) }

  ghost predicate Says(c: Core, d: Core, completes: nat, picked: seq<Reply>) {
    Completed(d) == Completed(c) + completes && Told(d) == Told(c) + picked
  }

  lemma SaysNothing(c: Core, d: Core)
    requires d.sent == c.sent && d.pend == c.pend
    ensures Says(c, d, 0, [])
  {
    assert Told(c) + [] == Told(c);
  }

  lemma SaysTrans(c: Core, d: Core, e: Core, n: nat, rs: seq<Reply>)
    requires Says(c, d, n, rs) && Says(d, e, 0, [])
    ensures Says(c, e, n, rs)
  {
    assert Told(d) + [] == Told(d);
  }

  lemma EmitSays(c: Core, rs: seq<Reply>)
    ensures Says(c, Emit(c, rs), Completes(rs), Pick(rs))
  {
    Concat(c.pend, rs);
    assert Pick(c.sent) + (Pick(c.pend) + Pick(rs)) == Told(c) + Pick(rs);
  }

  lemma FlushSays(c: Core)
    ensures Says(c, FlushOut(c), 0, [])
  {
    Concat(c.sent, c.pend);
    assert Told(FlushOut(c)) == Told(c) + [];
  }

  lemma SendSays(c: Core, d: Core, r: Reply)
    requires d.sent == c.sent + [r] && d.pend == c.pend && r.Relay?
    ensures Says(c, d, 0, [])
  {
    Concat(c.sent, [r]);
    One(r);
    assert Told(d) == Told(c) + [];
  }

  // ---- the answers a one-message-at-a-time proxy gives ----

  function ParseAnswer(cache: map<string, Prepared>, cacheMax: nat, name: string): seq<Reply> {
    if StmtCache.PutFits(cache, cacheMax, name) then [ParseComplete] else [ErrorResponse("26000")]
  }

  function AnswerOf(cfg: Config, cache: map<string, Prepared>, ready: bool, m: Msg): seq<Reply> {
    match m
    case Parse(p) => ParseAnswer(cache, cfg.cacheMax, p.statement)
    case Query(_) => if ready && !cfg.rejectQuery then [] else [ErrorResponse("0A000")]
    case _ => []
  }

  function AnswersTo(cfg: Config, id: Identity, ready: bool, ms: seq<Msg>): seq<Reply> {
    if ms == [] then []
    else
      var before := ms[..|ms| - 1];
      AnswersTo(cfg, id, ready, before) + AnswerOf(cfg, CacheAfter(cfg, id, before), ready, ms[|ms| - 1])
  }

  lemma AnswersStep(cfg: Config, id: Identity, ready: bool, ms: seq<Msg>, m: Msg)
    ensures AnswersTo(cfg, id, ready, ms + [m])
         == AnswersTo(cfg, id, ready, ms) + AnswerOf(cfg, CacheAfter(cfg, id, ms), ready, m)
  {
    assert (ms + [m])[..|ms|] == ms;
  }

  // ---- one connection ----

  ghost predicate Answered(cfg: Config, fe: Fe) {
    && fe.core.cache == CacheAfter(cfg, fe.core.id, fe.log.handled)
    && Told(fe.core) == AnswersTo(cfg, fe.core.id, fe.core.ready, fe.log.handled)
  }

  // How a change ends the connection's pipeline, if it does.
  datatype End = NoEnd | GoodEnd | BadEnd

  // Pipelines that have ended: all that were issued but the one in progress.
  function Ended(fe: Fe): int { |fe.log.issued| - if fe.core.be.Some? then 1 else 0 }

  // The connection goes on being answered properly: a pipeline that ends well is answered by one
  // BindComplete, and nothing else is.
  ghost predicate Goes(cfg: Config, a: Fe, b: Fe, e: End) {
    && b.core.ready == a.core.ready && b.core.id == a.core.id
    && (Answered(cfg, a) ==> Answered(cfg, b))
    && (a.core.ready ==>
          && Completed(b.core) == Completed(a.core) + (if e.GoodEnd? then 1 else 0)
          && Ended(b) == Ended(a) + if e.NoEnd? then 0 else 1)
  }

  lemma GoesTrans(cfg: Config, a: Fe, b: Fe, c: Fe, e: End)
    requires Goes(cfg, a, b, e) && Goes(cfg, b, c, NoEnd)
    ensures Goes(cfg, a, c, e)
  {
  }

  // Nothing but replies and bookkeeping.
  ghost predicate SameBooks(a: Fe, b: Fe) {
    && b.log.handled == a.log.handled && b.log.issued == a.log.issued
    && b.core.id == a.core.id && b.core.ready == a.core.ready && b.core.cache == a.core.cache
  }

  lemma GoesSame(cfg: Config, a: Fe, b: Fe)
    requires SameBooks(a, b) && b.core.be == a.core.be && Says(a.core, b.core, 0, [])
    ensures Goes(cfg, a, b, NoEnd)
  {
    assert Told(a.core) + [] == Told(a.core);
  }

  // The backend is given back, with a BindComplete or without.
  lemma GoesEnd(cfg: Config, a: Fe, b: Fe, n: nat)
    requires SameBooks(a, b) && a.core.be.Some? && b.core.be.None? && Says(a.core, b.core, n, []) && n <= 1
    ensures Goes(cfg, a, b, if n == 1 then GoodEnd else BadEnd)
  {
    assert Told(a.core) + [] == Told(a.core);
  }

  lemma GoesHandled(cfg: Config, a: Fe, b: Fe, m: Msg, n: nat)
    requires b.log.handled == a.log.handled + [m] && b.log.issued == a.log.issued
    requires b.core.id == a.core.id && b.core.ready == a.core.ready && b.core.be == a.core.be
    requires b.core.cache == CacheStep(cfg, a.core.id, a.core.cache, m)
    requires Says(a.core, b.core, n, AnswerOf(cfg, a.core.cache, a.core.ready, m)) && (a.core.ready ==> n == 0)
    ensures Goes(cfg, a, b, NoEnd)
  {
    HandledStep(cfg, a.core.id, a.core.ready, a.log.handled, m);
    AnswersStep(cfg, a.core.id, a.core.ready, a.log.handled, m);
  }

  // A Bind whose pipeline starts.
  lemma GoesIssued(cfg: Config, a: Fe, b: Fe, m: Msg, p: Pipeline)
    requires m.Bind? && b.log == Issue(a.log, m, p) && a.core.be.None? && b.core.be.Some?
    requires b.core.id == a.core.id && b.core.ready == a.core.ready && b.core.cache == a.core.cache
    requires b.core.sent == a.core.sent && b.core.pend == a.core.pend
    ensures Goes(cfg, a, b, NoEnd)
  {
    HandledStep(cfg, a.core.id, a.core.ready, a.log.handled, m);
    AnswersStep(cfg, a.core.id, a.core.ready, a.log.handled, m);
  }

  // ---- handling one message ----

  lemma ParseSays(c: Core, cacheMax: nat, e: Prepared)
    ensures Says(c, HandleParse(c, cacheMax, e), 0, ParseAnswer(c.cache, cacheMax, e.name))
  {
    if StmtCache.PutFits(c.cache, cacheMax, e.name) {
      EmitSays(c.(cache := StmtCache.PutSpec(c.cache, cacheMax, e)), [ParseComplete]);
      One(ParseComplete);
    } else {
      EmitSays(c, [ErrorResponse("26000"), ReadyForQuery]);
      Two(ErrorResponse("26000"), ReadyForQuery);
      One(ErrorResponse("26000"));
      One(ReadyForQuery);
    }
  }

  lemma EmitOne(c: Core, r: Reply)
    ensures Says(c, Emit(c, [r]), if r.BindComplete? then 1 else 0, if Determined(r) then [r] else [])
  {
    EmitSays(c, [r]);
    One(r);
  }

  ghost predicate Replies(cfg: Config, c: Core, m: Msg) {
    Says(c, HandleCore(cfg, c, m), if m.Bind? then 1 else 0, AnswerOf(cfg, c.cache, c.ready, m))
  }

  lemma HandleCoreSays(cfg: Config, c: Core, m: Msg)
    requires !(m.Query? && c.ready && !cfg.rejectQuery)
    ensures Replies(cfg, c, m)
  {
    match m
    case Parse(p) => ParseReplies(cfg, c, p);
    case Bind(b) => BindReplies(cfg, c, b);
    case Execute => ExecuteSays(cfg, c);
    case Sync => SyncSays(cfg, c);
    case Query(q) => QueryReplies(cfg, c, m);
    case _ => NoReplies(cfg, c, m);
  }

  lemma ParseReplies(cfg: Config, c: Core, p: ParseMsg)
    ensures Replies(cfg, c, Parse(p))
  {
    ParseSays(c, cfg.cacheMax, ParseEntry(cfg, c.id, p));
  }

  lemma BindReplies(cfg: Config, c: Core, b: BindMsg)
    ensures Replies(cfg, c, Bind(b))
  {
    EmitOne(c, BindComplete);
  }

  lemma QueryReplies(cfg: Config, c: Core, m: Msg)
    requires m.Query? && !(c.ready && !cfg.rejectQuery)
    ensures Replies(cfg, c, m)
  {
    RejectSays(c);
  }

  lemma NoReplies(cfg: Config, c: Core, m: Msg)
    requires m.Ignored? || m.Terminate?
    ensures Replies(cfg, c, m)
  {
    SaysNothing(c, HandleCore(cfg, c, m));
  }

  lemma ExecuteSays(cfg: Config, c: Core)
    ensures Replies(cfg, c, Execute)
  {
    EmitOne(c, CommandComplete);
    SaysNothing(c, c);
  }

  lemma SyncSays(cfg: Config, c: Core)
    ensures Replies(cfg, c, Sync)
  {
    if c.resp != [] { SendSays(c, RelayResp(c), Relay(c.resp)); } else { EmitOne(c, ReadyForQuery); }
  }

  lemma RejectSays(c: Core)
    ensures Says(c, Emit(c, [ErrorResponse("0A000"), ReadyForQuery]), 0, [ErrorResponse("0A000")])
  {
    EmitSays(c, [ErrorResponse("0A000"), ReadyForQuery]);
    Two(ErrorResponse("0A000"), ReadyForQuery);
    One(ErrorResponse("0A000"));
    One(ReadyForQuery);
  }

  lemma ErrorSays(c: Core, code: string)
    requires code != "26000" && code != "0A000"
    ensures Says(c, Emit(c, [ErrorResponse(code), ReadyForQuery]), 0, [])
    ensures Says(c, Emit(c, [ErrorResponse(code)]), 0, [])
  {
    EmitSays(c, [ErrorResponse(code), ReadyForQuery]);
    Two(ErrorResponse(code), ReadyForQuery);
    EmitOne(c, ErrorResponse(code));
    One(ErrorResponse(code));
    One(ReadyForQuery);
  }

  lemma ResultSays(c: Core, f: BackendPool.Flushed)
    ensures Says(c, ResultCore(c, f), 0, [])
  {
    if f.ok && f.bytes != [] { SendSays(c, ResultCore(c, f), Relay(f.bytes)); } else { ErrorSays(c, "08006"); }
  }

  lemma SaysLike(c: Core, d: Core, c': Core, d': Core, n: nat, rs: seq<Reply>)
    requires Says(c, d, n, rs)
    requires c'.sent == c.sent && c'.pend == c.pend && d'.sent == d.sent && d'.pend == d.pend
    ensures Says(c', d', n, rs)
  {
  }

  lemma QueryCoreSays(c: Core, w: BackendPool.Trip)
    ensures Says(c, QueryCore(c, w), 0, [])
  {
    if w.Trip? {
      var d := c.(resp := Overwrite(c.resp, w.answer.bytes));
      ResultSays(d, w.answer);
      SaysLike(d, ResultCore(d, w.answer), c, QueryCore(c, w), 0, []);
    } else {
      var e := Emit(c, [ErrorResponse("08006"), ReadyForQuery]);
      ErrorSays(c, "08006");
      SaysLike(c, e, c, QueryCore(c, w), 0, []);
    }
  }

  lemma EnqueueSays(c: Core, m: Msg, fits: bool)
    ensures Says(c, EnqueueCore(c, m, fits), 0, [])
  {
    ErrorSays(c, "53300");
    SaysNothing(c, EnqueueCore(c, Sync, fits));
    if fits || !(m.Parse? || m.Bind? || m.Query?) { SaysNothing(c, EnqueueCore(c, m, fits)); }
  }

  lemma CompleteSays(c: Core, sawError: bool)
    ensures Says(c, CompleteCore(c, sawError), if sawError then 0 else 1, [])
  {
    var n := Note(c, Act.Ended(c.resp, sawError));
    var d := if sawError then n.(gotExecute := false) else Emit(n, [BindComplete]);
    if sawError { SaysNothing(c, d); } else { EmitOne(n, BindComplete); }
    var e := if d.gotSync && d.resp != [] then RelayResp(d)
             else if sawError && d.resp != [] then RelayResp(d).(gotSync := false)
             else if d.gotSync then Emit(d, [ReadyForQuery])
             else d;
    if d.resp != [] && (d.gotSync || sawError) {
      SendSays(d, e, Relay(d.resp));
    } else if d.gotSync {
      EmitOne(d, ReadyForQuery);
    } else {
      SaysNothing(d, e);
    }
    SaysTrans(c, d, e, if sawError then 0 else 1, []);
    FlushSays(e);
    SaysTrans(c, e, FlushOut(e), if sawError then 0 else 1, []);
  }

  lemma FailSays(c: Core)
    ensures Says(c, FailCore(c), 0, [])
  {
    var d := Note(c, Broke).(resp := []);
    ErrorSays(d, "08006");
    FlushSays(Emit(d, [ErrorResponse("08006"), ReadyForQuery]));
  }

  // ---- the whole state ----

  // Every connection goes on; only f's pipeline may end.
  ghost predicate AllGo(cfg: Config, s: State, t: State, f: int, e: End) {
    |t.fes| == |s.fes| && forall i :: InRange(s, i) ==> Goes(cfg, s.fes[i], t.fes[i], if i == f then e else NoEnd)
  }

  lemma OneGoes(cfg: Config, s: State, t: State, f: nat, e: End)
    requires f < |s.fes| && |t.fes| == |s.fes| && t.fes == s.fes[f := t.fes[f]] && Goes(cfg, s.fes[f], t.fes[f], e)
    ensures AllGo(cfg, s, t, f, e)
  {
  }

  lemma AllGoTrans(cfg: Config, s: State, t: State, u: State, f: int, e: End)
    requires AllGo(cfg, s, t, f, e) && AllGo(cfg, t, u, f, NoEnd)
    ensures AllGo(cfg, s, u, f, e)
  {
    forall i | InRange(s, i) ensures Goes(cfg, s.fes[i], u.fes[i], if i == f then e else NoEnd) {
      GoesTrans(cfg, s.fes[i], t.fes[i], u.fes[i], if i == f then e else NoEnd);
    }
  }

  lemma AllGoOthers(cfg: Config, s: State, t: State, f: int, g: int)
    requires AllGo(cfg, s, t, f, NoEnd)
    ensures AllGo(cfg, s, t, g, NoEnd)
  {
  }

  lemma StartGo(cfg: Config, s: State, f: nat, b: BindMsg, fromQueue: bool)
    requires f < |s.fes| && s.fes[f].core.be.None?
    ensures AllGo(cfg, s, StartBind(cfg, s, f, b, fromQueue).0, f, NoEnd)
  {
    var a, t := s.fes[f], StartBind(cfg, s, f, b, fromQueue).0;
    if StartBind(cfg, s, f, b, fromQueue).1 {
      StartedGoes(cfg, a, b, t.fes[f].core.be.value, fromQueue);
    }
    OneGoes(cfg, s, t, f, NoEnd);
  }

  lemma StartedGoes(cfg: Config, a: Fe, b: BindMsg, slot: nat, fromQueue: bool)
    requires a.core.be.None? && OnBind(a.core.cache, b, a.core.id).Some?
    ensures var p := OnBind(a.core.cache, b, a.core.id).value;
            Goes(cfg, a, Fe(StartCore(a.core, slot, fromQueue), a.queue, Issue(a.log, Bind(b), p)), NoEnd)
  {
    var p := OnBind(a.core.cache, b, a.core.id).value;
    GoesIssued(cfg, a, Fe(StartCore(a.core, slot, fromQueue), a.queue, Issue(a.log, Bind(b), p)), Bind(b), p);
  }

  lemma SilentGo(cfg: Config, s: State, t: State, f: nat)
    requires f < |s.fes| && |t.fes| == |s.fes| && t.fes == s.fes[f := t.fes[f]]
    requires t.fes[f].log.handled == s.fes[f].log.handled && t.fes[f].log.issued == s.fes[f].log.issued
    requires var c, d := s.fes[f].core, t.fes[f].core;
             && d.id == c.id && d.ready == c.ready && d.cache == c.cache && d.be == c.be
             && d.sent == c.sent && d.pend == c.pend
    ensures AllGo(cfg, s, t, f, NoEnd)
  {
    SaysNothing(s.fes[f].core, t.fes[f].core);
    GoesSame(cfg, s.fes[f], t.fes[f]);
    OneGoes(cfg, s, t, f, NoEnd);
  }

  lemma FlushGo(cfg: Config, s: State, f: nat)
    requires f < |s.fes|
    ensures AllGo(cfg, s, Flush(s, f), f, NoEnd)
  {
    FlushSays(s.fes[f].core);
    GoesSame(cfg, s.fes[f], Flush(s, f).fes[f]);
    OneGoes(cfg, s, Flush(s, f), f, NoEnd);
  }

  lemma ParkGo(cfg: Config, s: State, f: nat)
    requires f < |s.fes|
    ensures AllGo(cfg, s, Park(s, f).0, f, NoEnd)
  {
    SilentGo(cfg, s, Park(s, f).0, f);
  }

  lemma QueryGo(cfg: Config, s: State, f: nat, m: Msg)
    requires f < |s.fes| && m.Query? && s.fes[f].core.ready && !cfg.rejectQuery
    ensures AllGo(cfg, s, Handle(cfg, s, f, m), f, NoEnd)
  {
    var a, t := s.fes[f], Handle(cfg, s, f, m);
    var w := BackendPool.ExecQuery(cfg.pool, s.pool, a.core.id.group).1;
    QueryGoes(cfg, a, m, w);
    OneGoes(cfg, s, t, f, NoEnd);
  }

  lemma QueryGoes(cfg: Config, a: Fe, m: Msg, w: BackendPool.Trip)
    requires m.Query? && a.core.ready && !cfg.rejectQuery
    ensures Goes(cfg, a, Fe(QueryCore(a.core, w), a.queue, Handled(a.log, m)), NoEnd)
  {
    QueryCoreSays(a.core, w);
    QueryLink(a.core, w);
    GoesHandled(cfg, a, Fe(QueryCore(a.core, w), a.queue, Handled(a.log, m)), m, 0);
  }

  // A Bind is handled without a backend only while the identity is not ready.
  lemma HandleGo(cfg: Config, s: State, f: nat, m: Msg)
    requires f < |s.fes| && !(m.Bind? && s.fes[f].core.ready)
    ensures AllGo(cfg, s, Handle(cfg, s, f, m), f, NoEnd)
  {
    var a, t := s.fes[f], Handle(cfg, s, f, m);
    if m.Query? && a.core.ready && !cfg.rejectQuery {
      QueryGo(cfg, s, f, m);
    } else {
      HandleCoreSays(cfg, a.core, m);
      Refinement.HandleCoreStory(cfg, a.core, m);
      HandleCoreLink(cfg, a.core, m);
      if Real(m) {
        GoesHandled(cfg, a, t.fes[f], m, if m.Bind? then 1 else 0);
      } else {
        GoesSame(cfg, a, t.fes[f]);
      }
      OneGoes(cfg, s, t, f, NoEnd);
    }
  }

  lemma RequeueGo(cfg: Config, s: State, f: nat, q: seq<Msg>)
    requires f < |s.fes|
    ensures AllGo(cfg, s, SetFe(s, f, s.fes[f].(queue := q)), f, NoEnd)
  {
    SilentGo(cfg, s, SetFe(s, f, s.fes[f].(queue := q)), f);
  }

  lemma StartOrParkGo(cfg: Config, s: State, f: nat, m: Msg)
    requires f < |s.fes| && m.Bind? && s.fes[f].core.be.None?
    ensures AllGo(cfg, s, StartOrPark(cfg, s, f, m), f, NoEnd)
  {
    var (t, ok) := StartBind(cfg, s, f, m.bind, true);
    StartGo(cfg, s, f, m.bind, true);
    if !ok {
      var q := [m] + t.fes[f].queue;
      var u := SetFe(t, f, t.fes[f].(queue := q));
      RequeueGo(cfg, t, f, q);
      AllGoTrans(cfg, s, t, u, f, NoEnd);
      ParkGo(cfg, u, f);
      AllGoTrans(cfg, s, u, Park(u, f).0, f, NoEnd);
    }
  }

  lemma {:induction false} DrainGo(cfg: Config, s: State, f: nat)
    requires Proper(cfg) && f < |s.fes| && s.fes[f].core.be.None? && PoolOwnership.PoolOk(s.pool)
    ensures AllGo(cfg, s, Drain(cfg, s, f), f, NoEnd)
    decreases |s.fes[f].queue|
  {
    var fe := s.fes[f];
    if fe.core.wait != Idle || fe.queue == [] {
      FlushGo(cfg, s, f);
    } else {
      var m := fe.queue[0];
      var popped := SetFe(s, f, fe.(queue := fe.queue[1..]));
      RequeueGo(cfg, s, f, fe.queue[1..]);
      if m.Bind? && fe.core.ready {
        var t := StartOrPark(cfg, popped, f, m);
        StartOrParkGo(cfg, popped, f, m);
        FlushGo(cfg, t, f);
        AllGoTrans(cfg, popped, t, Flush(t, f), f, NoEnd);
      } else {
        var t := Handle(cfg, popped, f, m);
        HandleGo(cfg, popped, f, m);
        HandleConfined(cfg, popped, f, m);
        DrainGo(cfg, t, f);
        AllGoTrans(cfg, popped, t, Drain(cfg, t, f), f, NoEnd);
      }
      AllGoTrans(cfg, s, popped, Drain(cfg, s, f), f, NoEnd);
    }
  }

  // ---- scheduling ----

  lemma AttemptGo(cfg: Config, s: State, o: int, w: nat)
    requires Awaits(cfg, s, o) && w == s.ring[0]
    ensures AllGo(cfg, s, Attempt(cfg, s, w), w, NoEnd)
  {
    var p, m := Popped(s, w), s.fes[w].queue[0];
    var t := StartOrPark(cfg, p, w, m);
    SilentGo(cfg, s, p, w);
    StartOrParkGo(cfg, p, w, m);
    AllGoTrans(cfg, s, p, t, w, NoEnd);
    FlushGo(cfg, t, w);
    AllGoTrans(cfg, s, t, Flush(t, w), w, NoEnd);
  }

  lemma TurnGo(cfg: Config, s: State, o: int)
    requires Proper(cfg) && InvOpen(cfg, s, o, NONE) && s.ring != []
    ensures InvOpen(cfg, Turn(cfg, s), o, NONE) && AllGo(cfg, s, Turn(cfg, s), NONE, NoEnd)
  {
    TurnInv(cfg, s, o);
    Ring.DistinctTail(s.ring);
    Ring.Pigeonhole(s.ring, |s.fes|);
    TurnIsAttempt(cfg, s, o);
    AttemptGo(cfg, s, o, s.ring[0]);
    AllGoOthers(cfg, s, Turn(cfg, s), s.ring[0], NONE);
  }

  lemma PassGo(cfg: Config, s: State, attempts: nat, o: int)
    requires Proper(cfg) && InvOpen(cfg, s, o, NONE)
    ensures AllGo(cfg, s, Pass(cfg, s, attempts), NONE, NoEnd)
  {
    var good := u => InvOpen(cfg, u, o, NONE) && AllGo(cfg, s, u, NONE, NoEnd);
    forall u | good(u) && u.ring != [] ensures good(Turn(cfg, u)) {
      TurnGo(cfg, u, o);
      AllGoTrans(cfg, s, u, Turn(cfg, u), NONE, NoEnd);
    }
    PassKeeps(cfg, s, attempts, good);
  }

  lemma LastGo(cfg: Config, u: State, f: nat)
    requires Proper(cfg) && f < |u.fes| && u.fes[f].core.be.None? && PoolOwnership.PoolOk(u.pool)
    ensures var v := if u.fes[f].core.wait == Idle && u.fes[f].queue != [] then Drain(cfg, u, f) else Flush(u, f);
            AllGo(cfg, u, v, f, NoEnd)
  {
    DrainGo(cfg, u, f);
    FlushGo(cfg, u, f);
  }

  lemma ReleaseGo(cfg: Config, s: State, w: State, f: nat, e: End)
    requires Proper(cfg) && f < |w.fes|
    requires var v := SetCore(w, f, ReleaseCore(w.fes[f].core));
             InvOpen(cfg, v, f, NONE) && AllGo(cfg, s, v, f, e)
    ensures AllGo(cfg, s, AfterRelease(cfg, w, f), f, e)
  {
    var v := SetCore(w, f, ReleaseCore(w.fes[f].core));
    var u := FairSchedule(cfg, v);
    PassInv(cfg, v, |v.ring|, f);
    PassGo(cfg, v, |v.ring|, f);
    AllGoOthers(cfg, v, u, NONE, f);
    AllGoTrans(cfg, s, v, u, f, e);
    assert v.ring == [] ==> u == v;
    LastGo(cfg, u, f);
    AllGoTrans(cfg, s, u, AfterRelease(cfg, w, f), f, e);
  }

  // ---- the end of a pipeline ----

  // From s on, f has said n more BindCompletes and given its backend back.
  lemma EndGo(cfg: Config, s: State, v: State, f: nat, n: nat)
    requires f < |s.fes| && |v.fes| == |s.fes| && v.fes == s.fes[f := v.fes[f]]
    requires s.fes[f].core.be.Some? && v.fes[f].core.be.None?
    requires v.fes[f].log.handled == s.fes[f].log.handled && v.fes[f].log.issued == s.fes[f].log.issued
    requires var c, d := s.fes[f].core, v.fes[f].core;
             d.id == c.id && d.ready == c.ready && d.cache == c.cache && Says(c, d, n, []) && n <= 1
    ensures AllGo(cfg, s, v, f, if n == 1 then GoodEnd else BadEnd)
  {
    GoesEnd(cfg, s.fes[f], v.fes[f], n);
    OneGoes(cfg, s, v, f, if n == 1 then GoodEnd else BadEnd);
  }

  // Between two submissions nothing has been said.
  ghost predicate Mid(cfg: Config, s: State, t: State, f: nat) {
    && Between(cfg, s, t, f)
    && t.fes[f].log == s.fes[f].log
    && var c, d := s.fes[f].core, t.fes[f].core;
       d.id == c.id && d.ready == c.ready && d.cache == c.cache && d.sent == c.sent && d.pend == c.pend
  }

  lemma FailGo(cfg: Config, s: State, t: State, f: nat)
    requires Proper(cfg) && Inv(cfg, s) && Mid(cfg, s, t, f)
    ensures AllGo(cfg, s, Fail(cfg, t, f), f, BadEnd)
  {
    var b := s.fes[f].core.be.value;
    var fe := t.fes[f].(core := FailCore(t.fes[f].core));
    var w := SetFe(t.(pool := BackendPool.Finish(cfg.pool, t.pool, b, true)), f, fe);
    var v := SetCore(w, f, ReleaseCore(fe.core));
    FinishEnds(cfg, s, t, f, true, fe.(core := ReleaseCore(fe.core)));
    EndsInv(cfg, s, v, f, b);
    FailSays(t.fes[f].core);
    EndGo(cfg, s, v, f, 0);
    ReleaseGo(cfg, s, w, f, BadEnd);
  }

  lemma CompleteEndGo(cfg: Config, s: State, t: State, v: State, f: nat, sawError: bool)
    requires Mid(cfg, s, t, f) && |v.fes| == |t.fes| && v.fes == t.fes[f := v.fes[f]]
    requires var fe := if sawError then Drop(t.fes[f]) else t.fes[f];
             v.fes[f] == fe.(core := ReleaseCore(CompleteCore(fe.core, sawError)))
    ensures AllGo(cfg, s, v, f, if sawError then BadEnd else GoodEnd)
  {
    CompleteSays(t.fes[f].core, sawError);
    EndGo(cfg, s, v, f, if sawError then 0 else 1);
  }

  lemma CompleteGo(cfg: Config, s: State, t: State, f: nat)
    requires Proper(cfg) && Inv(cfg, s) && Mid(cfg, s, t, f)
    ensures AllGo(cfg, s, Complete(cfg, t, f), f, if Conn(t, f).pipe.st.sawError then BadEnd else GoodEnd)
  {
    var b := s.fes[f].core.be.value;
    var sawError := Conn(t, f).pipe.st.sawError;
    var fe := if sawError then Drop(t.fes[f]) else t.fes[f];
    var d := fe.(core := CompleteCore(fe.core, sawError));
    var w := SetFe(t.(pool := BackendPool.Finish(cfg.pool, t.pool, b, false)), f, d);
    var v := SetCore(w, f, ReleaseCore(d.core));
    FinishEnds(cfg, s, t, f, false, d.(core := ReleaseCore(d.core)));
    EndsInv(cfg, s, v, f, b);
    CompleteEndGo(cfg, s, t, v, f, sawError);
    ReleaseGo(cfg, s, w, f, if sawError then BadEnd else GoodEnd);
  }

  lemma SubmitGo(cfg: Config, s: State, t: State, f: nat)
    requires Mid(cfg, s, t, f)
    ensures AllGo(cfg, s, SubmitSend(t, f), f, NoEnd) && AllGo(cfg, s, SubmitRecv(t, f), f, NoEnd)
  {
    SilentGo(cfg, s, SubmitSend(t, f), f);
    SilentGo(cfg, s, SubmitRecv(t, f), f);
  }

  lemma StoreMid(cfg: Config, s: State, t: State, f: nat, acc: Bytes, st: Framer.Status, resp: Bytes)
    requires Mid(cfg, s, t, f)
    ensures var u := Store(t, f, acc, st, resp); Mid(cfg, s, u, f) && Runs(u, f) && Conn(u, f).pipe.st == st
  {
    StoreBetween(cfg, s, t, f, acc, st, resp);
  }

  lemma RecvMid(cfg: Config, s: State, f: nat)
    requires Inv(cfg, s) && Runs(s, f) && s.fes[f].core.recvPending
    ensures Mid(cfg, s, SetCore(s, f, s.fes[f].core.(recvPending := false)), f)
  {
    RecvBetween(cfg, s, f);
  }

  // ---- events ----

  function DataEnd(cfg: Config, s: State, f: nat, data: Bytes): End
    requires Runs(s, f)
  {
    match Received(cfg, s, f, data)
    case Bad => BadEnd
    case More(_, _, _) => NoEnd
    case Done(_, st, _) => if st.sawError then BadEnd else GoodEnd
  }

  function RecvEnd(cfg: Config, s: State, f: nat, res: RecvResult): End
    requires Runs(s, f)
  {
    if res.RecvError? || res.bytes == [] then BadEnd else DataEnd(cfg, s, f, res.bytes)
  }

  // Whether the event ends the pipeline of f, and how.
  function EndBy(cfg: Config, s: State, e: Event, f: nat): End {
    match e
    case SendDone(g, res) =>
      if g == f && Runs(s, f) && s.fes[f].core.sendPending && res.SendError? then BadEnd else NoEnd
    case RecvDone(g, res) =>
      if g == f && Runs(s, f) && s.fes[f].core.recvPending then RecvEnd(cfg, s, f, res) else NoEnd
    case CloseConn(g) => if g == f && Runs(s, f) then BadEnd else NoEnd
    case _ => NoEnd
  }

  lemma SendDoneGo(cfg: Config, s: State, f: nat, res: SendResult)
    requires Proper(cfg) && Inv(cfg, s) && Runs(s, f) && s.fes[f].core.sendPending
    ensures AllGo(cfg, s, OnSendDone(cfg, s, f, res), f, if res.SendError? then BadEnd else NoEnd)
  {
    var t := SetCore(s, f, s.fes[f].core.(sendPending := false));
    assert Shape(cfg, s.fes[f]);
    assert Mid(cfg, s, t, f);
    match res
    case Again => SubmitGo(cfg, s, t, f);
    case SendError => FailGo(cfg, s, t, f);
    case Sent(n) =>
      var u := t.(pool := BackendPool.SendAdvance(t.pool, t.fes[f].core.be.value, n));
      assert Mid(cfg, s, u, f);
      SubmitGo(cfg, s, u, f);
  }

  lemma DataGo(cfg: Config, s: State, f: nat, data: Bytes)
    requires Proper(cfg) && Inv(cfg, s) && Runs(s, f) && s.fes[f].core.recvPending && data != []
    ensures AllGo(cfg, s, OnRecvDone(cfg, s, f, Data(data)), f, DataEnd(cfg, s, f, data))
  {
    var t := SetCore(s, f, s.fes[f].core.(recvPending := false));
    RecvMid(cfg, s, f);
    ReceivedSame(cfg, s, f, data);
    match Received(cfg, t, f, data)
    case Bad => FailGo(cfg, s, t, f);
    case More(acc, st, resp) => MoreGo(cfg, s, t, f, acc, st, resp);
    case Done(acc, st, resp) => DoneGo(cfg, s, t, f, acc, st, resp);
  }

  lemma MoreGo(cfg: Config, s: State, t: State, f: nat, acc: Bytes, st: Framer.Status, resp: Bytes)
    requires Mid(cfg, s, t, f)
    ensures AllGo(cfg, s, SubmitRecv(Store(t, f, acc, st, resp), f), f, NoEnd)
  {
    StoreMid(cfg, s, t, f, acc, st, resp);
    SubmitGo(cfg, s, Store(t, f, acc, st, resp), f);
  }

  lemma DoneGo(cfg: Config, s: State, t: State, f: nat, acc: Bytes, st: Framer.Status, resp: Bytes)
    requires Proper(cfg) && Inv(cfg, s) && Mid(cfg, s, t, f)
    ensures AllGo(cfg, s, Complete(cfg, Store(t, f, acc, st, resp), f), f, if st.sawError then BadEnd else GoodEnd)
  {
    StoreMid(cfg, s, t, f, acc, st, resp);
    CompleteGo(cfg, s, Store(t, f, acc, st, resp), f);
  }

  lemma RecvDoneGo(cfg: Config, s: State, f: nat, res: RecvResult)
    requires Proper(cfg) && Inv(cfg, s) && Runs(s, f) && s.fes[f].core.recvPending
    ensures AllGo(cfg, s, OnRecvDone(cfg, s, f, res), f, RecvEnd(cfg, s, f, res))
  {
    if res.RecvError? || res.bytes == [] {
      var t := SetCore(s, f, s.fes[f].core.(recvPending := false));
      RecvMid(cfg, s, f);
      FailGo(cfg, s, t, f);
    } else {
      DataGo(cfg, s, f, res.bytes);
    }
  }

  lemma ClosedGo(cfg: Config, u: State, f: nat)
    requires f < |u.fes|
    ensures AllGo(cfg, u, SetFe(u, f, Drop(u.fes[f]).(core := CloseCore(u.fes[f].core))), f,
                  if u.fes[f].core.be.Some? then BadEnd else NoEnd)
  {
    var t := SetFe(u, f, Drop(u.fes[f]).(core := CloseCore(u.fes[f].core)));
    SaysNothing(u.fes[f].core, t.fes[f].core);
    if u.fes[f].core.be.Some? {
      GoesEnd(cfg, u.fes[f], t.fes[f], 0);
    } else {
      GoesSame(cfg, u.fes[f], t.fes[f]);
    }
    OneGoes(cfg, u, t, f, if u.fes[f].core.be.Some? then BadEnd else NoEnd);
  }

  lemma HolderCloseGo(cfg: Config, s: State, v: State, f: nat)
    requires Proper(cfg) && Inv(cfg, s) && Runs(s, f) && Shape(cfg, s.fes[f])
    requires v == SetCore(s.(pool := BackendPool.Finish(cfg.pool, s.pool, s.fes[f].core.be.value, true)), f,
                          s.fes[f].core.(be := None))
    ensures AllGo(cfg, s, FairSchedule(cfg, v), f, BadEnd) && FairSchedule(cfg, v).fes[f].core.be.None?
  {
    var b := s.fes[f].core.be.value;
    assert Holds(s, f, b);
    PoolOwnership.FinishFrees(cfg.pool, s.pool, b, true);
    EndsInv(cfg, s, v, f, b);
    SaysNothing(s.fes[f].core, v.fes[f].core);
    EndGo(cfg, s, v, f, 0);
    PassInv(cfg, v, |v.ring|, f);
    PassGo(cfg, v, |v.ring|, f);
    AllGoOthers(cfg, v, FairSchedule(cfg, v), NONE, f);
    AllGoTrans(cfg, s, v, FairSchedule(cfg, v), f, BadEnd);
  }

  lemma CloseGo(cfg: Config, s: State, f: nat)
    requires Proper(cfg) && Inv(cfg, s) && f < |s.fes|
    ensures AllGo(cfg, s, Close(cfg, s, f), f, if Runs(s, f) then BadEnd else NoEnd)
  {
    assert Shape(cfg, s.fes[f]);
    if s.fes[f].core.st == Free {
      NothingGo(cfg, s, s, f);
    } else if s.fes[f].core.be.Some? {
      assert Holds(s, f, s.fes[f].core.be.value);
      RunningCloseGo(cfg, s, f);
    } else {
      LeaveGo(cfg, s, f);
    }
  }

  lemma RunningCloseGo(cfg: Config, s: State, f: nat)
    requires Proper(cfg) && Inv(cfg, s) && Runs(s, f) && Shape(cfg, s.fes[f])
    ensures AllGo(cfg, s, Close(cfg, s, f), f, BadEnd)
  {
    var v := SetCore(s.(pool := BackendPool.Finish(cfg.pool, s.pool, s.fes[f].core.be.value, true)), f,
                     s.fes[f].core.(be := None));
    var u := FairSchedule(cfg, v);
    assert f !in s.ring;
    RemoveMeaning(s.ring, f);
    HolderCloseGo(cfg, s, v, f);
    ClosedGo(cfg, u, f);
    AllGoTrans(cfg, s, u, Close(cfg, s, f), f, BadEnd);
  }

  lemma LeaveGo(cfg: Config, s: State, f: nat)
    requires f < |s.fes| && s.fes[f].core.be.None? && s.fes[f].core.st != Free
    ensures AllGo(cfg, s, Close(cfg, s, f), f, NoEnd)
  {
    var t := s.(ring := WaitersRemove(s.ring, f));
    NothingGo(cfg, s, t, f);
    ClosedGo(cfg, t, f);
    AllGoTrans(cfg, s, t, Close(cfg, s, f), f, NoEnd);
  }

  lemma NothingGo(cfg: Config, s: State, t: State, f: int)
    requires t.fes == s.fes
    ensures AllGo(cfg, s, t, f, NoEnd)
  {
  }

  // ---- input ----

  lemma BindNowGo(cfg: Config, u: State, f: nat, m: Msg)
    requires f < |u.fes| && m.Bind? && u.fes[f].core.be.None?
    ensures AllGo(cfg, u, BindNow(cfg, u, f, m), f, NoEnd)
  {
    var (v, ok) := StartBind(cfg, u, f, m.bind, false);
    StartGo(cfg, u, f, m.bind, false);
    if !ok {
      var q := v.fes[f].queue + [Queued(m)];
      var w := SetFe(v, f, v.fes[f].(queue := q));
      RequeueGo(cfg, v, f, q);
      AllGoTrans(cfg, u, v, w, f, NoEnd);
      ParkGo(cfg, w, f);
      AllGoTrans(cfg, u, w, Park(w, f).0, f, NoEnd);
    }
  }

  lemma EnqueueGo(cfg: Config, s: State, f: nat, m: Msg)
    requires f < |s.fes|
    ensures AllGo(cfg, s, SetFe(s, f, Enqueue(cfg, s.fes[f], m)), f, NoEnd)
  {
    var fe := s.fes[f];
    EnqueueSays(fe.core, m, Fits(cfg, fe));
    GoesSame(cfg, fe, Enqueue(cfg, fe, m));
    OneGoes(cfg, s, SetFe(s, f, Enqueue(cfg, fe, m)), f, NoEnd);
  }

  lemma IdleGo(cfg: Config, s: State, f: nat, m: Msg)
    requires f < |s.fes| && Real(m) && s.fes[f].core.wait == Idle && s.fes[f].core.be.None?
    ensures AllGo(cfg, s, Process(cfg, s, f, m), f, NoEnd)
  {
    var fe := s.fes[f];
    var t := SetFe(s, f, Arrive(fe, m));
    if !m.Bind? {
      SilentGo(cfg, s, t, f);
      HandleGo(cfg, t, f, m);
      AllGoTrans(cfg, s, t, Handle(cfg, t, f, m), f, NoEnd);
    } else {
      var u := SetCore(t, f, fe.core.(resp := [], gotExecute := false, gotSync := false));
      SilentGo(cfg, s, u, f);
      if !fe.core.ready {
        HandleGo(cfg, u, f, m);
        AllGoTrans(cfg, s, u, Handle(cfg, u, f, m), f, NoEnd);
      } else {
        BindNowGo(cfg, u, f, m);
        AllGoTrans(cfg, s, u, BindNow(cfg, u, f, m), f, NoEnd);
      }
    }
  }

  lemma ProcessGo(cfg: Config, s: State, f: nat, m: Msg)
    requires Proper(cfg) && Inv(cfg, s) && f < |s.fes|
    ensures AllGo(cfg, s, Process(cfg, s, f, m), f, NoEnd)
  {
    assert Shape(cfg, s.fes[f]);
    if !Real(m) {
      HandleGo(cfg, s, f, m);
    } else if s.fes[f].core.wait != Idle {
      EnqueueGo(cfg, s, f, m);
    } else {
      IdleGo(cfg, s, f, m);
    }
  }

  lemma {:induction false} InputGo(cfg: Config, s: State, f: nat, ms: seq<Msg>)
    requires Proper(cfg) && Inv(cfg, s) && f < |s.fes| && s.fes[f].core.st != Free
    ensures AllGo(cfg, s, ProcessAll(cfg, s, f, ms), f, NoEnd)
    decreases |ms|
  {
    if ms == [] {
      FlushGo(cfg, s, f);
    } else {
      var t := Process(cfg, s, f, ms[0]);
      ProcessInv(cfg, s, f, ms[0]);
      ProcessGo(cfg, s, f, ms[0]);
      InputGo(cfg, t, f, ms[1..]);
      AllGoTrans(cfg, s, t, ProcessAll(cfg, t, f, ms[1..]), f, NoEnd);
    }
  }

  // ---- every event, every run ----

  // The event gives slot f to a new connection.
  predicate Renews(s: State, e: Event, f: nat) { e.Accept? && FreeSlot(s.fes) == f }

  // Every event answers every connection properly: Parse and rejected Query as one-at-a-time
  // handling would, and the pipeline that it ends by one BindComplete exactly if it ends well.
  lemma StepAnswers(cfg: Config, s: State, e: Event, f: nat)
    requires Proper(cfg) && Inv(cfg, s) && f < |s.fes| && !Renews(s, e, f)
    ensures Goes(cfg, s.fes[f], Step(cfg, s, e).fes[f], EndBy(cfg, s, e, f))
  {
    match e
    case Accept(id, ready) =>
    case Input(g, ms) => if g < |s.fes| && s.fes[g].core.st != Free { InputGo(cfg, s, g, ms); }
    case SendDone(g, res) => if Runs(s, g) && s.fes[g].core.sendPending { SendDoneGo(cfg, s, g, res); }
    case RecvDone(g, res) => if Runs(s, g) && s.fes[g].core.recvPending { RecvDoneGo(cfg, s, g, res); }
    case CloseConn(g) => if g < |s.fes| { CloseGo(cfg, s, g); }
    case Tick =>
  }

  // The outcomes of a connection's pipelines, in the order in which they were issued: a new
  // connection starts with none.
  function Grown(outs: seq<bool>, e: End): seq<bool> {
    match e
    case NoEnd => outs
    case GoodEnd => outs + [true]
    case BadEnd => outs + [false]
  }

  function OutcomesAfter(cfg: Config, s: State, e: Event, f: nat, outs: seq<bool>): seq<bool> {
    if Renews(s, e, f) then [] else Grown(outs, EndBy(cfg, s, e, f))
  }

  function Outcomes(cfg: Config, s: State, es: seq<Event>, f: nat, outs: seq<bool>): seq<bool>
    decreases |es|
  {
    if es == [] then outs
    else Outcomes(cfg, Step(cfg, s, es[0]), es[1..], f, OutcomesAfter(cfg, s, es[0], f, outs))
  }

  function Successes(outs: seq<bool>): nat {
    if outs == [] then 0 else Successes(outs[..|outs| - 1]) + if outs[|outs| - 1] then 1 else 0
  }

  lemma GrownSuccesses(outs: seq<bool>, e: End)
    ensures |Grown(outs, e)| == |outs| + (if e.NoEnd? then 0 else 1) && outs <= Grown(outs, e)
    ensures Successes(Grown(outs, e)) == Successes(outs) + if e.GoodEnd? then 1 else 0
  {
    assert (outs + [true])[..|outs|] == outs && (outs + [false])[..|outs|] == outs;
  }

  lemma NewAnswered(cfg: Config, id: Identity, ready: bool)
    ensures Squared(cfg, NewFe(id, ready), []) && Squared(cfg, FreeFe(), [])
  {
  }

  // Answered properly so far: `outs` are the outcomes of the pipelines that have ended, and the
  // replies hold a BindComplete for each that ended well.
  ghost predicate Squared(cfg: Config, fe: Fe, outs: seq<bool>) {
    Answered(cfg, fe) && (fe.core.ready ==> Ended(fe) == |outs| && Completed(fe.core) == Successes(outs))
  }

  lemma StepSquared(cfg: Config, s: State, e: Event, f: nat, outs: seq<bool>)
    requires Proper(cfg) && Inv(cfg, s) && f < |s.fes| && Squared(cfg, s.fes[f], outs)
    ensures Inv(cfg, Step(cfg, s, e)) && Squared(cfg, Step(cfg, s, e).fes[f], OutcomesAfter(cfg, s, e, f, outs))
  {
    StepInv(cfg, s, e);
    if Renews(s, e, f) {
      NewAnswered(cfg, e.id, e.ready);
    } else {
      StepAnswers(cfg, s, e, f);
      GrownSuccesses(outs, EndBy(cfg, s, e, f));
    }
  }

  lemma {:induction false} RunAnswers(cfg: Config, s: State, es: seq<Event>, f: nat, outs: seq<bool>)
    requires Proper(cfg) && Inv(cfg, s) && f < |s.fes| && Squared(cfg, s.fes[f], outs)
    ensures Squared(cfg, Run(cfg, s, es).fes[f], Outcomes(cfg, s, es, f, outs))
    decreases |es|
  {
    if es != [] {
      var t := Step(cfg, s, es[0]);
      StepSquared(cfg, s, es[0], f, outs);
      RunAnswers(cfg, t, es[1..], f, OutcomesAfter(cfg, s, es[0], f, outs));
    }
  }

  // In every reachable state: the ParseComplete, cache-full and query-rejected replies a
  // connection was given, in order, are exactly those of handling its messages one at a time.
  lemma AnsweredInOrder(cfg: Config, s: State, es: seq<Event>, f: nat)
    requires Proper(cfg) && Initial(s) && f < |s.fes|
    ensures var fe := Run(cfg, s, es).fes[f];
            Pick(fe.core.sent + fe.core.pend) == AnswersTo(cfg, fe.core.id, fe.core.ready, fe.log.handled)
  {
    InitialInv(cfg, s);
    NewAnswered(cfg, NOBODY, false);
    RunAnswers(cfg, s, es, f, []);
    var c := Run(cfg, s, es).fes[f].core;
    Concat(c.sent, c.pend);
  }

  // In every reachable state: each pipeline that a connection with an identity has issued has an
  // outcome, but for the one in progress, which is the last; and the connection was given as
  // many BindCompletes as pipelines have ended well.
  lemma EveryPipelineAnswered(cfg: Config, s: State, es: seq<Event>, f: nat)
    requires Proper(cfg) && Initial(s) && f < |s.fes| && Run(cfg, s, es).fes[f].core.ready
    ensures var fe, outs := Run(cfg, s, es).fes[f], Outcomes(cfg, s, es, f, []);
            && |fe.log.issued| == |outs| + (if fe.core.be.Some? then 1 else 0)
            && Completes(fe.core.sent + fe.core.pend) == Successes(outs)
  {
    InitialInv(cfg, s);
    NewAnswered(cfg, NOBODY, false);
    RunAnswers(cfg, s, es, f, []);
    var c := Run(cfg, s, es).fes[f].core;
    Concat(c.sent, c.pend);
  }

  // ---- which BindComplete answers which pipeline ----

  // The connection in slot f is the same all along.
  predicate Lasts(cfg: Config, s: State, es: seq<Event>, f: nat)
    decreases |es|
  {
    es == [] || (!Renews(s, es[0], f) && Lasts(cfg, Step(cfg, s, es[0]), es[1..], f))
  }

  lemma {:induction false} OutcomesGrow(cfg: Config, s: State, es: seq<Event>, f: nat, outs: seq<bool>)
    requires Lasts(cfg, s, es, f)
    ensures outs <= Outcomes(cfg, s, es, f, outs)
    decreases |es|
  {
    if es != [] {
      GrownSuccesses(outs, EndBy(cfg, s, es[0], f));
      OutcomesGrow(cfg, Step(cfg, s, es[0]), es[1..], f, OutcomesAfter(cfg, s, es[0], f, outs));
    }
  }

  // Pipeline i is in progress in u and ended by e, with outcome outs[i]: if that is good, the
  // event adds the BindComplete that follows one for each good outcome before it; else none.
  ghost predicate Answers(cfg: Config, u: State, e: Event, f: nat, outs: seq<bool>, i: nat)
    requires f < |u.fes| && i < |outs|
  {
    var a, b := u.fes[f], Step(cfg, u, e).fes[f];
    && a.core.be.Some? && |a.log.issued| == i + 1
    && EndBy(cfg, u, e, f) == (if outs[i] then GoodEnd else BadEnd)
    && Completed(a.core) == Successes(outs[..i])
    && Completed(b.core) == Successes(outs[..i]) + if outs[i] then 1 else 0
  }

  lemma AnswersNow(cfg: Config, s: State, e: Event, f: nat, outs: seq<bool>, all: seq<bool>)
    requires Proper(cfg) && Inv(cfg, s) && f < |s.fes| && s.fes[f].core.ready && Squared(cfg, s.fes[f], outs)
    requires !Renews(s, e, f) && !EndBy(cfg, s, e, f).NoEnd? && Grown(outs, EndBy(cfg, s, e, f)) <= all
    ensures Answers(cfg, s, e, f, all, |outs|)
  {
    StepAnswers(cfg, s, e, f);
    assert all[..|outs|] == outs;
    assert all[|outs|] == Grown(outs, EndBy(cfg, s, e, f))[|outs|];
    assert s.fes[f].core.be.Some?;
  }

  lemma LastsSquared(cfg: Config, s: State, e: Event, f: nat, outs: seq<bool>)
    requires Proper(cfg) && Inv(cfg, s) && f < |s.fes| && s.fes[f].core.ready && Squared(cfg, s.fes[f], outs)
    requires !Renews(s, e, f)
    ensures var t := Step(cfg, s, e);
            Inv(cfg, t) && t.fes[f].core.ready && Squared(cfg, t.fes[f], OutcomesAfter(cfg, s, e, f, outs))
  {
    StepSquared(cfg, s, e, f, outs);
    StepAnswers(cfg, s, e, f);
  }

  // Each outcome is the outcome of the pipeline at its position: there is one event that ends it,
  // and its BindComplete has its position among the BindCompletes.
  lemma {:induction false} PipelineAnswered(cfg: Config, s: State, es: seq<Event>, f: nat, outs: seq<bool>, i: nat)
    returns (n: nat)
    requires Proper(cfg) && Inv(cfg, s) && f < |s.fes| && s.fes[f].core.ready && Squared(cfg, s.fes[f], outs)
    requires Lasts(cfg, s, es, f) && |outs| <= i < |Outcomes(cfg, s, es, f, outs)|
    ensures n < |es| && Answers(cfg, Run(cfg, s, es[..n]), es[n], f, Outcomes(cfg, s, es, f, outs), i)
    decreases |es|
  {
    var e, t := es[0], Step(cfg, s, es[0]);
    var next := OutcomesAfter(cfg, s, e, f, outs);
    GrownSuccesses(outs, EndBy(cfg, s, e, f));
    OutcomesGrow(cfg, t, es[1..], f, next);
    if i < |next| {
      n := 0;
      assert es[..0] == [];
      AnswersNow(cfg, s, e, f, outs, Outcomes(cfg, s, es, f, outs));
    } else {
      LastsSquared(cfg, s, e, f, outs);
      var m := PipelineAnswered(cfg, t, es[1..], f, next, i);
      n := m + 1;
      RunShift(cfg, s, es, m);
    }
  }

  lemma RunShift(cfg: Config, s: State, es: seq<Event>, m: nat)
    requires m + 1 < |es|
    ensures es[m + 1] == es[1..][m] && Run(cfg, s, es[..m + 1]) == Run(cfg, Step(cfg, s, es[0]), es[1..][..m])
  {
    assert es[..m + 1][1..] == es[1..][..m];
  }
}
