// What each connection is told: a function of what happened to it, and of nothing else.
module Dialogue {
  import opened Wire
  import opened Frontend
  import opened Invariant
  import BackendPool
  import StmtCache

  // ---- the two streams of replies ----

  // The protocol messages the proxy makes itself, and the backend output it relays.
  function Spoken(rs: seq<Reply>): seq<Reply> {
    if rs == [] then [] else Spoken(rs[..|rs| - 1]) + if rs[|rs| - 1].Relay? then [] else [rs[|rs| - 1]]
  }

  function Relays(rs: seq<Reply>): seq<Bytes> {
    if rs == [] then [] else Relays(rs[..|rs| - 1]) + if rs[|rs| - 1].Relay? then [rs[|rs| - 1].bytes] else []
  }

  lemma {:induction false} SpokenConcat(a: seq<Reply>, b: seq<Reply>)
    ensures Spoken(a + b) == Spoken(a) + Spoken(b)
    decreases |b|
  {
    if b == [] {
      assert a + b == a;
    } else {
      SpokenConcat(a, b[..|b| - 1]);
      assert (a + b)[..|a + b| - 1] == a + b[..|b| - 1];
    }
  }

  lemma {:induction false} RelaysConcat(a: seq<Reply>, b: seq<Reply>)
    ensures Relays(a + b) == Relays(a) + Relays(b)
    decreases |b|
  {
    if b == [] {
      assert a + b == a;
    } else {
      RelaysConcat(a, b[..|b| - 1]);
      assert (a + b)[..|a + b| - 1] == a + b[..|b| - 1];
    }
  }

  lemma Concat(a: seq<Reply>, b: seq<Reply>)
    ensures Spoken(a + b) == Spoken(a) + Spoken(b) && Relays(a + b) == Relays(a) + Relays(b)
  {
    SpokenConcat(a, b);
    RelaysConcat(a, b);
  }

  lemma One(r: Reply)
    ensures Spoken([r]) == (if r.Relay? then [] else [r]) && Relays([r]) == if r.Relay? then [r.bytes] else []
  {
    assert [r][..0] == [];
  }

  lemma {:induction false} AllSpoken(rs: seq<Reply>)
    requires forall i :: 0 <= i < |rs| ==> !rs[i].Relay?
    ensures Spoken(rs) == rs && Relays(rs) == []
  {
    if rs != [] {
      AllSpoken(rs[..|rs| - 1]);
      assert rs[..|rs| - 1] + [rs[|rs| - 1]] == rs;
    }
  }

  // ---- what a connection is owed ----

  // The statements prepared so far: a new name is refused once the cache is full.
  predicate Accepts(max: nat, names: set<string>, name: string) { name in names || |names| < max }

  function Names(max: nat, acts: seq<Act>): set<string> {
    if acts == [] then {}
    else
      var names, a := Names(max, acts[..|acts| - 1]), acts[|acts| - 1];
      if a.Did? && a.m.Parse? && Accepts(max, names, a.m.parse.statement) then names + {a.m.parse.statement} else names
  }

  // A Sync has arrived since the last pipeline was issued.
  predicate SyncSeen(acts: seq<Act>) {
    acts != [] &&
    match acts[|acts| - 1]
    case Kept(m) => m.Sync? || SyncSeen(acts[..|acts| - 1])
    case Refused(m) => m.Sync? || SyncSeen(acts[..|acts| - 1])
    case Did(m) => !Real(m) && SyncSeen(acts[..|acts| - 1])
    case _ => false
  }

  // What is left of an output when a forwarded query writes to the same buffer.
  function Smeared(out: Bytes, written: Bytes): (r: Bytes)
    ensures |r| == |out|
  {
    seq(|out|, i requires 0 <= i < |out| => if i < |written| then written[i] else out[i])
  }

  // The output of the last pipeline, as long as it has not been relayed.
  function Output(acts: seq<Act>): Bytes {
    if acts == [] then []
    else
      var before := acts[..|acts| - 1];
      match acts[|acts| - 1]
      case Ended(out, failed) => if failed || SyncSeen(before) then [] else out
      case Issued => []
      case Broke => []
      case Did(m) => if m.Sync? then [] else Output(before)
      case Asked(t) => if t.Trip? then Smeared(Output(before), t.answer.bytes) else Output(before)
      case _ => Output(before)
  }

  const LOST: seq<Reply> := [ErrorResponse("08006"), ReadyForQuery]
  const FULL: Reply := ErrorResponse("53300")

  // The query was answered with something.
  predicate Answered(t: BackendPool.Trip) { t.Trip? && t.answer.ok && t.answer.bytes != [] }

  function ToldDone(max: nat, before: seq<Act>, m: Msg): seq<Reply> {
    match m
    case Parse(p) =>
      if Accepts(max, Names(max, before), p.statement) then [ParseComplete] else [ErrorResponse("26000"), ReadyForQuery]
    case Bind(_) => [BindComplete]
    case Execute => if Output(before) == [] then [CommandComplete] else []
    case Sync => if Output(before) == [] then [ReadyForQuery] else []
    case Query(_) => [ErrorResponse("0A000"), ReadyForQuery]
    case _ => []
  }

  // What the proxy says to something that happens, after what happened before.
  function ToldBy(max: nat, before: seq<Act>, a: Act): seq<Reply> {
    match a
    case Kept(_) => []
    case Refused(m) => if m.Parse? then [FULL] else if m.Bind? || m.Query? then [FULL, ReadyForQuery] else []
    case Did(m) => ToldDone(max, before, m)
    case Asked(t) => if Answered(t) then [] else LOST
    case Issued => []
    case Ended(out, failed) =>
      (if failed then [] else [BindComplete]) + if out == [] && SyncSeen(before) then [ReadyForQuery] else []
    case Broke => LOST
  }

  // What it relays: the output of a pipeline, or the result of a query.
  datatype Piece = Response(bytes: Bytes) | Result(bytes: Bytes)

  function PiecesBy(before: seq<Act>, a: Act): seq<Piece> {
    match a
    case Did(m) => if m.Sync? && Output(before) != [] then [Response(Output(before))] else []
    case Asked(t) => if Answered(t) then [Result(t.answer.bytes)] else []
    case Ended(out, failed) => if out != [] && (failed || SyncSeen(before)) then [Response(out)] else []
    case _ => []
  }

  function Told(max: nat, acts: seq<Act>): seq<Reply> {
    if acts == [] then [] else Told(max, acts[..|acts| - 1]) + ToldBy(max, acts[..|acts| - 1], acts[|acts| - 1])
  }

  function Pieces(acts: seq<Act>): seq<Piece> {
    if acts == [] then [] else Pieces(acts[..|acts| - 1]) + PiecesBy(acts[..|acts| - 1], acts[|acts| - 1])
  }

  function Bodies(ps: seq<Piece>): (r: seq<Bytes>)
    ensures |r| == |ps| && forall i :: 0 <= i < |ps| ==> r[i] == ps[i].bytes
  {
    if ps == [] then [] else [ps[0].bytes] + Bodies(ps[1..])
  }

  lemma BodiesConcat(a: seq<Piece>, b: seq<Piece>)
    ensures Bodies(a + b) == Bodies(a) + Bodies(b)
  {
  }

  lemma Snoc(acts: seq<Act>, a: Act)
    ensures (acts + [a])[..|acts + [a]| - 1] == acts && (acts + [a])[|acts + [a]| - 1] == a
  {
  }

  // ---- which messages were handled ----

  // The act handles the message.
  predicate Handles(a: Act, m: Msg) {
    match a
    case Did(d) => d == m
    case Asked(_) => m.Query?
    case Issued => m.Bind?
    case _ => false
  }

  predicate Handling(a: Act) { (a.Did? && Real(a.m)) || a.Asked? || a.Issued? }

  // The acts handle these messages, in this order.
  predicate Matched(acts: seq<Act>, ms: seq<Msg>)
    decreases |acts|
  {
    if acts == [] then ms == []
    else
      var before, a := acts[..|acts| - 1], acts[|acts| - 1];
      if Handling(a) then ms != [] && Handles(a, ms[|ms| - 1]) && Matched(before, ms[..|ms| - 1])
      else Matched(before, ms)
  }

  function IssuedCount(acts: seq<Act>): nat {
    if acts == [] then 0 else IssuedCount(acts[..|acts| - 1]) + if acts[|acts| - 1].Issued? then 1 else 0
  }

  // ---- one connection ----

  // It has been told what it is owed, and nothing else.
  ghost predicate Faithful(max: nat, c: Core) {
    && Spoken(c.sent) + Spoken(c.pend) == Told(max, c.acts)
    && Relays(c.sent) == Bodies(Pieces(c.acts)) && Relays(c.pend) == []
    && c.cache.Keys == Names(max, c.acts)
    && (c.st != Free ==> (c.st == Closing <==> Did(Terminate) in c.acts))
    && (!c.ready ==> Output(c.acts) == [])
  }

  ghost predicate Chronicled(fe: Fe) {
    Matched(fe.core.acts, fe.log.handled) && IssuedCount(fe.core.acts) == |fe.log.issued|
  }

  // What it remembers of the acts.
  ghost predicate Current(c: Core) {
    match c.wait
    case Idle => c.st != Free ==> c.resp == Output(c.acts)
    case Waiting => true
    case _ => c.ready && (c.gotSync <==> SyncSeen(c.acts))
  }

  // The query ran under the login of the frontend's group, and this is what the network answered.
  ghost predicate Travelled(cfg: BackendPool.PoolConfig, group: string, t: BackendPool.Trip) {
    t.Trip? ==>
      && (cfg.groupLogin && group != "" ==> t.login == group)
      && exists k: nat :: t.answer == cfg.net.flush(k)
  }

  ghost predicate Travels(cfg: BackendPool.PoolConfig, c: Core) {
    forall t :: Asked(t) in c.acts ==> Travelled(cfg, c.id.group, t)
  }

  ghost predicate Frank(cfg: Config, fe: Fe) {
    Faithful(cfg.cacheMax, fe.core) && Chronicled(fe) && Travels(cfg.pool, fe.core)
  }

  ghost predicate Honest(cfg: Config, fe: Fe) { Frank(cfg, fe) && Current(fe.core) }

  // From c to d the act a happens and is answered as it should be.
  ghost predicate Adds(max: nat, c: Core, d: Core, a: Act) {
    && d.acts == c.acts + [a]
    && Spoken(d.sent) + Spoken(d.pend) == Spoken(c.sent) + Spoken(c.pend) + ToldBy(max, c.acts, a)
    && Relays(d.sent) == Relays(c.sent) + Bodies(PiecesBy(c.acts, a)) && Relays(d.pend) == []
  }

  lemma AddsFaithful(max: nat, c: Core, d: Core, a: Act)
    requires Faithful(max, c) && Adds(max, c, d, a)
    requires d.cache.Keys == Names(max, c.acts + [a])
    requires d.ready == c.ready && (!d.ready ==> Output(c.acts + [a]) == [])
    requires d.st != Free ==> c.st != Free && (d.st == Closing <==> c.st == Closing || a == Did(Terminate))
    ensures Faithful(max, d)
  {
    Snoc(c.acts, a);
    BodiesConcat(Pieces(c.acts), PiecesBy(c.acts, a));
  }

  // ---- single changes ----

  // Says rs, of its own.
  lemma EmitAdds(max: nat, c: Core, d: Core, rs: seq<Reply>, a: Act)
    requires Relays(c.pend) == [] && (forall i :: 0 <= i < |rs| ==> !rs[i].Relay?)
    requires d.sent == c.sent && d.pend == c.pend + rs && d.acts == c.acts + [a]
    requires ToldBy(max, c.acts, a) == rs && PiecesBy(c.acts, a) == []
    ensures Adds(max, c, d, a)
  {
    Concat(c.pend, rs);
    AllSpoken(rs);
    Associate(Spoken(c.sent), Spoken(c.pend), rs);
    assert Relays(c.sent) + [] == Relays(c.sent);
  }

  lemma Associate(a: seq<Reply>, b: seq<Reply>, c: seq<Reply>)
    ensures a + (b + c) == a + b + c
  {
  }

  // Says nothing.
  lemma SilentAdds(max: nat, c: Core, d: Core, a: Act)
    requires Relays(c.pend) == [] && d.sent == c.sent && d.pend == c.pend && d.acts == c.acts + [a]
    requires ToldBy(max, c.acts, a) == [] && PiecesBy(c.acts, a) == []
    ensures Adds(max, c, d, a)
  {
    assert c.pend + [] == c.pend;
    EmitAdds(max, c, d, [], a);
  }

  // Relays a piece.
  lemma RelayAdds(max: nat, c: Core, d: Core, p: Piece, a: Act)
    requires Relays(c.pend) == [] && d.sent == c.sent + [Relay(p.bytes)] && d.pend == c.pend && d.acts == c.acts + [a]
    requires ToldBy(max, c.acts, a) == [] && PiecesBy(c.acts, a) == [p]
    ensures Adds(max, c, d, a)
  {
    Concat(c.sent, [Relay(p.bytes)]);
    One(Relay(p.bytes));
    assert Spoken(c.sent) + [] == Spoken(c.sent);
    assert Spoken(c.sent) + Spoken(c.pend) + [] == Spoken(c.sent) + Spoken(c.pend);
  }

  // Does both.
  lemma BothAdd(max: nat, c: Core, d: Core, rs: seq<Reply>, p: Piece, a: Act)
    requires Relays(c.pend) == [] && (forall i :: 0 <= i < |rs| ==> !rs[i].Relay?)
    requires d.sent == c.sent + [Relay(p.bytes)] && d.pend == c.pend + rs && d.acts == c.acts + [a]
    requires ToldBy(max, c.acts, a) == rs && PiecesBy(c.acts, a) == [p]
    ensures Adds(max, c, d, a)
  {
    Concat(c.sent, [Relay(p.bytes)]);
    One(Relay(p.bytes));
    Concat(c.pend, rs);
    AllSpoken(rs);
    assert Spoken(c.sent) + [] == Spoken(c.sent);
    Associate(Spoken(c.sent), Spoken(c.pend), rs);
  }

  lemma FlushFaithful(max: nat, c: Core)
    requires Faithful(max, c)
    ensures Faithful(max, FlushOut(c))
  {
    Concat(c.sent, c.pend);
    assert Spoken(FlushOut(c).sent) + Spoken([]) == Spoken(c.sent) + Spoken(c.pend);
  }

  // ---- messages handled without a pipeline ----

  lemma ParseFits(c: Core, max: nat, name: string)
    requires c.cache.Keys == Names(max, c.acts)
    ensures StmtCache.PutFits(c.cache, max, name) <==> Accepts(max, Names(max, c.acts), name)
  {
    assert |c.cache| == |c.cache.Keys|;
  }

  lemma ParseSays(c: Core, max: nat, e: Prepared, fits: bool)
    requires fits <==> StmtCache.PutFits(c.cache, max, e.name)
    ensures var d := HandleParse(c, max, e);
            && d.sent == c.sent && d.acts == c.acts
            && d.pend == c.pend + (if fits then [ParseComplete] else [ErrorResponse("26000"), ReadyForQuery])
            && d.cache.Keys == if fits then c.cache.Keys + {e.name} else c.cache.Keys
  {
  }

  lemma ParseAdds(cfg: Config, c: Core, p: ParseMsg)
    requires Faithful(cfg.cacheMax, c)
    ensures Adds(cfg.cacheMax, c, HandleCore(cfg, c, Parse(p)), Did(Parse(p)))
    ensures HandleCore(cfg, c, Parse(p)).cache.Keys == Names(cfg.cacheMax, c.acts + [Did(Parse(p))])
  {
    var max, d, e := cfg.cacheMax, HandleCore(cfg, c, Parse(p)), ParseEntry(cfg, c.id, p);
    ParseFits(c, max, p.statement);
    ParseSays(c, max, e, Accepts(max, Names(max, c.acts), p.statement));
    assert d == Note(HandleParse(c, max, e), Did(Parse(p)));
    Snoc(c.acts, Did(Parse(p)));
    EmitAdds(max, c, d, ToldDone(max, c.acts, Parse(p)), Did(Parse(p)));
  }

  lemma OtherNames(max: nat, acts: seq<Act>, a: Act)
    requires !(a.Did? && a.m.Parse?)
    ensures Names(max, acts + [a]) == Names(max, acts)
  {
    Snoc(acts, a);
  }

  lemma SyncAdds(cfg: Config, c: Core)
    requires Faithful(cfg.cacheMax, c) && c.resp == Output(c.acts)
    ensures Adds(cfg.cacheMax, c, HandleCore(cfg, c, Sync), Did(Sync))
  {
    var max, d := cfg.cacheMax, HandleCore(cfg, c, Sync);
    if c.resp != [] {
      RelayAdds(max, c, d, Response(c.resp), Did(Sync));
    } else {
      EmitAdds(max, c, d, [ReadyForQuery], Did(Sync));
    }
  }

  lemma ExecuteAdds(cfg: Config, c: Core)
    requires Faithful(cfg.cacheMax, c) && c.resp == Output(c.acts)
    ensures Adds(cfg.cacheMax, c, HandleCore(cfg, c, Execute), Did(Execute))
  {
    var max, d := cfg.cacheMax, HandleCore(cfg, c, Execute);
    if c.resp == [] {
      EmitAdds(max, c, d, [CommandComplete], Did(Execute));
    } else {
      SilentAdds(max, c, d, Did(Execute));
    }
  }

  lemma PlainAdds(cfg: Config, c: Core, m: Msg)
    requires Faithful(cfg.cacheMax, c) && !m.Parse? && !m.Sync? && !m.Execute?
    ensures Adds(cfg.cacheMax, c, HandleCore(cfg, c, m), Did(m))
  {
    var max, d := cfg.cacheMax, HandleCore(cfg, c, m);
    if m.Bind? || m.Query? {
      EmitAdds(max, c, d, ToldDone(max, c.acts, m), Did(m));
    } else {
      SilentAdds(max, c, d, Did(m));
    }
  }

  lemma DidAdds(cfg: Config, c: Core, m: Msg)
    requires Faithful(cfg.cacheMax, c) && (Real(m) ==> c.resp == Output(c.acts))
    ensures Adds(cfg.cacheMax, c, HandleCore(cfg, c, m), Did(m))
    ensures HandleCore(cfg, c, m).cache.Keys == Names(cfg.cacheMax, c.acts + [Did(m)])
  {
    match m
    case Parse(p) => ParseAdds(cfg, c, p);
    case Sync => SyncAdds(cfg, c); OtherNames(cfg.cacheMax, c.acts, Did(m));
    case Execute => ExecuteAdds(cfg, c); OtherNames(cfg.cacheMax, c.acts, Did(m));
    case _ => PlainAdds(cfg, c, m); OtherNames(cfg.cacheMax, c.acts, Did(m));
  }

  // What is left waiting after a message.
  lemma DidOutput(cfg: Config, c: Core, m: Msg)
    requires c.resp == Output(c.acts)
    ensures HandleCore(cfg, c, m).resp == Output(c.acts + [Did(m)])
  {
    Snoc(c.acts, Did(m));
    if m.Parse? { assert HandleParse(c, cfg.cacheMax, ParseEntry(cfg, c.id, m.parse)).resp == c.resp; }
  }

  lemma DidMarks(cfg: Config, c: Core, m: Msg)
    ensures var d := HandleCore(cfg, c, m);
            && (d.st == Closing <==> c.st == Closing || m.Terminate?)
            && (d.st != c.st ==> m.Terminate?)
            && d.gotSync == c.gotSync && d.wait == c.wait && d.ready == c.ready
  {
    HandleCoreLink(cfg, c, m);
  }

  lemma DidFaithful(cfg: Config, c: Core, m: Msg)
    requires Faithful(cfg.cacheMax, c) && c.st != Free && (Real(m) ==> c.resp == Output(c.acts))
    ensures Faithful(cfg.cacheMax, HandleCore(cfg, c, m))
  {
    DidAdds(cfg, c, m);
    DidMarks(cfg, c, m);
    Snoc(c.acts, Did(m));
    AddsFaithful(cfg.cacheMax, c, HandleCore(cfg, c, m), Did(m));
  }

  lemma SmearIsOverwrite(out: Bytes, written: Bytes)
    ensures Overwrite(out, written) == Smeared(out, written)
  {
  }

  lemma AskedAdds(max: nat, c: Core, t: BackendPool.Trip)
    requires Faithful(max, c)
    ensures Adds(max, c, QueryCore(c, t), Asked(t))
  {
    var d := QueryCore(c, t);
    if Answered(t) {
      RelayAdds(max, c, d, Result(t.answer.bytes), Asked(t));
    } else {
      EmitAdds(max, c, d, LOST, Asked(t));
    }
  }

  lemma AskedFaithful(max: nat, c: Core, t: BackendPool.Trip)
    requires Faithful(max, c)
    ensures Faithful(max, QueryCore(c, t))
  {
    AskedAdds(max, c, t);
    OtherNames(max, c.acts, Asked(t));
    Snoc(c.acts, Asked(t));
    AskedMarks(c, t);
    AddsFaithful(max, c, QueryCore(c, t), Asked(t));
  }

  lemma AskedMarks(c: Core, t: BackendPool.Trip)
    ensures var d := QueryCore(c, t);
            && d.cache == c.cache && d.st == c.st && d.ready == c.ready && d.id == c.id && d.wait == c.wait
            && d.acts == c.acts + [Asked(t)]
  {
    if t.Trip? { ResultMarks(c.(resp := Overwrite(c.resp, t.answer.bytes)), t.answer); }
  }

  lemma ResultMarks(c: Core, f: BackendPool.Flushed)
    ensures var d := ResultCore(c, f);
            && d.cache == c.cache && d.st == c.st && d.ready == c.ready && d.acts == c.acts && d.wait == c.wait
            && d.resp == c.resp && d.id == c.id
  {
  }

  lemma AskedOutput(c: Core, t: BackendPool.Trip)
    requires c.resp == Output(c.acts)
    ensures QueryCore(c, t).resp == Output(c.acts + [Asked(t)]) && QueryCore(c, t).wait == c.wait
  {
    Snoc(c.acts, Asked(t));
    AskedMarks(c, t);
    if t.Trip? {
      ResultMarks(c.(resp := Overwrite(c.resp, t.answer.bytes)), t.answer);
      SmearIsOverwrite(c.resp, t.answer.bytes);
    }
  }

  // ---- messages to a busy frontend ----

  lemma RefusedAdds(max: nat, c: Core, m: Msg)
    requires Faithful(max, c) && Real(m)
    ensures Adds(max, c, EnqueueCore(c, m, false), Refused(m))
  {
    var d := EnqueueCore(c, m, false);
    if m.Execute? || m.Sync? {
      SilentAdds(max, c, d, Refused(m));
    } else {
      EmitAdds(max, c, d, ToldBy(max, c.acts, Refused(m)), Refused(m));
    }
  }

  lemma EnqueuedFaithful(max: nat, c: Core, m: Msg, fits: bool)
    requires Faithful(max, c) && Real(m)
    ensures Faithful(max, EnqueueCore(c, m, fits))
  {
    var d, a := EnqueueCore(c, m, fits), if fits then Kept(m) else Refused(m);
    if fits { SilentAdds(max, c, d, a); } else { RefusedAdds(max, c, m); }
    OtherNames(max, c.acts, a);
    Snoc(c.acts, a);
    AddsFaithful(max, c, d, a);
  }

  lemma EnqueuedSync(c: Core, m: Msg, fits: bool)
    requires c.gotSync <==> SyncSeen(c.acts)
    ensures EnqueueCore(c, m, fits).gotSync <==> SyncSeen(EnqueueCore(c, m, fits).acts)
  {
    Snoc(c.acts, if fits then Kept(m) else Refused(m));
  }

  // ---- pipelines ----

  lemma StartedFaithful(max: nat, c: Core, b: nat, fromQueue: bool)
    requires Faithful(max, c) && (fromQueue || !c.gotSync)
    ensures var d := StartCore(c, b, fromQueue); Faithful(max, d) && !d.gotSync && !SyncSeen(d.acts)
  {
    var d := StartCore(c, b, fromQueue);
    SilentAdds(max, c, d, Issued);
    OtherNames(max, c.acts, Issued);
    Snoc(c.acts, Issued);
    AddsFaithful(max, c, d, Issued);
  }

  // What it says and relays at the end of a pipeline.
  function EndSays(c: Core, sawError: bool): seq<Reply> {
    (if sawError then [] else [BindComplete]) + if c.resp == [] && c.gotSync then [ReadyForQuery] else []
  }

  predicate EndsRelaying(c: Core, sawError: bool) { c.resp != [] && (sawError || c.gotSync) }

  lemma EndTold(max: nat, c: Core, sawError: bool)
    requires c.gotSync <==> SyncSeen(c.acts)
    ensures var a := Ended(c.resp, sawError);
            && ToldBy(max, c.acts, a) == EndSays(c, sawError)
            && PiecesBy(c.acts, a) == if EndsRelaying(c, sawError) then [Response(c.resp)] else []
    ensures forall i :: 0 <= i < |EndSays(c, sawError)| ==> !EndSays(c, sawError)[i].Relay?
  {
  }

  // The state before the flush.
  function Unflushed(c: Core, sawError: bool): (e: Core)
    ensures FlushOut(e) == CompleteCore(c, sawError)
  {
    Replied(if sawError then Note(c, Ended(c.resp, sawError)).(gotExecute := false)
            else Emit(Note(c, Ended(c.resp, sawError)), [BindComplete]), sawError)
  }

  function Replied(d: Core, sawError: bool): Core {
    if d.gotSync && d.resp != [] then RelayResp(d)
    else if sawError && d.resp != [] then RelayResp(d).(gotSync := false)
    else if d.gotSync then Emit(d, [ReadyForQuery])
    else d
  }

  lemma RepliedSame(d: Core, sawError: bool)
    ensures var e := Replied(d, sawError);
            e.acts == d.acts && e.st == d.st && e.cache == d.cache && e.ready == d.ready && e.id == d.id
  {
  }

  lemma UnflushedSame(c: Core, sawError: bool)
    ensures var e := Unflushed(c, sawError);
            && e.acts == c.acts + [Ended(c.resp, sawError)]
            && e.st == c.st && e.cache == c.cache && e.ready == c.ready && e.id == c.id
  {
    var n := Note(c, Ended(c.resp, sawError));
    RepliedSame(if sawError then n.(gotExecute := false) else Emit(n, [BindComplete]), sawError);
  }

  lemma UnflushedSends(c: Core, sawError: bool)
    ensures var e := Unflushed(c, sawError);
            && e.sent == (if EndsRelaying(c, sawError) then c.sent + [Relay(c.resp)] else c.sent)
            && e.resp == if EndsRelaying(c, sawError) then [] else c.resp
  {
  }

  lemma PendSays(c: Core, sawError: bool)
    ensures Unflushed(c, sawError).pend == c.pend + EndSays(c, sawError)
  {
    assert c.pend + [] == c.pend;
    assert (c.pend + [BindComplete]) + [ReadyForQuery] == c.pend + ([BindComplete] + [ReadyForQuery]);
  }

  lemma EndedFaithful(max: nat, c: Core, sawError: bool)
    requires Faithful(max, c) && c.ready && (c.gotSync <==> SyncSeen(c.acts))
    ensures Faithful(max, CompleteCore(c, sawError))
  {
    var a, e, said := Ended(c.resp, sawError), Unflushed(c, sawError), EndSays(c, sawError);
    UnflushedSame(c, sawError);
    UnflushedSends(c, sawError);
    PendSays(c, sawError);
    EndTold(max, c, sawError);
    if EndsRelaying(c, sawError) {
      BothAdd(max, c, e, said, Response(c.resp), a);
    } else {
      EmitAdds(max, c, e, said, a);
    }
    OtherNames(max, c.acts, a);
    AddsFaithful(max, c, e, a);
    FlushFaithful(max, e);
  }

  lemma EndedOutput(c: Core, sawError: bool)
    requires c.gotSync <==> SyncSeen(c.acts)
    ensures var d := ReleaseCore(CompleteCore(c, sawError));
            && d.acts == c.acts + [Ended(c.resp, sawError)] && d.resp == Output(d.acts) && d.pend == []
            && d.wait == Idle && d.st == c.st
  {
    UnflushedSame(c, sawError);
    UnflushedSends(c, sawError);
    assert ReleaseCore(CompleteCore(c, sawError)) == ReleaseCore(FlushOut(Unflushed(c, sawError)));
    Snoc(c.acts, Ended(c.resp, sawError));
  }

  lemma BrokeFaithful(max: nat, c: Core)
    requires Faithful(max, c)
    ensures Faithful(max, FailCore(c)) && FailCore(c).acts == c.acts + [Broke]
    ensures FailCore(c).resp == Output(FailCore(c).acts) && FailCore(c).pend == []
  {
    var e := Emit(Note(c, Broke).(resp := []), [ErrorResponse("08006"), ReadyForQuery]);
    EmitAdds(max, c, e, LOST, Broke);
    OtherNames(max, c.acts, Broke);
    Snoc(c.acts, Broke);
    AddsFaithful(max, c, e, Broke);
    FlushFaithful(max, e);
  }

  // ---- the messages handled ----

  lemma MatchedHandles(acts: seq<Act>, ms: seq<Msg>, a: Act, m: Msg)
    requires Matched(acts, ms) && Handling(a) && Handles(a, m)
    ensures Matched(acts + [a], ms + [m])
  {
    Snoc(acts, a);
    assert (ms + [m])[..|ms|] == ms;
  }

  lemma MatchedOther(acts: seq<Act>, ms: seq<Msg>, a: Act)
    requires Matched(acts, ms) && !Handling(a)
    ensures Matched(acts + [a], ms)
  {
    Snoc(acts, a);
  }

  lemma IssuedNext(acts: seq<Act>, a: Act)
    ensures IssuedCount(acts + [a]) == IssuedCount(acts) + if a.Issued? then 1 else 0
  {
    Snoc(acts, a);
  }
}
