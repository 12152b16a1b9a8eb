// Whose output a connection is relayed: its own pipelines', in order and once at most -- unless a
// forwarded query writes over one that waits for its Sync.
module Responses {
  import opened Wire
  import opened Frontend
  import opened Scheduler
  import opened Invariant
  import opened Steps
  import opened Dialogue
  import opened DialogueSteps
  import opened Transcript
  import BackendPool

  // ---- the output as it was received ----

  // The output that waits, as it was received.
  function Origin(acts: seq<Act>): Bytes {
    if acts == [] then []
    else
      var before := acts[..|acts| - 1];
      match acts[|acts| - 1]
      case Ended(out, failed) => if failed || SyncSeen(before) then [] else out
      case Issued => []
      case Broke => []
      case Did(m) => if m.Sync? then [] else Origin(before)
      case _ => Origin(before)
  }

  // What forwarded queries have written since.
  function Writes(acts: seq<Act>): seq<Bytes> {
    if acts == [] then []
    else
      var before, a := acts[..|acts| - 1], acts[|acts| - 1];
      if a.Asked? && a.trip.Trip? then Writes(before) + [a.trip.answer.bytes]
      else if a.Ended? || a.Issued? || a.Broke? || a == Did(Sync) then []
      else Writes(before)
  }

  function Written(out: Bytes, ws: seq<Bytes>): (r: Bytes)
    ensures |r| == |out|
  {
    if ws == [] then out else Smeared(Written(out, ws[..|ws| - 1]), ws[|ws| - 1])
  }

  lemma WrittenSnoc(out: Bytes, ws: seq<Bytes>, w: Bytes)
    ensures Written(out, ws + [w]) == Smeared(Written(out, ws), w)
  {
    assert (ws + [w])[..|ws|] == ws;
  }

  // What waits is the output received, with those writes over it.
  lemma {:induction false} OutputIs(acts: seq<Act>)
    ensures Output(acts) == Written(Origin(acts), Writes(acts))
  {
    if acts != [] {
      var before, a := acts[..|acts| - 1], acts[|acts| - 1];
      OutputIs(before);
      if a.Asked? && a.trip.Trip? { WrittenSnoc(Origin(before), Writes(before), a.trip.answer.bytes); }
    }
  }

  // ---- exactly when it survives ----

  // None of the queries wrote anything.
  predicate Silent(ws: seq<Bytes>) { forall k :: 0 <= k < |ws| ==> ws[k] == [] }

  lemma {:induction false} WrittenSilent(out: Bytes, ws: seq<Bytes>)
    requires Silent(ws)
    ensures Written(out, ws) == out
  {
    if ws != [] {
      WrittenSilent(out, ws[..|ws| - 1]);
      assert Smeared(out, []) == out;
    }
  }

  // A byte that this one is not.
  function Other(b: Byte): Byte { if b == 0 then 1 else 0 }

  // An output of one byte that the writes change.
  lemma {:induction false} WrittenLoud(ws: seq<Bytes>, k: nat) returns (b: Byte)
    requires k < |ws| && ws[k] != []
    ensures Written([b], ws) != [b]
  {
    var n := |ws| - 1;
    if ws[n] != [] {
      b := Other(ws[n][0]);
      assert Written([b], ws)[0] == ws[n][0];
    } else {
      b := WrittenLoud(ws[..n], k);
      assert Smeared(Written([b], ws[..n]), []) == Written([b], ws[..n]);
    }
  }

  // A waiting output survives, whatever it is, exactly if no query forwarded meanwhile wrote
  // anything.
  lemma SurvivesExactly(ws: seq<Bytes>)
    ensures (forall out :: Written(out, ws) == out) <==> Silent(ws)
  {
    if Silent(ws) {
      forall out ensures Written(out, ws) == out {
        WrittenSilent(out, ws);
      }
    } else {
      var k :| 0 <= k < |ws| && ws[k] != [];
      var b := WrittenLoud(ws, k);
      var out: Bytes := [b];
      assert Written(out, ws) != out;
    }
  }

  // ---- own outputs, in order ----

  // The outputs of the pipelines that ended, and the responses relayed.
  function Outs(acts: seq<Act>): seq<Bytes> {
    if acts == [] then []
    else Outs(acts[..|acts| - 1]) + if acts[|acts| - 1].Ended? then [acts[|acts| - 1].out] else []
  }

  function Replies(ps: seq<Piece>): seq<Bytes> {
    if ps == [] then []
    else Replies(ps[..|ps| - 1]) + if ps[|ps| - 1].Response? then [ps[|ps| - 1].bytes] else []
  }

  lemma RepliesConcat(a: seq<Piece>, b: seq<Piece>)
    requires |b| <= 1
    ensures Replies(a + b) == Replies(a) + Replies(b)
  {
    if b == [] {
      assert a + b == a;
    } else {
      assert (a + b)[..|a + b| - 1] == a && b[..0] == [];
    }
  }

  // The responses relayed, as they were received.
  function Relayed(acts: seq<Act>): seq<Bytes> {
    if acts == [] then []
    else Relayed(acts[..|acts| - 1]) + RelayedBy(acts[..|acts| - 1], acts[|acts| - 1])
  }

  function RelayedBy(before: seq<Act>, a: Act): seq<Bytes> {
    match a
    case Did(m) => if m.Sync? && Origin(before) != [] then [Origin(before)] else []
    case Ended(out, failed) => if out != [] && (failed || SyncSeen(before)) then [out] else []
    case _ => []
  }

  // `a` is an order-preserving subsequence of `b`.
  predicate Sub(a: seq<Bytes>, b: seq<Bytes>)
    decreases |b|
  {
    a == [] ||
    (b != [] && ((b[|b| - 1] == a[|a| - 1] && Sub(a[..|a| - 1], b[..|b| - 1])) || Sub(a, b[..|b| - 1])))
  }

  lemma SubBoth(a: seq<Bytes>, b: seq<Bytes>, x: Bytes)
    requires Sub(a, b)
    ensures Sub(a + [x], b + [x])
  {
    assert (a + [x])[..|a|] == a && (b + [x])[..|b|] == b;
  }

  lemma SubMore(a: seq<Bytes>, b: seq<Bytes>, x: Bytes)
    requires Sub(a, b)
    ensures Sub(a, b + [x])
  {
    assert (b + [x])[..|b|] == b;
  }

  // What was relayed, and what still waits, are outputs in their order.
  ghost predicate InOrder(relayed: seq<Bytes>, origin: Bytes, outs: seq<Bytes>) {
    Sub(relayed, outs) && (origin != [] ==> Sub(relayed + [origin], outs))
  }

  lemma EndInOrder(r: seq<Bytes>, outs: seq<Bytes>, out: Bytes)
    requires Sub(r, outs)
    ensures InOrder(r, out, outs + [out]) && InOrder(r + [out], [], outs + [out])
  {
    SubBoth(r, outs, out);
    SubMore(r, outs, out);
  }

  // An act that does not end a pipeline leaves what waits, drops it, or relays it.
  lemma WaitsOrRelays(before: seq<Act>, a: Act)
    requires !a.Ended?
    ensures Origin(before + [a]) == Origin(before) || Origin(before + [a]) == []
    ensures RelayedBy(before, a) == []
            || (Origin(before) != [] && RelayedBy(before, a) == [Origin(before)] && Origin(before + [a]) == [])
  {
    Snoc(before, a);
  }

  lemma EndsOrRelays(before: seq<Act>, a: Act)
    requires a.Ended?
    ensures (Origin(before + [a]) == a.out && RelayedBy(before, a) == [])
            || (Origin(before + [a]) == [] && (RelayedBy(before, a) == [a.out] || RelayedBy(before, a) == []))
  {
    Snoc(before, a);
  }

  lemma {:induction false} OwnInOrder(acts: seq<Act>)
    ensures InOrder(Relayed(acts), Origin(acts), Outs(acts))
  {
    if acts != [] {
      var before, a := acts[..|acts| - 1], acts[|acts| - 1];
      OwnInOrder(before);
      assert before + [a] == acts;
      OwnNext(Relayed(before), Outs(before), before, a);
    }
  }

  lemma OwnNext(r: seq<Bytes>, outs: seq<Bytes>, before: seq<Act>, a: Act)
    requires InOrder(r, Origin(before), outs)
    ensures InOrder(r + RelayedBy(before, a), Origin(before + [a]), outs + if a.Ended? then [a.out] else [])
  {
    assert r + [] == r && outs + [] == outs;
    if a.Ended? {
      EndsOrRelays(before, a);
      EndInOrder(r, outs, a.out);
    } else {
      WaitsOrRelays(before, a);
    }
  }

  // No forwarded query wrote anything while an output waited for the Sync that relayed it.
  predicate Unspoiled(acts: seq<Act>) {
    acts == [] ||
    (Unspoiled(acts[..|acts| - 1])
     && (acts[|acts| - 1] == Did(Sync) ==> Silent(Writes(acts[..|acts| - 1]))))
  }

  lemma RepliesBy(before: seq<Act>, a: Act)
    requires a == Did(Sync) ==> Silent(Writes(before))
    ensures Replies(PiecesBy(before, a)) == RelayedBy(before, a)
  {
    OutputIs(before);
    if a == Did(Sync) { WrittenSilent(Origin(before), Writes(before)); }
    var p := PiecesBy(before, a);
    if p != [] { assert p[..0] == []; }
  }

  // Where nothing was written over an output that waited, the responses relayed are the outputs
  // as they were received.
  lemma {:induction false} RelayedWhole(acts: seq<Act>)
    requires Unspoiled(acts)
    ensures Replies(Pieces(acts)) == Relayed(acts)
  {
    if acts != [] {
      var before, a := acts[..|acts| - 1], acts[|acts| - 1];
      RelayedWhole(before);
      RepliesBy(before, a);
      PiecesOne(before, a);
      RepliesConcat(Pieces(before), PiecesBy(before, a));
    }
  }

  lemma PiecesOne(before: seq<Act>, a: Act)
    ensures |PiecesBy(before, a)| <= 1
  {
  }

  lemma {:induction false} OutsOfEnds(acts: seq<Act>)
    ensures Outs(EndsOf(acts)) == Outs(acts)
  {
    if acts != [] {
      var before, a := acts[..|acts| - 1], acts[|acts| - 1];
      OutsOfEnds(before);
      assert EndsOf(before) + [] == EndsOf(before) && Outs(before) + [] == Outs(before);
      if a.Ended? || a.Broke? { Snoc(EndsOf(before), a); }
    }
  }

  // In every reachable state: the responses relayed are outputs of receives that completed this
  // connection's own pipelines, in order, each at most once; and they are relayed as they were
  // received, unless a forwarded query wrote over one.
  lemma ResponsesAreOwn(cfg: Config, s: State, es: seq<Event>, f: nat)
    requires Proper(cfg) && Initial(s) && f < |s.fes|
    ensures var c := Run(cfg, s, es).fes[f].core;
            && Relays(c.sent) == Bodies(Pieces(c.acts))
            && Sub(Relayed(c.acts), Outs(RunEnds(cfg, s, es, f, [])))
            && (Unspoiled(c.acts) ==> Replies(Pieces(c.acts)) == Relayed(c.acts))
  {
    var acts := Run(cfg, s, es).fes[f].core.acts;
    ToldExactly(cfg, s, es, f);
    OutcomesRecorded(cfg, s, es, f);
    OutsOfEnds(acts);
    OwnInOrder(acts);
    if Unspoiled(acts) { RelayedWhole(acts); }
  }

  // ---- an output written over ----

  // f's turn to act: nothing of it is in progress.
  predicate AtRest(cfg: Config, s: State, f: nat) {
    f < |s.fes| && s.fes[f].core.st != Free && s.fes[f].core.wait == Idle && s.fes[f].core.ready && !cfg.rejectQuery
  }

  // With nothing queued, the end of a pipeline leaves its connection at rest with the output.
  lemma QuietEnd(cfg: Config, s: State, t: State, f: nat)
    requires Proper(cfg) && Inv(cfg, s) && Between(cfg, s, t, f) && t.fes[f].queue == [] && !Conn(t, f).pipe.st.sawError
    ensures Complete(cfg, t, f).fes[f].core == FlushOut(ReleaseCore(CompleteCore(t.fes[f].core, false)))
  {
    var fe := t.fes[f].(core := CompleteCore(t.fes[f].core, false));
    var w := SetFe(t.(pool := BackendPool.Finish(cfg.pool, t.pool, s.fes[f].core.be.value, false)), f, fe);
    EndOpen(cfg, s, t, w, f, fe, false);
    var v := SetCore(w, f, ReleaseCore(fe.core));
    PassInv(cfg, v, |v.ring|, f);
  }

  lemma EndLeaves(c: Core)
    requires !c.gotSync
    ensures var d := FlushOut(ReleaseCore(CompleteCore(c, false)));
            d.wait == Idle && d.st == c.st && d.ready == c.ready && d.resp == c.resp
  {
  }

  lemma DoneIsComplete(cfg: Config, s: State, f: nat, data: Bytes)
    requires Runs(s, f) && s.fes[f].core.recvPending && data != [] && Received(cfg, s, f, data).Done?
    ensures var t, r := SetCore(s, f, s.fes[f].core.(recvPending := false)), Received(cfg, s, f, data);
            Step(cfg, s, RecvDone(f, Data(data))) == Complete(cfg, Store(t, f, r.rest, r.st, r.out), f)
  {
    ReceivedSame(cfg, s, f, data);
  }

  // An output that no Sync has asked for waits for one.
  lemma OutputWaits(cfg: Config, s: State, f: nat, data: Bytes)
    requires Proper(cfg) && Inv(cfg, s) && AllServed(cfg, s) && Runs(s, f) && s.fes[f].core.recvPending && data != []
    requires var r := Received(cfg, s, f, data); r.Done? && !r.st.sawError
    requires s.fes[f].queue == [] && !SyncSeen(s.fes[f].core.acts)
    ensures var c := Step(cfg, s, RecvDone(f, Data(data))).fes[f].core;
            c.wait == Idle && c.st == s.fes[f].core.st && c.ready && c.resp == Received(cfg, s, f, data).out
  {
    var t, r := SetCore(s, f, s.fes[f].core.(recvPending := false)), Received(cfg, s, f, data);
    var u := Store(t, f, r.rest, r.st, r.out);
    DoneIsComplete(cfg, s, f, data);
    RecvMute(cfg, s, f);
    StoreMute(cfg, s, t, f, r.rest, r.st, r.out);
    assert Shape(cfg, s.fes[f]) && Current(s.fes[f].core);
    QuietEnd(cfg, s, u, f);
    EndLeaves(u.fes[f].core);
  }

  lemma QueryArrives(cfg: Config, s: State, f: nat, q: string)
    requires AtRest(cfg, s, f)
    ensures var c, u := s.fes[f].core, Process(cfg, s, f, Query(q));
            && |u.fes| == |s.fes|
            && u.fes[f].core == QueryCore(c, BackendPool.ExecQuery(cfg.pool, s.pool, c.id.group).1)
  {
  }

  lemma SyncArrives(cfg: Config, s: State, f: nat)
    requires f < |s.fes| && s.fes[f].core.wait == Idle
    ensures Process(cfg, s, f, Sync).fes[f].core == HandleCore(cfg, s.fes[f].core, Sync)
  {
  }

  lemma QuerySyncActs(cfg: Config, s: State, f: nat, q: string)
    requires AtRest(cfg, s, f)
    ensures var c := s.fes[f].core;
            var t := BackendPool.ExecQuery(cfg.pool, s.pool, c.id.group).1;
            Step(cfg, s, Input(f, [Query(q), Sync])).fes[f].core.acts == c.acts + [Asked(t)] + [Did(Sync)]
  {
    var c := s.fes[f].core;
    var t := BackendPool.ExecQuery(cfg.pool, s.pool, c.id.group).1;
    var u := Process(cfg, s, f, Query(q));
    var v := Process(cfg, u, f, Sync);
    QueryArrives(cfg, s, f, q);
    AskedMarks(c, t);
    SyncArrives(cfg, u, f);
    DidActs(cfg, u.fes[f].core, Sync);
    assert [Query(q), Sync][1..] == [Sync] && [Sync][1..] == [];
    assert ProcessAll(cfg, s, f, [Query(q), Sync]) == ProcessAll(cfg, u, f, [Sync]);
    assert ProcessAll(cfg, u, f, [Sync]) == ProcessAll(cfg, v, f, []);
    assert ProcessAll(cfg, v, f, []) == Flush(v, f);
  }

  lemma TwoPieces(acts: seq<Act>, t: BackendPool.Trip)
    requires Answered(t) && Output(acts) != []
    ensures Pieces(acts + [Asked(t)] + [Did(Sync)])
         == Pieces(acts) + [Result(t.answer.bytes)] + [Response(Smeared(Output(acts), t.answer.bytes))]
  {
    Snoc(acts, Asked(t));
    Snoc(acts + [Asked(t)], Did(Sync));
  }

  lemma SpoiledRelays(max: nat, c: Core, d: Core, t: BackendPool.Trip)
    requires Faithful(max, c) && Faithful(max, d) && Answered(t) && Output(c.acts) != []
    requires d.acts == c.acts + [Asked(t)] + [Did(Sync)]
    ensures Relays(d.sent) == Relays(c.sent) + [t.answer.bytes] + [Smeared(Output(c.acts), t.answer.bytes)]
  {
    var last := Response(Smeared(Output(c.acts), t.answer.bytes));
    TwoPieces(c.acts, t);
    BodiesConcat(Pieces(c.acts), [Result(t.answer.bytes)]);
    BodiesConcat(Pieces(c.acts) + [Result(t.answer.bytes)], [last]);
  }

  // The failing input: an output waits for its Sync, and the client sends a query before it. The
  // query's result is relayed, and then the output with that result written over its start.
  lemma OutputSpoiled(cfg: Config, s: State, f: nat, q: string)
    requires Proper(cfg) && Inv(cfg, s) && AllServed(cfg, s) && AtRest(cfg, s, f) && s.fes[f].core.resp != []
    requires Answered(BackendPool.ExecQuery(cfg.pool, s.pool, s.fes[f].core.id.group).1)
    ensures var c := s.fes[f].core;
            var result := BackendPool.ExecQuery(cfg.pool, s.pool, c.id.group).1.answer.bytes;
            Relays(Step(cfg, s, Input(f, [Query(q), Sync])).fes[f].core.sent)
            == Relays(c.sent) + [result] + [Smeared(c.resp, result)]
  {
    var c, e := s.fes[f].core, Input(f, [Query(q), Sync]);
    StepServed(cfg, s, e);
    assert Served(cfg, s.fes[f]) && Served(cfg, Step(cfg, s, e).fes[f]);
    QuerySyncActs(cfg, s, f, q);
    SpoiledRelays(cfg.cacheMax, c, Step(cfg, s, e).fes[f].core, BackendPool.ExecQuery(cfg.pool, s.pool, c.id.group).1);
  }
}
