// The event loop as a function of its state: one step per event.
module Scheduler {
  import opened Wire
  import opened Rewrite
  import opened Frontend
  import BackendPool
  import Framer

  // `ring` is the wait ring, oldest waiter first.
  datatype State = State(fes: seq<Fe>, ring: seq<int>, pool: BackendPool.Pool)

  function SetFe(s: State, f: nat, fe: Fe): State
    requires f < |s.fes|
  {
    s.(fes := s.fes[f := fe])
  }

  function SetCore(s: State, f: nat, c: Core): State
    requires f < |s.fes|
  {
    SetFe(s, f, s.fes[f].(core := c))
  }

  function Flush(s: State, f: nat): State
    requires f < |s.fes|
  {
    SetCore(s, f, FlushOut(s.fes[f].core))
  }

  // ---- starting pipelines ----

  // The bytes of the rewritten Bind, None when the rewrite refuses it.
  function BindBytes(cfg: Config, c: Core, b: BindMsg): Option<Bytes> {
    match OnBind(c.cache, b, c.id)
    case None => None
    case Some(p) => Some(cfg.encode(p))
  }

  // async_begin and the first submit. From the queue an unknown statement is refused before
  // any checkout.
  function StartBind(cfg: Config, s: State, f: nat, b: BindMsg, fromQueue: bool): (r: (State, bool))
    requires f < |s.fes|
    ensures |r.0.fes| == |s.fes|
  {
    var fe := s.fes[f];
    if fromQueue && b.statement !in fe.core.cache then (s, false)
    else
      var (pool, got) := BackendPool.AsyncBegin(cfg.pool, s.pool, fe.core.id.group, BindBytes(cfg, fe.core, b));
      var p := OnBind(fe.core.cache, b, fe.core.id);
      if got.None? || p.None? then (s.(pool := pool), false)
      else
        (SetFe(s.(pool := pool), f,
               Fe(StartCore(fe.core, got.value, fromQueue), fe.queue, Issue(fe.log, Bind(b), p.value))), true)
  }

  // Join the wait ring; a frontend already in it keeps its place.
  function WaitersPush(s: State, f: nat): (State, bool) {
    if f in s.ring then (s, true)
    else if |s.ring| >= |s.fes| then (s, false)
    else (s.(ring := s.ring + [f]), true)
  }

  function Park(s: State, f: nat): (r: (State, bool))
    requires f < |s.fes|
    ensures |r.0.fes| == |s.fes|
  {
    var (t, ok) := WaitersPush(SetCore(s, f, s.fes[f].core.(wait := Waiting)), f);
    if ok then (t, true) else (SetCore(t, f, t.fes[f].core.(wait := Idle)), false)
  }

  // ---- handling messages ----

  // Any message but a Bind that needs a backend.
  function Handle(cfg: Config, s: State, f: nat, m: Msg): (r: State)
    requires f < |s.fes|
    ensures |r.fes| == |s.fes|
  {
    var fe := s.fes[f];
    var log := if m.Ignored? || m.Terminate? then fe.log else Handled(fe.log, m);
    if m.Query? && fe.core.ready && !cfg.rejectQuery then
      var (pool, w) := BackendPool.ExecQuery(cfg.pool, s.pool, fe.core.id.group);
      SetFe(s.(pool := pool), f, Fe(QueryCore(fe.core, w), fe.queue, log))
    else SetFe(s, f, Fe(HandleCore(cfg, fe.core, m), fe.queue, log))
  }

  // A Bind popped from the queue: start it, or put it back at the head and wait for a backend.
  function StartOrPark(cfg: Config, s: State, f: nat, m: Msg): (r: State)
    requires f < |s.fes| && m.Bind?
    ensures |r.fes| == |s.fes|
  {
    var (t, ok) := StartBind(cfg, s, f, m.bind, true);
    if ok then t else Park(SetFe(t, f, t.fes[f].(queue := [m] + t.fes[f].queue)), f).0
  }

  // Work off the request queue while the frontend is idle.
  function Drain(cfg: Config, s: State, f: nat): (r: State)
    requires f < |s.fes|
    ensures |r.fes| == |s.fes|
    decreases |s.fes[f].queue|
  {
    var fe := s.fes[f];
    if fe.core.wait != Idle || fe.queue == [] then Flush(s, f)
    else
      var m := fe.queue[0];
      var popped := SetFe(s, f, fe.(queue := fe.queue[1..]));
      if m.Bind? && fe.core.ready then
        Flush(StartOrPark(cfg, popped, f, m), f)
      else Drain(cfg, Handle(cfg, popped, f, m), f)
  }

  // ---- fair scheduling ----

  predicate InRange(s: State, i: int) { 0 <= i < |s.fes| }

  // One turn of the scheduling pass: the oldest waiter leaves the ring and is tried. If it
  // still finds no backend it joins the ring again, at the tail.
  function Turn(cfg: Config, s: State): (r: State)
    requires s.ring != []
    ensures |r.fes| == |s.fes|
  {
    var w := s.ring[0];
    var t := s.(ring := s.ring[1..]);
    if !InRange(t, w) || t.fes[w].core.st == Free || t.fes[w].core.wait != Waiting then t
    else
      var idle := SetCore(t, w, t.fes[w].core.(wait := Idle));
      if t.fes[w].queue == [] then idle
      else
        var u := Drain(cfg, idle, w);
        if u.fes[w].core.wait == Idle && u.fes[w].queue != [] then Park(u, w).0 else u
  }

  function Pass(cfg: Config, s: State, attempts: nat): (r: State)
    ensures |r.fes| == |s.fes|
    decreases attempts
  {
    if attempts == 0 || s.ring == [] then s else Pass(cfg, Turn(cfg, s), attempts - 1)
  }

  function FairSchedule(cfg: Config, s: State): (r: State)
    ensures |r.fes| == |s.fes|
  {
    Pass(cfg, s, |s.ring|)
  }

  // Waiters first, then the frontend that released the backend.
  function AfterRelease(cfg: Config, s: State, f: nat): (r: State)
    requires f < |s.fes|
    ensures |r.fes| == |s.fes|
  {
    var t := SetCore(s, f, ReleaseCore(s.fes[f].core));
    var u := if t.ring != [] then FairSchedule(cfg, t) else t;
    if u.fes[f].core.wait == Idle && u.fes[f].queue != [] then Drain(cfg, u, f) else Flush(u, f)
  }

  // ---- the end of a pipeline ----

  // The frontend runs a pipeline on a slot of the pool.
  predicate Runs(s: State, f: nat) {
    f < |s.fes| && s.fes[f].core.st != Free && s.fes[f].core.be.Some? && s.fes[f].core.be.value < |s.pool.conns|
  }

  function Conn(s: State, f: nat): BackendPool.BackendConn
    requires Runs(s, f)
  {
    s.pool.conns[s.fes[f].core.be.value]
  }

  function Complete(cfg: Config, s: State, f: nat): (r: State)
    requires Runs(s, f)
    ensures |r.fes| == |s.fes|
  {
    var sawError := Conn(s, f).pipe.st.sawError;
    var fe := if sawError then Drop(s.fes[f]) else s.fes[f];
    var pool := BackendPool.Finish(cfg.pool, s.pool, fe.core.be.value, false);
    AfterRelease(cfg, SetFe(s.(pool := pool), f, fe.(core := CompleteCore(fe.core, sawError))), f)
  }

  function Fail(cfg: Config, s: State, f: nat): (r: State)
    requires Runs(s, f)
    ensures |r.fes| == |s.fes|
  {
    var pool := BackendPool.Finish(cfg.pool, s.pool, s.fes[f].core.be.value, true);
    AfterRelease(cfg, SetCore(s.(pool := pool), f, FailCore(s.fes[f].core)), f)
  }

  function WaitersRemove(ring: seq<int>, f: int): (r: seq<int>)
    ensures |r| <= |ring|
  {
    if ring == [] then []
    else if ring[0] == f then WaitersRemove(ring[1..], f)
    else [ring[0]] + WaitersRemove(ring[1..], f)
  }

  function Close(cfg: Config, s: State, f: nat): (r: State)
    requires f < |s.fes|
    ensures |r.fes| == |s.fes|
  {
    if s.fes[f].core.st == Free then s
    else
      var t := s.(ring := WaitersRemove(s.ring, f));
      var u := if Runs(t, f) then
                 var pool := BackendPool.Finish(cfg.pool, t.pool, t.fes[f].core.be.value, true);
                 FairSchedule(cfg, SetCore(t.(pool := pool), f, t.fes[f].core.(be := None)))
               else t;
      SetFe(u, f, Drop(u.fes[f]).(core := CloseCore(u.fes[f].core)))
  }

  // ---- events ----

  datatype SendResult = Again | SendError | Sent(n: nat)
  datatype RecvResult = RecvError | Data(bytes: Bytes)

  datatype Event =
    | Accept(id: Identity, ready: bool)
    | Input(f: nat, ms: seq<Msg>)
    | SendDone(f: nat, sres: SendResult)
    | RecvDone(f: nat, rres: RecvResult)
    | CloseConn(f: nat)
    | Tick

  // The rest of the pipeline's bytes, or the first receive.
  function SubmitSend(s: State, f: nat): (r: State)
    requires Runs(s, f)
    ensures |r.fes| == |s.fes|
  {
    var c := s.fes[f].core;
    if c.sendPending then s
    else if BackendPool.SendPending(Conn(s, f)) == [] then SubmitRecv(SetCore(s, f, c.(wait := Reading)), f)
    else SetCore(s, f, c.(sendPending := true, wait := Sending))
  }

  function SubmitRecv(s: State, f: nat): (r: State)
    requires Runs(s, f)
    ensures |r.fes| == |s.fes|
  {
    var c := s.fes[f].core;
    if c.recvPending then s else SetCore(s, f, c.(recvPending := true, wait := Reading))
  }

  function OnSendDone(cfg: Config, s: State, f: nat, res: SendResult): (r: State)
    requires Runs(s, f)
    ensures |r.fes| == |s.fes|
  {
    var t := SetCore(s, f, s.fes[f].core.(sendPending := false));
    match res
    case Again => SubmitSend(t, f)
    case SendError => Fail(cfg, t, f)
    case Sent(n) => SubmitSend(t.(pool := BackendPool.SendAdvance(t.pool, t.fes[f].core.be.value, n)), f)
  }

  // What the receive path makes of the next chunk of this pipeline.
  function Received(cfg: Config, s: State, f: nat, data: Bytes): Framer.Scan
    requires Runs(s, f)
  {
    var pipe := Conn(s, f).pipe;
    Framer.Recv(Framer.Params(cfg.proto, true, cfg.respCap), cfg.accCap, pipe.acc, data, pipe.st, s.fes[f].core.resp)
  }

  function Store(s: State, f: nat, acc: Bytes, st: Framer.Status, resp: Bytes): (r: State)
    requires Runs(s, f)
    ensures Runs(r, f) && |r.fes| == |s.fes|
  {
    var b := s.fes[f].core.be.value;
    var c := Conn(s, f);
    SetCore(s.(pool := BackendPool.Set(s.pool, b, c.(pipe := c.pipe.(acc := acc, st := st)))), f,
            s.fes[f].core.(resp := resp))
  }

  function OnRecvDone(cfg: Config, s: State, f: nat, res: RecvResult): (r: State)
    requires Runs(s, f)
    ensures |r.fes| == |s.fes|
  {
    var t := SetCore(s, f, s.fes[f].core.(recvPending := false));
    if res.RecvError? || res.bytes == [] then Fail(cfg, t, f)
    else
      match Received(cfg, t, f, res.bytes)
      case Bad => Fail(cfg, t, f)
      case More(acc, st, resp) => SubmitRecv(Store(t, f, acc, st, resp), f)
      case Done(acc, st, resp) => Complete(cfg, Store(t, f, acc, st, resp), f)
  }

  function Arrive(fe: Fe, m: Msg): Fe { fe.(log := fe.log.(arrived := fe.log.arrived + [m])) }

  // One frontend message.
  function Process(cfg: Config, s: State, f: nat, m: Msg): (r: State)
    requires f < |s.fes|
    ensures |r.fes| == |s.fes|
  {
    var fe := s.fes[f];
    if m.Ignored? || m.Terminate? then Handle(cfg, s, f, m)
    else if fe.core.wait != Idle then SetFe(s, f, Enqueue(cfg, fe, m))
    else
      var t := SetFe(s, f, Arrive(fe, m));
      if !m.Bind? then Handle(cfg, t, f, m)
      else
        var u := SetCore(t, f, fe.core.(resp := [], gotExecute := false, gotSync := false));
        if !fe.core.ready then Handle(cfg, u, f, m)
        else
          var (v, ok) := StartBind(cfg, u, f, m.bind, false);
          if ok then v
          else Park(SetFe(v, f, v.fes[f].(queue := v.fes[f].queue + [Queued(m)])), f).0
  }

  function ProcessAll(cfg: Config, s: State, f: nat, ms: seq<Msg>): (r: State)
    requires f < |s.fes|
    ensures |r.fes| == |s.fes|
    decreases |ms|
  {
    if ms == [] then Flush(s, f) else ProcessAll(cfg, Process(cfg, s, f, ms[0]), f, ms[1..])
  }

  // The first free slot, if any.
  function FreeSlot(fes: seq<Fe>): (r: nat)
    ensures r <= |fes|
    ensures r < |fes| ==> fes[r].core.st == Free
  {
    if fes == [] then 0 else if fes[0].core.st == Free then 0 else 1 + FreeSlot(fes[1..])
  }

  // Events that cannot occur in a state change nothing.
  function Step(cfg: Config, s: State, e: Event): (r: State)
    ensures |r.fes| == |s.fes|
  {
    match e
    case Accept(id, ready) =>
      var k := FreeSlot(s.fes);
      if k < |s.fes| then SetFe(s, k, NewFe(id, ready)) else s
    case Input(f, ms) =>
      if f < |s.fes| && s.fes[f].core.st != Free then ProcessAll(cfg, s, f, ms) else s
    case SendDone(f, res) =>
      if Runs(s, f) && s.fes[f].core.sendPending then OnSendDone(cfg, s, f, res) else s
    case RecvDone(f, res) =>
      if Runs(s, f) && s.fes[f].core.recvPending then OnRecvDone(cfg, s, f, res) else s
    case CloseConn(f) => if f < |s.fes| then Close(cfg, s, f) else s
    case Tick => s.(pool := BackendPool.Maintain(cfg.pool, s.pool))
  }

  function Run(cfg: Config, s: State, es: seq<Event>): (r: State)
    ensures |r.fes| == |s.fes|
    decreases |es|
  {
    if es == [] then s else Run(cfg, Step(cfg, s, es[0]), es[1..])
  }
}
