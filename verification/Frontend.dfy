// One frontend connection as a value: what each of its steps does to it alone.
module Frontend {
  import opened Wire
  import opened Rewrite
  import StmtCache
  import BackendPool
  import Framer

  datatype Config = Config(
    pool: BackendPool.PoolConfig,
    proto: Framer.Protocol,
    identitySlot: int,
    paramName: string,
    rejectQuery: bool,
    queueMax: nat,
    cacheMax: nat,
    accCap: nat,
    respCap: nat,
    encode: Pipeline -> Bytes)

  datatype ConnState = Free | Active | Closing

  datatype BeWait = Idle | Sending | Reading | Waiting

  datatype Reply =
    | ParseComplete
    | BindComplete
    | CommandComplete
    | ReadyForQuery
    | ErrorResponse(code: string)
    | Relay(bytes: Bytes)

  // What happens to a connection: a message arrives while it is busy, and is kept in the queue or
  // refused; a message is handled without a backend, or by forwarding it; a pipeline is issued,
  // ends with ReadyForQuery and this output, or breaks.
  datatype Act =
    | Kept(m: Msg)
    | Refused(m: Msg)
    | Did(m: Msg)
    | Asked(trip: BackendPool.Trip)
    | Issued
    | Ended(out: Bytes, failed: bool)
    | Broke

  // `pend` is the protocol library's own output, `sent` what was queued to the socket; backend
  // bytes go to `sent` directly. `sent` and `acts` are traces, which no decision depends on.
  datatype Core = Core(
    st: ConnState,
    id: Identity,
    ready: bool,
    cache: map<string, Prepared>,
    wait: BeWait,
    be: Option<nat>,
    sendPending: bool,
    recvPending: bool,
    gotExecute: bool,
    gotSync: bool,
    resp: Bytes,
    pend: seq<Reply>,
    sent: seq<Reply>,
    acts: seq<Act>)

  // The history of a connection: what arrived, what was handled and in which form, the
  // pipelines issued to backends, and how many messages were lost.
  datatype Log = Log(arrived: seq<Msg>, handled: seq<Msg>, issued: seq<Pipeline>, lost: nat)

  datatype Fe = Fe(core: Core, queue: seq<Msg>, log: Log)

  function NewCore(id: Identity, ready: bool): Core {
    Core(Active, id, ready, map[], Idle, None, false, false, false, false, [], [], [], [])
  }

  function NewFe(id: Identity, ready: bool): Fe { Fe(NewCore(id, ready), [], Log([], [], [], 0)) }

  const NOBODY: Identity := Identity([], "", -1)

  function FreeFe(): Fe { NewFe(NOBODY, false).(core := NewCore(NOBODY, false).(st := Free)) }

  function Note(c: Core, a: Act): Core { c.(acts := c.acts + [a]) }

  function Emit(c: Core, rs: seq<Reply>): Core { c.(pend := c.pend + rs) }

  // drain_frontend_out
  function FlushOut(c: Core): Core { c.(sent := c.sent + c.pend, pend := []) }

  function RelayResp(c: Core): Core { c.(sent := c.sent + [Relay(c.resp)], resp := []) }

  function ParseEntry(cfg: Config, id: Identity, p: ParseMsg): Prepared {
    StmtCache.Entry(p, ParseSlot(if id.slot >= 0 then id.slot else cfg.identitySlot, cfg.paramName, p.query))
  }

  function HandleParse(c: Core, cacheMax: nat, e: Prepared): Core {
    if StmtCache.PutFits(c.cache, cacheMax, e.name) then
      Emit(c.(cache := StmtCache.PutSpec(c.cache, cacheMax, e)), [ParseComplete])
    else Emit(c, [ErrorResponse("26000"), ReadyForQuery])
  }

  function HandleCore(cfg: Config, c: Core, m: Msg): Core { Note(Answer(cfg, c, m), Did(m)) }

  function Answer(cfg: Config, c: Core, m: Msg): Core {
    match m
    case Parse(p) => HandleParse(c, cfg.cacheMax, ParseEntry(cfg, c.id, p))
    case Bind(_) => Emit(c, [BindComplete])
    case Execute => if c.resp == [] then Emit(c, [CommandComplete]) else c
    case Sync => if c.resp != [] then RelayResp(c) else Emit(c, [ReadyForQuery])
    case Query(_) => Emit(c, [ErrorResponse("0A000"), ReadyForQuery])
    case Terminate => c.(st := Closing)
    case Ignored => c
  }

  // A forwarded query shares the response buffer with a Bind result not yet synced.
  function Overwrite(resp: Bytes, written: Bytes): Bytes {
    if |written| >= |resp| then written[..|resp|] else written + resp[|written|..]
  }

  function QueryCore(c: Core, t: BackendPool.Trip): Core {
    Note(
      match t
      case NoBackend => Emit(c, [ErrorResponse("08006"), ReadyForQuery])
      case Trip(_, f) => ResultCore(c.(resp := Overwrite(c.resp, f.bytes)), f),
      Asked(t))
  }

  function ResultCore(c: Core, f: BackendPool.Flushed): Core {
    if f.ok && f.bytes != [] then c.(sent := c.sent + [Relay(f.bytes)])
    else Emit(c, [ErrorResponse("08006"), ReadyForQuery])
  }

  function Handled(l: Log, m: Msg): Log { l.(handled := l.handled + [m]) }

  // A message that arrives while the frontend is not idle.
  predicate Fits(cfg: Config, fe: Fe) { |fe.queue| < cfg.queueMax }

  function EnqueueCore(c: Core, m: Msg, fits: bool): Core {
    Note(Mark(c, m, fits), if fits then Kept(m) else Refused(m))
  }

  function Mark(c: Core, m: Msg, fits: bool): Core {
    match m
    case Parse(_) => if fits then c else Emit(c, [ErrorResponse("53300")])
    case Bind(_) => if fits then c else Emit(c, [ErrorResponse("53300"), ReadyForQuery])
    case Query(_) => if fits then c else Emit(c, [ErrorResponse("53300"), ReadyForQuery])
    case Execute => if fits then c else c.(gotExecute := true)
    case Sync => c.(gotSync := true)
    case _ => c
  }

  function Enqueue(cfg: Config, fe: Fe, m: Msg): Fe {
    var fits := Fits(cfg, fe);
    Fe(EnqueueCore(fe.core, m, fits),
       if fits then fe.queue + [Queued(m)] else fe.queue,
       fe.log.(arrived := fe.log.arrived + [m], lost := fe.log.lost + if fits then 0 else 1))
  }

  // A pipeline has been started on backend slot b and its first send submitted.
  function StartCore(c: Core, b: nat, fromQueue: bool): Core {
    var d := Note(c, Issued).(be := Some(b), resp := [], sendPending := true, wait := Sending);
    if fromQueue then d.(gotExecute := false, gotSync := false) else d
  }

  function Issue(l: Log, m: Msg, p: Pipeline): Log {
    Handled(l, m).(issued := l.issued + [p])
  }

  // ReadyForQuery has been seen; the response is in resp.
  function CompleteCore(c: Core, sawError: bool): Core {
    var n := Note(c, Ended(c.resp, sawError));
    var d := if sawError then n.(gotExecute := false) else Emit(n, [BindComplete]);
    FlushOut(
      if d.gotSync && d.resp != [] then RelayResp(d)
      else if sawError && d.resp != [] then RelayResp(d).(gotSync := false)
      else if d.gotSync then Emit(d, [ReadyForQuery])
      else d)
  }

  function FailCore(c: Core): Core {
    FlushOut(Emit(Note(c, Broke).(resp := []), [ErrorResponse("08006"), ReadyForQuery]))
  }

  // The backend has been given back.
  function ReleaseCore(c: Core): Core {
    c.(wait := Idle, be := None, gotExecute := false, gotSync := false)
  }

  function CloseCore(c: Core): Core {
    c.(st := Free, wait := Idle, be := None, sendPending := false, recvPending := false)
  }

  function Drop(fe: Fe): Fe {
    fe.(queue := [], log := fe.log.(lost := fe.log.lost + |fe.queue|))
  }
}
