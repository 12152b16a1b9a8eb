// The event loop in place: connections in an array, their request queues and the wait ring in
// circular buffers, the pool in its array of slots.
module EventLoop {
  import opened Wire
  import opened Rewrite
  import opened Frontend
  import opened Scheduler
  import opened Queues
  import Invariant
  import opened Steps
  import BackendPool
  import PoolCreate
  import PoolSlots
  import Framer

  // No connection is in use and nobody waits.
  function FirstState(slots: nat, p: BackendPool.Pool): State {
    State(seq(slots, i => FreeFe()), [], p)
  }

  method NewQueues(n: nat, capacity: nat) returns (qs: seq<RequestQueue>)
    requires capacity > 0
    ensures |qs| == n
    ensures forall i :: 0 <= i < n ==>
      fresh(qs[i]) && fresh(qs[i].buf) && qs[i].Valid() && qs[i].Contents() == [] && qs[i].buf.Length == capacity
    ensures forall i, j :: 0 <= i < j < n ==> qs[i] != qs[j] && qs[i].buf != qs[j].buf
  {
    qs := [];
    for k := 0 to n
      invariant |qs| == k
      invariant forall i :: 0 <= i < k ==>
        fresh(qs[i]) && fresh(qs[i].buf) && qs[i].Valid() && qs[i].Contents() == [] && qs[i].buf.Length == capacity
      invariant forall i, j :: 0 <= i < j < k ==> qs[i] != qs[j] && qs[i].buf != qs[j].buf
    {
      var q := new RequestQueue(capacity);
      qs := qs + [q];
    }
  }

  class Loop {
    const cfg: Config
    const conns: array<Core>
    const queues: seq<RequestQueue>
    const waiters: WaitRing
    const pool: PoolSlots.SlotPool
    // The abstract state, with every connection's history.
    ghost var s: State

    ghost function Repr(): set<object> {
      {this, conns, waiters, waiters.buf, pool, pool.conns} + (set q <- queues) + (set q <- queues :: q.buf)
    }

    // No two connections share a queue.
    ghost predicate Apart() {
      && |queues| == conns.Length == waiters.buf.Length
      && pool.cfg == cfg.pool
      && (forall i :: 0 <= i < |queues| ==> queues[i].buf.Length == cfg.queueMax)
      && (forall i, j :: 0 <= i < j < |queues| ==> queues[i] != queues[j] && queues[i].buf != queues[j].buf)
    }

    ghost predicate Valid()
      reads Repr()
    {
      && Apart()
      && |s.fes| == conns.Length
      && (forall i :: 0 <= i < |queues| ==>
            queues[i].Valid() && s.fes[i].core == conns[i] && s.fes[i].queue == queues[i].Contents())
      && waiters.Valid() && s.ring == waiters.Contents()
      && s.pool == pool.Abs()
    }

    // No connections, nobody waits; the pool is given.
    constructor (cfg: Config, slots: nat, pool: PoolSlots.SlotPool)
      requires slots > 0 && cfg.queueMax > 0 && pool.cfg == cfg.pool
      ensures Valid() && this.cfg == cfg && this.pool == pool && fresh(Repr() - {pool, pool.conns})
      ensures s == FirstState(slots, pool.Abs())
    {
      this.cfg := cfg;
      this.pool := pool;
      conns := new Core[slots](i => FreeFe().core);
      waiters := new WaitRing(slots);
      var qs := NewQueues(slots, cfg.queueMax);
      queues := qs;
      s := FirstState(slots, pool.Abs());
    }

    // ---- the state of one connection ----

    method Put(f: nat, c: Core)
      requires Valid() && f < conns.Length
      modifies this`s, conns
      ensures Valid() && s == SetCore(old(s), f, c)
    {
      conns[f] := c;
      s := SetCore(s, f, c);
    }

    // The same, with the connection's history brought up to date.
    method PutLogged(f: nat, c: Core, ghost log: Log)
      requires Valid() && f < conns.Length
      modifies this`s, conns
      ensures Valid() && s == SetFe(old(s), f, Fe(c, old(s).fes[f].queue, log))
    {
      conns[f] := c;
      s := SetFe(s, f, Fe(c, s.fes[f].queue, log));
    }

    method Enq(f: nat, m: Msg) returns (ok: bool)
      requires Valid() && f < conns.Length
      modifies this`s, queues[f], queues[f].buf
      ensures Valid() && ok == (|old(s).fes[f].queue| < cfg.queueMax)
      ensures s == if ok then SetFe(old(s), f, old(s).fes[f].(queue := old(s).fes[f].queue + [m])) else old(s)
    {
      ok := queues[f].Push(m);
      if ok { s := SetFe(s, f, s.fes[f].(queue := s.fes[f].queue + [m])); }
    }

    method Deq(f: nat) returns (m: Option<Msg>)
      requires Valid() && f < conns.Length
      modifies this`s, queues[f], queues[f].buf
      ensures Valid() && (m.None? <==> old(s).fes[f].queue == [])
      ensures m.None? ==> s == old(s)
      ensures m.Some? ==>
        m.value == old(s).fes[f].queue[0] && s == SetFe(old(s), f, old(s).fes[f].(queue := old(s).fes[f].queue[1..]))
    {
      m := queues[f].Pop();
      if m.Some? { s := SetFe(s, f, s.fes[f].(queue := s.fes[f].queue[1..])); }
    }

    method EnqFront(f: nat, m: Msg) returns (ok: bool)
      requires Valid() && f < conns.Length
      modifies this`s, queues[f], queues[f].buf
      ensures Valid() && ok == (|old(s).fes[f].queue| < cfg.queueMax)
      ensures s == if ok then SetFe(old(s), f, old(s).fes[f].(queue := [m] + old(s).fes[f].queue)) else old(s)
    {
      ok := queues[f].PushFront(m);
      if ok { s := SetFe(s, f, s.fes[f].(queue := [m] + s.fes[f].queue)); }
    }

    method DropQueue(f: nat)
      requires Valid() && f < conns.Length
      modifies this`s, queues[f], queues[f].buf
      ensures Valid() && s == SetFe(old(s), f, Drop(old(s).fes[f]))
    {
      queues[f].Clear();
      s := SetFe(s, f, Drop(s.fes[f]));
    }

    // ---- output, parking, handling ----

    method FlushOutput(f: nat)
      requires Valid() && f < conns.Length
      modifies this`s, conns
      ensures Valid() && s == Flush(old(s), f)
    {
      Put(f, FlushOut(conns[f]));
    }

    method JoinRing(f: nat) returns (ok: bool)
      requires Valid() && f < conns.Length
      modifies this`s, waiters, waiters.buf
      ensures Valid() && (s, ok) == WaitersPush(old(s), f)
    {
      ok := waiters.Push(f);
      s := s.(ring := waiters.Contents());
    }

    method ParkForBackend(f: nat) returns (ok: bool)
      requires Valid() && f < conns.Length
      modifies this`s, conns, waiters, waiters.buf
      ensures Valid() && (s, ok) == Park(old(s), f)
    {
      Put(f, conns[f].(wait := Waiting));
      ok := JoinRing(f);
      if !ok { Put(f, conns[f].(wait := Idle)); }
    }

    method QueryPool(group: string) returns (w: BackendPool.Trip)
      requires Valid()
      modifies this`s, pool, pool.conns
      ensures Valid()
      ensures var (p, v) := BackendPool.ExecQuery(cfg.pool, old(s).pool, group); s == old(s).(pool := p) && w == v
    {
      w := pool.Query(group);
      s := s.(pool := pool.Abs());
    }

    method BeginOnPool(group: string, bytes: Option<Bytes>) returns (got: Option<nat>)
      requires Valid()
      modifies this`s, pool, pool.conns
      ensures Valid()
      ensures var (p, g) := BackendPool.AsyncBegin(cfg.pool, old(s).pool, group, bytes);
              s == old(s).(pool := p) && got == g
    {
      got := pool.Begin(group, bytes);
      s := s.(pool := pool.Abs());
    }

    method HandleMessage(f: nat, m: Msg)
      requires Valid() && f < conns.Length
      modifies this`s, conns, pool, pool.conns
      ensures Valid() && s == Handle(cfg, old(s), f, m)
    {
      var c := conns[f];
      ghost var log := if m.Ignored? || m.Terminate? then s.fes[f].log else Handled(s.fes[f].log, m);
      if m.Query? && c.ready && !cfg.rejectQuery {
        var w := QueryPool(c.id.group);
        PutLogged(f, QueryCore(c, w), log);
      } else {
        PutLogged(f, HandleCore(cfg, c, m), log);
      }
    }

    // start_async_bind_from_event and _from_queue
    method StartAsyncBind(f: nat, b: BindMsg, fromQueue: bool) returns (ok: bool)
      requires Valid() && f < conns.Length
      modifies this`s, conns, pool, pool.conns
      ensures Valid() && (s, ok) == StartBind(cfg, old(s), f, b, fromQueue)
    {
      var c := conns[f];
      if fromQueue && b.statement !in c.cache { return false; }
      var bytes := BindBytes(cfg, c, b);
      var got := BeginOnPool(c.id.group, bytes);
      if got.None? || bytes.None? { return false; }
      PutLogged(f, StartCore(c, got.value, fromQueue), Issue(s.fes[f].log, Bind(b), OnBind(c.cache, b, c.id).value));
      return true;
    }

    // ---- draining ----

    // The popped Bind goes back to the front of the queue, which has room for it.
    method StartOrWait(f: nat, m: Msg)
      requires Valid() && f < conns.Length && m.Bind? && |s.fes[f].queue| < cfg.queueMax
      modifies Repr()
      ensures Valid() && s == Flush(StartOrPark(cfg, old(s), f, m), f)
    {
      var ok := StartAsyncBind(f, m.bind, true);
      if !ok {
        var back := EnqFront(f, m);
        assert back;
        var _ := ParkForBackend(f);
      }
      FlushOutput(f);
    }

    method DrainQueue(f: nat)
      requires Valid() && f < conns.Length
      modifies Repr()
      ensures Valid() && s == Drain(cfg, old(s), f)
    {
      while conns[f].wait == Idle
        invariant Valid() && Drain(cfg, s, f) == Drain(cfg, old(s), f)
        decreases |s.fes[f].queue|
      {
        assert |s.fes[f].queue| <= cfg.queueMax;
        var m := Deq(f);
        if m.None? { break; }
        if m.value.Bind? && conns[f].ready {
          StartOrWait(f, m.value);
          return;
        }
        HandleMessage(f, m.value);
      }
      FlushOutput(f);
    }

    // ---- fair scheduling ----

    method NextWaiter() returns (w: int)
      requires Valid() && s.ring != []
      modifies this`s, waiters
      ensures Valid() && w == old(s).ring[0] && s == old(s).(ring := old(s).ring[1..])
    {
      w := waiters.Pop();
      s := s.(ring := s.ring[1..]);
    }

    // A waiter just taken off the ring: work off its queue, and join again if it must.
    method ResumeWaiter(w: nat)
      requires Valid() && w < conns.Length
      modifies Repr()
      ensures Valid()
      ensures s == if old(s).fes[w].queue == [] then old(s)
                   else
                     var u := Drain(cfg, old(s), w);
                     if u.fes[w].core.wait == Idle && u.fes[w].queue != [] then Park(u, w).0 else u
    {
      if queues[w].count == 0 { return; }
      DrainQueue(w);
      if conns[w].wait == Sending || conns[w].wait == Reading { return; }
      if conns[w].wait == Idle && queues[w].count > 0 {
        var _ := ParkForBackend(w);
      }
    }

    method OneTurn()
      requires Valid() && s.ring != []
      modifies Repr()
      ensures Valid() && s == Turn(cfg, old(s))
    {
      var w := NextWaiter();
      if w < 0 || w >= conns.Length { return; }
      if conns[w].st == Free || conns[w].wait != Waiting { return; }
      Put(w, conns[w].(wait := Idle));
      ResumeWaiter(w);
    }

    method FairScheduleWaiters()
      requires Valid()
      modifies Repr()
      ensures Valid() && s == FairSchedule(cfg, old(s))
    {
      var attempts := waiters.count;
      ghost var end := FairSchedule(cfg, s);
      while attempts > 0 && waiters.count > 0
        invariant Valid() && end == if attempts > 0 && s.ring != [] then Pass(cfg, s, attempts) else s
        decreases attempts
      {
        TurnOfPass(attempts);
        attempts := attempts - 1;
      }
    }

    method TurnOfPass(ghost attempts: nat)
      requires Valid() && s.ring != [] && attempts > 0
      modifies Repr()
      ensures Valid() && Pass(cfg, s, attempts - 1) == Pass(cfg, old(s), attempts)
    {
      OneTurn();
    }

    method AfterBackendRelease(f: nat)
      requires Valid() && f < conns.Length
      modifies Repr()
      ensures Valid() && s == AfterRelease(cfg, old(s), f)
    {
      Put(f, ReleaseCore(conns[f]));
      if waiters.count > 0 { FairScheduleWaiters(); }
      if conns[f].wait == Idle && queues[f].count > 0 {
        DrainQueue(f);
      } else {
        FlushOutput(f);
      }
    }

    // ---- the end of a pipeline ----

    method ReleaseSlot(f: nat, failed: bool)
      requires Valid() && Runs(s, f)
      modifies this`s, pool, pool.conns
      ensures Valid()
      ensures s == old(s).(pool := BackendPool.Finish(cfg.pool, old(s).pool, old(s).fes[f].core.be.value, failed))
    {
      pool.Release(conns[f].be.value, failed);
      s := s.(pool := pool.Abs());
    }

    // The reply; after an SQL error the rest of the queue is dropped.
    method ReplyToPipeline(f: nat, sawError: bool)
      requires Valid() && f < conns.Length
      modifies Repr()
      ensures Valid()
      ensures var fe := if sawError then Drop(old(s).fes[f]) else old(s).fes[f];
              s == SetFe(old(s), f, fe.(core := CompleteCore(fe.core, sawError)))
    {
      if sawError { DropQueue(f); }
      Put(f, CompleteCore(conns[f], sawError));
      assert s.fes == old(s).fes[f := s.fes[f]];
    }

    method CompletePipeline(f: nat)
      requires Valid() && Runs(s, f)
      modifies Repr()
      ensures Valid() && s == Complete(cfg, old(s), f)
    {
      ReplyToPipeline(f, pool.conns[conns[f].be.value].pipe.st.sawError);
      ReleaseSlot(f, false);
      AfterBackendRelease(f);
    }

    method FailPipeline(f: nat)
      requires Valid() && Runs(s, f)
      modifies Repr()
      ensures Valid() && s == Fail(cfg, old(s), f)
    {
      ReleaseSlot(f, true);
      Put(f, FailCore(conns[f]));
      AfterBackendRelease(f);
    }

    // ---- a pipeline in progress ----

    method SubmitBackendSend(f: nat)
      requires Valid() && Runs(s, f)
      modifies this`s, conns
      ensures Valid() && s == SubmitSend(old(s), f)
    {
      if conns[f].sendPending { return; }
      if BackendPool.SendPending(pool.conns[conns[f].be.value]) == [] {
        Put(f, conns[f].(wait := Reading));
        SubmitBackendRecv(f);
        return;
      }
      Put(f, conns[f].(sendPending := true, wait := Sending));
    }

    method SubmitBackendRecv(f: nat)
      requires Valid() && Runs(s, f)
      modifies this`s, conns
      ensures Valid() && s == SubmitRecv(old(s), f)
    {
      if conns[f].recvPending { return; }
      Put(f, conns[f].(recvPending := true, wait := Reading));
    }

    method TakeSent(f: nat, n: nat)
      requires Valid() && Runs(s, f)
      modifies this`s, pool, pool.conns
      ensures Valid()
      ensures s == old(s).(pool := BackendPool.SendAdvance(old(s).pool, old(s).fes[f].core.be.value, n))
    {
      pool.Sent(conns[f].be.value, n);
      s := s.(pool := pool.Abs());
    }

    method BackendSendDone(f: nat, res: SendResult)
      requires Valid() && Runs(s, f)
      modifies Repr()
      ensures Valid() && s == OnSendDone(cfg, old(s), f, res)
    {
      Put(f, conns[f].(sendPending := false));
      match res
      case Again => SubmitBackendSend(f);
      case SendError => FailPipeline(f);
      case Sent(n) =>
        TakeSent(f, n);
        SubmitBackendSend(f);
    }

    method StoreReceived(f: nat, acc: Bytes, st: Framer.Status, resp: Bytes)
      requires Valid() && Runs(s, f)
      modifies this`s, conns, pool.conns
      ensures Valid() && s == Store(old(s), f, acc, st, resp)
    {
      var b := conns[f].be.value;
      pool.conns[b] := pool.conns[b].(pipe := pool.conns[b].pipe.(acc := acc, st := st));
      s := s.(pool := pool.Abs());
      Put(f, conns[f].(resp := resp));
    }

    method BackendRecvDone(f: nat, res: RecvResult)
      requires Valid() && Runs(s, f)
      modifies Repr()
      ensures Valid() && s == OnRecvDone(cfg, old(s), f, res)
    {
      Put(f, conns[f].(recvPending := false));
      if res.RecvError? || res.bytes == [] {
        FailPipeline(f);
        return;
      }
      var pipe := pool.conns[conns[f].be.value].pipe;
      var p := Framer.Params(cfg.proto, true, cfg.respCap);
      match Framer.Recv(p, cfg.accCap, pipe.acc, res.bytes, pipe.st, conns[f].resp)
      case Bad => FailPipeline(f);
      case More(acc, st, resp) =>
        StoreReceived(f, acc, st, resp);
        SubmitBackendRecv(f);
      case Done(acc, st, resp) =>
        StoreReceived(f, acc, st, resp);
        CompletePipeline(f);
    }

    // ---- frontend input ----

    // The message as it is copied for the queue.
    method EnqQueued(f: nat, m: Msg) returns (ok: bool)
      requires Valid() && f < conns.Length
      modifies this`s, queues[f], queues[f].buf
      ensures Valid() && ok == (|old(s).fes[f].queue| < cfg.queueMax)
      ensures s == if ok then SetFe(old(s), f, old(s).fes[f].(queue := old(s).fes[f].queue + [Queued(m)])) else old(s)
    {
      var q := m;
      if m.Bind? {
        var b := CopyForQueue(m.bind);
        q := Bind(b);
      }
      ok := Enq(f, q);
    }

    method EnqueueMessage(f: nat, m: Msg)
      requires Valid() && f < conns.Length
      modifies Repr()
      ensures Valid() && s == SetFe(old(s), f, Enqueue(cfg, old(s).fes[f], m))
    {
      var ok := EnqQueued(f, m);
      PutLogged(f, EnqueueCore(conns[f], m, ok), Enqueue(cfg, old(s).fes[f], m).log);
      assert s.fes == old(s).fes[f := s.fes[f]];
    }

    // A Bind to an idle frontend. Queue and ring have room for it, so the blocking path that
    // follows in the source when they have none is never taken.
    method BindArrived(f: nat, m: Msg)
      requires Valid() && f < conns.Length && m.Bind?
      requires |s.fes[f].queue| < cfg.queueMax && |s.ring| < |s.fes|
      modifies Repr()
      ensures Valid() && s == BindNow(cfg, old(s), f, m)
    {
      var ok := StartAsyncBind(f, m.bind, false);
      if !ok { WaitForBackend(f, m); }
    }

    method WaitForBackend(f: nat, m: Msg)
      requires Valid() && f < conns.Length
      requires |s.fes[f].queue| < cfg.queueMax && |s.ring| < |s.fes|
      modifies Repr()
      ensures Valid()
      ensures s == Park(SetFe(old(s), f, old(s).fes[f].(queue := old(s).fes[f].queue + [Queued(m)])), f).0
    {
      var pushed := EnqQueued(f, m);
      var parked := ParkForBackend(f);
      assert pushed && parked;
    }

    method ReceiveBind(f: nat, m: Msg)
      requires Valid() && Invariant.Proper(cfg) && Invariant.Inv(cfg, s) && f < conns.Length && m.Bind?
      requires s.fes[f].core.st != Free && s.fes[f].core.wait == Idle
      modifies Repr()
      ensures Valid() && s == Process(cfg, old(s), f, m)
    {
      assert Invariant.Shape(cfg, s.fes[f]) && Invariant.Quiet(s.fes[f]);
      assert f !in s.ring;
      Invariant.RingHasRoom(s, Invariant.NONE, Invariant.NONE, f);
      PutLogged(f, conns[f].(resp := [], gotExecute := false, gotSync := false), Arrive(s.fes[f], m).log);
      assert s == SetCore(SetFe(old(s), f, Arrive(old(s).fes[f], m)), f, conns[f]);
      if conns[f].ready { BindArrived(f, m); } else { HandleMessage(f, m); }
    }

    method ProcessMessage(f: nat, m: Msg)
      requires Valid() && Invariant.Proper(cfg) && Invariant.Inv(cfg, s) && f < conns.Length && s.fes[f].core.st != Free
      modifies Repr()
      ensures Valid() && s == Process(cfg, old(s), f, m)
      ensures Invariant.Inv(cfg, s) && s.fes[f].core.st != Free
    {
      Steps.ProcessInv(cfg, s, f, m);
      if m.Ignored? || m.Terminate? {
        HandleMessage(f, m);
      } else if conns[f].wait != Idle {
        EnqueueMessage(f, m);
      } else if m.Bind? {
        ReceiveBind(f, m);
      } else {
        PutLogged(f, conns[f], Arrive(s.fes[f], m).log);
        HandleMessage(f, m);
      }
    }

    method ProcessFrontend(f: nat, ms: seq<Msg>)
      requires Valid() && Invariant.Proper(cfg) && Invariant.Inv(cfg, s) && f < conns.Length && s.fes[f].core.st != Free
      modifies Repr()
      ensures Valid() && s == ProcessAll(cfg, old(s), f, ms)
    {
      for i := 0 to |ms|
        invariant Valid() && Invariant.Inv(cfg, s) && s.fes[f].core.st != Free
        invariant ProcessAll(cfg, s, f, ms[i..]) == ProcessAll(cfg, old(s), f, ms)
      {
        assert ms[i..][1..] == ms[i + 1..];
        ProcessMessage(f, ms[i]);
      }
      FlushOutput(f);
    }

    // ---- connections ----

    method LeaveRing(f: nat)
      requires Valid()
      modifies this`s, waiters, waiters.buf
      ensures Valid() && s == old(s).(ring := WaitersRemove(old(s).ring, f))
    {
      waiters.Remove(f);
      s := s.(ring := WaitersRemove(s.ring, f));
    }

    method CloseConnection(f: nat)
      requires Valid() && f < conns.Length
      modifies Repr()
      ensures Valid() && s == Close(cfg, old(s), f)
    {
      if conns[f].st == Free { return; }
      LeaveRing(f);
      if conns[f].be.Some? && conns[f].be.value < pool.conns.Length {
        ReleaseSlot(f, true);
        Put(f, conns[f].(be := None));
        FairScheduleWaiters();
      }
      ForgetConnection(f);
    }

    method ForgetConnection(f: nat)
      requires Valid() && f < conns.Length
      modifies Repr()
      ensures Valid() && s == SetFe(old(s), f, Drop(old(s).fes[f]).(core := CloseCore(old(s).fes[f].core)))
    {
      Put(f, CloseCore(conns[f]));
      DropQueue(f);
      assert s.fes == old(s).fes[f := s.fes[f]];
    }

    method AcceptConnection(id: Identity, ready: bool)
      requires Valid() && Invariant.Inv(cfg, s)
      modifies Repr()
      ensures Valid() && s == Step(cfg, old(s), Accept(id, ready))
    {
      for k := 0 to conns.Length
        invariant FreeSlot(s.fes) == k + FreeSlot(s.fes[k..])
      {
        assert s.fes[k..][1..] == s.fes[k + 1..];
        if conns[k].st == Free {
          assert Invariant.Shape(cfg, s.fes[k]);
          PutLogged(k, NewCore(id, ready), NewFe(id, ready).log);
          return;
        }
      }
    }

    method MaintainPool()
      requires Valid()
      modifies this`s, pool, pool.conns
      ensures Valid() && s == old(s).(pool := BackendPool.Maintain(cfg.pool, old(s).pool))
    {
      pool.MaintainAll();
      s := s.(pool := pool.Abs());
    }

    // ---- the event loop ----

    method FrontendInput(f: nat, ms: seq<Msg>)
      requires Valid() && Invariant.Proper(cfg) && Invariant.Inv(cfg, s)
      modifies Repr()
      ensures Valid() && s == Step(cfg, old(s), Input(f, ms))
    {
      if f < conns.Length && conns[f].st != Free { ProcessFrontend(f, ms); }
    }

    method SendCompletion(f: nat, res: SendResult)
      requires Valid() && Invariant.Owned(s)
      modifies Repr()
      ensures Valid() && s == Step(cfg, old(s), SendDone(f, res))
    {
      if f < conns.Length && conns[f].st != Free && conns[f].be.Some? && conns[f].sendPending {
        assert Invariant.Holds(s, f, conns[f].be.value);
        BackendSendDone(f, res);
      }
    }

    method RecvCompletion(f: nat, res: RecvResult)
      requires Valid() && Invariant.Owned(s)
      modifies Repr()
      ensures Valid() && s == Step(cfg, old(s), RecvDone(f, res))
    {
      if f < conns.Length && conns[f].st != Free && conns[f].be.Some? && conns[f].recvPending {
        assert Invariant.Holds(s, f, conns[f].be.value);
        BackendRecvDone(f, res);
      }
    }

    method CloseRequest(f: nat)
      requires Valid()
      modifies Repr()
      ensures Valid() && s == Step(cfg, old(s), CloseConn(f))
    {
      if f < conns.Length { CloseConnection(f); }
    }

    method OneEvent(e: Event)
      requires Valid() && Invariant.Proper(cfg) && Invariant.Inv(cfg, s)
      modifies Repr()
      ensures Valid() && s == Step(cfg, old(s), e)
    {
      match e
      case Accept(id, ready) => AcceptConnection(id, ready);
      case Input(f, ms) => FrontendInput(f, ms);
      case SendDone(f, res) => SendCompletion(f, res);
      case RecvDone(f, res) => RecvCompletion(f, res);
      case CloseConn(f) => CloseRequest(f);
      case Tick => MaintainPool();
    }

    method Dispatch(e: Event)
      requires Valid() && Invariant.Proper(cfg) && Invariant.Inv(cfg, s)
      modifies Repr()
      ensures Valid() && s == Step(cfg, old(s), e) && Invariant.Inv(cfg, s)
    {
      StepInv(cfg, s, e);
      OneEvent(e);
    }

    method Serve(es: seq<Event>)
      requires Valid() && Invariant.Proper(cfg) && Invariant.Inv(cfg, s)
      modifies Repr()
      ensures Valid() && s == Run(cfg, old(s), es) && Invariant.Inv(cfg, s)
    {
      for i := 0 to |es|
        invariant Valid() && Invariant.Inv(cfg, s) && Run(cfg, s, es[i..]) == Run(cfg, old(s), es)
      {
        assert es[i..][1..] == es[i + 1..];
        Dispatch(es[i]);
      }
    }
  }

  lemma FirstInitial(cfg: Config, slots: nat, asked: nat, groups: seq<string>)
    requires Invariant.Proper(cfg)
    requires |groups| <= PoolCreate.MAX_GROUPS && forall i :: 0 <= i < |groups| ==> groups[i] != ""
    ensures var s := FirstState(slots, PoolCreate.Created(cfg.pool, asked, groups).0);
            Initial(s) && Invariant.Inv(cfg, s)
  {
    PoolCreate.CreatedMeaning(cfg.pool, asked, groups);
    InitialInv(cfg, FirstState(slots, PoolCreate.Created(cfg.pool, asked, groups).0));
  }

  // Create the pool and the event loop over it; nothing exactly when no backend could be reached.
  method Launch(cfg: Config, slots: nat, asked: nat, groups: seq<string>) returns (l: Option<Loop>)
    requires slots > 0 && Invariant.Proper(cfg)
    requires |groups| <= PoolCreate.MAX_GROUPS && forall i :: 0 <= i < |groups| ==> groups[i] != ""
    ensures l.Some? <==> PoolCreate.Created(cfg.pool, asked, groups).1 > 0
    ensures l.Some? ==> l.value.Valid() && l.value.cfg == cfg && fresh(l.value.Repr())
    ensures l.Some? ==> l.value.s == FirstState(slots, PoolCreate.Created(cfg.pool, asked, groups).0)
    ensures l.Some? ==> Initial(l.value.s) && Invariant.Inv(cfg, l.value.s)
  {
    var pool := PoolSlots.CreatePool(cfg.pool, asked, groups);
    if pool.None? { return None; }
    var loop := new Loop(cfg, slots, pool.value);
    assert fresh(loop.Repr());
    FirstInitial(cfg, slots, asked, groups);
    return Some(loop);
  }
}
