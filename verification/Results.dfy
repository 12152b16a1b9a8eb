// What holds in every state the event loop can reach, in the terms of its fields.
module Results {
  import opened Wire
  import opened Frontend
  import opened Scheduler
  import opened Invariant
  import opened Steps
  import History
  import Refinement
  import Ring

  // A backend is busy iff exactly one frontend holds it, and only live backends are busy.
  lemma ExclusiveOwnership(cfg: Config, s: State, es: seq<Event>)
    requires Proper(cfg) && Initial(s)
    ensures var t := Run(cfg, s, es);
            && (forall i, j, b: nat :: Holds(t, i, b) && Holds(t, j, b) ==> i == j)
            && (forall b: nat :: b < |t.pool.conns| ==> (t.pool.conns[b].busy <==> exists i :: Holds(t, i, b)))
            && (forall b: nat :: b < |t.pool.conns| && t.pool.conns[b].busy ==> t.pool.conns[b].alive)
  {
    ReachableInv(cfg, s, es);
  }

  // A connection is in the wait ring, once, iff it is in use and waits for a backend.
  lemma RingMatchesStates(cfg: Config, s: State, es: seq<Event>)
    requires Proper(cfg) && Initial(s)
    ensures var t := Run(cfg, s, es);
            && Ring.AllDistinct(t.ring) && |t.ring| <= |t.fes|
            && forall i :: i in t.ring <==> InRange(t, i) && t.fes[i].core.st != Free && t.fes[i].core.wait == Waiting
  {
    ReachableInv(cfg, s, es);
    var t := Run(cfg, s, es);
    Ring.Pigeonhole(t.ring, |t.fes|);
    forall i | InRange(t, i) && t.fes[i].core.st == Free ensures i !in t.ring {
      assert Shape(cfg, t.fes[i]);
    }
  }

  predicate BackendOps(c: Core, ops: nat) { ops == (if c.sendPending then 1 else 0) + if c.recvPending then 1 else 0 }

  // An idle frontend has nothing queued, a waiting one has the Bind it waits for at the head of
  // its queue, and one that sends or reads holds a backend with exactly one operation under way.
  lemma StatesMatchQueues(cfg: Config, s: State, es: seq<Event>, i: nat)
    requires Proper(cfg) && Initial(s) && i < |s.fes|
    ensures var fe := Run(cfg, s, es).fes[i];
            && |fe.queue| <= cfg.queueMax
            && match fe.core.wait
               case Idle => fe.queue == [] && fe.core.be.None? && BackendOps(fe.core, 0)
               case Waiting => fe.queue != [] && fe.queue[0].Bind? && fe.core.be.None? && BackendOps(fe.core, 0)
               case _ => fe.core.be.Some? && BackendOps(fe.core, 1)
  {
    ReachableInv(cfg, s, es);
    var t := Run(cfg, s, es);
    assert InRange(t, i);
    assert Shape(cfg, t.fes[i]) && Quiet(t.fes[i]);
  }

  // With fair scheduling on, parking never fails, not even in the middle of a step: the blocking
  // fallback behind it is dead code.
  lemma ParkNeverFails(cfg: Config, s: State, o: int, w: int, f: nat)
    requires InvOpen(cfg, s, o, w) && f < |s.fes|
    ensures Park(s, f).1
  {
    if f !in s.ring { RingHasRoom(s, o, w, f); }
  }

  // Handled messages are an order-preserving subsequence of what arrived, and every message is
  // either handled, queued or lost.
  lemma HandledInOrder(cfg: Config, s: State, es: seq<Event>, f: nat)
    requires Proper(cfg) && Initial(s) && f < |s.fes|
    ensures var fe := Run(cfg, s, es).fes[f];
            && History.Sub(fe.log.handled, fe.log.arrived)
            && History.Sub(fe.log.handled + fe.queue, fe.log.arrived)
            && |fe.log.arrived| == |fe.log.handled| + |fe.queue| + fe.log.lost
  {
    Refinement.ReachableTraced(cfg, s, es, f);
    var fe := Run(cfg, s, es).fes[f];
    History.SubPrefix(fe.log.handled + fe.queue, fe.log.arrived, |fe.log.handled|);
    assert (fe.log.handled + fe.queue)[..|fe.log.handled|] == fe.log.handled;
  }

  // ---- connections coming and going ----

  lemma {:induction false} FreeSlotFirst(fes: seq<Fe>)
    ensures forall i :: 0 <= i < FreeSlot(fes) ==> fes[i].core.st != Free
  {
    if fes != [] && fes[0].core.st != Free {
      FreeSlotFirst(fes[1..]);
      assert forall i :: 0 < i < |fes| ==> fes[i] == fes[1..][i - 1];
    }
  }

  // A new connection takes the first slot that is not in use, with its own identity and nothing
  // of the one before; without such a slot nothing changes.
  lemma AcceptTakes(cfg: Config, s: State, id: Identity, ready: bool)
    ensures var t := Step(cfg, s, Accept(id, ready));
            if exists i :: InRange(s, i) && s.fes[i].core.st == Free then
              exists k: nat :: k < |s.fes| && s.fes[k].core.st == Free
                && (forall i :: 0 <= i < k ==> s.fes[i].core.st != Free)
                && t == s.(fes := s.fes[k := t.fes[k]]) && IsNew(t.fes[k], id, ready)
            else t == s
  {
    FreeSlotFirst(s.fes);
  }

  predicate IsNew(fe: Fe, id: Identity, ready: bool) {
    var c, l := fe.core, fe.log;
    && c.st == Active && c.id == id && c.ready == ready && c.wait == Idle && c.be.None?
    && c.cache == map[] && c.resp == [] && c.sent == [] && c.pend == [] && fe.queue == []
    && l.arrived == [] && l.handled == [] && l.issued == [] && l.lost == 0
  }

  // A connection that is closed gives everything up: its slot can be taken by another, it holds no
  // backend, waits for none, and has nothing queued.
  lemma CloseFrees(cfg: Config, s: State, f: nat)
    requires Proper(cfg) && Inv(cfg, s) && f < |s.fes|
    ensures var t := Step(cfg, s, CloseConn(f));
            && t.fes[f].core.st == Free && t.fes[f].core.be.None? && t.fes[f].queue == [] && f !in t.ring
            && !t.fes[f].core.sendPending && !t.fes[f].core.recvPending
  {
    var t := Step(cfg, s, CloseConn(f));
    StepInv(cfg, s, CloseConn(f));
    assert Shape(cfg, t.fes[f]);
  }
}
