// The history of a connection against a proxy that handles one message at a time.
module History {
  import opened Wire
  import opened Rewrite
  import opened Frontend
  import opened Scheduler
  import opened Invariant
  import StmtCache

  // ---- the reference: messages handled one at a time, in order ----

  function CacheStep(cfg: Config, id: Identity, cache: map<string, Prepared>, m: Msg): map<string, Prepared> {
    if m.Parse? then StmtCache.PutSpec(cache, cfg.cacheMax, ParseEntry(cfg, id, m.parse)) else cache
  }

  // The cache after the messages.
  function CacheAfter(cfg: Config, id: Identity, ms: seq<Msg>): map<string, Prepared> {
    if ms == [] then map[] else CacheStep(cfg, id, CacheAfter(cfg, id, ms[..|ms| - 1]), ms[|ms| - 1])
  }

  // The pipelines the messages issue to backends.
  function Issues(cfg: Config, id: Identity, ready: bool, ms: seq<Msg>): seq<Pipeline> {
    if ms == [] then []
    else
      var before := ms[..|ms| - 1];
      Issues(cfg, id, ready, before) + IssueOf(CacheAfter(cfg, id, before), id, ready, ms[|ms| - 1])
  }

  function IssueOf(cache: map<string, Prepared>, id: Identity, ready: bool, m: Msg): seq<Pipeline> {
    if !m.Bind? || !ready then []
    else
      match OnBind(cache, m.bind, id)
      case None => []
      case Some(p) => [p]
  }

  // Which messages issue them.
  function Sources(cfg: Config, id: Identity, ready: bool, ms: seq<Msg>): seq<nat> {
    if ms == [] then []
    else
      var before := ms[..|ms| - 1];
      Sources(cfg, id, ready, before)
      + if IssueOf(CacheAfter(cfg, id, before), id, ready, ms[|ms| - 1]) != [] then [|ms| - 1] else []
  }

  lemma {:induction false} IssuesPrefix(cfg: Config, id: Identity, ready: bool, ms: seq<Msg>, n: nat)
    requires n <= |ms|
    ensures Issues(cfg, id, ready, ms[..n]) <= Issues(cfg, id, ready, ms)
    decreases |ms|
  {
    if n == |ms| {
      assert ms[..n] == ms;
    } else {
      var before := ms[..|ms| - 1];
      IssuesPrefix(cfg, id, ready, before, n);
      assert before[..n] == ms[..n];
    }
  }

  // ---- messages are handled in order ----

  // A message is handled as it arrived, or in the form it has in the queue.
  predicate Seen(orig: Msg, m: Msg) { m == orig || m == Queued(orig) }

  // `a` is an order-preserving subsequence of `b`: none twice, none out of turn.
  predicate Sub(a: seq<Msg>, b: seq<Msg>)
    decreases |b|
  {
    a == [] ||
    (b != [] &&
     ((Seen(b[|b| - 1], a[|a| - 1]) && Sub(a[..|a| - 1], b[..|b| - 1])) || Sub(a, b[..|b| - 1])))
  }

  predicate Pairwise(a: seq<Msg>, b: seq<Msg>) {
    |a| == |b| && forall k :: 0 <= k < |a| ==> Seen(b[k], a[k])
  }

  lemma SubBoth(a: seq<Msg>, b: seq<Msg>, x: Msg, y: Msg)
    requires Sub(a, b) && Seen(y, x)
    ensures Sub(a + [x], b + [y])
  {
    assert (a + [x])[..|a|] == a;
    assert (b + [y])[..|b|] == b;
  }

  lemma SubMore(a: seq<Msg>, b: seq<Msg>, y: Msg)
    requires Sub(a, b)
    ensures Sub(a, b + [y])
  {
    assert (b + [y])[..|b|] == b;
  }

  lemma {:induction false} SubPrefix(a: seq<Msg>, b: seq<Msg>, n: nat)
    requires Sub(a, b) && n <= |a|
    ensures Sub(a[..n], b)
    decreases |b|
  {
    if n == |a| {
      assert a[..n] == a;
    } else if n > 0 {
      var t := b[..|b| - 1];
      if Sub(a, t) {
        SubPrefix(a, t, n);
      } else {
        SubPrefix(a[..|a| - 1], t, n);
        assert a[..|a| - 1][..n] == a[..n];
      }
    }
  }

  // ---- the invariant of one connection's history ----

  // What was handled, then what waits.
  function Flow(fe: Fe): seq<Msg> { fe.log.handled + fe.queue }

  ghost predicate Accounted(fe: Fe) {
    var l := fe.log;
    && Sub(Flow(fe), l.arrived)
    && |l.arrived| == |Flow(fe)| + l.lost
    && (l.lost == 0 ==> Pairwise(Flow(fe), l.arrived))
  }

  // The cache is what the handled messages make it, and the pipelines issued are theirs.
  ghost predicate InStep(cfg: Config, fe: Fe) {
    && fe.core.cache == CacheAfter(cfg, fe.core.id, fe.log.handled)
    && fe.log.issued == Issues(cfg, fe.core.id, fe.core.ready, fe.log.handled)
  }

  ghost predicate Traced(cfg: Config, fe: Fe) { Accounted(fe) && InStep(cfg, fe) }

  ghost predicate AllTraced(cfg: Config, s: State) {
    forall i :: InRange(s, i) ==> Traced(cfg, s.fes[i])
  }

  // ---- how single changes keep it ----

  // The connection's identity, cache and history are the same, and so is its flow.
  predicate SameStory(a: Fe, b: Fe) {
    && b.log == a.log && b.queue == a.queue
    && b.core.id == a.core.id && b.core.ready == a.core.ready && b.core.cache == a.core.cache
  }

  lemma SameStoryTraced(cfg: Config, a: Fe, b: Fe)
    requires Traced(cfg, a) && SameStory(a, b)
    ensures Traced(cfg, b)
  {
  }

  lemma HandledStep(cfg: Config, id: Identity, ready: bool, ms: seq<Msg>, m: Msg)
    ensures CacheAfter(cfg, id, ms + [m]) == CacheStep(cfg, id, CacheAfter(cfg, id, ms), m)
    ensures Issues(cfg, id, ready, ms + [m])
         == Issues(cfg, id, ready, ms) + IssueOf(CacheAfter(cfg, id, ms), id, ready, m)
  {
    assert (ms + [m])[..|ms|] == ms;
  }

  // Message m moves from the head of the queue to the handled ones, with its effect.
  ghost predicate Moves(cfg: Config, a: Fe, b: Fe, m: Msg) {
    && a.queue != [] && m == a.queue[0] && b.queue == a.queue[1..]
    && b.log.handled == a.log.handled + [m] && b.log.arrived == a.log.arrived && b.log.lost == a.log.lost
    && b.core.id == a.core.id && b.core.ready == a.core.ready
    && b.core.cache == CacheStep(cfg, a.core.id, a.core.cache, m)
    && b.log.issued == a.log.issued + IssueOf(a.core.cache, a.core.id, a.core.ready, m)
  }

  lemma MovesTraced(cfg: Config, a: Fe, b: Fe, m: Msg)
    requires Traced(cfg, a) && Moves(cfg, a, b, m)
    ensures Traced(cfg, b)
  {
    FlowMoves(a.log.handled, a.queue);
    HandledStep(cfg, a.core.id, a.core.ready, a.log.handled, m);
  }

  lemma FlowMoves(h: seq<Msg>, q: seq<Msg>)
    requires q != []
    ensures (h + [q[0]]) + q[1..] == h + q
  {
  }

  // A message arrives at an empty queue and is handled at once.
  ghost predicate HandlesNow(cfg: Config, a: Fe, b: Fe, m: Msg) {
    && a.queue == [] && b.queue == []
    && b.log.handled == a.log.handled + [m] && b.log.arrived == a.log.arrived + [m] && b.log.lost == a.log.lost
    && b.core.id == a.core.id && b.core.ready == a.core.ready
    && b.core.cache == CacheStep(cfg, a.core.id, a.core.cache, m)
    && b.log.issued == a.log.issued + IssueOf(a.core.cache, a.core.id, a.core.ready, m)
  }

  lemma HandlesNowTraced(cfg: Config, a: Fe, b: Fe, m: Msg)
    requires Traced(cfg, a) && HandlesNow(cfg, a, b, m)
    ensures Traced(cfg, b)
  {
    assert Flow(b) == Flow(a) + [m];
    SubBoth(Flow(a), a.log.arrived, m, m);
    HandledStep(cfg, a.core.id, a.core.ready, a.log.handled, m);
  }

  // A message joins the queue, or is lost because the queue is full.
  ghost predicate Joins(a: Fe, b: Fe, m: Msg, fits: bool) {
    && b.queue == (if fits then a.queue + [Queued(m)] else a.queue)
    && b.log.handled == a.log.handled && b.log.issued == a.log.issued
    && b.log.arrived == a.log.arrived + [m] && b.log.lost == a.log.lost + (if fits then 0 else 1)
    && b.core.id == a.core.id && b.core.ready == a.core.ready && b.core.cache == a.core.cache
  }

  lemma JoinsTraced(cfg: Config, a: Fe, b: Fe, m: Msg, fits: bool)
    requires Traced(cfg, a) && Joins(a, b, m, fits)
    ensures Traced(cfg, b)
  {
    if fits {
      FlowJoins(a.log.handled, a.queue, Queued(m));
      SubBoth(Flow(a), a.log.arrived, Queued(m), m);
    } else {
      SubMore(Flow(a), a.log.arrived, m);
    }
  }

  lemma FlowJoins(h: seq<Msg>, q: seq<Msg>, m: Msg)
    ensures h + (q + [m]) == (h + q) + [m]
  {
  }

  lemma DropTraced(cfg: Config, a: Fe)
    requires Traced(cfg, a)
    ensures Traced(cfg, Drop(a))
  {
    SubPrefix(Flow(a), a.log.arrived, |a.log.handled|);
    assert Flow(a)[..|a.log.handled|] == a.log.handled;
    assert Flow(Drop(a)) == a.log.handled;
    if Drop(a).log.lost == 0 {
      assert Flow(a) == a.log.handled;
    }
  }

  lemma NewTraced(cfg: Config, id: Identity, ready: bool)
    ensures Traced(cfg, NewFe(id, ready)) && Traced(cfg, FreeFe())
  {
  }
}
