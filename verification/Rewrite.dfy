// The rewrite of a frontend Bind into the pipeline sent to a backend, and the copy of a Bind
// that waits in the request queue.
module Rewrite {
  import opened Wire
  import IdentitySlot

  // Unnamed Parse, Bind, Execute, Sync; `slot` is where the identity went.
  datatype Pipeline = Pipeline(query: string, types: seq<int>, params: seq<Param>, resultFormats: seq<int>, slot: nat)

  const TEXT: int := 0
  const BINARY: int := 1

  // The slot recorded for a statement: the configured one, or the one its text resolves to.
  function ParseSlot(configured: int, paramName: string, query: string): int {
    if paramName == "" then configured
    else
      var resolved := IdentitySlot.Resolve(query, paramName, configured);
      if resolved >= 0 then resolved else configured
  }

  function ChooseSlot(id: Identity, prep: Prepared): nat {
    var slot := if id.slot >= 0 then id.slot else prep.slot;
    if slot < 0 then 0 else slot
  }

  // None when the statement is unknown or the slot is out of range.
  function OnBind(cache: map<string, Prepared>, b: BindMsg, id: Identity): (r: Option<Pipeline>) {
    if b.statement !in cache then None
    else
      var prep := cache[b.statement];
      var slot := ChooseSlot(id, prep);
      if slot >= |b.params| then None
      else Some(Pipeline(prep.query, prep.types, b.params[slot := Param(TEXT, Some(id.router))], b.resultFormats, slot))
  }

  // The statement is the one prepared; the identity is in the slot the connection prescribes or,
  // when it prescribes none, in the one recorded with the statement; and every other parameter
  // is the client's own.
  ghost predicate Injected(p: Pipeline, cache: map<string, Prepared>, b: BindMsg, id: Identity) {
    && b.statement in cache
    && p.query == cache[b.statement].query && p.types == cache[b.statement].types && p.resultFormats == b.resultFormats
    && p.slot == (if id.slot >= 0 then id.slot else if cache[b.statement].slot >= 0 then cache[b.statement].slot else 0)
    && p.slot < |p.params| == |b.params|
    && p.params[p.slot] == Param(TEXT, Some(id.router))
    && (forall i :: 0 <= i < |b.params| && i != p.slot ==> p.params[i] == b.params[i])
  }

  lemma OnBindInjects(cache: map<string, Prepared>, b: BindMsg, id: Identity)
    ensures OnBind(cache, b, id).Some? <==> b.statement in cache && ChooseSlot(id, cache[b.statement]) < |b.params|
    ensures OnBind(cache, b, id).Some? ==> Injected(OnBind(cache, b, id).value, cache, b, id)
  {
  }

  // ---- the queued copy ----

  // A text value is copied as a C string.
  function UpToNul(s: Bytes): (r: Bytes)
    ensures |r| <= |s|
  {
    if s == [] || s[0] == 0 then [] else [s[0]] + UpToNul(s[1..])
  }

  function QueuedParam(p: Param): Param {
    match p.value
    case None => p
    case Some(v) => if p.format == BINARY then p else Param(p.format, Some(UpToNul(v)))
  }

  function QueuedParams(ps: seq<Param>): (r: seq<Param>)
    ensures |r| == |ps| && forall i :: 0 <= i < |ps| ==> r[i] == QueuedParam(ps[i])
  {
    if ps == [] then [] else [QueuedParam(ps[0])] + QueuedParams(ps[1..])
  }

  function QueuedBind(b: BindMsg): BindMsg { b.(params := QueuedParams(b.params)) }

  function Queued(m: Msg): Msg {
    if m.Bind? then Bind(QueuedBind(m.bind)) else m
  }

  predicate CleanParam(p: Param) {
    p.value.None? || p.format == BINARY || 0 !in p.value.value
  }

  predicate Clean(m: Msg) {
    m.Bind? ==> forall i :: 0 <= i < |m.bind.params| ==> CleanParam(m.bind.params[i])
  }

  lemma {:induction false} UpToNulMeaning(s: Bytes)
    ensures UpToNul(s) == s <==> 0 !in s
  {
    if s != [] {
      UpToNulMeaning(s[1..]);
      assert s == [s[0]] + s[1..];
      if s[0] != 0 {
        assert UpToNul(s)[1..] == UpToNul(s[1..]);
      }
    }
  }

  lemma QueuedParamMeaning(p: Param)
    ensures QueuedParam(p) == p <==> CleanParam(p)
  {
    if p.value.Some? { UpToNulMeaning(p.value.value); }
  }

  // A message waits unchanged iff no text parameter of it has a NUL.
  lemma QueuedMeaning(m: Msg)
    ensures Queued(m) == m <==> Clean(m)
  {
    if m.Bind? {
      var ps := m.bind.params;
      forall i | 0 <= i < |ps| ensures QueuedParam(ps[i]) == ps[i] <==> CleanParam(ps[i]) {
        QueuedParamMeaning(ps[i]);
      }
      assert Queued(m) == m <==> QueuedParams(ps) == ps;
    }
  }

  // Exactly when a deferred Bind is rewritten to the pipeline it would have given at once: the
  // identity slot is overwritten anyway, every other text parameter must have no NUL.
  lemma DeferredBindExact(cache: map<string, Prepared>, b: BindMsg, id: Identity)
    ensures OnBind(cache, QueuedBind(b), id).Some? <==> OnBind(cache, b, id).Some?
    ensures OnBind(cache, b, id).Some? ==>
      var p := OnBind(cache, b, id).value;
      (OnBind(cache, QueuedBind(b), id) == Some(p) <==>
        forall i :: 0 <= i < |b.params| && i != p.slot ==> CleanParam(b.params[i]))
  {
    var o := OnBind(cache, b, id);
    if o.Some? {
      var q := OnBind(cache, QueuedBind(b), id).value;
      forall i | 0 <= i < |b.params| && i != o.value.slot
        ensures q.params[i] == o.value.params[i] <==> CleanParam(b.params[i])
      {
        QueuedParamMeaning(b.params[i]);
      }
      assert q == o.value <==> q.params == o.value.params;
      assert q.params[o.value.slot] == o.value.params[o.value.slot];
    }
  }

  // The copy loop of the source, parameter by parameter.
  method CopyForQueue(b: BindMsg) returns (r: BindMsg)
    ensures r == QueuedBind(b)
  {
    var params := [];
    for i := 0 to |b.params|
      invariant |params| == i && forall k :: 0 <= k < i ==> params[k] == QueuedParam(b.params[k])
    {
      var v := b.params[i];
      if v.value.Some? && v.format != BINARY {
        var text := CopyText(v.value.value);
        v := Param(v.format, Some(text));
      }
      params := params + [v];
    }
    r := b.(params := params);
  }

  method CopyText(s: Bytes) returns (r: Bytes)
    ensures r == UpToNul(s)
  {
    var len := 0;
    while len < |s| && s[len] != 0
      invariant len <= |s| && UpToNul(s) == s[..len] + UpToNul(s[len..])
    {
      assert s[len..][1..] == s[len + 1..];
      assert s[..len] + [s[len]] == s[..len + 1];
      len := len + 1;
    }
    r := s[..len];
  }
}
