// Whose identity goes into which parameter: that of the connection accepted, and the slot it
// prescribes or the one its statement names.
module Injection {
  import opened Wire
  import opened IdentitySlot
  import opened Rewrite
  import opened Frontend
  import opened Scheduler
  import opened Invariant
  import opened Steps
  import opened History
  import Answers
  import Refinement
  import SlotInverse

  // ---- numbers as parameter names ----

  function DigitOf(n: nat): char
    requires n < 10
  {
    '0' + n as char
  }

  function Decimal(n: nat): (s: string)
    ensures s != "" && AllDigits(s)
  {
    if n < 10 then [DigitOf(n)] else Decimal(n / 10) + [DigitOf(n % 10)]
  }

  lemma {:induction false} DigitsSnoc(s: string, d: nat, acc: nat)
    requires AllDigits(s) && d < 10
    ensures Digits(s + [DigitOf(d)], acc) == Digits(s, acc) * 10 + d
  {
    if s == "" {
      assert [DigitOf(d)][1..] == "";
    } else {
      assert (s + [DigitOf(d)])[1..] == s[1..] + [DigitOf(d)];
      DigitsSnoc(s[1..], d, acc * 10 + (s[0] as int - '0' as int));
    }
  }

  lemma {:induction false} DigitsOfDecimal(n: nat)
    ensures Digits(Decimal(n), 0) == n
  {
    if n < 10 {
      assert [DigitOf(n)][1..] == "";
    } else {
      DigitsOfDecimal(n / 10);
      DigitsSnoc(Decimal(n / 10), n % 10, 0);
    }
  }

  lemma AtoiOfDecimal(n: nat)
    ensures Atoi(Decimal(n)) == n
  {
    DigitsOfDecimal(n);
    assert Digit(Decimal(n)[0]);
  }

  // ---- the slot a statement records ----

  // An INSERT statement as it is printed.
  predicate Printed(query: string, table: string, gap: string, cols: seq<string>, sep: string, rest: string) {
    && Identifier(table) && cols != [] && (forall i :: 0 <= i < |cols| ==> Identifier(cols[i]))
    && Blanks(gap) && Blanks(sep) && EndsWord(rest) && query == Insert(table, gap, cols, sep, rest)
  }

  predicate FirstAt(cols: seq<string>, param: string, k: nat) {
    k < |cols| && EqCi(cols[k], param) && forall i :: 0 <= i < k ==> !EqCi(cols[i], param)
  }

  // The first column of that name, as far as 16 bits can tell; the fallback if there is none.
  ghost predicate ColumnOr(cols: seq<string>, param: string, fallback: int, slot: int) {
    if exists k: nat :: FirstAt(cols, param, k) then
      exists k: nat :: FirstAt(cols, param, k) && slot == if Int16(k) >= 0 then Int16(k) else fallback
    else slot == fallback
  }

  // What a parameter name says: nothing; the number of a slot, from zero, or from one after a
  // dollar sign; or the name of a column, which is looked up among those the scan sees -- all of
  // them, if the statement is invertible -- and nowhere in a statement without parentheses.
  ghost predicate Names(param: string, fallback: int, query: string, slot: int) {
    && (param == "" ==> slot == fallback)
    && (forall n: nat :: n < 0x8000 && param == Decimal(n) ==> slot == n)
    && (forall n: nat :: 0 < n < 0x8000 && param == ['$'] + Decimal(n) ==> slot == n - 1)
    && (ColumnParam(param) && NoParen(query) ==> slot == fallback)
    && (ColumnParam(param) ==>
          forall table, gap, cols, sep, rest :: Printed(query, table, gap, cols, sep, rest) ==>
            && ColumnOr(IdentitySlot.Seen(table, cols), param, fallback, slot)
            && (SlotInverse.Invertible(table, cols) ==> ColumnOr(cols, param, fallback, slot)))
  }

  lemma {:induction false} NoParenBefore(query: string)
    requires NoParen(query)
    ensures NoParen(BeforeKeyword(query))
  {
    if query != "" && !Keyword(query) {
      NoParenBefore(query[1..]);
    }
  }

  lemma PlainNames(param: string, fallback: int, query: string)
    requires ColumnParam(param) && NoParen(query)
    ensures ParseSlot(fallback, param, query) == fallback
  {
    NoParenBefore(query);
    ParenNone(BeforeKeyword(query));
  }

  lemma NumberNames(param: string, fallback: int, query: string, n: nat)
    requires n < 0x8000 && param == Decimal(n)
    ensures ParseSlot(fallback, param, query) == n
  {
    AtoiOfDecimal(n);
    assert Digit(param[0]);
  }

  lemma DollarNames(param: string, fallback: int, query: string, n: nat)
    requires 0 < n < 0x8000 && param == ['$'] + Decimal(n)
    ensures ParseSlot(fallback, param, query) == n - 1
  {
    AtoiOfDecimal(n);
    assert param[1..] == Decimal(n);
  }

  lemma FirstOr(cols: seq<string>, param: string, fallback: int)
    ensures var r := match FirstCi(cols, param, 0) case None => fallback case Some(k) => Int16(k);
            ColumnOr(cols, param, fallback, if r >= 0 then r else fallback)
  {
    FirstCiMeaning(cols, param, 0);
    var f := FirstCi(cols, param, 0);
    if f.Some? {
      assert f == Some(f.value);
      assert FirstAt(cols, param, f.value);
    }
  }

  lemma ColumnNames(param: string, fallback: int,
                    table: string, gap: string, cols: seq<string>, sep: string, rest: string)
    requires ColumnParam(param) && cols != []
    requires Printed(Insert(table, gap, cols, sep, rest), table, gap, cols, sep, rest)
    ensures var slot := ParseSlot(fallback, param, Insert(table, gap, cols, sep, rest));
            && ColumnOr(IdentitySlot.Seen(table, cols), param, fallback, slot)
            && (SlotInverse.Invertible(table, cols) ==> ColumnOr(cols, param, fallback, slot))
  {
    ResolveInsert(table, gap, cols, sep, rest, param, fallback);
    FirstOr(IdentitySlot.Seen(table, cols), param, fallback);
    if SlotInverse.Invertible(table, cols) {
      SlotInverse.SeenAlike(table, cols, param);
      FirstOr(cols, param, fallback);
    }
  }

  lemma SlotNames(param: string, fallback: int, query: string)
    ensures Names(param, fallback, query, ParseSlot(fallback, param, query))
  {
    forall n: nat | n < 0x8000 && param == Decimal(n) ensures ParseSlot(fallback, param, query) == n {
      NumberNames(param, fallback, query, n);
    }
    forall n: nat | 0 < n < 0x8000 && param == ['$'] + Decimal(n)
      ensures ParseSlot(fallback, param, query) == n - 1
    {
      DollarNames(param, fallback, query, n);
    }
    if ColumnParam(param) {
      if NoParen(query) { PlainNames(param, fallback, query); }
      forall table, gap, cols, sep, rest | Printed(query, table, gap, cols, sep, rest)
        ensures ColumnOr(IdentitySlot.Seen(table, cols), param, fallback, ParseSlot(fallback, param, query))
        ensures SlotInverse.Invertible(table, cols) ==>
                  ColumnOr(cols, param, fallback, ParseSlot(fallback, param, query))
      {
        ColumnNames(param, fallback, table, gap, cols, sep, rest);
      }
    }
  }

  // ---- the cached statement ----

  // The slot prescribed for the connection, or else configured.
  function Prescribed(cfg: Config, id: Identity): int { if id.slot >= 0 then id.slot else cfg.identitySlot }

  // The cached statement is that of the Parse message.
  ghost predicate Prepares(cfg: Config, id: Identity, p: ParseMsg, e: Prepared) {
    e.query == p.query && e.types == p.types && Names(cfg.paramName, Prescribed(cfg, id), p.query, e.slot)
  }

  // A Parse puts its statement into the cache, unless it is new and the cache is full; it changes
  // no other statement.
  lemma ParseRecorded(cfg: Config, c: Core, p: ParseMsg)
    ensures var d := HandleCore(cfg, c, Parse(p)).cache;
            if p.statement in c.cache || |c.cache| < cfg.cacheMax then
              && p.statement in d && Prepares(cfg, c.id, p, d[p.statement])
              && forall n :: n != p.statement ==> (n in d <==> n in c.cache) && (n in d ==> d[n] == c.cache[n])
            else d == c.cache
  {
    SlotNames(cfg.paramName, Prescribed(cfg, c.id), p.query);
  }

  // Message j prepares the statement, and none after it does.
  predicate LastParse(ms: seq<Msg>, name: string, j: nat) {
    && j < |ms| && ms[j].Parse? && ms[j].parse.statement == name
    && forall k :: j < k < |ms| ==> !(ms[k].Parse? && ms[k].parse.statement == name)
  }

  // A statement in the cache is the one last prepared under its name.
  lemma {:induction false} CachedFrom(cfg: Config, id: Identity, ms: seq<Msg>, name: string) returns (j: nat)
    requires name in CacheAfter(cfg, id, ms)
    ensures LastParse(ms, name, j) && Prepares(cfg, id, ms[j].parse, CacheAfter(cfg, id, ms)[name])
  {
    var n := |ms| - 1;
    var before := CacheAfter(cfg, id, ms[..n]);
    if ms[n].Parse? && ms[n].parse.statement == name {
      j := n;
      SlotNames(cfg.paramName, Prescribed(cfg, id), ms[n].parse.query);
    } else {
      j := CachedFrom(cfg, id, ms[..n], name);
      assert forall k :: j < k < n ==> ms[k] == ms[..n][k];
    }
  }

  // ---- whose connection it is ----

  // The identity accepted last in slot f, and whether it is to be served by a backend.
  function GuestAfter(s: State, e: Event, f: nat, g: (Identity, bool)): (Identity, bool) {
    if Answers.Renews(s, e, f) then (e.id, e.ready) else g
  }

  function Guest(cfg: Config, s: State, es: seq<Event>, f: nat, g: (Identity, bool)): (Identity, bool)
    decreases |es|
  {
    if es == [] then g else Guest(cfg, Step(cfg, s, es[0]), es[1..], f, GuestAfter(s, es[0], f, g))
  }

  predicate Serves(s: State, f: nat, g: (Identity, bool))
    requires f < |s.fes|
  {
    s.fes[f].core.id == g.0 && s.fes[f].core.ready == g.1
  }

  lemma {:induction false} RunServes(cfg: Config, s: State, es: seq<Event>, f: nat, g: (Identity, bool))
    requires Proper(cfg) && Inv(cfg, s) && f < |s.fes| && Serves(s, f, g)
    ensures Serves(Run(cfg, s, es), f, Guest(cfg, s, es, f, g))
    decreases |es|
  {
    if es != [] {
      StepInv(cfg, s, es[0]);
      if !Answers.Renews(s, es[0], f) { Answers.StepAnswers(cfg, s, es[0], f); }
      RunServes(cfg, Step(cfg, s, es[0]), es[1..], f, GuestAfter(s, es[0], f, g));
    }
  }

  // In every reachable state a connection is served under the identity it was accepted with.
  lemma IdentityIsAccepted(cfg: Config, s: State, es: seq<Event>, f: nat)
    requires Proper(cfg) && Initial(s) && f < |s.fes|
    ensures Serves(Run(cfg, s, es), f, Guest(cfg, s, es, f, (NOBODY, false)))
  {
    InitialInv(cfg, s);
    RunServes(cfg, s, es, f, (NOBODY, false));
  }

  // ---- where pipelines come from ----

  // Pipeline p is message i, a Bind of the statement prepared by message j, with the router id of
  // the identity in the slot prescribed for the connection or else in the one recorded.
  ghost predicate Provenance(cfg: Config, id: Identity, ms: seq<Msg>, p: Pipeline, i: nat, j: nat) {
    && j < i < |ms| && ms[i].Bind? && LastParse(ms[..i], ms[i].bind.statement, j)
    && p.query == ms[j].parse.query && p.types == ms[j].parse.types && p.resultFormats == ms[i].bind.resultFormats
    && (id.slot >= 0 ==> p.slot == id.slot)
    && (id.slot < 0 ==>
          exists slot ::
            Names(cfg.paramName, cfg.identitySlot, p.query, slot) && p.slot == if slot >= 0 then slot else 0)
    && p.slot < |p.params| == |ms[i].bind.params|
    && p.params[p.slot] == Param(TEXT, Some(id.router))
    && forall k :: 0 <= k < |p.params| && k != p.slot ==> p.params[k] == ms[i].bind.params[k]
  }

  lemma InjectedProvenance(cfg: Config, id: Identity, ms: seq<Msg>, p: Pipeline, i: nat) returns (j: nat)
    requires i < |ms| && ms[i].Bind? && Injected(p, CacheAfter(cfg, id, ms[..i]), ms[i].bind, id)
    ensures Provenance(cfg, id, ms, p, i, j)
  {
    var cache := CacheAfter(cfg, id, ms[..i]);
    j := CachedFrom(cfg, id, ms[..i], ms[i].bind.statement);
    assert ms[..i][j] == ms[j];
    assert Names(cfg.paramName, Prescribed(cfg, id), p.query, cache[ms[i].bind.statement].slot);
  }

  // In every reachable state, whatever was lost or cut short: every pipeline ever issued for a
  // connection comes from a Bind it handled and the Parse before it, carries the identity accepted
  // for the connection in the slot prescribed or else recorded, and is otherwise the Bind's own.
  lemma PipelineProvenance(cfg: Config, s: State, es: seq<Event>, f: nat, k: nat) returns (i: nat, j: nat)
    requires Proper(cfg) && Initial(s) && f < |s.fes| && k < |Run(cfg, s, es).fes[f].log.issued|
    ensures var fe := Run(cfg, s, es).fes[f];
            Provenance(cfg, Guest(cfg, s, es, f, (NOBODY, false)).0, fe.log.handled, fe.log.issued[k], i, j)
  {
    Refinement.IdentityAlwaysInjected(cfg, s, es, f);
    IdentityIsAccepted(cfg, s, es, f);
    var fe := Run(cfg, s, es).fes[f];
    var id, ms := fe.core.id, fe.log.handled;
    var src := Sources(cfg, id, fe.core.ready, ms);
    assert Refinement.IssuedBy(cfg, id, ms, fe.log.issued, src, k);
    i := src[k];
    j := InjectedProvenance(cfg, id, ms, fe.log.issued[k], i);
  }
}
