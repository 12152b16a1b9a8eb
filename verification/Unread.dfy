// Backends given back with bytes unread: exactly when the blocking path does that, and what it
// means for the next pipeline on the slot.
module Unread {
  import opened Wire
  import opened Framer

  // Every message is accepted and fits the read buffer.
  predicate Readable(p: Params, bufCap: nat, ms: seq<Message>) {
    forall i :: 0 <= i < |ms| ==>
      p.proto.accepts(ms[i]) && |ms[i]| <= bufCap && LengthField(ms[i]) <= MAX_LENGTH
  }

  // A reply that starts with a readable message: that message is read.
  lemma ReadFirst(p: Params, bufCap: nat, s: Bytes)
    requires Ready(Messages(s)) && Readable(p, bufCap, Messages(s))
    ensures HasMessage(s) && ReadMsg(bufCap, s) == ReadOk(First(s), s[|First(s)|..]) && p.proto.accepts(First(s))
    ensures Messages(s)[0] == First(s)
    ensures First(s)[0] == READY_FOR_QUERY ==> Messages(s) == [First(s)] && Unparsed(s) == s[|First(s)|..]
    ensures First(s)[0] != READY_FOR_QUERY ==>
      && Messages(s)[1..] == Messages(s[|First(s)|..]) && Ready(Messages(s)[1..])
      && Readable(p, bufCap, Messages(s)[1..]) && Unparsed(s) == Unparsed(s[|First(s)|..])
  {
    var ms := Messages(s);
    assert p.proto.accepts(ms[0]) && |ms[0]| <= bufCap;
    if First(s)[0] != READY_FOR_QUERY {
      assert ms == [First(s)] + Messages(s[|First(s)|..]);
      if |ms| == 1 { assert false; }
    }
  }

  lemma KeptFirst(p: Params, ms: seq<Message>)
    requires ms != []
    ensures Kept(p, ms) == (if p.proto.drops(ms[0][0], p.skip) then [] else ms[0]) + Kept(p, ms[1..])
    ensures |ms| == 1 ==> ms[1..] == []
  {
  }

  // The read stops before it reaches the ReadyForQuery: for want of rounds, or because what
  // comes before it does not fit.
  predicate StopsShort(p: Params, ms: seq<Message>, out: Bytes, rounds: nat)
    requires ms != []
  {
    |ms| > rounds || |out| + |Kept(p, ms[..|ms| - 1])| > p.outCap
  }

  lemma StopsShortStep(p: Params, ms: seq<Message>, out: Bytes, rounds: nat)
    requires |ms| > 1 && rounds > 0
    ensures var kept := if p.proto.drops(ms[0][0], p.skip) then [] else ms[0];
            && StopsShort(p, ms, out, rounds) == StopsShort(p, ms[1..], out + kept, rounds - 1)
            && (|out| + |kept| > p.outCap ==> StopsShort(p, ms, out, rounds))
  {
    var init := ms[..|ms| - 1];
    KeptFirst(p, init);
    assert init[1..] == ms[1..][..|ms[1..]| - 1];
  }

  // One message that is not the last.
  lemma LeavesStep(p: Params, bufCap: nat, s: Bytes, st: Status, out: Bytes, rounds: nat)
    requires !st.complete && rounds > 0 && |out| <= p.outCap
    requires Ready(Messages(s)) && Readable(p, bufCap, Messages(s)) && First(s)[0] != READY_FOR_QUERY
    ensures var u, t := Take(p, First(s), st, out), s[|First(s)|..];
            && !u.Done? && Messages(t) != []
            && (u.Bad? ==>
                  && Flush(p, bufCap, s, st, out, rounds) == FlushStopped(t) && Ready(Messages(t))
                  && StopsShort(p, Messages(s), out, rounds) && |out| + |Kept(p, Messages(s))| > p.outCap)
            && (u.More? ==>
                  && !u.st.complete && |u.out| <= p.outCap
                  && Flush(p, bufCap, s, st, out, rounds) == Flush(p, bufCap, t, u.st, u.out, rounds - 1)
                  && StopsShort(p, Messages(s), out, rounds) == StopsShort(p, Messages(t), u.out, rounds - 1)
                  && |u.out| + |Kept(p, Messages(t))| == |out| + |Kept(p, Messages(s))|)
  {
    ReadFirst(p, bufCap, s);
    StopsShortStep(p, Messages(s), out, rounds);
    KeptFirst(p, Messages(s));
    assert out + [] == out;
  }

  // The last message.
  lemma LeavesLast(p: Params, bufCap: nat, s: Bytes, st: Status, out: Bytes, rounds: nat)
    requires !st.complete && rounds > 0 && |out| <= p.outCap
    requires Ready(Messages(s)) && Readable(p, bufCap, Messages(s)) && First(s)[0] == READY_FOR_QUERY
    ensures Messages(s) == [First(s)] && !StopsShort(p, Messages(s), out, rounds)
    ensures var f := Flush(p, bufCap, s, st, out, rounds);
            if |out| + |Kept(p, Messages(s))| <= p.outCap then f.FlushOk? && f.rest == Unparsed(s)
            else f == FlushStopped(Unparsed(s))
  {
    ReadFirst(p, bufCap, s);
    KeptFirst(p, Messages(s));
    assert Messages(s)[..0] == [];
  }

  // A stream that starts with a whole, readable reply.
  ghost predicate Replies(p: Params, bufCap: nat, s: Bytes) {
    Ready(Messages(s)) && Readable(p, bufCap, Messages(s))
  }

  // What the read makes of the reply, and what it leaves: the ReadyForQuery, or what came after it.
  ghost predicate Reads(p: Params, s: Bytes, out: Bytes, rounds: nat, f: Flushed)
    requires Messages(s) != []
  {
    var ms := Messages(s);
    && !f.FlushLost?
    && (f.FlushOk? <==> |ms| <= rounds && |out| + |Kept(p, ms)| <= p.outCap)
    && (f.FlushOk? ==> f.rest == Unparsed(s))
    && (StopsShort(p, ms, out, rounds) ==> f.FlushStopped? && Ready(Messages(f.unread)))
    && (!StopsShort(p, ms, out, rounds) && f.FlushStopped? ==> f.unread == Unparsed(s))
  }

  lemma ReadsNone(p: Params, bufCap: nat, s: Bytes, st: Status, out: Bytes)
    requires !st.complete && Replies(p, bufCap, s)
    ensures Messages(s) != [] && Reads(p, s, out, 0, Flush(p, bufCap, s, st, out, 0))
  {
  }

  lemma ReadsLast(p: Params, bufCap: nat, s: Bytes, st: Status, out: Bytes, rounds: nat)
    requires !st.complete && rounds > 0 && |out| <= p.outCap && Replies(p, bufCap, s)
    requires HasMessage(s) && First(s)[0] == READY_FOR_QUERY
    ensures Reads(p, s, out, rounds, Flush(p, bufCap, s, st, out, rounds))
  {
    LeavesLast(p, bufCap, s, st, out, rounds);
  }

  lemma ReadsMore(p: Params, bufCap: nat, s: Bytes, st: Status, out: Bytes, rounds: nat)
    requires !st.complete && rounds > 0 && |out| <= p.outCap && Replies(p, bufCap, s)
    requires HasMessage(s) && First(s)[0] != READY_FOR_QUERY
    ensures var u, t, f := Take(p, First(s), st, out), s[|First(s)|..], Flush(p, bufCap, s, st, out, rounds);
            && Replies(p, bufCap, t) && !u.Done?
            && (u.Bad? ==> Reads(p, s, out, rounds, f))
            && (u.More? ==>
                  && !u.st.complete && |u.out| <= p.outCap && f == Flush(p, bufCap, t, u.st, u.out, rounds - 1)
                  && (Reads(p, t, u.out, rounds - 1, f) ==> Reads(p, s, out, rounds, f)))
  {
    ReadFirst(p, bufCap, s);
    LeavesStep(p, bufCap, s, st, out, rounds);
  }

  // The blocking read of a readable reply succeeds exactly if it has no more messages than there
  // are rounds and all it keeps fits the caller's buffer; else it stops, and the connection
  // lives. A ReadyForQuery is left unread exactly if the read stops short of it.
  lemma {:induction false} FlushExact(p: Params, bufCap: nat, s: Bytes, st: Status, out: Bytes, rounds: nat)
    requires !st.complete && |out| <= p.outCap && Replies(p, bufCap, s)
    ensures Messages(s) != [] && Reads(p, s, out, rounds, Flush(p, bufCap, s, st, out, rounds))
    decreases |s|
  {
    if rounds == 0 {
      ReadsNone(p, bufCap, s, st, out);
    } else {
      ReadFirst(p, bufCap, s);
      if First(s)[0] == READY_FOR_QUERY {
        ReadsLast(p, bufCap, s, st, out, rounds);
      } else {
        ReadsMore(p, bufCap, s, st, out, rounds);
        var u, t := Take(p, First(s), st, out), s[|First(s)|..];
        if u.More? { FlushExact(p, bufCap, t, u.st, u.out, rounds - 1); }
      }
    }
  }

  // The same for a whole reply, said outright.
  lemma ReplyExact(p: Params, bufCap: nat, s: Bytes, rounds: nat)
    requires Replies(p, bufCap, s) && !Ready(Messages(Unparsed(s)))
    ensures var f, ms := Flush(p, bufCap, s, FRESH, [], rounds), Messages(s);
            && ms != [] && !f.FlushLost?
            && (f.FlushOk? <==> |ms| <= rounds && |Kept(p, ms)| <= p.outCap)
            && (f.FlushStopped? && Ready(Messages(f.unread)) <==>
                  |ms| > rounds || |Kept(p, ms[..|ms| - 1])| > p.outCap)
  {
    FlushExact(p, bufCap, s, FRESH, [], rounds);
  }

  // ---- real replies that leave one ----

  // Several messages that fit one by one but not together, with equal buffers: the ReadyForQuery
  // is left, and the connection lives on.
  lemma SeveralTooLong(p: Params, cap: nat, a: Message, b: Message, z: Message, rounds: nat)
    requires p.outCap == cap && rounds >= 3 && Readable(p, cap, [a, b, z])
    requires a[0] != READY_FOR_QUERY && b[0] != READY_FOR_QUERY && z[0] == READY_FOR_QUERY
    requires !p.proto.drops(a[0], p.skip) && !p.proto.drops(b[0], p.skip) && |a| + |b| > cap
    ensures var f := Flush(p, cap, Join([a, b, z]), FRESH, [], rounds);
            f.FlushStopped? && Ready(Messages(f.unread))
  {
    var ms: seq<Message> := [a, b, z];
    assert [b, z][1..] == [z] && ms[1..] == [b, z];
    WholeReply(ms);
    var init: seq<Message> := [a, b];
    assert ms[..2] == init && init[1..] == [b];
    KeptFirst(p, init);
    KeptFirst(p, [b]);
    FlushExact(p, cap, Join(ms), FRESH, [], rounds);
  }

  // A reply of more messages than there are rounds.
  lemma TooManyMessages(p: Params, bufCap: nat, ms: seq<Message>, rounds: nat)
    requires OneReady(ms) && Ready(ms) && Readable(p, bufCap, ms) && |ms| > rounds
    ensures var f := Flush(p, bufCap, Join(ms), FRESH, [], rounds);
            f.FlushStopped? && Ready(Messages(f.unread))
  {
    WholeReply(ms);
    FlushExact(p, bufCap, Join(ms), FRESH, [], rounds);
  }

  // A stream that is one reply and nothing else.
  lemma WholeReply(ms: seq<Message>)
    requires OneReady(ms) && Ready(ms)
    ensures Messages(Join(ms)) == ms && Unparsed(Join(ms)) == []
  {
    CutUnique(ms, []);
    assert Join(ms) + [] == Join(ms);
  }

  // A single message that does not fit the read buffer loses the connection instead.
  lemma OversizeLost(p: Params, bufCap: nat, m: Message, rest: Bytes, rounds: nat)
    requires rounds > 0 && (|m| > bufCap || LengthField(m) > MAX_LENGTH)
    ensures Flush(p, bufCap, m + rest, FRESH, [], rounds) == FlushLost
  {
    Prefix(m, rest, |m|);
  }

  // The buffers and the limit of the source.
  const BUFFER: nat := 16384
  const ROUNDS: nat := 256

  const READY: Message := [90, 0, 0, 0, 5, 73]

  // A data row of 10001 bytes.
  function Row(): Message {
    var row: Bytes := [68, 0, 0, 39, 16] + seq(9996, i => 0);
    row
  }

  // Two such rows are enough, whatever else the protocol library does.
  lemma TwoRows(p: Params)
    requires p.outCap == BUFFER && p.proto.accepts(Row()) && p.proto.accepts(READY) && !p.proto.drops(68, p.skip)
    ensures var f := Flush(p, BUFFER, Join([Row(), Row(), READY]), FRESH, [], ROUNDS);
            f.FlushStopped? && Ready(Messages(f.unread))
  {
    SeveralTooLong(p, BUFFER, Row(), Row(), READY, ROUNDS);
  }

  function Copies(m: Message, n: nat): (r: seq<Message>)
    ensures |r| == n && forall i :: 0 <= i < n ==> r[i] == m
  {
    seq(n, i => m)
  }

  // Short rows, one for each round.
  lemma ManyRows(p: Params, row: Message)
    requires row[0] != READY_FOR_QUERY && p.proto.accepts(row) && p.proto.accepts(READY)
    requires |row| <= BUFFER
    ensures var f := Flush(p, BUFFER, Join(Copies(row, ROUNDS) + [READY]), FRESH, [], ROUNDS);
            f.FlushStopped? && Ready(Messages(f.unread))
  {
    CopiesReady(row, ROUNDS);
    TooManyMessages(p, BUFFER, Copies(row, ROUNDS) + [READY], ROUNDS);
  }

  lemma {:induction false} CopiesReady(m: Message, n: nat)
    requires m[0] != READY_FOR_QUERY
    ensures OneReady(Copies(m, n) + [READY]) && Ready(Copies(m, n) + [READY])
  {
    if n > 0 {
      CopiesReady(m, n - 1);
      assert (Copies(m, n) + [READY])[1..] == Copies(m, n - 1) + [READY];
    }
  }

  // ---- the next pipeline on the slot ----

  // A connection given back with unread bytes answers for the pipeline before: when they hold a
  // ReadyForQuery, the next pipeline on it is given what they hold, and nothing of its own.
  lemma StaleReply(p: Params, accCap: nat, unread: Bytes, own: Bytes, chunks: seq<Bytes>)
    requires Ready(Messages(unread)) && Flat(chunks) == unread + own
    requires !FeedAll(p, accCap, chunks, [], FRESH, []).Bad?
    ensures var f := FeedAll(p, accCap, chunks, [], FRESH, []);
            f.Done? && f.out == Kept(p, Messages(unread)) && f.st.sawError == HasError(Messages(unread))
  {
    FeedAllMeaning(p, accCap, chunks);
    CutMeaning(unread);
    Regroup(Join(Messages(unread)), Unparsed(unread), own);
    CutUnique(Messages(unread), Unparsed(unread) + own);
  }

  // With nothing unread it is given its own.
  lemma OwnReply(p: Params, accCap: nat, own: Bytes, chunks: seq<Bytes>)
    requires Ready(Messages(own)) && Flat(chunks) == own && !FeedAll(p, accCap, chunks, [], FRESH, []).Bad?
    ensures FeedAll(p, accCap, chunks, [], FRESH, []).out == Kept(p, Messages(own))
  {
    FeedAllMeaning(p, accCap, chunks);
  }

  // What a blocking round trip that kept its connection leaves on it.
  function Left(f: Flushed): Bytes
    requires !f.FlushLost?
  {
    if f.FlushOk? then f.rest else f.unread
  }

  // The whole of it: after a blocking round trip with the reply s, the next pipeline on the slot,
  // whose own reply is `own`, is given its own reply exactly if the read did not stop short; and
  // else what was left of s.
  lemma NextReply(p: Params, bufCap: nat, s: Bytes, rounds: nat, q: Params, accCap: nat, own: Bytes, chunks: seq<Bytes>)
    requires Ready(Messages(s)) && Unparsed(s) == [] && Readable(p, bufCap, Messages(s))
    requires Ready(Messages(own)) && Flat(chunks) == Left(FlushOf(p, bufCap, s, rounds)) + own
    requires !FeedAll(q, accCap, chunks, [], FRESH, []).Bad?
    ensures FeedAll(q, accCap, chunks, [], FRESH, []).out ==
      if StopsShort(p, Messages(s), [], rounds) then Kept(q, Messages(Left(FlushOf(p, bufCap, s, rounds))))
      else Kept(q, Messages(own))
  {
    var unread := Left(FlushOf(p, bufCap, s, rounds));
    FlushExact(p, bufCap, s, FRESH, [], rounds);
    if StopsShort(p, Messages(s), [], rounds) {
      StaleReply(q, accCap, unread, own, chunks);
    } else {
      assert unread == [] && [] + own == own;
      OwnReply(q, accCap, own, chunks);
    }
  }

  function FlushOf(p: Params, bufCap: nat, s: Bytes, rounds: nat): (f: Flushed)
    requires Ready(Messages(s)) && Readable(p, bufCap, Messages(s))
    ensures !f.FlushLost?
  {
    FlushExact(p, bufCap, s, FRESH, [], rounds);
    Flush(p, bufCap, s, FRESH, [], rounds)
  }
}
