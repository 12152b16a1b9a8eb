// Re-framing the backend's byte stream: the receive path that is fed arbitrary chunks,
// and the blocking path that reads one message at a time.
module Framer {
  import opened Wire

  const ERROR_RESPONSE: Byte := 69   // 'E'
  const READY_FOR_QUERY: Byte := 90  // 'Z'

  // What the protocol library decides: whether it accepts a message while tracking the
  // pipeline, and which message types it filters away from the frontend.
  datatype Protocol = Protocol(accepts: Bytes -> bool, drops: (Byte, bool) -> bool)

  ghost predicate KeepsEnd(p: Protocol) {
    forall skip :: !p.drops(ERROR_RESPONSE, skip) && !p.drops(READY_FOR_QUERY, skip)
  }

  datatype Status = Status(sawError: bool, complete: bool)

  const FRESH: Status := Status(false, false)

  function Feed(st: Status, ty: Byte): Status {
    Status(st.sawError || ty == ERROR_RESPONSE, st.complete || ty == READY_FOR_QUERY)
  }

  // The length field of a message header: bytes 1 to 4, most significant first.
  function LengthField(s: Bytes): nat
    requires |s| >= 5
  {
    (s[1] as int) * 0x100_0000 + (s[2] as int) * 0x1_0000 + (s[3] as int) * 0x100 + (s[4] as int)
  }

  // A message is one type byte and as many bytes as its length field says.
  predicate IsMessage(m: Bytes) { |m| >= 5 && LengthField(m) >= 4 && |m| == 1 + LengthField(m) }

  type Message = m: Bytes | IsMessage(m) witness [0, 0, 0, 0, 4]

  predicate HasMessage(s: Bytes) { |s| >= 5 && LengthField(s) >= 4 && |s| >= 1 + LengthField(s) }

  // How far a scan of buffered bytes gets: Bad on a protocol or capacity error, More when
  // it needs bytes, Done when it passed ReadyForQuery. `rest` is what it has not consumed.
  datatype Scan =
    | Bad
    | More(rest: Bytes, st: Status, out: Bytes)
    | Done(rest: Bytes, st: Status, out: Bytes)

  datatype Params = Params(proto: Protocol, skip: bool, outCap: nat)

  // Taking one message in: Bad, More (go on) or Done, with nothing left over.
  function Take(p: Params, m: Bytes, st: Status, out: Bytes): Scan
    requires |m| >= 5
  {
    if !p.proto.accepts(m) then Bad
    else
      var st' := Feed(st, m[0]);
      if p.proto.drops(m[0], p.skip) then (if st'.complete then Done([], st', out) else More([], st', out))
      else if |out| + |m| > p.outCap then Bad
      else if st'.complete then Done([], st', out + m)
      else More([], st', out + m)
  }

  function Frames(p: Params, buf: Bytes, st: Status, out: Bytes): Scan
    decreases |buf|
  {
    if |buf| < 5 then More(buf, st, out)
    else if LengthField(buf) < 4 then Bad
    else
      var total := 1 + LengthField(buf);
      if total > |buf| then More(buf, st, out)
      else
        match Take(p, buf[..total], st, out)
        case Bad => Bad
        case Done(_, st', out') => Done(buf[total..], st', out')
        case More(_, st', out') => Frames(p, buf[total..], st', out')
  }

  // One receive call, and a run of them up to the first that fails or completes.
  function Recv(p: Params, accCap: nat, acc: Bytes, data: Bytes, st: Status, out: Bytes): Scan {
    if |acc| + |data| > accCap then Bad else Frames(p, acc + data, st, out)
  }

  function FeedAll(p: Params, accCap: nat, chunks: seq<Bytes>, acc: Bytes, st: Status, out: Bytes): Scan {
    if chunks == [] then More(acc, st, out)
    else
      match Recv(p, accCap, acc, chunks[0], st, out)
      case Bad => Bad
      case Done(r, s, o) => Done(r, s, o)
      case More(r, s, o) => FeedAll(p, accCap, chunks[1..], r, s, o)
  }

  // No call of the run overflows the accumulator.
  predicate Fits(p: Params, accCap: nat, chunks: seq<Bytes>, acc: Bytes, st: Status, out: Bytes) {
    chunks == [] ||
    (|acc| + |chunks[0]| <= accCap &&
     match Frames(p, acc + chunks[0], st, out)
     case More(r, s, o) => Fits(p, accCap, chunks[1..], r, s, o)
     case _ => true)
  }

  function Flat(parts: seq<Bytes>): Bytes {
    if parts == [] then [] else parts[0] + Flat(parts[1..])
  }

  // ---- chunking does not matter ----

  // More bytes never change what has been scanned.
  lemma {:induction false} FramesExtend(p: Params, x: Bytes, y: Bytes, st: Status, out: Bytes)
    ensures Frames(p, x + y, st, out) ==
      match Frames(p, x, st, out)
      case Bad => Bad
      case Done(r, s, o) => Done(r + y, s, o)
      case More(r, s, o) => Frames(p, r + y, s, o)
    decreases |x|
  {
    if |x| >= 5 && LengthField(x) >= 4 && 1 + LengthField(x) <= |x| {
      var total := 1 + LengthField(x);
      Prefix(x, y, total);
      var t := Take(p, x[..total], st, out);
      if t.More? {
        FramesExtend(p, x[total..], y, t.st, t.out);
      }
    } else if |x| >= 5 {
      Prefix(x, y, |x|);
    }
  }

  lemma Prefix(x: Bytes, y: Bytes, n: nat)
    requires n <= |x|
    ensures (x + y)[..n] == x[..n] && (x + y)[n..] == x[n..] + y
    ensures |x| >= 5 ==> LengthField(x + y) == LengthField(x)
  {
  }

  // The same end, status and output; a completed scan may leave different bytes unread.
  predicate SameOutcome(a: Scan, b: Scan) {
    match a
    case Bad => b.Bad?
    case More(r, s, o) => b == a
    case Done(r, s, o) => b.Done? && b.st == s && b.out == o
  }

  // Feeding chunks that fit is scanning their concatenation.
  lemma {:induction false} FeedAllIsFrames(p: Params, accCap: nat, chunks: seq<Bytes>, acc: Bytes, st: Status,
                                           out: Bytes)
    requires Frames(p, acc, st, out) == More(acc, st, out)
    requires Fits(p, accCap, chunks, acc, st, out)
    ensures SameOutcome(FeedAll(p, accCap, chunks, acc, st, out), Frames(p, acc + Flat(chunks), st, out))
  {
    if chunks == [] {
      assert acc + [] == acc;
    } else {
      var x, y := acc + chunks[0], Flat(chunks[1..]);
      assert acc + Flat(chunks) == x + y;
      FramesExtend(p, x, y, st, out);
      var f := Frames(p, x, st, out);
      if f.More? {
        FramesStops(p, x, st, out);
        FeedAllIsFrames(p, accCap, chunks[1..], f.rest, f.st, f.out);
      }
    }
  }

  // An incomplete scan stops where a fresh scan would stop at once.
  lemma {:induction false} FramesStops(p: Params, buf: Bytes, st: Status, out: Bytes)
    ensures var f := Frames(p, buf, st, out);
            f.More? ==> !HasMessage(f.rest) && Frames(p, f.rest, f.st, f.out) == f
    decreases |buf|
  {
    if HasMessage(buf) {
      var total := 1 + LengthField(buf);
      var t := Take(p, buf[..total], st, out);
      if t.More? {
        FramesStops(p, buf[total..], t.st, t.out);
      }
    }
  }

  lemma {:induction false} NoFailureFits(p: Params, accCap: nat, chunks: seq<Bytes>, acc: Bytes, st: Status, out: Bytes)
    requires !FeedAll(p, accCap, chunks, acc, st, out).Bad?
    ensures Fits(p, accCap, chunks, acc, st, out)
  {
    if chunks != [] {
      var f := Frames(p, acc + chunks[0], st, out);
      if f.More? {
        NoFailureFits(p, accCap, chunks[1..], f.rest, f.st, f.out);
      }
    }
  }

  // Chunking independence: two ways of cutting one stream, neither of which fails, end alike.
  lemma ChunkingIndependent(p: Params, accCap: nat, a: seq<Bytes>, b: seq<Bytes>)
    requires Flat(a) == Flat(b)
    requires !FeedAll(p, accCap, a, [], FRESH, []).Bad? && !FeedAll(p, accCap, b, [], FRESH, []).Bad?
    ensures SameOutcome(FeedAll(p, accCap, a, [], FRESH, []), FeedAll(p, accCap, b, [], FRESH, []))
  {
    NoFailureFits(p, accCap, a, [], FRESH, []);
    NoFailureFits(p, accCap, b, [], FRESH, []);
    FeedAllIsFrames(p, accCap, a, [], FRESH, []);
    FeedAllIsFrames(p, accCap, b, [], FRESH, []);
    assert [] + Flat(a) == [] + Flat(b);
  }

  // ---- what the output is ----

  function First(s: Bytes): Message
    requires HasMessage(s)
  {
    s[..1 + LengthField(s)]
  }

  // The messages of a stream up to and including the first ReadyForQuery.
  function Messages(s: Bytes): seq<Message>
    decreases |s|
  {
    if !HasMessage(s) then []
    else if First(s)[0] == READY_FOR_QUERY then [First(s)]
    else [First(s)] + Messages(s[|First(s)|..])
  }

  // The bytes of the stream those messages leave over.
  function Unparsed(s: Bytes): Bytes
    decreases |s|
  {
    if !HasMessage(s) then s
    else if First(s)[0] == READY_FOR_QUERY then s[|First(s)|..]
    else Unparsed(s[|First(s)|..])
  }

  // What the filter lets through, and whether an ErrorResponse is among the messages.
  function Kept(p: Params, ms: seq<Message>): Bytes {
    if ms == [] then [] else (if p.proto.drops(ms[0][0], p.skip) then [] else ms[0]) + Kept(p, ms[1..])
  }

  predicate HasError(ms: seq<Message>) {
    ms != [] && (ms[0][0] == ERROR_RESPONSE || HasError(ms[1..]))
  }

  // ReadyForQuery occurs only as the last message; Ready says that it does.
  predicate OneReady(ms: seq<Message>) {
    ms == [] || |ms| == 1 || (ms[0][0] != READY_FOR_QUERY && OneReady(ms[1..]))
  }

  predicate Ready(ms: seq<Message>) {
    ms != [] && (if |ms| == 1 then ms[0][0] == READY_FOR_QUERY else Ready(ms[1..]))
  }

  function Join(ms: seq<Message>): Bytes {
    if ms == [] then [] else ms[0] + Join(ms[1..])
  }

  lemma Regroup(m: Bytes, a: Bytes, b: Bytes)
    ensures (m + a) + b == m + (a + b)
  {
  }

  // Messages and Unparsed cut a stream at message boundaries, and as far as that goes.
  lemma {:induction false} CutMeaning(s: Bytes)
    ensures s == Join(Messages(s)) + Unparsed(s)
    ensures OneReady(Messages(s))
    ensures Ready(Messages(s)) || !HasMessage(Unparsed(s))
    decreases |s|
  {
    if HasMessage(s) {
      var m, t := First(s), s[|First(s)|..];
      if m[0] == READY_FOR_QUERY {
        assert Join([m]) == m;
      } else {
        CutMeaning(t);
        Regroup(m, Join(Messages(t)), Unparsed(t));
        CutCons(m, Messages(t));
      }
    }
  }

  lemma CutCons(m: Message, ms: seq<Message>)
    requires m[0] != READY_FOR_QUERY && OneReady(ms)
    ensures Join([m] + ms) == m + Join(ms)
    ensures OneReady([m] + ms) && (Ready(ms) ==> Ready([m] + ms))
  {
    assert ([m] + ms)[1..] == ms;
  }

  // It is the only way to cut it.
  lemma {:induction false} CutUnique(ms: seq<Message>, rest: Bytes)
    requires OneReady(ms) && (Ready(ms) || !HasMessage(rest))
    ensures Messages(Join(ms) + rest) == ms && Unparsed(Join(ms) + rest) == rest
  {
    if ms == [] {
      assert [] + rest == rest;
    } else {
      var m, tail := ms[0], Join(ms[1..]) + rest;
      Regroup(m, Join(ms[1..]), rest);
      FirstOf(m, tail);
      if m[0] == READY_FOR_QUERY {
        assert ms == [m];
        assert tail == rest;
      } else {
        CutUnique(ms[1..], rest);
        assert ms == [m] + ms[1..];
      }
    }
  }

  lemma FirstOf(m: Message, tail: Bytes)
    ensures HasMessage(m + tail) && First(m + tail) == m && (m + tail)[|m|..] == tail
  {
    Prefix(m, tail, |m|);
  }

  // A scan that does not fail outputs the kept messages up to the first ReadyForQuery, in
  // order and whole, and leaves exactly the unparsed bytes.
  lemma {:induction false} FramesMeaning(p: Params, s: Bytes, st: Status, out: Bytes)
    requires !st.complete && !Frames(p, s, st, out).Bad?
    ensures var f, ms := Frames(p, s, st, out), Messages(s);
            && f.out == out + Kept(p, ms)
            && f.st == Status(st.sawError || HasError(ms), Ready(ms))
            && f.Done? == Ready(ms)
            && f.rest == Unparsed(s)
    decreases |s|
  {
    if HasMessage(s) {
      var m, t := First(s), s[|First(s)|..];
      var u := Take(p, m, st, out);
      if m[0] == READY_FOR_QUERY {
        KeptCons(p, m, []);
        assert [m] + [] == [m];
        assert m + [] == m;
      } else {
        FramesMeaning(p, t, u.st, u.out);
        KeptCons(p, m, Messages(t));
        Regroup(out, if p.proto.drops(m[0], p.skip) then [] else m, Kept(p, Messages(t)));
        assert out + [] == out;
      }
    } else {
      assert out + [] == out;
    }
  }

  lemma KeptCons(p: Params, m: Message, ms: seq<Message>)
    ensures Kept(p, [m] + ms) == (if p.proto.drops(m[0], p.skip) then [] else m) + Kept(p, ms)
    ensures HasError([m] + ms) <==> m[0] == ERROR_RESPONSE || HasError(ms)
    ensures ms != [] ==> Ready([m] + ms) == Ready(ms)
  {
    assert ([m] + ms)[1..] == ms;
  }

  // The whole receive path: chunks of a stream, fed until one completes.
  lemma FeedAllMeaning(p: Params, accCap: nat, chunks: seq<Bytes>)
    requires !FeedAll(p, accCap, chunks, [], FRESH, []).Bad?
    ensures var f, ms := FeedAll(p, accCap, chunks, [], FRESH, []), Messages(Flat(chunks));
            && f.out == Kept(p, ms)
            && f.st == Status(HasError(ms), Ready(ms))
            && f.Done? == Ready(ms)
            && (f.More? ==> f.rest == Unparsed(Flat(chunks)) && !HasMessage(f.rest))
  {
    NoFailureFits(p, accCap, chunks, [], FRESH, []);
    FeedAllIsFrames(p, accCap, chunks, [], FRESH, []);
    assert [] + Flat(chunks) == Flat(chunks);
    FramesMeaning(p, Flat(chunks), FRESH, []);
    FramesStops(p, Flat(chunks), FRESH, []);
    assert [] + Kept(p, Messages(Flat(chunks))) == Kept(p, Messages(Flat(chunks)));
  }

  predicate EndsWith(s: Bytes, t: Bytes) { |t| <= |s| && s[|s| - |t|..] == t }

  lemma EndsAfter(a: Bytes, s: Bytes, t: Bytes)
    requires EndsWith(s, t)
    ensures EndsWith(a + s, t)
  {
  }

  lemma {:induction false} EndKept(p: Params, ms: seq<Message>)
    requires KeepsEnd(p.proto) && Ready(ms)
    ensures ms[|ms| - 1][0] == READY_FOR_QUERY && EndsWith(Kept(p, ms), ms[|ms| - 1])
  {
    var first := if p.proto.drops(ms[0][0], p.skip) then [] else ms[0];
    if |ms| == 1 {
      assert Kept(p, ms) == ms[0];
    } else {
      EndKept(p, ms[1..]);
      EndsAfter(first, Kept(p, ms[1..]), ms[|ms| - 1]);
    }
  }

  // With a filter that keeps ReadyForQuery, the output of a completed receive ends in that whole
  // message, however the stream was cut; so a completed pipeline always has a response to relay.
  lemma CompletionIsRelayed(p: Params, accCap: nat, chunks: seq<Bytes>)
    requires KeepsEnd(p.proto) && FeedAll(p, accCap, chunks, [], FRESH, []).Done?
    ensures var ms := Messages(Flat(chunks));
            && ms != [] && ms[|ms| - 1][0] == READY_FOR_QUERY
            && EndsWith(FeedAll(p, accCap, chunks, [], FRESH, []).out, ms[|ms| - 1])
  {
    FeedAllMeaning(p, accCap, chunks);
    EndKept(p, Messages(Flat(chunks)));
  }

  // ---- the blocking path ----

  const MAX_LENGTH: nat := 16 * 1024 * 1024

  datatype Read = ReadFailed | ReadOk(msg: Bytes, rest: Bytes)

  // One message off the stream into a buffer of `bufCap` bytes.
  function ReadMsg(bufCap: nat, stream: Bytes): (r: Read)
    ensures r.ReadOk? ==> IsMessage(r.msg)
  {
    if |stream| < 5 then ReadFailed
    else
      var len := LengthField(stream);
      if len < 4 || len > MAX_LENGTH || 1 + len > bufCap || |stream| < 1 + len then ReadFailed
      else ReadOk(stream[..1 + len], stream[1 + len..])
  }

  // The connection is lost; or the read stopped, at a reply too long for the caller or at the
  // limit of rounds, and the connection lives on with bytes unread; or all went well.
  datatype Flushed = FlushLost | FlushStopped(unread: Bytes) | FlushOk(st: Status, out: Bytes, rest: Bytes)

  function Flush(p: Params, bufCap: nat, stream: Bytes, st: Status, out: Bytes, rounds: nat): Flushed
    decreases rounds
  {
    if st.complete then FlushOk(st, out, stream)
    else if rounds == 0 then FlushStopped(stream)
    else
      match ReadMsg(bufCap, stream)
      case ReadFailed => FlushLost
      case ReadOk(m, rest) =>
        match Take(p, m, st, out)
        case Bad => if p.proto.accepts(m) then FlushStopped(rest) else FlushLost
        case More(_, st', out') => Flush(p, bufCap, rest, st', out', rounds - 1)
        case Done(_, st', out') => Flush(p, bufCap, rest, st', out', rounds - 1)
  }

  // What the blocking path completes, a scan of the whole stream completes alike.
  lemma {:induction false} FlushIsFrames(p: Params, bufCap: nat, stream: Bytes, st: Status, out: Bytes, rounds: nat)
    requires !st.complete && Flush(p, bufCap, stream, st, out, rounds).FlushOk?
    ensures var f := Flush(p, bufCap, stream, st, out, rounds);
            Frames(p, stream, st, out) == Done(f.rest, f.st, f.out)
    decreases rounds
  {
    var r := ReadMsg(bufCap, stream);
    var total := 1 + LengthField(stream);
    assert r.msg == stream[..total] && r.rest == stream[total..];
    var t := Take(p, r.msg, st, out);
    if t.More? {
      FlushIsFrames(p, bufCap, r.rest, t.st, t.out, rounds - 1);
    }
  }

  // The receive path agrees with the blocking path on any chunking that fits.
  lemma AsyncAgreesWithBlocking(p: Params, bufCap: nat, accCap: nat, rounds: nat, chunks: seq<Bytes>)
    requires Flush(p, bufCap, Flat(chunks), FRESH, [], rounds).FlushOk?
    requires Fits(p, accCap, chunks, [], FRESH, [])
    ensures var f := Flush(p, bufCap, Flat(chunks), FRESH, [], rounds);
            var a := FeedAll(p, accCap, chunks, [], FRESH, []);
            a.Done? && a.st == f.st && a.out == f.out
  {
    FeedAllIsFrames(p, accCap, chunks, [], FRESH, []);
    assert [] + Flat(chunks) == Flat(chunks);
    FlushIsFrames(p, bufCap, Flat(chunks), FRESH, [], rounds);
  }

  // ---- the two paths as the source runs them ----

  // One turn of the framing loop, at offset `off` of the buffered bytes.
  lemma FramesAt(p: Params, buf: Bytes, off: nat, st: Status, out: Bytes)
    requires off + 5 <= |buf|
    ensures LengthField(buf[off..off + 5]) == LengthField(buf[off..])
    ensures var len := LengthField(buf[off..off + 5]);
            && (len < 4 ==> Frames(p, buf[off..], st, out) == Bad)
            && (len >= 4 && off + 1 + len > |buf| ==> Frames(p, buf[off..], st, out) == More(buf[off..], st, out))
            && (len >= 4 && off + 1 + len <= |buf| ==>
                  Frames(p, buf[off..], st, out) ==
                  match Take(p, buf[off..off + 1 + len], st, out)
                  case Bad => Bad
                  case Done(_, s, o) => Done(buf[off + 1 + len..], s, o)
                  case More(_, s, o) => Frames(p, buf[off + 1 + len..], s, o))
  {
    var len := LengthField(buf[off..off + 5]);
    if len >= 4 && off + 1 + len <= |buf| {
      assert buf[off..][..1 + len] == buf[off..off + 1 + len];
      assert buf[off..][1 + len..] == buf[off + 1 + len..];
    }
  }

  lemma SliceOfPrefix(s: Bytes, n: nat, i: nat, j: nat)
    requires i <= j <= n <= |s|
    ensures s[..n][i..j] == s[i..j]
  {
  }

  lemma SameLength(a: Bytes, b: Bytes)
    requires |a| >= 5 && |b| >= 5 && a[1] == b[1] && a[2] == b[2] && a[3] == b[3] && a[4] == b[4]
    ensures LengthField(a) == LengthField(b)
  {
  }

  datatype Turn = Failed | Short | Took | Finished

  // One turn of the parse loop, at `off`: what it took in, and where it stands after it.
  ghost predicate Turns(p: Params, buf: Bytes, off: nat, st: Status, out: Bytes,
                        turn: Turn, next: nat, st': Status, out': Bytes)
    requires off + 5 <= |buf|
  {
    var len := LengthField(buf[off..off + 5]);
    off <= next <= |buf| &&
    if len < 4 then turn == Failed
    else if off + 1 + len > |buf| then turn == Short && next == off && st' == st && out' == out
    else
      match Take(p, buf[off..off + 1 + len], st, out)
      case Bad => turn == Failed
      case More(_, s, o) => turn == Took && next == off + 1 + len && st' == s && out' == o
      case Done(_, s, o) => turn == Finished && next == off + 1 + len && st' == s && out' == o
  }

  lemma TurnMeaning(p: Params, buf: Bytes, off: nat, st: Status, out: Bytes,
                    turn: Turn, next: nat, st': Status, out': Bytes)
    requires off + 5 <= |buf| && Turns(p, buf, off, st, out, turn, next, st', out')
    ensures var f := Frames(p, buf[off..], st, out);
            match turn
            case Failed => f == Bad
            case Short => f == More(buf[next..], st', out')
            case Took => off < next && f == Frames(p, buf[next..], st', out')
            case Finished => f == Done(buf[next..], st', out')
  {
    FramesAt(p, buf, off, st, out);
    match turn
    case Failed =>
    case Short => assert next == off;
    case Took => assert next == off + 1 + LengthField(buf[off..off + 5]);
    case Finished => assert next == off + 1 + LengthField(buf[off..off + 5]);
  }

  class Receiver {
    const proto: Protocol
    const recvAcc: array<Byte>
    var recvAccLen: nat
    var skipParseBind: bool
    var st: Status

    ghost predicate Valid()
      reads this
    {
      recvAccLen <= recvAcc.Length
    }

    ghost function Acc(): Bytes
      requires Valid()
      reads this, recvAcc
    {
      recvAcc[..recvAccLen]
    }

    constructor (proto: Protocol, cap: nat)
      ensures Valid() && fresh(recvAcc) && Acc() == [] && st == FRESH
      ensures this.proto == proto && recvAcc.Length == cap && skipParseBind
    {
      this.proto := proto;
      recvAcc := new Byte[cap];
      recvAccLen, skipParseBind, st := 0, true, FRESH;
    }

    // Track one message and copy it out unless it is filtered.
    method FilterAppend(msg: Bytes, out: array<Byte>, outLen: nat) returns (ok: bool, len: nat, sawReady: bool)
      requires IsMessage(msg) && outLen <= out.Length && out != recvAcc
      modifies this`st, out
      ensures len <= out.Length
      ensures match Take(Params(proto, skipParseBind, out.Length), msg, old(st), old(out[..outLen]))
              case Bad => !ok
              case More(_, s, o) => ok && !sawReady && st == s && out[..len] == o
              case Done(_, s, o) => ok && sawReady && st == s && out[..len] == o
    {
      ok, len, sawReady := false, outLen, false;
      if !proto.accepts(msg) { return; }
      st := Feed(st, msg[0]);
      if proto.drops(msg[0], skipParseBind) {
        return true, outLen, st.complete;
      }
      if outLen + |msg| > out.Length { return; }
      forall i | 0 <= i < |msg| {
        out[outLen + i] := msg[i];
      }
      len := outLen + |msg|;
      assert out[..len] == old(out[..outLen]) + msg;
      return true, len, st.complete;
    }

    method OnRecv(data: Bytes, out: array<Byte>, outLen: nat) returns (ok: bool, len: nat, complete: bool)
      requires Valid() && outLen <= out.Length && out != recvAcc
      modifies this, recvAcc, out
      ensures Valid() && len <= out.Length && skipParseBind == old(skipParseBind)
      ensures match Recv(Params(proto, old(skipParseBind), out.Length), recvAcc.Length,
                                  old(Acc()), data, old(st), old(out[..outLen]))
              case Bad => !ok
              case More(r, s, o) => ok && !complete && Acc() == r && st == s && out[..len] == o
              case Done(r, s, o) => ok && complete && Acc() == r && st == s && out[..len] == o
    {
      ghost var p := Params(proto, skipParseBind, out.Length);
      ok, len, complete := false, outLen, false;
      if recvAccLen + |data| > recvAcc.Length { return; }
      Receive(data);
      ghost var buf := Acc();
      var off: nat := 0;
      var turn := Took;
      assert buf[0..] == buf;
      while turn == Took && off + 5 <= recvAccLen
        invariant off <= recvAccLen == |buf| && recvAccLen <= recvAcc.Length && buf == Acc()
        invariant len <= out.Length && skipParseBind == old(skipParseBind)
        invariant turn.Took? ==> Frames(p, buf, old(st), old(out[..outLen])) == Frames(p, buf[off..], st, out[..len])
        invariant turn.Short? ==> Frames(p, buf, old(st), old(out[..outLen])) == More(buf[off..], st, out[..len])
        invariant turn.Finished? ==> Frames(p, buf, old(st), old(out[..outLen])) == Done(buf[off..], st, out[..len])
        invariant turn.Failed? ==> Frames(p, buf, old(st), old(out[..outLen])) == Bad
        decreases turn == Took, recvAccLen - off
      {
        ghost var at, before, taken := off, st, out[..len];
        turn, len, off := OneMessage(buf, off, out, len);
        TurnMeaning(p, buf, at, before, taken, turn, off, st, out[..len]);
      }
      if turn == Failed { return; }
      Consume(off);
      return true, len, turn == Finished;
    }

    // One turn of the loop: the message at `off`, if it is whole.
    method OneMessage(ghost buf: Bytes, off: nat, out: array<Byte>, outLen: nat)
      returns (turn: Turn, len: nat, next: nat)
      requires Valid() && outLen <= out.Length && out != recvAcc
      requires buf == Acc() && off + 5 <= recvAccLen
      modifies this`st, out
      ensures len <= out.Length
      ensures Turns(Params(proto, skipParseBind, out.Length), buf, off, old(st), old(out[..outLen]),
                    turn, next, st, out[..len])
    {
      var length, msg := Peek(buf, off);
      if length < 4 { return Failed, outLen, off; }
      if off + 1 + length > recvAccLen { return Short, outLen, off; }
      var good, sawReady;
      good, len, sawReady := FilterAppend(msg, out, outLen);
      if !good { return Failed, len, off; }
      return if sawReady then Finished else Took, len, off + 1 + length;
    }

    // The length field at `off`, and the message if it is whole.
    method Peek(ghost buf: Bytes, off: nat) returns (length: nat, msg: Bytes)
      requires Valid() && buf == Acc() && off + 5 <= recvAccLen
      ensures length == LengthField(buf[off..off + 5])
      ensures length >= 4 && off + 1 + length <= recvAccLen ==> msg == buf[off..off + 1 + length] && IsMessage(msg)
    {
      SliceOfPrefix(recvAcc[..], recvAccLen, off, off + 5);
      length := LengthField(recvAcc[off..off + 5]);
      msg := [];
      if length >= 4 && off + 1 + length <= recvAccLen {
        msg := recvAcc[off..off + 1 + length];
        SliceOfPrefix(recvAcc[..], recvAccLen, off, off + 1 + length);
        SameLength(msg, recvAcc[off..off + 5]);
      }
    }

    method Receive(data: Bytes)
      requires Valid() && recvAccLen + |data| <= recvAcc.Length
      modifies this`recvAccLen, recvAcc
      ensures Valid() && Acc() == old(Acc()) + data
    {
      forall i | 0 <= i < |data| {
        recvAcc[recvAccLen + i] := data[i];
      }
      recvAccLen := recvAccLen + |data|;
    }

    // Move the unparsed suffix to the front.
    method Consume(off: nat)
      requires Valid() && off <= recvAccLen
      modifies this`recvAccLen, recvAcc
      ensures Valid() && Acc() == old(Acc())[off..]
    {
      forall i | 0 <= i < recvAccLen - off {
        recvAcc[i] := recvAcc[off + i];
      }
      recvAccLen := recvAccLen - off;
    }
  }

  // A blocking socket: `data` is what the backend will still deliver before a read fails, for
  // whatever reason: the end of the stream, an error, or a descriptor set non-blocking with
  // nothing there yet. A read returns any non-empty part of what was asked for, or nothing then.
  class Socket {
    var data: Bytes

    constructor (data: Bytes)
      ensures this.data == data
    {
      this.data := data;
    }

    method Read(want: nat) returns (got: Bytes)
      requires want > 0
      modifies this
      ensures |got| <= want && old(data) == got + data
      ensures got == [] <==> old(data) == []
    {
      if data == [] { return []; }
      var n :| 1 <= n <= want && n <= |data|;
      got := data[..n];
      data := data[n..];
    }

    method ReadExactly(want: nat) returns (ok: bool, got: Bytes)
      modifies this
      ensures ok <==> |old(data)| >= want
      ensures ok ==> |got| == want && old(data) == got + data
    {
      got := [];
      while |got| < want
        invariant |got| <= want && old(data) == got + data
      {
        var part := Read(want - |got|);
        if part == [] { return false, got; }
        got := got + part;
      }
      return true, got;
    }

    method ReadMessage(bufCap: nat) returns (ok: bool, msg: Bytes)
      modifies this
      ensures match ReadMsg(bufCap, old(data))
              case ReadFailed => !ok
              case ReadOk(m, rest) => ok && msg == m && data == rest
    {
      var head, body;
      ok, head := ReadExactly(5);
      if !ok { return false, []; }
      Prefix(head, data, 5);
      var len := LengthField(head);
      if len < 4 || len > MAX_LENGTH || 1 + len > bufCap { return false, []; }
      ghost var after := data;
      ok, body := ReadExactly(len - 4);
      if !ok { return false, []; }
      msg := head + body;
      Regroup(head, body, data);
      Prefix(msg, data, 1 + len);
    }

    // Read to ReadyForQuery, at most `rounds` messages.
    method FlushPipeline(proto: Protocol, skip: bool, bufCap: nat, outCap: nat, rounds: nat)
      returns (ok: bool, alive: bool, st: Status, out: Bytes)
      modifies this
      ensures match Flush(Params(proto, skip, outCap), bufCap, old(data), FRESH, [], rounds)
              case FlushLost => !ok && !alive
              case FlushStopped(unread) => !ok && alive && data == unread
              case FlushOk(s, o, rest) => ok && alive && st == s && out == o && data == rest
    {
      ghost var p := Params(proto, skip, outCap);
      ok, alive, st, out := false, true, FRESH, [];
      var left: nat := rounds;
      while !st.complete && left > 0
        invariant left <= rounds
        invariant Flush(p, bufCap, old(data), FRESH, [], rounds) == Flush(p, bufCap, data, st, out, left)
        decreases left
      {
        left := left - 1;
        var got, msg := ReadMessage(bufCap);
        if !got || !proto.accepts(msg) {
          alive := false;
          return;
        }
        st := Feed(st, msg[0]);
        if !proto.drops(msg[0], skip) {
          if |out| + |msg| > outCap { return; }
          out := out + msg;
        }
      }
      ok := st.complete;
    }
  }
}
