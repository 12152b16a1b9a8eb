// The frontend's send buffer on a plain socket: appends, in-flight sends and partial completions.
module SendBuffer {
  import opened Wire

  class FrontendOut {
    const sendBuf: array<Byte>
    var sendLen: nat
    var sendOff: nat
    var sendPending: bool
    // The end of the region handed to the kernel by the send in flight.
    var submitted: nat

    // Every byte ever queued, every byte the peer's socket took, and the bytes the send in
    // flight was given.
    ghost var queued: Bytes
    ghost var accepted: Bytes
    ghost var inFlight: Bytes

    // Conservation: what was taken, then what the buffer still holds, is what was queued; and
    // the region of the send in flight still holds the bytes it was given.
    ghost predicate Valid()
      reads this, sendBuf
    {
      && sendOff <= sendLen <= sendBuf.Length
      && accepted + sendBuf[sendOff..sendLen] == queued
      && (sendPending ==> sendOff < submitted <= sendLen && sendBuf[sendOff..submitted] == inFlight)
      // A send is in flight whenever there is something to send; an empty buffer starts over.
      && (sendOff < sendLen ==> sendPending)
      && (sendOff == sendLen ==> sendLen == 0)
    }

    ghost function Indices(): Fill
      requires Valid()
      reads this, sendBuf
    {
      Fill(sendOff, sendLen, if sendPending then submitted - sendOff else 0)
    }

    constructor (cap: nat)
      ensures Valid() && fresh(sendBuf) && sendBuf.Length == cap
      ensures queued == [] && accepted == [] && Indices() == Fill(0, 0, 0)
    {
      sendBuf := new Byte[cap];
      sendLen, sendOff, sendPending, submitted := 0, 0, false, 0;
      queued, accepted, inFlight := [], [], [];
    }

    method SubmitSend()
      requires sendOff <= sendLen <= sendBuf.Length
      requires accepted + sendBuf[sendOff..sendLen] == queued
      requires sendPending ==> sendOff < submitted <= sendLen && sendBuf[sendOff..submitted] == inFlight
      requires sendOff == sendLen ==> sendLen == 0
      modifies this`sendPending, this`submitted, this`inFlight
      ensures Valid()
      ensures old(sendPending) ==> sendPending && inFlight == old(inFlight) && submitted == old(submitted)
      ensures !old(sendPending) && sendOff < sendLen ==> sendPending && inFlight == sendBuf[sendOff..sendLen]
    {
      if sendPending || sendOff >= sendLen { return; }
      sendPending, submitted := true, sendLen;
      inFlight := sendBuf[sendOff..sendLen];
    }

    // Queue bytes for the frontend. It fails exactly when they do not fit behind what is
    // still held; the space before sendOff is reused only once nothing is held, and then the
    // offsets are zero already.
    method Queue(data: Bytes) returns (ok: bool)
      requires Valid()
      modifies this, sendBuf
      ensures Valid()
      ensures ok <==> data == [] || old(sendLen) + |data| <= sendBuf.Length
      ensures (Indices(), ok) == After(old(Indices()), sendBuf.Length, Append(data))
      ensures queued == if ok then old(queued) + data else old(queued)
      ensures accepted == old(accepted)
      ensures old(sendPending) ==>
        sendPending && inFlight == old(inFlight) && sendOff == old(sendOff) && submitted == old(submitted)
    {
      if data == [] {
        assert queued + data == queued;
        return true;
      }
      if sendLen + |data| > sendBuf.Length {
        if sendOff == sendLen {
          sendOff, sendLen := 0, 0;
        }
        if sendLen + |data| > sendBuf.Length {
          return false;
        }
      }
      CopyIn(data);
      SubmitSend();
      return true;
    }

    method CopyIn(data: Bytes)
      requires Valid() && sendLen + |data| <= sendBuf.Length
      modifies this`sendLen, this`queued, sendBuf
      ensures sendOff <= sendLen <= sendBuf.Length
      ensures queued == old(queued) + data
      ensures accepted + sendBuf[sendOff..sendLen] == queued
      ensures sendPending ==> sendOff < submitted <= sendLen && sendBuf[sendOff..submitted] == inFlight
    {
      ghost var held := sendBuf[sendOff..sendLen];
      forall i | 0 <= i < |data| {
        sendBuf[sendLen + i] := data[i];
      }
      sendLen := sendLen + |data|;
      queued := queued + data;
      assert sendBuf[sendOff..sendLen] == held + data;
      assert accepted + (held + data) == (accepted + held) + data;
    }

    // The kernel took the first n bytes of the send in flight.
    method OnSendDone(n: nat)
      requires Valid() && sendPending && n <= |inFlight|
      modifies this
      ensures Valid()
      ensures queued == old(queued)
      ensures accepted == old(accepted) + old(inFlight)[..n]
      ensures (Indices(), true) == After(old(Indices()), sendBuf.Length, Complete(n))
    {
      sendPending := false;
      ghost var held := sendBuf[sendOff..sendLen];
      assert inFlight == held[..submitted - sendOff];
      assert inFlight[..n] == held[..n];
      assert accepted + held == (accepted + held[..n]) + held[n..];
      accepted := accepted + held[..n];
      sendOff := sendOff + n;
      assert sendBuf[sendOff..sendLen] == held[n..];
      if sendOff >= sendLen {
        sendOff, sendLen := 0, 0;
      } else {
        SubmitSend();
      }
    }
  }

  // ---- any interleaving of appends and completions ----

  // A completion is of the first n bytes of the send in flight; it is ignored when there is none.
  datatype Op = Append(data: Bytes) | Complete(n: nat)

  // The bytes of the appends that were accepted, in order.
  function Taken(ops: seq<Op>, oks: seq<bool>): Bytes
    requires |oks| == |ops|
  {
    if ops == [] then []
    else
      var n := |ops| - 1;
      Taken(ops[..n], oks[..n]) + if ops[n].Append? && oks[n] then ops[n].data else []
  }

  // The indices of the buffer: the bytes from `off` to `len` are held, the first `sending` of
  // them are in flight.
  datatype Fill = Fill(off: nat, len: nat, sending: nat)

  function Submit(f: Fill): Fill {
    if f.sending == 0 && f.off < f.len then f.(sending := f.len - f.off) else f
  }

  // What an operation makes of the indices, and whether it is accepted.
  function After(f: Fill, cap: nat, op: Op): (Fill, bool) {
    match op
    case Append(data) =>
      if f.len + |data| <= cap then (Submit(f.(len := f.len + |data|)), true) else (f, data == [])
    case Complete(n) =>
      if f.sending == 0 || n > f.sending then (f, false)
      else if f.off + n >= f.len then (Fill(0, 0, 0), true)
      else (Submit(Fill(f.off + n, f.len, 0)), true)
  }

  // The operations accepted, from the indices on.
  function Accepted(f: Fill, cap: nat, ops: seq<Op>): (r: seq<bool>)
    ensures |r| == |ops|
    decreases |ops|
  {
    if ops == [] then [] else [After(f, cap, ops[0]).1] + Accepted(After(f, cap, ops[0]).0, cap, ops[1..])
  }

  lemma TakenStep(ops: seq<Op>, oks: seq<bool>, op: Op, ok: bool)
    requires |oks| == |ops|
    ensures Taken(ops + [op], oks + [ok]) == Taken(ops, oks) + if op.Append? && ok then op.data else []
  {
    assert (ops + [op])[..|ops|] == ops && (oks + [ok])[..|ops|] == oks;
  }

  // One operation on the buffer.
  method Apply(out: FrontendOut, op: Op) returns (ok: bool)
    requires out.Valid()
    modifies out, out.sendBuf
    ensures out.Valid() && (out.Indices(), ok) == After(old(out.Indices()), out.sendBuf.Length, op)
    ensures out.queued == old(out.queued) + if op.Append? && ok then op.data else []
  {
    assert out.queued + [] == out.queued;
    match op
    case Append(data) => ok := out.Queue(data);
    case Complete(n) =>
      ok := out.sendPending && n <= out.submitted - out.sendOff;
      if ok { out.OnSendDone(n); }
  }

  // Over a whole run: which operations are accepted, by how much the buffer holds at each; and
  // the bytes taken, then the bytes held, are the accepted appends in order.
  method Run(out: FrontendOut, ops: seq<Op>) returns (oks: seq<bool>)
    requires out.Valid() && out.queued == []
    modifies out, out.sendBuf
    ensures out.Valid() && |oks| == |ops|
    ensures oks == Accepted(old(out.Indices()), out.sendBuf.Length, ops)
    ensures out.accepted + out.sendBuf[out.sendOff..out.sendLen] == Taken(ops, oks)
  {
    oks := [];
    assert ops[0..] == ops;
    for i := 0 to |ops|
      invariant out.Valid() && |oks| == i && out.queued == Taken(ops[..i], oks)
      invariant oks + Accepted(out.Indices(), out.sendBuf.Length, ops[i..])
             == Accepted(old(out.Indices()), out.sendBuf.Length, ops)
    {
      ghost var rest := Accepted(out.Indices(), out.sendBuf.Length, ops[i..]);
      assert ops[i..][1..] == ops[i + 1..];
      var ok := Apply(out, ops[i]);
      TakenStep(ops[..i], oks, ops[i], ok);
      assert ops[..i + 1] == ops[..i] + [ops[i]];
      assert oks + rest == (oks + [ok]) + rest[1..];
      oks := oks + [ok];
    }
    assert ops[..|ops|] == ops;
  }
}
