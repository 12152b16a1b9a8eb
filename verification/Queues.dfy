// The two circular buffers of the event loop, in place.
module Queues {
  import opened Wire
  import Ring
  import Scheduler

  // A frontend's request queue, feq_* in the source.
  class RequestQueue {
    const buf: array<Msg>
    var head: nat
    var tail: nat
    var count: nat

    ghost predicate Valid()
      reads this, buf
    {
      head < buf.Length && count <= buf.Length && tail == Ring.At(head, count, buf.Length)
    }

    ghost function Contents(): (r: seq<Msg>)
      requires Valid()
      reads this, buf
      ensures |r| == count
    {
      Ring.Contents(buf[..], head, count)
    }

    constructor (capacity: nat)
      requires capacity > 0
      ensures Valid() && fresh(buf) && buf.Length == capacity && Contents() == []
    {
      buf := new Msg[capacity](i => Ignored);
      head, tail, count := 0, 0, 0;
    }

    method Push(m: Msg) returns (ok: bool)
      requires Valid()
      modifies this, buf
      ensures Valid() && ok == (|old(Contents())| < buf.Length)
      ensures Contents() == if ok then old(Contents()) + [m] else old(Contents())
    {
      ok := count < buf.Length;
      if ok {
        Ring.PushBack(buf[..], head, count, m);
        Ring.AtIsRemainder(tail, 1, buf.Length);
        buf[tail] := m;
        tail := (tail + 1) % buf.Length;
        count := count + 1;
      }
    }

    method Pop() returns (m: Option<Msg>)
      requires Valid()
      modifies this, buf
      ensures Valid() && (m.None? <==> old(Contents()) == [])
      ensures m.None? ==> Contents() == []
      ensures m.Some? ==> old(Contents()) == [m.value] + Contents()
    {
      if count == 0 { return None; }
      Ring.PopFront(buf[..], head, count, Ignored);
      Ring.AtIsRemainder(head, 1, buf.Length);
      m := Some(buf[head]);
      buf[head] := Ignored;
      head := (head + 1) % buf.Length;
      count := count - 1;
    }

    // Back to the front; the tail stays where it is.
    method PushFront(m: Msg) returns (ok: bool)
      requires Valid()
      modifies this, buf
      ensures Valid() && ok == (|old(Contents())| < buf.Length)
      ensures Contents() == if ok then [m] + old(Contents()) else old(Contents())
    {
      ok := count < buf.Length;
      if ok {
        Ring.PushFront(buf[..], head, count, m);
        Ring.AtIsRemainder(head, buf.Length - 1, buf.Length);
        head := (head + buf.Length - 1) % buf.Length;
        buf[head] := m;
        count := count + 1;
      }
    }

    method Clear()
      requires Valid()
      modifies this, buf
      ensures Valid() && Contents() == []
    {
      for i := 0 to buf.Length {
        buf[i] := Ignored;
      }
      head, tail, count := 0, 0, 0;
    }
  }

  // waiters_remove, one more element at the end.
  lemma {:induction false} RemoveSnoc(r: seq<int>, x: int, f: int)
    ensures Scheduler.WaitersRemove(r + [x], f) == Scheduler.WaitersRemove(r, f) + if x == f then [] else [x]
  {
    if r == [] {
      assert [x] == [x] + [];
    } else {
      RemoveSnoc(r[1..], x, f);
      assert (r + [x])[1..] == r[1..] + [x];
    }
  }

  lemma {:induction false} RemoveNothing(r: seq<int>, f: int)
    ensures |Scheduler.WaitersRemove(r, f)| == |r| ==> Scheduler.WaitersRemove(r, f) == r
  {
    if r != [] { RemoveNothing(r[1..], f); }
  }

  // The ring of frontends that wait for a backend, waiters_* in the source.
  class WaitRing {
    const buf: array<int>
    var head: nat
    var tail: nat
    var count: nat

    ghost predicate Valid()
      reads this, buf
    {
      head < buf.Length && count <= buf.Length && tail == Ring.At(head, count, buf.Length)
    }

    ghost function Contents(): (r: seq<int>)
      requires Valid()
      reads this, buf
      ensures |r| == count
    {
      Ring.Contents(buf[..], head, count)
    }

    constructor (capacity: nat)
      requires capacity > 0
      ensures Valid() && fresh(buf) && buf.Length == capacity && Contents() == []
    {
      buf := new int[capacity];
      head, tail, count := 0, 0, 0;
    }

    method Has(slot: int) returns (found: bool)
      requires Valid()
      ensures found == (slot in Contents())
    {
      for i := 0 to count
        invariant slot !in Contents()[..i]
      {
        Ring.AtIsRemainder(head, i, buf.Length);
        assert Contents()[i] == buf[Ring.At(head, i, buf.Length)];
        if buf[(head + i) % buf.Length] == slot { return true; }
        assert Contents()[..i + 1] == Contents()[..i] + [Contents()[i]];
      }
      assert Contents()[..count] == Contents();
      return false;
    }

    method Push(slot: int) returns (ok: bool)
      requires Valid()
      modifies this, buf
      ensures Valid() && ok == (slot in old(Contents()) || |old(Contents())| < buf.Length)
      ensures Contents() == if ok && slot !in old(Contents()) then old(Contents()) + [slot] else old(Contents())
    {
      var already := Has(slot);
      if already { return true; }
      ok := count < buf.Length;
      if ok {
        Ring.PushBack(buf[..], head, count, slot);
        Ring.AtIsRemainder(tail, 1, buf.Length);
        buf[tail] := slot;
        tail := (tail + 1) % buf.Length;
        count := count + 1;
      }
    }

    method Pop() returns (slot: int)
      requires Valid() && Contents() != []
      modifies this
      ensures Valid() && slot == old(Contents())[0] && Contents() == old(Contents())[1..]
    {
      Ring.PopFront(buf[..], head, count, buf[head]);
      Ring.AtIsRemainder(head, 1, buf.Length);
      assert buf[..][head := buf[head]] == buf[..];
      slot := buf[head];
      head := (head + 1) % buf.Length;
      count := count - 1;
    }

    // The other waiters move together, in their order, to the start of the buffer.
    method Remove(slot: int)
      requires Valid()
      modifies this, buf
      ensures Valid() && Contents() == Scheduler.WaitersRemove(old(Contents()), slot)
    {
      var tmp := KeepOthers(slot);
      var n := |tmp|;
      RemoveNothing(Contents(), slot);
      if n == count { return; }
      for i := 0 to n
        invariant forall k :: 0 <= k < i ==> buf[k] == tmp[k]
      {
        buf[i] := tmp[i];
      }
      Ring.AtIsRemainder(0, n, buf.Length);
      head, tail, count := 0, n % buf.Length, n;
      assert Contents() == tmp;
    }

    method KeepOthers(slot: int) returns (tmp: seq<int>)
      requires Valid()
      ensures tmp == Scheduler.WaitersRemove(Contents(), slot)
    {
      tmp := [];
      for i := 0 to count
        invariant tmp == Scheduler.WaitersRemove(Contents()[..i], slot)
      {
        Ring.AtIsRemainder(head, i, buf.Length);
        var x := buf[(head + i) % buf.Length];
        RemoveSnoc(Contents()[..i], x, slot);
        assert Contents()[..i + 1] == Contents()[..i] + [x];
        if x != slot { tmp := tmp + [x]; }
      }
      assert Contents()[..count] == Contents();
    }
  }
}
