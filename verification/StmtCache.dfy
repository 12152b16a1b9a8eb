// The prepared-statement cache: an open-addressing table without tombstones,
// proved to be a bounded map whatever the hash function.
module StmtCache {
  import opened Wire
  import Ring

  datatype Slot = Empty | Used(stmt: Prepared)

  function Entry(p: ParseMsg, slot: int): Prepared {
    Prepared(p.statement, p.query, p.types, slot)
  }

  // The bounded map the table stands for: an update fails exactly when it would
  // need a new entry and there is no room.
  predicate PutFits(m: map<string, Prepared>, capacity: nat, name: string) {
    name in m || |m| < capacity
  }

  function PutSpec(m: map<string, Prepared>, capacity: nat, e: Prepared): map<string, Prepared> {
    if PutFits(m, capacity, e.name) then m[e.name := e] else m
  }

  // ---- the table as a value ----

  ghost predicate DistinctNames(s: seq<Slot>) {
    forall i, j :: 0 <= i < |s| && 0 <= j < |s| && s[i].Used? && s[j].Used? && s[i].stmt.name == s[j].stmt.name
      ==> i == j
  }

  // No empty slot lies on the probe walk from an entry's home slot to the entry.
  ghost predicate NoHoles(s: seq<Slot>, home: string -> nat)
    requires forall n :: home(n) < |s|
  {
    forall i, k: nat :: 0 <= i < |s| && s[i].Used? && k < Ring.Steps(home(s[i].stmt.name), i, |s|)
      ==> s[Ring.At(home(s[i].stmt.name), k, |s|)].Used?
  }

  function ToMap(s: seq<Slot>): map<string, Prepared> {
    if |s| == 0 then map[]
    else if s[|s| - 1].Used? then ToMap(s[..|s| - 1])[s[|s| - 1].stmt.name := s[|s| - 1].stmt]
    else ToMap(s[..|s| - 1])
  }

  function Occupied(s: seq<Slot>): nat {
    if |s| == 0 then 0 else Occupied(s[..|s| - 1]) + if s[|s| - 1].Used? then 1 else 0
  }

  ghost predicate Names(s: seq<Slot>, name: string, i: int) {
    0 <= i < |s| && s[i].Used? && s[i].stmt.name == name
  }

  // The keys are the names of the entries, and with distinct names each entry is its name's value.
  lemma {:induction false} Lookup(s: seq<Slot>, name: string)
    ensures name in ToMap(s) <==> exists i :: Names(s, name, i)
    ensures DistinctNames(s) ==> forall i :: Names(s, name, i) ==> name in ToMap(s) && ToMap(s)[name] == s[i].stmt
  {
    if |s| > 0 {
      var t := s[..|s| - 1];
      Lookup(t, name);
      assert forall i :: Names(t, name, i) ==> Names(s, name, i);
      assert forall i :: Names(s, name, i) ==> i == |s| - 1 || Names(t, name, i);
      assert Names(s, name, |s| - 1) <==> s[|s| - 1].Used? && s[|s| - 1].stmt.name == name;
    }
  }

  lemma {:induction false} AllEmpty(s: seq<Slot>)
    requires forall i :: 0 <= i < |s| ==> s[i].Empty?
    ensures Occupied(s) == 0 && ToMap(s) == map[]
  {
    if |s| > 0 {
      AllEmpty(s[..|s| - 1]);
    }
  }

  lemma {:induction false} OccupiedBound(s: seq<Slot>)
    ensures Occupied(s) <= |s|
    ensures Occupied(s) == |s| <==> forall i :: 0 <= i < |s| ==> s[i].Used?
  {
    if |s| > 0 {
      var t := s[..|s| - 1];
      OccupiedBound(t);
      assert forall i :: 0 <= i < |t| ==> t[i] == s[i];
    }
  }

  // The table holds as many entries as the map it stands for.
  lemma {:induction false} OccupiedIsMapSize(s: seq<Slot>)
    requires DistinctNames(s)
    ensures Occupied(s) == |ToMap(s)|
  {
    if |s| > 0 {
      var t := s[..|s| - 1];
      OccupiedIsMapSize(t);
      if s[|s| - 1].Used? {
        Lookup(t, s[|s| - 1].stmt.name);
      }
    }
  }

  // Writing an entry of a given name where no other entry has that name is a map update.
  lemma WriteIsUpdate(s: seq<Slot>, e: Prepared, j: nat)
    requires DistinctNames(s) && j < |s|
    requires s[j].Used? ==> s[j].stmt.name == e.name
    requires forall i :: Names(s, e.name, i) ==> i == j
    ensures DistinctNames(s[j := Used(e)])
    ensures ToMap(s[j := Used(e)]) == ToMap(s)[e.name := e]
  {
    var t := s[j := Used(e)];
    assert forall i, n :: i != j ==> (Names(t, n, i) <==> Names(s, n, i));
    forall i, k | 0 <= i < |s| && 0 <= k < |s| && t[i].Used? && t[k].Used? && t[i].stmt.name == t[k].stmt.name
      ensures i == k
    {
      assert Names(t, t[i].stmt.name, i) && Names(t, t[i].stmt.name, k);
    }
    forall n: string
      ensures n in ToMap(t) <==> n in ToMap(s)[e.name := e]
      ensures n in ToMap(t) ==> ToMap(t)[n] == ToMap(s)[e.name := e][n]
    {
      Lookup(s, n);
      Lookup(t, n);
      assert Names(t, e.name, j);
    }
  }

  // A probe that met only other names before an empty slot, or all the way round,
  // proves the name absent.
  lemma Absent(s: seq<Slot>, home: string -> nat, name: string, probes: nat)
    requires forall n :: home(n) < |s|
    requires NoHoles(s, home)
    requires probes <= |s|
    requires forall k: nat :: k < probes ==>
      s[Ring.At(home(name), k, |s|)].Used? && s[Ring.At(home(name), k, |s|)].stmt.name != name
    requires probes < |s| ==> s[Ring.At(home(name), probes, |s|)].Empty?
    ensures forall i :: !Names(s, name, i)
    ensures name !in ToMap(s)
  {
    forall i | 0 <= i < |s| && s[i].Used?
      ensures s[i].stmt.name != name
    {
      var d := Ring.Steps(home(name), i, |s|);
      assert d < probes ==> s[Ring.At(home(name), d, |s|)].stmt.name != name;
    }
    Lookup(s, name);
  }

  // Filling the first empty slot of a name's probe walk keeps the invariant.
  lemma Fill(s: seq<Slot>, home: string -> nat, e: Prepared, probes: nat)
    requires forall n :: home(n) < |s|
    requires NoHoles(s, home) && probes < |s|
    requires forall k: nat :: k < probes ==> s[Ring.At(home(e.name), k, |s|)].Used?
    ensures NoHoles(s[Ring.At(home(e.name), probes, |s|) := Used(e)], home)
  {
    assert Ring.Steps(home(e.name), Ring.At(home(e.name), probes, |s|), |s|) == probes;
  }

  // What `put` stores: at the end of a probe that met only other names, it keeps the
  // invariant, updates the map, and takes a new slot exactly when the name was absent.
  lemma Store(s: seq<Slot>, home: string -> nat, e: Prepared, probes: nat)
    requires forall n :: home(n) < |s|
    requires DistinctNames(s) && NoHoles(s, home) && probes < |s|
    requires forall k: nat :: k < probes ==>
      s[Ring.At(home(e.name), k, |s|)].Used? && s[Ring.At(home(e.name), k, |s|)].stmt.name != e.name
    requires var j := Ring.At(home(e.name), probes, |s|); s[j].Used? ==> s[j].stmt.name == e.name
    ensures var j := Ring.At(home(e.name), probes, |s|); var t := s[j := Used(e)];
            && DistinctNames(t) && NoHoles(t, home)
            && ToMap(t) == ToMap(s)[e.name := e]
            && (s[j].Used? <==> e.name in ToMap(s))
            && Occupied(t) == Occupied(s) + if s[j].Used? then 0 else 1
  {
    var j := Ring.At(home(e.name), probes, |s|);
    if s[j].Empty? {
      Absent(s, home, e.name, probes);
    } else {
      Lookup(s, e.name);
      assert Names(s, e.name, j);
    }
    Fill(s, home, e, probes);
    WriteIsUpdate(s, e, j);
    OccupiedIsMapSize(s);
    OccupiedIsMapSize(s[j := Used(e)]);
  }

  // Emptying an entry's slot deletes its name from the map.
  lemma EraseIsDeletion(s: seq<Slot>, j: nat)
    requires DistinctNames(s) && j < |s| && s[j].Used?
    ensures DistinctNames(s[j := Empty])
    ensures ToMap(s[j := Empty]) == ToMap(s) - {s[j].stmt.name}
  {
    var t := s[j := Empty];
    assert Names(s, s[j].stmt.name, j);
    forall n: string
      ensures n in ToMap(t) <==> n in ToMap(s) - {s[j].stmt.name}
      ensures n in ToMap(t) ==> ToMap(t)[n] == ToMap(s)[n]
    {
      Lookup(s, n);
      Lookup(t, n);
      assert forall i :: i != j ==> (Names(t, n, i) <==> Names(s, n, i));
    }
  }

  // A full walk of other names means the table is full.
  lemma FullWalk(s: seq<Slot>, home: nat)
    requires home < |s|
    requires forall k: nat :: k < |s| ==> s[Ring.At(home, k, |s|)].Used?
    ensures Occupied(s) == |s|
  {
    forall j | 0 <= j < |s| ensures s[j].Used? {
      assert Ring.Steps(home, j, |s|) < |s|;
    }
    OccupiedBound(s);
  }

  class Cache {
    const capacity: nat
    const hash: string -> nat
    const slots: array<Slot>
    var count: nat

    ghost function Home(): string -> nat
      requires capacity > 0
    {
      name => hash(name) % capacity
    }

    ghost predicate Valid()
      reads this, slots
    {
      && slots.Length == capacity > 0
      && DistinctNames(slots[..])
      && NoHoles(slots[..], Home())
      && count == Occupied(slots[..])
    }

    ghost function Map(): map<string, Prepared>
      requires Valid()
      reads this, slots
    {
      ToMap(slots[..])
    }

    constructor (capacity: nat, hash: string -> nat)
      requires capacity > 0
      ensures Valid() && fresh(slots) && this.capacity == capacity && this.hash == hash
      ensures Map() == map[]
    {
      this.capacity := capacity;
      this.hash := hash;
      slots := new Slot[capacity](_ => Empty);
      count := 0;
      new;
      AllEmpty(slots[..]);
    }

    // (h + probes) % capacity is the slot `probes` steps along the walk from home.
    lemma ProbeIndex(name: string, probes: nat)
      requires 0 < capacity && probes <= capacity
      ensures (hash(name) + probes) % capacity == Ring.At(Home()(name), probes, capacity)
    {
      var h := hash(name);
      var q := h / capacity + if h % capacity + probes < capacity then 0 else 1;
      assert h == (h / capacity) * capacity + h % capacity;
      assert q * capacity == (h / capacity) * capacity + if h % capacity + probes < capacity then 0 else capacity;
      Ring.RemainderUnique(h + probes, q, Ring.At(h % capacity, probes, capacity), capacity);
    }

    // Update or insert; fails, changing nothing, iff the name is new and the table is full.
    method Put(parse: ParseMsg, identitySlot: int) returns (ok: bool)
      requires Valid()
      modifies this, slots
      ensures Valid()
      ensures ok <==> PutFits(old(Map()), capacity, parse.statement)
      ensures Map() == PutSpec(old(Map()), capacity, Entry(parse, identitySlot))
      ensures !ok ==> slots[..] == old(slots[..])
    {
      var h := hash(parse.statement);
      var e := Entry(parse, identitySlot);
      ghost var s := slots[..];
      OccupiedIsMapSize(s);
      var probes := 0;
      while probes < capacity
        invariant probes <= capacity && slots[..] == s && count == Occupied(s)
        invariant forall k: nat :: k < probes ==>
          s[Ring.At(Home()(e.name), k, |s|)].Used? && s[Ring.At(Home()(e.name), k, |s|)].stmt.name != e.name
      {
        var i := (h + probes) % capacity;
        ProbeIndex(e.name, probes);
        if slots[i].Empty? {
          break;
        }
        if slots[i].stmt.name == e.name {
          Store(s, Home(), e, probes);
          slots[i] := Used(e);
          assert slots[..] == s[i := Used(e)];
          return true;
        }
        probes := probes + 1;
      }
      if probes == capacity || count >= capacity {
        if probes == capacity {
          FullWalk(s, Home()(e.name));
          Absent(s, Home(), e.name, probes);
        } else {
          OccupiedBound(s);
        }
        return false;
      }
      var freeSlot := (h + probes) % capacity;
      ProbeIndex(e.name, probes);
      Store(s, Home(), e, probes);
      slots[freeSlot] := Used(e);
      assert slots[..] == s[freeSlot := Used(e)];
      count := count + 1;
      return true;
    }

    // Map lookup.
    method Get(name: string) returns (r: Option<Prepared>)
      requires Valid()
      ensures r == if name in Map() then Some(Map()[name]) else None
    {
      var h := hash(name);
      ghost var home := Home()(name);
      var probes := 0;
      while probes < capacity
        invariant probes <= capacity
        invariant forall k: nat :: k < probes ==>
          slots[..][Ring.At(home, k, capacity)].Used? && slots[..][Ring.At(home, k, capacity)].stmt.name != name
      {
        var i := (h + probes) % capacity;
        ProbeIndex(name, probes);
        if slots[i].Empty? {
          Absent(slots[..], Home(), name, probes);
          return None;
        }
        if slots[i].stmt.name == name {
          Lookup(slots[..], name);
          assert Names(slots[..], name, i);
          return Some(slots[i].stmt);
        }
        probes := probes + 1;
      }
      Absent(slots[..], Home(), name, probes);
      return None;
    }

    // Delete, by emptying the whole table and putting every other entry back.
    method Remove(name: string) returns (ok: bool)
      requires Valid()
      modifies this, slots
      ensures Valid()
      ensures ok <==> name in old(Map())
      ensures Map() == old(Map()) - {name}
      ensures !ok ==> slots[..] == old(slots[..])
    {
      var h := hash(name);
      ghost var home := Home()(name);
      var probes := 0;
      while probes < capacity
        invariant probes <= capacity && slots[..] == old(slots[..]) && Valid()
        invariant forall k: nat :: k < probes ==>
          slots[..][Ring.At(home, k, capacity)].Used? && slots[..][Ring.At(home, k, capacity)].stmt.name != name
      {
        var i := (h + probes) % capacity;
        ProbeIndex(name, probes);
        if slots[i].Empty? {
          Absent(slots[..], Home(), name, probes);
          return false;
        }
        if slots[i].stmt.name == name {
          Lookup(slots[..], name);
          assert Names(slots[..], name, i);
          EraseIsDeletion(slots[..], i);
          slots[i] := Empty;
          assert slots[..] == old(slots[..])[i := Empty];
          Rebuild();
          return true;
        }
        probes := probes + 1;
      }
      Absent(slots[..], Home(), name, probes);
      return false;
    }

    // Rehash what the table holds. Every put fits, so the failure exit is never taken.
    method Rebuild()
      requires slots.Length == capacity > 0 && DistinctNames(slots[..])
      modifies this, slots
      ensures Valid() && Map() == ToMap(old(slots[..]))
    {
      var was := slots[..];
      Clear();
      var j := 0;
      while j < capacity
        invariant j <= capacity && Valid() && Map() == ToMap(was[..j])
      {
        OccupiedIsMapSize(was[..j]);
        OccupiedBound(was[..j]);
        assert was[..j + 1][..j] == was[..j];
        if was[j].Used? {
          var e := was[j].stmt;
          var put := Put(ParseMsg(e.name, e.query, e.types), e.slot);
          assert put;
        }
        j := j + 1;
      }
      assert was[..capacity] == was;
    }

    method Clear()
      requires slots.Length == capacity > 0
      modifies this, slots
      ensures Valid() && Map() == map[]
    {
      forall i | 0 <= i < capacity {
        slots[i] := Empty;
      }
      count := 0;
      AllEmpty(slots[..]);
    }
  }
}
