// The backend group list: the configuration joins a sequence of names with commas,
// the pool splits it again.
module GroupList {
  import opened Wire

  predicate Blank(c: char) { c == ' ' || c == '\t' }

  // ---- joining ----

  // Appending the next names to what the buffer holds; None when the buffer is too small.
  function JoinFrom(names: seq<string>, acc: string, cap: nat): Option<string> {
    if names == [] then Some(acc)
    else if names[0] == "" then JoinFrom(names[1..], acc, cap)
    else if acc != "" && |acc| + 1 >= cap then None
    else
      var a := if acc != "" then acc + "," else acc;
      if |a| + |names[0]| >= cap then None
      else JoinFrom(names[1..], a + names[0], cap)
  }

  function Join(names: seq<string>, cap: nat): Option<string> { JoinFrom(names, "", cap) }

  method JoinGroups(names: seq<string>, cap: nat) returns (r: Option<string>)
    requires cap > 0
    ensures r == Join(names, cap)
  {
    var buf := new char[cap](_ => '\0');
    var off := 0;
    for i := 0 to |names|
      invariant off < cap
      invariant Join(names, cap) == JoinFrom(names[i..], buf[..off], cap)
    {
      var name := names[i];
      assert names[i..][1..] == names[i + 1..];
      if name == "" { continue; }
      ghost var acc := buf[..off];
      if off > 0 {
        if off + 1 >= cap { return None; }
        buf[off] := ',';
        off := off + 1;
        assert buf[..off] == acc + ",";
      }
      if off + |name| >= cap { return None; }
      ghost var a := buf[..off];
      forall k | 0 <= k < |name| {
        buf[off + k] := name[k];
      }
      off := off + |name|;
      assert buf[..off] == a + name;
    }
    return Some(buf[..off]);
  }

  // ---- splitting ----

  function RunLen(s: string): (n: nat)
    ensures n <= |s|
  {
    if s == "" || s[0] == ',' then 0 else 1 + RunLen(s[1..])
  }

  function TrimLeft(s: string): (r: string)
    ensures |r| <= |s|
  {
    if s != "" && Blank(s[0]) then TrimLeft(s[1..]) else s
  }

  function TrimRight(s: string): (r: string)
    ensures |r| <= |s|
  {
    if s != "" && Blank(s[|s| - 1]) then TrimRight(s[..|s| - 1]) else s
  }

  const NAME_CAP: nat := 64

  // The first name of the list, if it is one the pool keeps.
  function Item(csv: string): (r: seq<string>)
    ensures |r| <= 1
  {
    var name := TrimRight(TrimLeft(csv[..RunLen(csv)]));
    if 0 < |name| < NAME_CAP then [name] else []
  }

  // The text after the first comma.
  function Rest(csv: string): (r: string)
    requires csv != ""
    ensures |r| < |csv|
  {
    if RunLen(csv) < |csv| then csv[RunLen(csv) + 1..] else ""
  }

  function SplitFrom(csv: string, room: nat, out: seq<string>): seq<string>
    decreases |csv|
  {
    if csv == "" || |out| >= room then out else SplitFrom(Rest(csv), room, out + Item(csv))
  }

  function Split(csv: string, room: nat): seq<string> { SplitFrom(csv, room, []) }

  // The split as the source runs it: one pointer, trimmed in place. It ends on every string.
  method ParseGroups(csv: string, room: nat) returns (out: seq<string>)
    ensures out == Split(csv, room)
  {
    out := [];
    var p := 0;
    assert csv[0..] == csv;
    while p < |csv| && |out| < room
      invariant p <= |csv|
      invariant Split(csv, room) == SplitFrom(csv[p..], room, out)
      decreases |csv| - p
    {
      var item, q := ParseOne(csv, p);
      out, p := out + item, q;
    }
  }

  method ParseOne(csv: string, p: nat) returns (item: seq<string>, q: nat)
    requires p < |csv|
    ensures p < q <= |csv| || q == |csv|
    ensures item == Item(csv[p..]) && csv[q..] == Rest(csv[p..])
  {
    var run := RunLength(csv, p);
    assert csv[p..][..run] == csv[p..p + run];
    assert p + run < |csv| ==> csv[p..][run + 1..] == csv[p + run + 1..];
    var at, len := TrimLeadingBlanks(csv, p, run);
    var end := TrimTrailingBlanks(csv, at, len);
    item := if 0 < end < NAME_CAP then [csv[at..at + end]] else [];
    q := at + len;
    RunHasNoComma(csv[p..]);
    if q < |csv| && csv[q] == ',' {
      q := q + 1;
    }
  }

  method RunLength(csv: string, p: nat) returns (len: nat)
    requires p < |csv|
    ensures p + len <= |csv| && len == RunLen(csv[p..])
  {
    len := 0;
    while p + len < |csv| && csv[p + len] != ','
      invariant p + len <= |csv| && RunLen(csv[p..]) == len + RunLen(csv[p + len..])
    {
      assert csv[p + len..][1..] == csv[p + len + 1..];
      len := len + 1;
    }
  }

  method TrimLeadingBlanks(csv: string, at: nat, run: nat) returns (p: nat, len: nat)
    requires at + run <= |csv|
    ensures p >= at && p + len == at + run
    ensures csv[p..p + len] == TrimLeft(csv[at..at + run])
  {
    p, len := at, run;
    while len > 0 && Blank(csv[p])
      invariant p >= at && p + len == at + run
      invariant TrimLeft(csv[at..at + run]) == TrimLeft(csv[p..p + len])
    {
      assert csv[p..p + len][1..] == csv[p + 1..p + len];
      p, len := p + 1, len - 1;
    }
  }

  method TrimTrailingBlanks(csv: string, p: nat, len: nat) returns (end: nat)
    requires p + len <= |csv|
    ensures end <= len && csv[p..p + end] == TrimRight(csv[p..p + len])
  {
    end := len;
    while end > 0 && Blank(csv[p + end - 1])
      invariant end <= len && TrimRight(csv[p..p + len]) == TrimRight(csv[p..p + end])
    {
      assert csv[p..p + end][..end - 1] == csv[p..p + end - 1];
      end := end - 1;
    }
  }

  // ---- round trip ----

  // A name that survives: 1 to 63 characters, no comma, no outer blank.
  predicate Clean(name: string) {
    && 0 < |name| < NAME_CAP
    && !Blank(name[0]) && !Blank(name[|name| - 1])
    && forall i :: 0 <= i < |name| ==> name[i] != ','
  }

  lemma {:induction false} RunHasNoComma(s: string)
    ensures forall i :: 0 <= i < RunLen(s) ==> s[i] != ','
    ensures RunLen(s) < |s| ==> s[RunLen(s)] == ','
  {
    if s != "" && s[0] != ',' {
      RunHasNoComma(s[1..]);
      assert forall i :: 0 < i < RunLen(s) ==> s[i] == s[1..][i - 1];
    }
  }

  lemma {:induction false} TrimLeftClean(s: string)
    requires forall i :: 0 <= i < |s| ==> s[i] != ','
    ensures forall i :: 0 <= i < |TrimLeft(s)| ==> TrimLeft(s)[i] != ','
    ensures TrimLeft(s) != "" ==> !Blank(TrimLeft(s)[0])
  {
    if s != "" && Blank(s[0]) { TrimLeftClean(s[1..]); }
  }

  lemma {:induction false} TrimRightClean(s: string)
    requires forall i :: 0 <= i < |s| ==> s[i] != ','
    requires s != "" ==> !Blank(s[0])
    ensures forall i :: 0 <= i < |TrimRight(s)| ==> TrimRight(s)[i] != ','
    ensures TrimRight(s) != "" ==> !Blank(TrimRight(s)[0]) && !Blank(TrimRight(s)[|TrimRight(s)| - 1])
  {
    if s != "" && Blank(s[|s| - 1]) { TrimRightClean(s[..|s| - 1]); }
  }

  // Whatever the string, only clean names come out, and no more than fit.
  lemma {:induction false} SplitClean(csv: string, room: nat, out: seq<string>)
    requires |out| <= room && forall i :: 0 <= i < |out| ==> Clean(out[i])
    ensures |SplitFrom(csv, room, out)| <= room
    ensures forall i :: 0 <= i < |SplitFrom(csv, room, out)| ==> Clean(SplitFrom(csv, room, out)[i])
    decreases |csv|
  {
    if csv != "" && |out| < room {
      ItemClean(csv);
      SplitClean(Rest(csv), room, out + Item(csv));
    }
  }

  lemma ItemClean(csv: string)
    ensures Item(csv) != [] ==> Clean(Item(csv)[0])
  {
    RunHasNoComma(csv);
    TrimLeftClean(csv[..RunLen(csv)]);
    TrimRightClean(TrimLeft(csv[..RunLen(csv)]));
  }

  function Csv(names: seq<string>): string {
    if names == [] then ""
    else if |names| == 1 then names[0]
    else names[0] + ("," + Csv(names[1..]))
  }

  // The buffer's text once the names are appended to `acc`.
  function Whole(acc: string, names: seq<string>): string {
    if acc == "" then Csv(names) else if names == [] then acc else acc + ("," + Csv(names))
  }

  lemma WholeStep(acc: string, names: seq<string>)
    requires names != [] && names[0] != ""
    ensures var a := if acc != "" then acc + "," else acc;
            Whole(acc, names) == Whole(a + names[0], names[1..]) && |Whole(acc, names)| >= |a| + |names[0]|
  {
    var a := if acc != "" then acc + "," else acc;
    assert Whole(acc, names) == a + Csv(names);
    if |names| > 1 {
      assert (a + names[0]) + ("," + Csv(names[1..])) == a + (names[0] + ("," + Csv(names[1..])));
    }
  }

  lemma {:induction false} JoinFromIsCsv(names: seq<string>, acc: string, cap: nat)
    requires forall i :: 0 <= i < |names| ==> names[i] != ""
    requires |acc| < cap
    ensures JoinFrom(names, acc, cap) == if |Whole(acc, names)| < cap then Some(Whole(acc, names)) else None
  {
    if names != [] {
      WholeStep(acc, names);
      var a := if acc != "" then acc + "," else acc;
      if |a| + |names[0]| < cap {
        JoinFromIsCsv(names[1..], a + names[0], cap);
      }
    }
  }

  lemma FirstItem(x: string, tail: string)
    requires Clean(x) && (tail == "" || tail[0] == ',')
    ensures Item(x + tail) == [x]
    ensures Rest(x + tail) == if tail == "" then "" else tail[1..]
  {
    RunOf(x, tail);
    assert (x + tail)[..|x|] == x;
    assert tail != "" ==> (x + tail)[|x| + 1..] == tail[1..];
    assert TrimRight(TrimLeft(x)) == x;
  }

  lemma CsvHead(names: seq<string>)
    requires names != [] && Clean(names[0])
    ensures Csv(names) != "" && Item(Csv(names)) == [names[0]] && Rest(Csv(names)) == Csv(names[1..])
  {
    if |names| == 1 {
      assert names[0] + "" == names[0];
      FirstItem(names[0], "");
    } else {
      var tail := "," + Csv(names[1..]);
      FirstItem(names[0], tail);
      assert tail[1..] == Csv(names[1..]);
    }
  }

  lemma Regroup(out: seq<string>, names: seq<string>)
    requires names != []
    ensures (out + [names[0]]) + names[1..] == out + names
  {
  }

  lemma SplitStep(names: seq<string>, room: nat, out: seq<string>)
    requires names != [] && Clean(names[0]) && |out| < room
    ensures SplitFrom(Csv(names), room, out) == SplitFrom(Csv(names[1..]), room, out + [names[0]])
  {
    CsvHead(names);
  }

  lemma {:induction false} SplitCsv(names: seq<string>, room: nat, out: seq<string>)
    requires forall i :: 0 <= i < |names| ==> Clean(names[i])
    requires |out| + |names| <= room
    ensures SplitFrom(Csv(names), room, out) == out + names
  {
    if names == [] {
      assert out + names == out;
    } else {
      var next := out + [names[0]];
      SplitStep(names, room, out);
      SplitCsv(names[1..], room, next);
      assert next + names[1..] == out + names by { Regroup(out, names); }
    }
  }

  lemma {:induction false} RunOf(x: string, tail: string)
    requires forall i :: 0 <= i < |x| ==> x[i] != ','
    requires tail == "" || tail[0] == ','
    ensures RunLen(x + tail) == |x|
  {
    if x == "" {
      assert x + tail == tail;
    } else {
      assert (x + tail)[1..] == x[1..] + tail;
      RunOf(x[1..], tail);
    }
  }

  // The joined list fits the buffer exactly when its text and terminator do.
  lemma JoinFits(names: seq<string>, cap: nat)
    requires cap > 0 && forall i :: 0 <= i < |names| ==> names[i] != ""
    ensures Join(names, cap) == if |Csv(names)| < cap then Some(Csv(names)) else None
  {
    JoinFromIsCsv(names, "", cap);
  }

  // The round trip: exactly the lists of clean names that fit the pool's table come back.
  lemma RoundTrip(names: seq<string>, cap: nat, room: nat)
    requires cap > 0 && Join(names, cap).Some?
    ensures Split(Join(names, cap).value, room) == names
       <==> |names| <= room && forall i :: 0 <= i < |names| ==> Clean(names[i])
  {
    SplitClean(Join(names, cap).value, room, []);
    if |names| <= room && forall i :: 0 <= i < |names| ==> Clean(names[i]) {
      JoinFits(names, cap);
      SplitCsv(names, room, []);
      assert [] + names == names;
    }
  }
}
