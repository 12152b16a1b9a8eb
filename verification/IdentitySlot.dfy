// Which Bind parameter carries the identity: a parameter index, or a column name
// looked up in the column list of an INSERT statement.
module IdentitySlot {
  import opened Wire

  predicate Digit(c: char) { '0' <= c <= '9' }

  predicate Blank(c: char) { c == ' ' || c == '\t' || c == '\n' || c == '\r' }

  // The source's is_ident_char, without the quote it also accepts.
  predicate Plain(c: char) {
    ('a' <= c <= 'z') || ('A' <= c <= 'Z') || Digit(c) || c == '_'
  }

  predicate Ident(c: char) { Plain(c) || c == '"' }

  function Lower(c: char): char {
    if 'A' <= c <= 'Z' then c - 'A' + 'a' else c
  }

  predicate EqCi(a: string, b: string) {
    |a| == |b| && forall i :: 0 <= i < |a| ==> Lower(a[i]) == Lower(b[i])
  }

  // A C cast to int16_t.
  function Int16(n: int): (r: int)
    ensures -0x8000 <= r < 0x8000
    ensures -0x8000 <= n < 0x8000 ==> r == n
  {
    var m := n % 0x1_0000;
    if m < 0x8000 then m else m - 0x1_0000
  }

  // ---- atoi ----

  function Space(c: char): bool { Blank(c) || c == 11 as char || c == 12 as char }

  function Digits(s: string, acc: nat): nat {
    if s == "" || !Digit(s[0]) then acc
    else Digits(s[1..], acc * 10 + (s[0] as int - '0' as int))
  }

  function Atoi(s: string): int {
    if s != "" && Space(s[0]) then Atoi(s[1..])
    else if s != "" && s[0] == '-' then 0 - Digits(s[1..], 0)
    else if s != "" && s[0] == '+' then Digits(s[1..], 0)
    else Digits(s, 0)
  }

  // ---- the column list scan ----

  // The word VALUES, in any case, not continued by an identifier character.
  predicate Keyword(s: string) {
    |s| >= 6 && EqCi(s[..6], "values") && !(|s| > 6 && Ident(s[6]))
  }

  // The text before the first keyword.
  function BeforeKeyword(s: string): string {
    if s == "" || Keyword(s) then "" else [s[0]] + BeforeKeyword(s[1..])
  }

  // The text after the last opening parenthesis.
  function AfterLastParen(s: string): Option<string> {
    if s == "" then None
    else
      var r := AfterLastParen(s[1..]);
      if r.Some? then r else if s[0] == '(' then Some(s[1..]) else None
  }

  function SkipBlanks(s: string): (r: string)
    ensures |r| <= |s|
  {
    if s != "" && Blank(s[0]) then SkipBlanks(s[1..]) else s
  }

  // Length of the leading run of characters, at most `room`, that belong to the name.
  function NameLen(s: string, quoted: bool, room: nat): (n: nat)
    ensures n <= |s| && n <= room
  {
    if s == "" || room == 0 || (if quoted then s[0] == '"' else !Plain(s[0])) then 0
    else 1 + NameLen(s[1..], quoted, room - 1)
  }

  const NAME_CAP: nat := 63

  // One column name, and the text after it.
  function ReadName(s: string): (r: (string, string))
    requires s != ""
    ensures |r.1| <= |s|
  {
    if s[0] == '"' then
      var n := NameLen(s[1..], true, NAME_CAP);
      var rest := s[1 + n..];
      (s[1..1 + n], if rest != "" && rest[0] == '"' then rest[1..] else rest)
    else
      var n := NameLen(s, false, NAME_CAP);
      (s[..n], s[n..])
  }

  function ToDelimiter(s: string): (r: string)
    ensures |r| <= |s|
  {
    if s == "" || s[0] == ',' || s[0] == ')' then s else ToDelimiter(s[1..])
  }

  function Search(body: string, idx: nat, param: string): Option<nat>
    decreases |body|
  {
    var b := SkipBlanks(body);
    if b == "" || b[0] == ')' then None
    else
      var (name, rest) := ReadName(b);
      if name != "" && EqCi(name, param) then Some(idx)
      else
        var r := ToDelimiter(rest);
        if r != "" && r[0] == ',' then Search(r[1..], idx + 1, param) else None
  }

  predicate AllDigits(s: string) { forall i :: 0 <= i < |s| ==> Digit(s[i]) }

  function Resolve(query: string, param: string, fallback: int): int {
    if param == "" then fallback
    else if param[0] == '$' then Int16(Int16(Atoi(param[1..])) - 1)
    else if AllDigits(param) then Int16(Atoi(param))
    else
      match AfterLastParen(BeforeKeyword(query))
      case None => fallback
      case Some(body) =>
        match Search(body, 0, param)
        case None => fallback
        case Some(idx) => Int16(idx)
  }

  // ---- the printer the scan inverts ----

  predicate Identifier(s: string) {
    s != "" && forall i :: 0 <= i < |s| ==> Plain(s[i])
  }

  predicate Blanks(s: string) { forall i :: 0 <= i < |s| ==> Blank(s[i]) }

  // cols[0],cols[1],...) VALUES...
  function ColumnsText(cols: seq<string>, sep: string, rest: string): string
    requires cols != []
  {
    cols[0] + if |cols| == 1 then ") VALUES" + rest else [','] + (sep + ColumnsText(cols[1..], sep, rest))
  }

  const INSERT: string := "INSERT"
  const INTO: string := "INTO"

  function Head(y: string): string { INSERT + ([' '] + (INTO + ([' '] + y))) }

  // INSERT INTO table (c0,c1,...) VALUES...
  function Insert(table: string, gap: string, cols: seq<string>, sep: string, rest: string): string
    requires cols != []
  {
    Head(table + (gap + (['('] + ColumnsText(cols, sep, rest))))
  }

  // ---- what the scan sees of a printed statement ----

  predicate EndsInValues(s: string) { |s| >= 6 && EqCi(s[|s| - 6..], "values") }

  function Stem(s: string): string
    requires EndsInValues(s)
  {
    s[..|s| - 6]
  }

  function Cut(s: string): string { if |s| <= NAME_CAP then s else s[..NAME_CAP] }

  // The names the scan compares: it stops inside the first identifier that ends in
  // "values", and cuts names at the buffer's capacity.
  function SeenColumns(cols: seq<string>): seq<string> {
    if cols == [] then []
    else if EndsInValues(cols[0]) then (if Stem(cols[0]) == "" then [] else [Cut(Stem(cols[0]))])
    else [Cut(cols[0])] + SeenColumns(cols[1..])
  }

  function Seen(table: string, cols: seq<string>): seq<string> {
    if EndsInValues(table) then [] else SeenColumns(cols)
  }

  function FirstCi(names: seq<string>, param: string, idx: nat): (r: Option<nat>) {
    if names == [] then None
    else if EqCi(names[0], param) then Some(idx)
    else FirstCi(names[1..], param, idx + 1)
  }

  // The first match, said outright.
  lemma {:induction false} FirstCiMeaning(names: seq<string>, param: string, idx: nat)
    ensures FirstCi(names, param, idx).None? <==> forall i :: 0 <= i < |names| ==> !EqCi(names[i], param)
    ensures forall k: nat :: FirstCi(names, param, idx) == Some(k) <==>
      (idx <= k < idx + |names| && EqCi(names[k - idx], param)
       && forall i :: 0 <= i < k - idx ==> !EqCi(names[i], param))
  {
    if names != [] {
      FirstCiMeaning(names[1..], param, idx + 1);
      assert forall i :: 0 < i < |names| ==> names[i] == names[1..][i - 1];
    }
  }

  // ---- proofs about the scan ----

  // Inside an identifier the keyword can only be the last six characters.
  lemma KeywordAtIdentifier(x: string, y: string)
    requires x != "" && forall i :: 0 <= i < |x| ==> Plain(x[i])
    requires y != "" && !Ident(y[0])
    ensures Keyword(x + y) <==> |x| == 6 && EqCi(x, "values")
  {
    var s := x + y;
    if |x| >= 7 {
      assert s[6] == x[6];
    } else if |x| == 6 {
      assert s[..6] == x;
      assert s[6] == y[0];
    } else {
      assert s[|x|] == y[0];
      assert Keyword(s) ==> Lower(s[..6][|x|]) == Lower("values"[|x|]);
    }
  }

  lemma SuffixStep(x: string)
    requires x != "" && !(|x| == 6 && EqCi(x, "values"))
    ensures EndsInValues(x) <==> EndsInValues(x[1..])
    ensures EndsInValues(x) ==> Stem(x) == [x[0]] + Stem(x[1..])
  {
    if |x| >= 7 {
      assert x[1..][|x| - 7..] == x[|x| - 6..];
    } else if |x| == 6 {
      assert x[|x| - 6..] == x;
    }
  }

  // Walking over an identifier: the keyword can only be its suffix.
  lemma {:induction false} WalkIdentifier(x: string, y: string)
    requires forall i :: 0 <= i < |x| ==> Plain(x[i])
    requires y != "" && !Ident(y[0])
    ensures BeforeKeyword(x + y) == if EndsInValues(x) then Stem(x) else x + BeforeKeyword(y)
  {
    if x == "" {
      assert x + y == y;
    } else {
      KeywordAtIdentifier(x, y);
      if |x| == 6 && EqCi(x, "values") {
        assert x[|x| - 6..] == x;
      } else {
        WalkIdentifier(x[1..], y);
        SuffixStep(x);
        assert [x[0]] + x[1..] == x;
        WalkNoKeyword(x[0], x[1..], y);
        HeadTail(x, BeforeKeyword(y));
      }
    }
  }

  lemma HeadTail(x: string, t: string)
    requires x != ""
    ensures [x[0]] + (x[1..] + t) == x + t
  {
  }

  lemma WalkNoKeyword(c: char, s: string, y: string)
    requires !Keyword([c] + s + y)
    ensures BeforeKeyword([c] + s + y) == [c] + BeforeKeyword(s + y)
  {
    assert ([c] + s + y)[1..] == s + y;
  }

  lemma {:induction false} WalkBlanks(x: string, y: string)
    requires Blanks(x)
    ensures BeforeKeyword(x + y) == x + BeforeKeyword(y)
  {
    if x == "" {
      assert x + y == y;
    } else {
      WalkBlanks(x[1..], y);
      WalkOne(x[0], x[1..] + y);
      assert x + y == [x[0]] + (x[1..] + y);
    }
  }

  lemma WalkOne(c: char, y: string)
    requires !Plain(c)
    ensures BeforeKeyword([c] + y) == [c] + BeforeKeyword(y)
  {
    assert ([c] + y)[1..] == y;
    assert Keyword([c] + y) ==> Lower(([c] + y)[..6][0]) == Lower("values"[0]);
  }

  // What is left of the printed column list once the text from the first keyword on is gone.
  function SeenText(cols: seq<string>, sep: string): string
    requires cols != []
  {
    if EndsInValues(cols[0]) then Stem(cols[0])
    else cols[0] + if |cols| == 1 then ") " else [','] + (sep + SeenText(cols[1..], sep))
  }

  predicate EndsWord(rest: string) { rest == "" || !Ident(rest[0]) }

  lemma WalkKeyword(rest: string)
    requires EndsWord(rest)
    ensures BeforeKeyword(") VALUES" + rest) == ") "
  {
    var y := "VALUES" + rest;
    assert y[..6] == "VALUES";
    assert Keyword(y);
    WalkOne(' ', y);
    WalkOne(')', [' '] + y);
    assert ") VALUES" + rest == [')'] + ([' '] + y);
  }

  lemma WalkComma(x: string, sep: string, y: string)
    requires (forall i :: 0 <= i < |x| ==> Plain(x[i])) && Blanks(sep)
    ensures BeforeKeyword(x + ([','] + (sep + y)))
         == if EndsInValues(x) then Stem(x) else x + ([','] + (sep + BeforeKeyword(y)))
  {
    WalkBlanks(sep, y);
    WalkOne(',', sep + y);
    WalkIdentifier(x, [','] + (sep + y));
  }

  lemma {:induction false} WalkColumns(cols: seq<string>, sep: string, rest: string)
    requires cols != [] && forall i :: 0 <= i < |cols| ==> Identifier(cols[i])
    requires Blanks(sep) && EndsWord(rest)
    ensures BeforeKeyword(ColumnsText(cols, sep, rest)) == SeenText(cols, sep)
  {
    var x := cols[0];
    if |cols| == 1 {
      WalkKeyword(rest);
      WalkIdentifier(x, ") VALUES" + rest);
    } else {
      WalkColumns(cols[1..], sep, rest);
      WalkComma(x, sep, ColumnsText(cols[1..], sep, rest));
    }
  }

  predicate NoParen(s: string) { forall i :: 0 <= i < |s| ==> s[i] != '(' }

  lemma {:induction false} SeenTextNoParen(cols: seq<string>, sep: string)
    requires cols != [] && forall i :: 0 <= i < |cols| ==> Identifier(cols[i])
    requires Blanks(sep)
    ensures NoParen(SeenText(cols, sep))
  {
    if |cols| > 1 {
      SeenTextNoParen(cols[1..], sep);
    }
  }

  lemma {:induction false} ParenNone(s: string)
    requires NoParen(s)
    ensures AfterLastParen(s) == None
  {
    if s != "" {
      ParenNone(s[1..]);
    }
  }

  lemma {:induction false} ParenSome(a: string, b: string)
    requires NoParen(a) && NoParen(b)
    ensures AfterLastParen(a + (['('] + b)) == Some(b)
  {
    if a == "" {
      ParenNone(b);
      assert (['('] + b)[1..] == b;
      assert a + (['('] + b) == ['('] + b;
    } else {
      ParenSome(a[1..], b);
      assert (a + (['('] + b))[1..] == a[1..] + (['('] + b);
    }
  }

  lemma {:induction false} SkipBlanksPast(x: string, y: string)
    requires Blanks(x) && (y == "" || !Blank(y[0]))
    ensures SkipBlanks(x + y) == y
  {
    if x == "" {
      assert x + y == y;
    } else {
      assert (x + y)[1..] == x[1..] + y;
      SkipBlanksPast(x[1..], y);
    }
  }

  lemma {:induction false} NameLenOf(x: string, y: string, room: nat)
    requires forall i :: 0 <= i < |x| ==> Plain(x[i])
    requires y == "" || !Plain(y[0])
    ensures NameLen(x + y, false, room) == if |x| <= room then |x| else room
  {
    if x == "" {
      assert x + y == y;
    } else if room > 0 {
      assert (x + y)[1..] == x[1..] + y;
      NameLenOf(x[1..], y, room - 1);
    }
  }

  lemma {:induction false} ToDelimiterPast(x: string, y: string)
    requires forall i :: 0 <= i < |x| ==> Plain(x[i])
    requires y == "" || y[0] == ',' || y[0] == ')'
    ensures ToDelimiter(x + y) == y
  {
    if x == "" {
      assert x + y == y;
    } else {
      assert (x + y)[1..] == x[1..] + y;
      ToDelimiterPast(x[1..], y);
    }
  }

  // One identifier of the column list: its name, then the delimiter.
  lemma SearchStep(sep: string, x: string, y: string, idx: nat, param: string)
    requires Blanks(sep) && Identifier(x)
    requires y == "" || y[0] == ',' || y[0] == ')'
    ensures Search(sep + (x + y), idx, param)
         == if EqCi(Cut(x), param) then Some(idx)
            else if y != "" && y[0] == ',' then Search(y[1..], idx + 1, param) else None
  {
    SkipBlanksPast(sep, x + y);
    ReadIdentifier(x, y);
    ToDelimiterPast(x[|Cut(x)|..], y);
  }

  // An identifier is read up to the buffer's capacity.
  lemma ReadIdentifier(x: string, y: string)
    requires Identifier(x) && (y == "" || y[0] == ',' || y[0] == ')')
    ensures ReadName(x + y) == (Cut(x), x[|Cut(x)|..] + y)
  {
    NameLenOf(x, y, NAME_CAP);
    assert (x + y)[..|Cut(x)|] == Cut(x);
    assert (x + y)[|Cut(x)|..] == x[|Cut(x)|..] + y;
  }

  lemma {:induction false} SearchSeen(cols: seq<string>, gap: string, sep: string, idx: nat, param: string)
    requires cols != [] && forall i :: 0 <= i < |cols| ==> Identifier(cols[i])
    requires Blanks(gap) && Blanks(sep)
    ensures Search(gap + SeenText(cols, sep), idx, param) == FirstCi(SeenColumns(cols), param, idx)
  {
    var x := cols[0];
    if EndsInValues(x) {
      if Stem(x) == "" {
        SkipBlanksPast(gap, "");
      } else {
        assert SeenText(cols, sep) == Stem(x) + "";
        SearchStep(gap, Stem(x), "", idx, param);
        assert SeenColumns(cols)[1..] == [];
      }
    } else {
      assert SeenColumns(cols)[1..] == SeenColumns(cols[1..]);
      if |cols| == 1 {
        SearchStep(gap, x, ") ", idx, param);
      } else {
        var y := sep + SeenText(cols[1..], sep);
        SearchStep(gap, x, [','] + y, idx, param);
        assert ([','] + y)[1..] == y;
        SearchSeen(cols[1..], sep, sep, idx + 1, param);
      }
    }
  }

  // The text before the keyword, for a printed statement.
  lemma WalkInsert(table: string, gap: string, cols: seq<string>, sep: string, rest: string)
    requires Identifier(table) && cols != [] && forall i :: 0 <= i < |cols| ==> Identifier(cols[i])
    requires Blanks(gap) && Blanks(sep) && EndsWord(rest)
    ensures BeforeKeyword(Insert(table, gap, cols, sep, rest))
         == Head(if EndsInValues(table) then Stem(table) else table + (gap + (['('] + SeenText(cols, sep))))
  {
    var y4 := ['('] + ColumnsText(cols, sep, rest);
    WalkColumns(cols, sep, rest);
    WalkOne('(', ColumnsText(cols, sep, rest));
    WalkBlanks(gap, y4);
    FirstOf(gap, y4);
    WalkIdentifier(table, gap + y4);
    WalkHead(table + (gap + y4));
  }

  lemma FirstOf(gap: string, y: string)
    requires Blanks(gap) && y != "" && y[0] == '('
    ensures gap + y != "" && !Ident((gap + y)[0])
  {
  }

  // A word that is no keyword, then a character no identifier holds.
  lemma WalkWord(word: string, c: char, y: string)
    requires forall i :: 0 <= i < |word| ==> Plain(word[i])
    requires !EndsInValues(word) && !Ident(c)
    ensures BeforeKeyword(word + ([c] + y)) == word + ([c] + BeforeKeyword(y))
  {
    WalkOne(c, y);
    WalkIdentifier(word, [c] + y);
  }

  lemma WalkWords(v: string, w: string, y: string)
    requires (forall i :: 0 <= i < |v| ==> Plain(v[i])) && forall i :: 0 <= i < |w| ==> Plain(w[i])
    requires !EndsInValues(v) && !EndsInValues(w)
    ensures BeforeKeyword(v + ([' '] + (w + ([' '] + y)))) == v + ([' '] + (w + ([' '] + BeforeKeyword(y))))
  {
    WalkWord(w, ' ', y);
    WalkWord(v, ' ', w + ([' '] + y));
  }

  lemma NotValues(s: string)
    requires |s| >= 6 && Lower(s[|s| - 6]) != Lower('v')
    ensures !EndsInValues(s)
  {
    assert s[|s| - 6..][0] == s[|s| - 6];
  }

  lemma WalkHead(y: string)
    ensures BeforeKeyword(Head(y)) == Head(BeforeKeyword(y))
  {
    NotValues(INSERT);
    WalkWords(INSERT, INTO, y);
  }

  predicate ColumnParam(param: string) {
    param != "" && param[0] != '$' && !AllDigits(param)
  }

  lemma HeadSplit(a: string, b: string, c: string)
    ensures Head(a + (b + c)) == Head(a + b) + c
  {
    assert a + (b + c) == (a + b) + c;
  }

  // The scan of any printed statement finds the first seen name that matches.
  lemma ResolveInsert(table: string, gap: string, cols: seq<string>, sep: string, rest: string,
                      param: string, fallback: int)
    requires Identifier(table) && cols != [] && forall i :: 0 <= i < |cols| ==> Identifier(cols[i])
    requires Blanks(gap) && Blanks(sep) && EndsWord(rest) && ColumnParam(param)
    ensures Resolve(Insert(table, gap, cols, sep, rest), param, fallback)
         == match FirstCi(Seen(table, cols), param, 0)
            case None => fallback
            case Some(k) => Int16(k)
  {
    WalkInsert(table, gap, cols, sep, rest);
    if EndsInValues(table) {
      ParenNone(Head(Stem(table)));
    } else {
      SeenBody(table, gap, cols, sep);
      SearchBody(cols, sep, param);
    }
  }

  lemma SeenBody(table: string, gap: string, cols: seq<string>, sep: string)
    requires Identifier(table) && cols != [] && forall i :: 0 <= i < |cols| ==> Identifier(cols[i])
    requires Blanks(gap) && Blanks(sep)
    ensures AfterLastParen(Head(table + (gap + (['('] + SeenText(cols, sep))))) == Some(SeenText(cols, sep))
  {
    var body := SeenText(cols, sep);
    SeenTextNoParen(cols, sep);
    ParenSome(Head(table + gap), body);
    HeadSplit(table, gap, ['('] + body);
  }

  lemma SearchBody(cols: seq<string>, sep: string, param: string)
    requires cols != [] && (forall i :: 0 <= i < |cols| ==> Identifier(cols[i])) && Blanks(sep)
    ensures Search(SeenText(cols, sep), 0, param) == FirstCi(SeenColumns(cols), param, 0)
  {
    SearchSeen(cols, "", sep, 0, param);
    assert "" + SeenText(cols, sep) == SeenText(cols, sep);
  }

  lemma {:induction false} SeenWhole(cols: seq<string>)
    requires forall i :: 0 <= i < |cols| ==> !EndsInValues(cols[i]) && |cols[i]| <= NAME_CAP
    ensures SeenColumns(cols) == cols
  {
    if cols != [] {
      SeenWhole(cols[1..]);
    }
  }

  // The scan inverts the printer when no identifier ends in "values" or outgrows the name buffer.
  lemma ResolveInvertsPrinter(table: string, gap: string, cols: seq<string>, sep: string, rest: string,
                              param: string, fallback: int)
    requires Identifier(table) && cols != [] && forall i :: 0 <= i < |cols| ==> Identifier(cols[i])
    requires Blanks(gap) && Blanks(sep) && EndsWord(rest) && ColumnParam(param)
    requires !EndsInValues(table)
    requires forall i :: 0 <= i < |cols| ==> !EndsInValues(cols[i]) && |cols[i]| <= NAME_CAP
    ensures FirstIndexOrFallback(cols, param, fallback, Resolve(Insert(table, gap, cols, sep, rest), param, fallback))
  {
    ResolveInsert(table, gap, cols, sep, rest, param, fallback);
    SeenWhole(cols);
    FirstCiIsFirst(cols, param, fallback);
  }

  lemma FirstCiIsFirst(cols: seq<string>, param: string, fallback: int)
    ensures FirstIndexOrFallback(cols, param, fallback,
                                 match FirstCi(cols, param, 0) case None => fallback case Some(k) => Int16(k))
  {
    FirstCiMeaning(cols, param, 0);
    var f := FirstCi(cols, param, 0);
    if f.Some? {
      assert f == Some(f.value);
    }
  }

  // r is the first index whose name matches, or the fallback when none does.
  ghost predicate FirstIndexOrFallback(cols: seq<string>, param: string, fallback: int, r: int) {
    if forall i :: 0 <= i < |cols| ==> !EqCi(cols[i], param) then r == fallback
    else exists k :: 0 <= k < |cols| && r == Int16(k) && EqCi(cols[k], param)
                     && forall i :: 0 <= i < k ==> !EqCi(cols[i], param)
  }

  // ---- the scan as the source runs it: one pointer over the query, one over the columns ----

  method NameEqCi(a: string, b: string) returns (r: bool)
    ensures r == EqCi(a, b)
  {
    if |a| != |b| { return false; }
    for i := 0 to |a|
      invariant forall k :: 0 <= k < i ==> Lower(a[k]) == Lower(b[k])
    {
      if Lower(a[i]) != Lower(b[i]) { return false; }
    }
    return true;
  }

  // Find the keyword or the end; remember the last parenthesis on the way.
  method FindColumns(query: string) returns (cols: Option<nat>, end: nat)
    ensures end <= |query| && query[..end] == BeforeKeyword(query)
    ensures cols.Some? ==> cols.value <= end
    ensures AfterLastParen(query[..end]) == if cols.Some? then Some(query[cols.value..end]) else None
  {
    var p := 0;
    cols := None;
    while p < |query|
      invariant p <= |query|
      invariant BeforeKeyword(query) == query[..p] + BeforeKeyword(query[p..])
      invariant cols.Some? ==> cols.value <= p
      invariant AfterLastParen(query[..p]) == if cols.Some? then Some(query[cols.value..p]) else None
    {
      if Keyword(query[p..]) { break; }
      LastParenSnoc(query[..p], query[p]);
      WalkedOne(query, p);
      if query[p] == '(' {
        cols := Some(p + 1);
        assert query[p + 1..p + 1] == "";
      } else if cols.Some? {
        assert query[cols.value..p + 1] == query[cols.value..p] + [query[p]];
      }
      p := p + 1;
    }
    end := p;
  }

  lemma WalkedOne(s: string, p: nat)
    requires p < |s| && !Keyword(s[p..])
    ensures s[..p + 1] == s[..p] + [s[p]]
    ensures s[..p] + BeforeKeyword(s[p..]) == s[..p + 1] + BeforeKeyword(s[p + 1..])
  {
    assert s[p..][1..] == s[p + 1..];
  }

  lemma {:induction false} LastParenSnoc(s: string, c: char)
    ensures AfterLastParen(s + [c]) ==
      if c == '(' then Some("")
      else match AfterLastParen(s) case None => None case Some(t) => Some(t + [c])
  {
    if s == "" {
      assert s + [c] == [c];
      assert AfterLastParen([c][1..]) == None;
    } else {
      assert (s + [c])[1..] == s[1..] + [c];
      LastParenSnoc(s[1..], c);
    }
  }

  // Compare the column names from `cols` on; `text` is the query up to the keyword.
  method MatchColumns(text: string, cols: nat, param: string) returns (r: Option<nat>)
    requires cols <= |text|
    ensures r == Search(text[cols..], 0, param)
  {
    var q, idx := cols, 0;
    while q < |text|
      invariant cols <= q <= |text|
      invariant Search(text[cols..], 0, param) == Search(text[q..], idx, param)
      decreases |text| - q
    {
      var b := SkipBlanksAt(text, q);
      if b >= |text| || text[b] == ')' { return None; }
      var name, c := ScanName(text, b);
      var same := NameEqCi(name, param);
      if name != "" && same { return Some(idx); }
      var d := ToDelimiterAt(text, c);
      if d >= |text| || text[d] != ',' { return None; }
      assert text[d..][1..] == text[d + 1..];
      q, idx := d + 1, idx + 1;
    }
    return None;
  }

  method SkipBlanksAt(text: string, at: nat) returns (q: nat)
    requires at <= |text|
    ensures at <= q <= |text| && text[q..] == SkipBlanks(text[at..])
  {
    q := at;
    while q < |text| && Blank(text[q])
      invariant at <= q <= |text| && SkipBlanks(text[at..]) == SkipBlanks(text[q..])
    {
      assert text[q..][1..] == text[q + 1..];
      q := q + 1;
    }
  }

  method ToDelimiterAt(text: string, at: nat) returns (q: nat)
    requires at <= |text|
    ensures at <= q <= |text| && text[q..] == ToDelimiter(text[at..])
  {
    q := at;
    while q < |text| && text[q] != ',' && text[q] != ')'
      invariant at <= q <= |text| && ToDelimiter(text[at..]) == ToDelimiter(text[q..])
    {
      assert text[q..][1..] == text[q + 1..];
      q := q + 1;
    }
  }

  method ScanName(text: string, at: nat) returns (name: string, q: nat)
    requires at < |text|
    ensures at <= q <= |text|
    ensures (name, text[q..]) == ReadName(text[at..])
  {
    if text[at] == '"' {
      assert text[at..][1..] == text[at + 1..];
      name, q := CopyRun(text, at + 1, true);
      assert text[at..][1..1 + |name|] == name && text[at..][1 + |name|..] == text[q..];
      if q < |text| && text[q] == '"' {
        assert text[q..][1..] == text[q + 1..];
        q := q + 1;
      }
    } else {
      name, q := CopyRun(text, at, false);
      assert text[at..][..|name|] == name && text[at..][|name|..] == text[q..];
    }
  }

  // Copy characters into the name buffer until one does not belong or the buffer is full.
  method CopyRun(text: string, at: nat, quoted: bool) returns (name: string, q: nat)
    requires at <= |text|
    ensures |name| == NameLen(text[at..], quoted, NAME_CAP)
    ensures q == at + |name| <= |text| && name == text[at..q]
  {
    q, name := at, "";
    while q < |text| && |name| < NAME_CAP && (if quoted then text[q] != '"' else Plain(text[q]))
      invariant at <= q <= |text| && q - at <= NAME_CAP && name == text[at..q]
      invariant NameLen(text[at..], quoted, NAME_CAP) == q - at + NameLen(text[q..], quoted, NAME_CAP - (q - at))
    {
      assert text[q..][1..] == text[q + 1..];
      assert text[at..q + 1] == text[at..q] + [text[q]];
      name := name + [text[q]];
      q := q + 1;
    }
  }

  method ResolveIdentitySlot(query: string, param: string, fallback: int) returns (r: int)
    ensures r == Resolve(query, param, fallback)
  {
    if param == "" { return fallback; }
    if param[0] == '$' { return Int16(Int16(Atoi(param[1..])) - 1); }
    if AllDigits(param) { return Int16(Atoi(param)); }
    var cols, end := FindColumns(query);
    if cols.None? { return fallback; }
    var idx := MatchColumns(query[..end], cols.value, param);
    assert query[..end][cols.value..] == query[cols.value..end];
    return if idx.Some? then Int16(idx.value) else fallback;
  }
}
