// Exactly which INSERT statements the column-list scan inverts.
module SlotInverse {
  import opened Wire
  import opened IdentitySlot

  // The scan finds the first matching column for every parameter name and whatever the fallback.
  ghost predicate Inverts(table: string, gap: string, cols: seq<string>, sep: string, rest: string)
    requires cols != []
  {
    forall param, fallback :: ColumnParam(param) ==>
      FirstIndexOrFallback(cols, param, fallback, Resolve(Insert(table, gap, cols, sep, rest), param, fallback))
  }

  // A column of which the scan loses something that a parameter name could mean. A name of
  // digits alone is a slot number, never a column.
  predicate Harmful(table: string, c: string) {
    if EndsInValues(table) then !AllDigits(c) else EndsInValues(c) || (|c| > NAME_CAP && !AllDigits(c))
  }

  predicate Invertible(table: string, cols: seq<string>) {
    forall i :: 0 <= i < |cols| ==> !Harmful(table, cols[i])
  }

  lemma InvertsExactly(table: string, gap: string, cols: seq<string>, sep: string, rest: string)
    requires Identifier(table) && cols != [] && forall i :: 0 <= i < |cols| ==> Identifier(cols[i])
    requires Blanks(gap) && Blanks(sep) && EndsWord(rest)
    ensures Inverts(table, gap, cols, sep, rest) <==> Invertible(table, cols)
  {
    if Invertible(table, cols) {
      forall param, fallback | ColumnParam(param)
        ensures FirstIndexOrFallback(cols, param, fallback,
                                     Resolve(Insert(table, gap, cols, sep, rest), param, fallback))
      {
        ResolveInsert(table, gap, cols, sep, rest, param, fallback);
        SeenAlike(table, cols, param);
        FirstCiIsFirst(cols, param, fallback);
      }
    } else {
      var i := FirstHarmful(table, cols);
      HarmfulParam(table, cols, i);
      HarmfulMissed(table, gap, cols, sep, rest, i, if Int16(i) == 0 then 1 else 0);
    }
  }

  // With all columns seen whole and none of them a number, that is the condition a reader expects.
  lemma InvertibleNames(table: string, cols: seq<string>)
    requires cols != [] && forall i :: 0 <= i < |cols| ==> !AllDigits(cols[i])
    ensures Invertible(table, cols) <==>
      !EndsInValues(table) && forall i :: 0 <= i < |cols| ==> !EndsInValues(cols[i]) && |cols[i]| <= NAME_CAP
  {
    assert !AllDigits(cols[0]);
    if Invertible(table, cols) {
      assert !Harmful(table, cols[0]);
      forall i | 0 <= i < |cols| ensures !EndsInValues(cols[i]) && |cols[i]| <= NAME_CAP {
        assert !Harmful(table, cols[i]);
      }
    }
  }

  // The failing input: a column that the scan loses, asked for by its own name, gives the fallback.
  lemma HarmfulMissed(table: string, gap: string, cols: seq<string>, sep: string, rest: string, i: nat, fallback: int)
    requires Identifier(table) && forall k :: 0 <= k < |cols| ==> Identifier(cols[k])
    requires Blanks(gap) && Blanks(sep) && EndsWord(rest)
    requires i < |cols| && Harmful(table, cols[i]) && ColumnParam(cols[i]) && fallback != Int16(i)
    requires forall k :: 0 <= k < i ==> !Harmful(table, cols[k]) && !EqCi(cols[k], cols[i])
    ensures Resolve(Insert(table, gap, cols, sep, rest), cols[i], fallback) == fallback
    ensures !FirstIndexOrFallback(cols, cols[i], fallback, fallback)
  {
    ResolveInsert(table, gap, cols, sep, rest, cols[i], fallback);
    if !EndsInValues(table) { UnseenColumns(table, cols, i, cols[i], 0); }
    assert EqCi(cols[i], cols[i]);
  }

  // ---- invertible statements ----

  lemma DigitsAlike(a: string, b: string)
    requires EqCi(a, b) && AllDigits(a)
    ensures AllDigits(b)
  {
    forall i | 0 <= i < |b| ensures Digit(b[i]) {
      assert Lower(a[i]) == Lower(b[i]) && Digit(a[i]);
    }
  }

  lemma CutDigits(c: string, param: string)
    requires AllDigits(c) && ColumnParam(param)
    ensures !EqCi(c, param) && !EqCi(Cut(c), param)
  {
    if EqCi(c, param) { DigitsAlike(c, param); }
    if EqCi(Cut(c), param) { DigitsAlike(Cut(c), param); }
  }

  // The names seen match as the columns do.
  lemma SeenAlike(table: string, cols: seq<string>, param: string)
    requires Invertible(table, cols) && ColumnParam(param)
    ensures FirstCi(Seen(table, cols), param, 0) == FirstCi(cols, param, 0)
  {
    if EndsInValues(table) {
      forall i | 0 <= i < |cols| ensures !EqCi(cols[i], param) {
        assert !Harmful(table, cols[i]);
        CutDigits(cols[i], param);
      }
      FirstCiMeaning(cols, param, 0);
    } else {
      HarmlessAlike(table, cols, param, 0);
    }
  }

  lemma {:induction false} HarmlessAlike(table: string, cols: seq<string>, param: string, idx: nat)
    requires !EndsInValues(table) && Invertible(table, cols) && ColumnParam(param)
    ensures FirstCi(SeenColumns(cols), param, idx) == FirstCi(cols, param, idx)
  {
    if cols != [] {
      HarmlessAlike(table, cols[1..], param, idx + 1);
      assert !Harmful(table, cols[0]);
      assert SeenColumns(cols)[1..] == SeenColumns(cols[1..]);
      if |cols[0]| > NAME_CAP { CutDigits(cols[0], param); }
    }
  }

  // ---- the others ----

  lemma FirstHarmful(table: string, cols: seq<string>) returns (i: nat)
    requires !Invertible(table, cols)
    ensures i < |cols| && Harmful(table, cols[i]) && forall k :: 0 <= k < i ==> !Harmful(table, cols[k])
  {
    i := 0;
    while i < |cols| && !Harmful(table, cols[i])
      invariant i <= |cols| && forall k :: 0 <= k < i ==> !Harmful(table, cols[k])
    {
      i := i + 1;
    }
  }

  lemma NotValuesDigits(c: string)
    requires AllDigits(c)
    ensures !EndsInValues(c)
  {
    if |c| >= 6 {
      assert Digit(c[|c| - 6]);
      NotValues(c);
    }
  }

  lemma HarmAlike(table: string, a: string, b: string)
    requires EqCi(a, b) && Harmful(table, b)
    ensures Harmful(table, a)
  {
    if AllDigits(a) {
      DigitsAlike(a, b);
      NotValuesDigits(b);
    }
    if EndsInValues(b) {
      forall k | 0 <= k < 6 ensures Lower(a[|a| - 6..][k]) == Lower("values"[k]) {
        assert b[|b| - 6..][k] == b[|b| - 6 + k];
        assert Lower(a[|a| - 6 + k]) == Lower(b[|b| - 6 + k]);
      }
    }
  }

  // The first harmful column is a parameter name, and no earlier column matches it.
  lemma HarmfulParam(table: string, cols: seq<string>, i: nat)
    requires i < |cols| && Identifier(cols[i]) && Harmful(table, cols[i])
    requires forall k :: 0 <= k < i ==> !Harmful(table, cols[k])
    ensures ColumnParam(cols[i]) && forall k :: 0 <= k < i ==> !EqCi(cols[k], cols[i])
  {
    if AllDigits(cols[i]) { NotValuesDigits(cols[i]); }
    forall k | 0 <= k < i ensures !EqCi(cols[k], cols[i]) {
      if EqCi(cols[k], cols[i]) { HarmAlike(table, cols[k], cols[i]); }
    }
  }

  // No name seen is longer than the buffer.
  lemma {:induction false} LongUnseen(cols: seq<string>, param: string, idx: nat)
    requires |param| > NAME_CAP
    ensures FirstCi(SeenColumns(cols), param, idx) == None
  {
    if cols != [] && !EndsInValues(cols[0]) {
      LongUnseen(cols[1..], param, idx + 1);
      assert SeenColumns(cols)[1..] == SeenColumns(cols[1..]);
    }
  }

  lemma {:induction false} UnseenColumns(table: string, cols: seq<string>, i: nat, param: string, idx: nat)
    requires !EndsInValues(table) && i < |cols| && param == cols[i] && ColumnParam(param) && Harmful(table, param)
    requires forall k :: 0 <= k < i ==> !Harmful(table, cols[k]) && !EqCi(cols[k], param)
    ensures FirstCi(SeenColumns(cols), param, idx) == None
  {
    if i > 0 {
      assert !Harmful(table, cols[0]) && !EqCi(cols[0], param);
      UnseenColumns(table, cols[1..], i - 1, param, idx + 1);
      assert SeenColumns(cols)[1..] == SeenColumns(cols[1..]);
      if |cols[0]| > NAME_CAP { CutDigits(cols[0], param); }
    } else if !EndsInValues(param) {
      LongUnseen(cols, param, idx);
    }
  }
}
