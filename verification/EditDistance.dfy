/** Edit scripts, the distance they induce, and the facts the capped matcher relies on. */
module EditDistance {
  import opened Common

  /** One edit; a script is read right to left, consuming the source from its end. */
  datatype Edit = Keep | Substitute(c: char) | Insert(c: char) | Delete

  function Cost(script: seq<Edit>): nat {
    if script == [] then 0
    else Cost(script[..|script| - 1]) + if script[|script| - 1].Keep? then 0 else 1
  }

  /** The string a script turns `a` into, or None when the script does not fit `a`. */
  function Apply(script: seq<Edit>, a: string): Option<string> {
    if script == [] then
      if a == "" then Some("") else None
    else
      var init, last := script[..|script| - 1], script[|script| - 1];
      if last.Insert? then
        match Apply(init, a) case None => None case Some(r) => Some(r + [last.c])
      else if a == "" then None
      else
        var n := |a| - 1;
        match Apply(init, a[..n])
        case None => None
        case Some(r) =>
          Some(if last.Delete? then r else if last.Keep? then r + [a[n]] else r + [last.c])
  }

  function Min3(a: nat, b: nat, c: nat): nat {
    var ab := if b < a then b else a;
    if c < ab then c else ab
  }

  /** The classical recurrence. LowerBound and Witness show it is the minimum over scripts. */
  function Dist(a: string, b: string): nat
    decreases |a| + |b|
  {
    if a == "" then |b|
    else if b == "" then |a|
    else
      var a', b' := a[..|a| - 1], b[..|b| - 1];
      Min3(Dist(a, b') + 1, Dist(a', b) + 1,
           Dist(a', b') + if a[|a| - 1] == b[|b| - 1] then 0 else 1)
  }

  lemma {:induction false} LowerBound(script: seq<Edit>, a: string, b: string)
    requires Apply(script, a) == Some(b)
    ensures Dist(a, b) <= Cost(script)
    decreases |script|
  {
    if script != [] {
      var init, last := script[..|script| - 1], script[|script| - 1];
      if last.Insert? {
        var r := Apply(init, a).value;
        assert b[..|b| - 1] == r;
        LowerBound(init, a, r);
      } else {
        var r := Apply(init, a[..|a| - 1]).value;
        LowerBound(init, a[..|a| - 1], r);
        if last.Delete? {
          DeleteBound(a, b);
        } else {
          assert b[..|b| - 1] == r;
        }
      }
    }
  }

  lemma DeleteBound(a: string, b: string)
    requires a != ""
    ensures Dist(a, b) <= Dist(a[..|a| - 1], b) + 1
  {
  }

  lemma {:induction false} Witness(a: string, b: string) returns (script: seq<Edit>)
    ensures Apply(script, a) == Some(b) && Cost(script) == Dist(a, b)
    decreases |a| + |b|
  {
    if a == "" && b == "" {
      script := [];
    } else {
      var a', b' := if a == "" then a else a[..|a| - 1], if b == "" then b else b[..|b| - 1];
      var init, last;
      if a == "" || (b != "" && Dist(a, b) == Dist(a, b') + 1) {
        init := Witness(a, b');
        last := Insert(b[|b| - 1]);
      } else if b == "" || Dist(a, b) == Dist(a', b) + 1 {
        init := Witness(a', b);
        last := Delete;
      } else {
        init := Witness(a', b');
        last := if a[|a| - 1] == b[|b| - 1] then Keep else Substitute(b[|b| - 1]);
      }
      script := init + [last];
      assert b != "" ==> b == b' + [b[|b| - 1]];
      assert script[..|script| - 1] == init;
    }
  }

  /** The recurrence is the true edit distance: attained by a script, beaten by none. */
  lemma DistIsMinimumOverScripts(a: string, b: string)
    ensures exists script :: Apply(script, a) == Some(b) && Cost(script) == Dist(a, b)
    ensures forall script :: Apply(script, a) == Some(b) ==> Dist(a, b) <= Cost(script)
  {
    var w := Witness(a, b);
    assert Apply(w, a) == Some(b) && Cost(w) == Dist(a, b);
    forall script | Apply(script, a) == Some(b) ensures Dist(a, b) <= Cost(script) {
      LowerBound(script, a, b);
    }
  }

  lemma {:induction false} Symmetric(a: string, b: string)
    ensures Dist(a, b) == Dist(b, a)
    decreases |a| + |b|
  {
    if a != "" && b != "" {
      Symmetric(a, b[..|b| - 1]);
      Symmetric(a[..|a| - 1], b);
      Symmetric(a[..|a| - 1], b[..|b| - 1]);
    }
  }

  lemma {:induction false} LengthGap(a: string, b: string)
    ensures |a| - |b| <= Dist(a, b) && |b| - |a| <= Dist(a, b)
    decreases |a| + |b|
  {
    if a != "" && b != "" {
      LengthGap(a, b[..|b| - 1]);
      LengthGap(a[..|a| - 1], b);
      LengthGap(a[..|a| - 1], b[..|b| - 1]);
    }
  }

  lemma {:induction false} ZeroIffEqual(a: string, b: string)
    ensures Dist(a, b) == 0 <==> a == b
    decreases |a|
  {
    if a != "" && b != "" {
      ZeroIffEqual(a[..|a| - 1], b[..|b| - 1]);
      assert a == a[..|a| - 1] + [a[|a| - 1]] && b == b[..|b| - 1] + [b[|b| - 1]];
    }
  }

  function Mismatches(a: string, b: string): nat
    requires |a| == |b|
  {
    if a == "" then 0
    else Mismatches(a[..|a| - 1], b[..|b| - 1]) + if a[|a| - 1] == b[|b| - 1] then 0 else 1
  }

  /** Replacing costs at most one per character. */
  lemma {:induction false} ReplacingCosts(a: string, b: string)
    requires |a| == |b|
    ensures Dist(a, b) <= Mismatches(a, b)
    decreases |a|
  {
    if a != "" { ReplacingCosts(a[..|a| - 1], b[..|b| - 1]); }
  }

  /** Appending, or dropping what was appended, costs exactly one per character. */
  lemma {:induction false} AppendingCosts(a: string, s: string)
    ensures Dist(a, a + s) == |s| && Dist(a + s, a) == |s|
    decreases |s|
  {
    if s == "" {
      assert a + s == a;
      ZeroIffEqual(a, a);
    } else {
      var init := s[..|s| - 1];
      AppendingCosts(a, init);
      assert (a + s)[..|a + s| - 1] == a + init;
      LengthGap(a, a + s);
      Symmetric(a, a + s);
    }
  }

  /** Dist between the first i characters of `a` and the first j of `b`: one cell of the table. */
  function Cell(a: string, b: string, i: nat, j: nat): nat
    requires i <= |a| && j <= |b|
  {
    Dist(a[..i], b[..j])
  }

  lemma CellRecurrence(a: string, b: string, i: nat, j: nat)
    requires i <= |a| && j <= |b|
    ensures i == 0 ==> Cell(a, b, i, j) == j
    ensures j == 0 ==> Cell(a, b, i, j) == i
    ensures i > 0 && j > 0 ==>
              Cell(a, b, i, j) == Min3(Cell(a, b, i, j - 1) + 1, Cell(a, b, i - 1, j) + 1,
                                       Cell(a, b, i - 1, j - 1) + if a[i - 1] == b[j - 1] then 0 else 1)
  {
    if i > 0 && j > 0 {
      assert a[..i][..i - 1] == a[..i - 1] && b[..j][..j - 1] == b[..j - 1];
    }
  }

  ghost predicate RowAbove(a: string, b: string, i: nat, cap: int)
    requires i <= |a|
  {
    forall j | 0 <= j <= |b| :: Cell(a, b, i, j) > cap
  }

  /** Once every cell of a row is over the cap, so is every cell of every later row. */
  lemma {:induction false} RowsStayAbove(a: string, b: string, i: nat, i': nat, cap: int)
    requires i <= i' <= |a| && RowAbove(a, b, i, cap)
    ensures RowAbove(a, b, i', cap)
    decreases i' - i
  {
    if i < i' {
      var next := i + 1;
      forall j: nat | j <= |b| ensures Cell(a, b, next, j) > cap {
        NextRowCellAbove(a, b, i, j, cap);
      }
      RowsStayAbove(a, b, next, i', cap);
    }
  }

  lemma {:induction false} NextRowCellAbove(a: string, b: string, i: nat, j: nat, cap: int)
    requires i < |a| && j <= |b| && RowAbove(a, b, i, cap)
    ensures Cell(a, b, i + 1, j) > cap
  {
    CellRecurrence(a, b, i + 1, j);
    assert Cell(a, b, i, j) > cap;
    if j == 0 {
      CellRecurrence(a, b, i, 0);
    } else {
      NextRowCellAbove(a, b, i, j - 1, cap);
      assert Cell(a, b, i, j - 1) > cap;
    }
  }
}
