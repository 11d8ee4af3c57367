/** Name and address normalisation used before any sanctions comparison. */
module Normalization {

  /** The Unicode tables the normalisers consult, kept abstract. */
  datatype Folding = Folding(lower: char -> char, upper: char -> char, space: char -> bool)
  {
    ghost predicate Lawful() {
      && space(' ') && lower(' ') == ' '
      && (forall c :: lower(lower(c)) == lower(c))
    }
  }

  function TrimLeft(f: Folding, s: string): string {
    if s != "" && f.space(s[0]) then TrimLeft(f, s[1..]) else s
  }

  function TrimRight(f: Folding, s: string): string {
    if s != "" && f.space(s[|s| - 1]) then TrimRight(f, s[..|s| - 1]) else s
  }

  function Trim(f: Folding, s: string): string {
    TrimRight(f, TrimLeft(f, s))
  }

  function MapChars(s: string, g: char -> char): (r: string)
    ensures |r| == |s| && forall i | 0 <= i < |s| :: r[i] == g(s[i])
  {
    seq(|s|, i requires 0 <= i < |s| => g(s[i]))
  }

  function NormalizeAddress(f: Folding, a: string): string {
    MapChars(Trim(f, a), f.upper)
  }

  predicate Kept(c: char) {
    'a' <= c <= 'z' || '0' <= c <= '9' || c as int > 127
  }

  /** Keeps letters, digits and non-ASCII; every other run becomes one space, none at the start. */
  function Squeeze(s: string, lastSpace: bool): string {
    if s == "" then ""
    else if Kept(s[0]) then [s[0]] + Squeeze(s[1..], false)
    else if lastSpace then Squeeze(s[1..], true)
    else " " + Squeeze(s[1..], true)
  }

  function Normalized(f: Folding, n: string): string {
    Trim(f, Squeeze(MapChars(Trim(f, n), f.lower), true))
  }

  method NormalizeName(f: Folding, n: string) returns (r: string)
    ensures r == Normalized(f, n)
  {
    var s := MapChars(Trim(f, n), f.lower);
    var b := "";
    var lastSpace := true;
    for i := 0 to |s|
      invariant b + Squeeze(s[i..], lastSpace) == Squeeze(s, true)
    {
      assert s[i..][0] == s[i] && s[i..][1..] == s[i + 1..];
      ghost var rest := Squeeze(s[i..], lastSpace);
      if Kept(s[i]) {
        assert b + rest == (b + [s[i]]) + Squeeze(s[i + 1..], false);
        b := b + [s[i]];
        lastSpace := false;
      } else if !lastSpace {
        assert b + rest == (b + " ") + Squeeze(s[i + 1..], true);
        b := b + " ";
        lastSpace := true;
      }
    }
    assert b == Squeeze(s, true);
    r := Trim(f, b);
  }

  // ---- what normalised names look like ----

  /** Characters a normalised name may hold, with no two spaces in a row. */
  ghost predicate Clean(f: Folding, s: string) {
    && (forall i | 0 <= i < |s| :: s[i] == ' ' || (Kept(s[i]) && f.lower(s[i]) == s[i]))
    && (forall i | 0 < i < |s| :: s[i - 1] == ' ' ==> s[i] != ' ')
  }

  ghost predicate Trimmed(f: Folding, s: string) {
    s != "" ==> !f.space(s[0]) && !f.space(s[|s| - 1])
  }

  lemma {:induction false} TrimFacts(f: Folding, s: string)
    ensures Trimmed(f, Trim(f, s))
    ensures exists i, j :: 0 <= i <= j <= |s| && Trim(f, s) == s[i..j]
    ensures Trimmed(f, s) ==> Trim(f, s) == s
  {
    var i := TrimLeftFacts(f, s);
    var j := TrimRightFacts(f, s[i..]);
    assert s[i..][..j] == s[i..i + j];
    assert Trim(f, s) == s[i..i + j];
  }

  lemma {:induction false} TrimLeftFacts(f: Folding, s: string) returns (i: nat)
    ensures i <= |s| && TrimLeft(f, s) == s[i..]
    ensures i < |s| ==> !f.space(s[i])
    ensures s != "" && !f.space(s[0]) ==> i == 0
  {
    if s != "" && f.space(s[0]) {
      var k := TrimLeftFacts(f, s[1..]);
      i := k + 1;
    } else {
      i := 0;
    }
  }

  lemma {:induction false} TrimRightFacts(f: Folding, s: string) returns (j: nat)
    ensures j <= |s| && TrimRight(f, s) == s[..j]
    ensures 0 < j ==> !f.space(s[j - 1])
    ensures s != "" && !f.space(s[|s| - 1]) ==> j == |s|
    decreases |s|
  {
    if s != "" && f.space(s[|s| - 1]) {
      j := TrimRightFacts(f, s[..|s| - 1]);
      assert s[..|s| - 1][..j] == s[..j];
    } else {
      j := |s|;
    }
  }

  lemma {:induction false} SqueezeIsClean(f: Folding, s: string, lastSpace: bool)
    requires forall i | 0 <= i < |s| :: f.lower(s[i]) == s[i]
    ensures Clean(f, Squeeze(s, lastSpace))
    ensures lastSpace && Squeeze(s, lastSpace) != "" ==> Squeeze(s, lastSpace)[0] != ' '
  {
    if s != "" {
      SqueezeIsClean(f, s[1..], !Kept(s[0]));
    }
  }

  lemma {:induction false} SqueezeFixesClean(f: Folding, s: string, lastSpace: bool)
    requires Clean(f, s) && (lastSpace && s != "" ==> s[0] != ' ')
    ensures Squeeze(s, lastSpace) == s
  {
    if s != "" {
      SqueezeFixesClean(f, s[1..], s[0] == ' ');
      assert s == [s[0]] + s[1..];
    }
  }

  lemma LoweringKeepsClean(f: Folding, s: string)
    requires f.lower(' ') == ' ' && Clean(f, s)
    ensures MapChars(s, f.lower) == s
  {
  }

  lemma SliceKeepsClean(f: Folding, s: string, i: nat, j: nat)
    requires i <= j <= |s| && Clean(f, s)
    ensures Clean(f, s[i..j])
  {
  }

  /** Normalising twice is normalising once, so stored and queried names compare consistently. */
  lemma NormalizedIsIdempotent(f: Folding, n: string)
    requires f.Lawful()
    ensures Normalized(f, Normalized(f, n)) == Normalized(f, n)
  {
    var lowered := MapChars(Trim(f, n), f.lower);
    var squeezed := Squeeze(lowered, true);
    var r := Normalized(f, n);
    SqueezeIsClean(f, lowered, true);
    TrimFacts(f, squeezed);
    var i, j :| 0 <= i <= j <= |squeezed| && r == squeezed[i..j];
    SliceKeepsClean(f, squeezed, i, j);
    TrimFacts(f, r);
    LoweringKeepsClean(f, r);
    SqueezeFixesClean(f, r, true);
  }

  // ---- what normalisation looks at ----

  predicate Blank(f: Folding, s: string) {
    forall i | 0 <= i < |s| :: f.space(s[i])
  }

  lemma {:induction false} TrimLeftBlank(f: Folding, l: string, s: string)
    requires Blank(f, l)
    ensures TrimLeft(f, l + s) == TrimLeft(f, s)
    decreases |l|
  {
    if l == "" {
      assert l + s == s;
    } else {
      assert (l + s)[1..] == l[1..] + s;
      TrimLeftBlank(f, l[1..], s);
    }
  }

  lemma {:induction false} TrimRightBlank(f: Folding, s: string, r: string)
    requires Blank(f, r)
    ensures TrimRight(f, s + r) == TrimRight(f, s)
    decreases |r|
  {
    if r == "" {
      assert s + r == s;
    } else {
      assert (s + r)[..|s + r| - 1] == s + r[..|r| - 1];
      TrimRightBlank(f, s, r[..|r| - 1]);
    }
  }

  /** Surrounding space is cut off, and nothing else. */
  lemma TrimPadded(f: Folding, l: string, s: string, r: string)
    requires Blank(f, l) && Blank(f, r) && Trimmed(f, s)
    ensures Trim(f, l + s + r) == s
  {
    assert l + s + r == l + (s + r);
    TrimLeftBlank(f, l, s + r);
    if s == "" {
      TrimLeftBlank(f, r, "");
      assert r + "" == r && s + r == r;
    } else {
      TrimRightBlank(f, s, r);
    }
  }

  /** Two addresses are the same exactly if, apart from surrounding space, they are equal in upper case. */
  lemma AddressesAgreeIff(f: Folding, a: string, b: string, la: string, ra: string, lb: string, rb: string)
    requires Trimmed(f, a) && Trimmed(f, b) && Blank(f, la) && Blank(f, ra) && Blank(f, lb) && Blank(f, rb)
    ensures NormalizeAddress(f, la + a + ra) == NormalizeAddress(f, lb + b + rb) <==>
            |a| == |b| && forall i | 0 <= i < |a| :: f.upper(a[i]) == f.upper(b[i])
  {
    TrimPadded(f, la, a, ra);
    TrimPadded(f, lb, b, rb);
    var x, y := MapChars(a, f.upper), MapChars(b, f.upper);
    if x == y {
      forall i | 0 <= i < |a| ensures f.upper(a[i]) == f.upper(b[i]) { assert x[i] == y[i]; }
    }
  }

  /** A character of a word, by its code point: a lower-case letter, a digit, or anything outside ASCII. */
  predicate WordChar(c: char) {
    97 <= c as int <= 122 || 48 <= c as int <= 57 || c as int > 127
  }

  /** The maximal runs of word characters, in order; `run` is the one being read. */
  function Words(s: string, run: string): (ws: seq<string>)
    ensures run != "" || (s != "" && WordChar(s[|s| - 1])) ==> ws != []
  {
    if s == "" then (if run == "" then [] else [run])
    else if WordChar(s[0]) then Words(s[1..], run + [s[0]])
    else (if run == "" then [] else [run]) + Words(s[1..], "")
  }

  function Joined(ws: seq<string>): string {
    if ws == [] then "" else if |ws| == 1 then ws[0] else ws[0] + " " + Joined(ws[1..])
  }

  predicate EndsApart(s: string) {
    s != "" && !WordChar(s[|s| - 1])
  }

  /** One more space ends the squeezed text if something else follows the last word. */
  function Tail(s: string, run: string): string {
    if EndsApart(s) && Words(s, run) != [] then " " else ""
  }

  lemma JoinedStep(w: string, ws: seq<string>)
    ensures Joined([w] + ws) == if ws == [] then w else w + " " + Joined(ws)
  {
    assert ([w] + ws)[1..] == ws;
  }

  lemma WordGoesOn(s: string, run: string)
    requires s != "" && WordChar(s[0])
    ensures run + Squeeze(s, run == "") == (run + [s[0]]) + Squeeze(s[1..], false)
    ensures Words(s, run) == Words(s[1..], run + [s[0]]) && Tail(s, run) == Tail(s[1..], run + [s[0]])
  {
    assert |s| > 1 ==> s[1..][|s| - 2] == s[|s| - 1];
  }

  lemma WordEnds(s: string, run: string)
    requires s != "" && !WordChar(s[0])
    ensures Squeeze(s, run == "") == (if run == "" then "" else " ") + Squeeze(s[1..], true)
    ensures Words(s, run) == (if run == "" then [] else [run]) + Words(s[1..], "")
    ensures Words(s[1..], "") == [] ==> Tail(s, run) == if run == "" then "" else " "
    ensures Words(s[1..], "") != [] ==> Tail(s, run) == Tail(s[1..], "")
  {
    assert |s| > 1 ==> s[1..][|s| - 2] == s[|s| - 1];
  }

  /** Squeezing joins the words with single spaces. */
  lemma {:induction false} SqueezeJoinsWords(s: string, run: string)
    ensures run + Squeeze(s, run == "") == Joined(Words(s, run)) + Tail(s, run)
    decreases |s|
  {
    if s == "" {
      assert run + "" == run;
    } else if WordChar(s[0]) {
      WordGoesOn(s, run);
      SqueezeJoinsWords(s[1..], run + [s[0]]);
    } else {
      hide Squeeze, Words;
      WordEnds(s, run);
      SqueezeJoinsWords(s[1..], "");
      var q, ws := Squeeze(s[1..], true), Words(s[1..], "");
      assert "" + q == q;
      JoinedStep(run, ws);
      assert run == "" ==> Words(s, run) == ws;
      assert ws == [] ==> Joined(ws) == "" && Tail(s[1..], "") == "";
    }
  }

  lemma {:induction false} WordsSkipLeft(s: string, t: string)
    requires forall i | 0 <= i < |s| :: !WordChar(s[i])
    ensures Words(s + t, "") == Words(t, "")
    decreases |s|
  {
    if s == "" {
      assert s + t == t;
    } else {
      assert (s + t)[1..] == s[1..] + t;
      WordsSkipLeft(s[1..], t);
    }
  }

  lemma {:induction false} WordsSkipRight(s: string, t: string, run: string)
    requires forall i | 0 <= i < |t| :: !WordChar(t[i])
    ensures Words(s + t, run) == Words(s, run)
    decreases |s|
  {
    if s == "" {
      assert s + t == t;
      if t != "" {
        WordsSkipLeft(t[1..], "");
        assert t[1..] + "" == t[1..];
      }
    } else {
      assert (s + t)[1..] == s[1..] + t;
      WordsSkipRight(s[1..], t, if WordChar(s[0]) then run + [s[0]] else "");
    }
  }

  /** No character of the text is both a space and part of a word, in either case. */
  predicate SpacesApart(f: Folding, n: string) {
    forall i | 0 <= i < |n| :: (f.space(n[i]) ==> !WordChar(f.lower(n[i]))) && (WordChar(f.lower(n[i])) ==> !f.space(f.lower(n[i])))
  }

  lemma MapSlices(s: string, g: char -> char, i: nat, j: nat)
    requires i <= j <= |s|
    ensures MapChars(s, g) == MapChars(s[..i], g) + MapChars(s[i..j], g) + MapChars(s[j..], g)
  {
  }

  /** Where trimming stops. */
  lemma TrimBounds(f: Folding, s: string) returns (i: nat, j: nat)
    ensures i <= j <= |s| && Trim(f, s) == s[i..j] && Blank(f, s[..i]) && Blank(f, s[j..])
  {
    i := TrimLeftCut(f, s);
    j := TrimRightCut(f, s[i..]);
    assert s[i..][..j] == s[i..i + j] && s[i..][j..] == s[i + j..];
    j := i + j;
  }

  lemma {:induction false} TrimLeftCut(f: Folding, s: string) returns (i: nat)
    ensures i <= |s| && TrimLeft(f, s) == s[i..] && Blank(f, s[..i])
  {
    i := 0;
    if s != "" && f.space(s[0]) {
      i := TrimLeftCut(f, s[1..]);
      assert s[..i + 1] == [s[0]] + s[1..][..i];
      i := i + 1;
    }
  }

  lemma {:induction false} TrimRightCut(f: Folding, s: string) returns (j: nat)
    ensures j <= |s| && TrimRight(f, s) == s[..j] && Blank(f, s[j..])
    decreases |s|
  {
    j := |s|;
    if s != "" && f.space(s[|s| - 1]) {
      var init := s[..|s| - 1];
      j := TrimRightCut(f, init);
      assert s[j..] == init[j..] + [s[|s| - 1]] && s[..j] == init[..j];
    }
  }

  lemma {:induction false} WordsOfTrimmed(f: Folding, n: string)
    requires SpacesApart(f, n)
    ensures Words(MapChars(Trim(f, n), f.lower), "") == Words(MapChars(n, f.lower), "")
  {
    var i, j := TrimBounds(f, n);
    var l, m, r := MapChars(n[..i], f.lower), MapChars(n[i..j], f.lower), MapChars(n[j..], f.lower);
    MapSlices(n, f.lower, i, j);
    forall k | 0 <= k < |l| ensures !WordChar(l[k]) { assert f.space(n[..i][k]) && n[k] == n[..i][k]; }
    forall k | 0 <= k < |r| ensures !WordChar(r[k]) { assert f.space(n[j..][k]) && n[j + k] == n[j..][k]; }
    assert l + m + r == l + (m + r);
    WordsSkipLeft(l, m + r);
    WordsSkipRight(m, r, "");
  }

  predicate AllWord(f: Folding, w: string) {
    forall i | 0 <= i < |w| :: WordChar(w[i]) && !f.space(w[i])
  }

  lemma {:induction false} WordsAreSolid(f: Folding, s: string, run: string)
    requires AllWord(f, run) && forall i | 0 <= i < |s| && WordChar(s[i]) :: !f.space(s[i])
    ensures forall k | 0 <= k < |Words(s, run)| :: Words(s, run)[k] != "" && AllWord(f, Words(s, run)[k])
    decreases |s|
  {
    if s != "" {
      WordsAreSolid(f, s[1..], if WordChar(s[0]) then run + [s[0]] else "");
    }
  }

  lemma {:induction false} JoinedIsTrimmed(f: Folding, ws: seq<string>)
    requires forall k | 0 <= k < |ws| :: ws[k] != "" && AllWord(f, ws[k])
    ensures Trimmed(f, Joined(ws)) && (ws != [] ==> Joined(ws) != "" && Joined(ws)[0] == ws[0][0])
    decreases |ws|
  {
    if |ws| > 1 {
      JoinedIsTrimmed(f, ws[1..]);
      assert Joined(ws)[|Joined(ws)| - 1] == Joined(ws[1..])[|Joined(ws[1..])| - 1];
    }
  }

  /** A normal form is the words of the lower-cased name, in order, with one space between them: case, punctuation
      and spacing do not matter, and letters, digits and everything outside ASCII do. */
  lemma NormalizedIsWords(f: Folding, n: string)
    requires f.Lawful() && SpacesApart(f, n)
    ensures Normalized(f, n) == Joined(Words(MapChars(n, f.lower), ""))
  {
    var s := MapChars(Trim(f, n), f.lower);
    var ws := Words(s, "");
    WordsOfTrimmed(f, n);
    SqueezeJoinsWords(s, "");
    assert "" + Squeeze(s, true) == Squeeze(s, true);
    var i, j := TrimBounds(f, n);
    forall k | 0 <= k < |s| && WordChar(s[k]) ensures !f.space(s[k]) { assert s[k] == f.lower(n[i + k]); }
    WordsAreSolid(f, s, "");
    JoinedIsTrimmed(f, ws);
    TrimPadded(f, "", Joined(ws), Tail(s, ""));
    assert "" + Joined(ws) + Tail(s, "") == Squeeze(s, true);
  }
}
