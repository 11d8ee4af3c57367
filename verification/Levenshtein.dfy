/** The capped two-row matcher used on the transfer path. */
module Levenshtein {
  import opened EditDistance

  /** The matcher's answer: exact up to the cap, one past it beyond; 0 or 1 for a negative cap. */
  function CappedDistance(a: string, b: string, cap: int): (r: nat)
    ensures r <= cap <==> Dist(a, b) <= cap
    ensures r <= cap ==> r == Dist(a, b)
    ensures r == 0 <==> a == b
  {
    ZeroIffEqual(a, b);
    if a == b then 0
    else if cap < 0 then 1
    else if Dist(a, b) <= cap then Dist(a, b)
    else cap + 1
  }

  method Min3Of(a: int, b: int, c: int) returns (m: int)
    ensures m <= a && m <= b && m <= c
    ensures m == a || m == b || m == c
  {
    m := a;
    if b < m { m := b; }
    if c < m { m := c; }
  }

  method LevenshteinAtMost(a: string, b: string, max: int) returns (r: int)
    ensures max >= 0 ==> r == if Dist(a, b) <= max then Dist(a, b) else max + 1
    ensures max < 0 ==> r == if a == b then 0 else 1
    ensures r == CappedDistance(a, b, max)
  {
    hide Dist;
    ZeroIffEqual(a, b);
    if a == b { return 0; }
    if max < 0 { return 1; }

    var ar, br := a, b;
    LengthGap(a, b);
    var diff := |ar| - |br|;
    if diff > max || -diff > max { return max + 1; }

    if |ar| < |br| {
      Symmetric(a, b);
      ar, br := br, ar;
    }

    var prev := new int[|br| + 1];
    var curr := new int[|br| + 1];
    for k := 0 to |br| + 1
      invariant forall j | 0 <= j < k :: prev[j] == j
    {
      prev[k] := k;
    }
    forall j: nat | j <= |br| ensures prev[j] == Cell(ar, br, 0, j) {
      CellRecurrence(ar, br, 0, j);
    }

    var i := 1;
    while i <= |ar|
      invariant 1 <= i <= |ar| + 1
      invariant prev != curr && fresh(prev) && fresh(curr)
      invariant prev.Length == curr.Length == |br| + 1
      invariant forall j | 0 <= j <= |br| :: prev[j] == Cell(ar, br, i - 1, j)
    {
      curr[0] := i;
      CellRecurrence(ar, br, i, 0);
      var rowMin := curr[0];
      var j := 1;
      while j <= |br|
        invariant 1 <= j <= |br| + 1
        invariant forall k | 0 <= k <= |br| :: prev[k] == Cell(ar, br, i - 1, k)
        invariant forall k | 0 <= k < j :: curr[k] == Cell(ar, br, i, k) && rowMin <= curr[k]
      {
        var cost := 1;
        if ar[i - 1] == br[j - 1] { cost := 0; }
        CellRecurrence(ar, br, i, j);
        var m := Min3Of(curr[j - 1] + 1, prev[j] + 1, prev[j - 1] + cost);
        curr[j] := m;
        if curr[j] < rowMin { rowMin := curr[j]; }
        j := j + 1;
      }
      if rowMin > max {
        assert RowAbove(ar, br, i, max);
        RowsStayAbove(ar, br, i, |ar|, max);
        assert Cell(ar, br, |ar|, |br|) > max;
        assert ar[..|ar|] == ar && br[..|br|] == br;
        return max + 1;
      }
      prev, curr := curr, prev;
      i := i + 1;
    }
    assert prev[|br|] == Cell(ar, br, |ar|, |br|);
    assert ar[..|ar|] == ar && br[..|br|] == br;
    if prev[|br|] > max { return max + 1; }
    return prev[|br|];
  }
}
