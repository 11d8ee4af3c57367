/** Positional numerals, most significant digit first. */
module Radix {

  predicate Digits(ds: seq<nat>, base: nat) {
    forall i | 0 <= i < |ds| :: ds[i] < base
  }

  function Value(ds: seq<nat>, base: nat): nat {
    if ds == [] then 0 else Value(ds[..|ds| - 1], base) * base + ds[|ds| - 1]
  }

  /** The digits of n, without leading zeros; 0 has none. */
  function ToDigits(n: nat, base: nat): (ds: seq<nat>)
    requires base >= 2
    ensures Digits(ds, base)
    ensures ds != [] ==> ds[0] != 0
    ensures ds == [] <==> n == 0
  {
    if n == 0 then []
    else
      Shrinks(n, base);
      ToDigits(n / base, base) + [n % base]
  }

  lemma Shrinks(n: nat, base: nat)
    requires n > 0 && base >= 2
    ensures n / base < n
    ensures n < base ==> n % base == n
    ensures n >= base ==> n / base > 0
  {
    if n >= base { assert n / base >= 1; }
  }

  lemma {:induction false} ValueOfDigits(n: nat, base: nat)
    requires base >= 2
    ensures Value(ToDigits(n, base), base) == n
  {
    if n > 0 {
      Shrinks(n, base);
      ValueOfDigits(n / base, base);
      ValueAppend(ToDigits(n / base, base), n % base, base);
      Recompose(n, base);
    }
  }

  lemma ValueAppend(ds: seq<nat>, d: nat, base: nat)
    ensures Value(ds + [d], base) == Value(ds, base) * base + d
  {
    assert (ds + [d])[..|ds|] == ds;
  }

  lemma Recompose(n: nat, base: nat)
    requires base > 0
    ensures n / base * base + n % base == n
  {
  }

  lemma {:induction false} DigitsOfValue(ds: seq<nat>, base: nat)
    requires base >= 2 && Digits(ds, base) && (ds != [] ==> ds[0] != 0)
    ensures ToDigits(Value(ds, base), base) == ds
    decreases |ds|
  {
    if ds != [] {
      var init, d := ds[..|ds| - 1], ds[|ds| - 1];
      DigitsOfValue(init, base);
      DivMod(Value(init, base), d, base);
      if init == [] { assert ds == [d]; } else { assert Value(init, base) != 0; }
      assert ds == init + [d];
    }
  }

  lemma Distribute(a: int, b: int, k: int)
    ensures (a - b) * k == a * k - b * k
  {
  }

  lemma AtLeastOnce(a: int, k: nat)
    requires a >= 1
    ensures a * k >= k
  {
    Distribute(a, 1, k);
    assert (a - 1) * k >= 0;
  }

  lemma DivMod(q: nat, r: nat, base: nat)
    requires r < base
    ensures (q * base + r) / base == q && (q * base + r) % base == r
    ensures q > 0 ==> q * base + r > 0
  {
    var n := q * base + r;
    Recompose(n, base);
    Distribute(n / base, q, base);
    if n / base > q { AtLeastOnce(n / base - q, base); }
    Distribute(q, n / base, base);
    if q > n / base { AtLeastOnce(q - n / base, base); }
    if q > 0 { AtLeastOnce(q, base); }
  }

  lemma {:induction false} LeadingZerosKeepValue(k: nat, ds: seq<nat>, base: nat)
    ensures Value(seq(k, _ => 0) + ds, base) == Value(ds, base)
    decreases |ds|, k
  {
    var zs := seq(k, _ => 0) + ds;
    if ds == [] {
      if k > 0 {
        assert zs[..|zs| - 1] == seq(k - 1, _ => 0) + [];
        LeadingZerosKeepValue(k - 1, [], base);
      }
    } else {
      assert zs[..|zs| - 1] == seq(k, _ => 0) + ds[..|ds| - 1];
      LeadingZerosKeepValue(k, ds[..|ds| - 1], base);
    }
  }
}
