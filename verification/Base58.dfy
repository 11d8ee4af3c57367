/** Base58 without a checksum, as used for API keys. */
module Base58 {
  import opened Common
  import opened Radix

  /** The alphabet: digits and letters without 0, I, O and l, in runs of consecutive characters. */
  const ALPHABET: string :=
    "123456789" + "ABCDEFGH" + "JKLMN" + "PQRSTUVWXYZ" + "abcdefghijk" + "mnopqrstuvwxyz"

  /** The same alphabet by arithmetic. */
  function Symbol(d: nat): char
    requires d < 58
  {
    if d < 9 then '1' + d as char
    else if d < 17 then 'A' + (d - 9) as char
    else if d < 22 then 'J' + (d - 17) as char
    else if d < 33 then 'P' + (d - 22) as char
    else if d < 44 then 'a' + (d - 33) as char
    else 'm' + (d - 44) as char
  }

  function DigitOf(c: char): Option<nat> {
    var i := c as int;
    if '1' <= c <= '9' then Some(i - '1' as int)
    else if 'A' <= c <= 'H' then Some(i - 'A' as int + 9)
    else if 'J' <= c <= 'N' then Some(i - 'J' as int + 17)
    else if 'P' <= c <= 'Z' then Some(i - 'P' as int + 22)
    else if 'a' <= c <= 'k' then Some(i - 'a' as int + 33)
    else if 'm' <= c <= 'z' then Some(i - 'm' as int + 44)
    else None
  }

  lemma DigitOfSymbol(d: nat)
    requires d < 58
    ensures DigitOf(Symbol(d)) == Some(d)
  {
  }

  lemma SymbolOfDigit(c: char)
    requires DigitOf(c).Some?
    ensures DigitOf(c).value < 58 && Symbol(DigitOf(c).value) == c
  {
  }

  lemma RunDigits(i: nat)
    requires i < 9
    ensures "123456789"[i] == '1' + i as char
  {
    assert "123456789"[0] == '1' && "123456789"[1] == '2' && "123456789"[2] == '3' && "123456789"[3] == '4' &&
           "123456789"[4] == '5' && "123456789"[5] == '6' && "123456789"[6] == '7' && "123456789"[7] == '8' &&
           "123456789"[8] == '9';
  }

  lemma RunUpperAToH(i: nat)
    requires i < 8
    ensures "ABCDEFGH"[i] == 'A' + i as char
  {
    assert "ABCDEFGH"[0] == 'A' && "ABCDEFGH"[1] == 'B' && "ABCDEFGH"[2] == 'C' && "ABCDEFGH"[3] == 'D' &&
           "ABCDEFGH"[4] == 'E' && "ABCDEFGH"[5] == 'F' && "ABCDEFGH"[6] == 'G' && "ABCDEFGH"[7] == 'H';
  }

  lemma RunUpperJToN(i: nat)
    requires i < 5
    ensures "JKLMN"[i] == 'J' + i as char
  {
    assert "JKLMN"[0] == 'J' && "JKLMN"[1] == 'K' && "JKLMN"[2] == 'L' && "JKLMN"[3] == 'M' && "JKLMN"[4] == 'N';
  }

  lemma RunUpperPToZ(i: nat)
    requires i < 11
    ensures "PQRSTUVWXYZ"[i] == 'P' + i as char
  {
    assert "PQRSTUVWXYZ"[0] == 'P' && "PQRSTUVWXYZ"[1] == 'Q' && "PQRSTUVWXYZ"[2] == 'R' &&
           "PQRSTUVWXYZ"[3] == 'S' && "PQRSTUVWXYZ"[4] == 'T' && "PQRSTUVWXYZ"[5] == 'U' &&
           "PQRSTUVWXYZ"[6] == 'V' && "PQRSTUVWXYZ"[7] == 'W' && "PQRSTUVWXYZ"[8] == 'X' &&
           "PQRSTUVWXYZ"[9] == 'Y' && "PQRSTUVWXYZ"[10] == 'Z';
  }

  lemma RunLowerAToK(i: nat)
    requires i < 11
    ensures "abcdefghijk"[i] == 'a' + i as char
  {
    assert "abcdefghijk"[0] == 'a' && "abcdefghijk"[1] == 'b' && "abcdefghijk"[2] == 'c' &&
           "abcdefghijk"[3] == 'd' && "abcdefghijk"[4] == 'e' && "abcdefghijk"[5] == 'f' &&
           "abcdefghijk"[6] == 'g' && "abcdefghijk"[7] == 'h' && "abcdefghijk"[8] == 'i' &&
           "abcdefghijk"[9] == 'j' && "abcdefghijk"[10] == 'k';
  }

  lemma RunLowerMToZ(i: nat)
    requires i < 14
    ensures "mnopqrstuvwxyz"[i] == 'm' + i as char
  {
    assert "mnopqrstuvwxyz"[0] == 'm' && "mnopqrstuvwxyz"[1] == 'n' && "mnopqrstuvwxyz"[2] == 'o' &&
           "mnopqrstuvwxyz"[3] == 'p' && "mnopqrstuvwxyz"[4] == 'q' && "mnopqrstuvwxyz"[5] == 'r' &&
           "mnopqrstuvwxyz"[6] == 's' && "mnopqrstuvwxyz"[7] == 't' && "mnopqrstuvwxyz"[8] == 'u' &&
           "mnopqrstuvwxyz"[9] == 'v' && "mnopqrstuvwxyz"[10] == 'w' && "mnopqrstuvwxyz"[11] == 'x' &&
           "mnopqrstuvwxyz"[12] == 'y' && "mnopqrstuvwxyz"[13] == 'z';
  }

  lemma AlphabetIsSymbols(d: nat)
    requires d < 58
    ensures |ALPHABET| == 58 && ALPHABET[d] == Symbol(d)
  {
    if d < 9 { RunDigits(d); }
    else if d < 17 { RunUpperAToH(d - 9); }
    else if d < 22 { RunUpperJToN(d - 17); }
    else if d < 33 { RunUpperPToZ(d - 22); }
    else if d < 44 { RunLowerAToK(d - 33); }
    else { RunLowerMToZ(d - 44); }
  }

  // ---- encoding ----

  type Byte = n: nat | n < 256

  function LeadingZeros(b: seq<nat>): (k: nat)
    ensures k <= |b|
    ensures forall i | 0 <= i < k :: b[i] == 0
    ensures k < |b| ==> b[k] != 0
  {
    if b == [] || b[0] != 0 then 0 else 1 + LeadingZeros(b[1..])
  }

  function Symbols(ds: seq<nat>): (s: string)
    requires Digits(ds, 58)
    ensures |s| == |ds|
  {
    seq(|ds|, i requires 0 <= i < |ds| => Symbol(ds[i]))
  }

  function Ones(k: nat): string {
    seq(k, _ => '1')
  }

  function Encoded(b: seq<Byte>): string {
    Ones(LeadingZeros(b)) + Symbols(ToDigits(Value(b, 256), 58))
  }

  function Reversed(s: string): string {
    if s == "" then "" else Reversed(s[1..]) + [s[0]]
  }

  lemma {:induction false} ReversedAt(s: string, k: nat)
    requires k < |s|
    ensures |Reversed(s)| == |s| && Reversed(s)[k] == s[|s| - 1 - k]
    decreases |s|
  {
    if |s| == 1 {
      assert s[1..] == "";
    } else {
      ReversedAt(s[1..], if k < |s| - 1 then k else 0);
    }
  }

  lemma {:induction false} ReversedAppend(s: string, c: char)
    ensures Reversed(s + [c]) == [c] + Reversed(s)
    decreases |s|
  {
    if s != "" {
      assert (s + [c])[1..] == s[1..] + [c];
      ReversedAppend(s[1..], c);
    }
  }

  method ReverseInPlace(s: string) returns (r: string)
    ensures r == Reversed(s)
  {
    r := s;
    var i, j := 0, |r| - 1;
    while i < j
      invariant |r| == |s| && 0 <= i && j == |s| - 1 - i && i <= j + 2
      invariant forall k | 0 <= k < i :: r[k] == s[|s| - 1 - k] && r[|s| - 1 - k] == s[k]
      invariant forall k | i <= k <= j :: r[k] == s[k]
    {
      r := r[i := r[j]][j := r[i]];
      i, j := i + 1, j - 1;
    }
    if s != "" { ReversedAt(s, 0); }
    forall k | 0 <= k < |s| ensures |Reversed(s)| == |s| && r[k] == Reversed(s)[k] {
      ReversedAt(s, k);
    }
  }

  lemma SymbolsStep(x: nat)
    requires x > 0
    ensures Symbols(ToDigits(x, 58)) == Symbols(ToDigits(x / 58, 58)) + [Symbol(x % 58)]
  {
    Shrinks(x, 58);
  }

  /** The divmod loop appends symbols least significant first; the reversal puts them in order. */
  method EncodeValue(n: nat) returns (result: string)
    ensures result == Symbols(ToDigits(n, 58))
  {
    var x := n;
    result := "";
    while x > 0
      invariant Symbols(ToDigits(x, 58)) + Reversed(result) == Symbols(ToDigits(n, 58))
    {
      SymbolsStep(x);
      Shrinks(x, 58);
      AlphabetIsSymbols(x % 58);
      var c := ALPHABET[x % 58];
      ReversedAppend(result, c);
      assert Symbols(ToDigits(x, 58)) + Reversed(result) == Symbols(ToDigits(x / 58, 58)) + ([c] + Reversed(result));
      x := x / 58;
      result := result + [c];
    }
    result := ReverseInPlace(result);
  }

  /** The value's symbols, and one '1' in front per leading zero byte. */
  method Encode(b: seq<Byte>) returns (result: string)
    ensures result == Encoded(b)
  {
    hide Value, ToDigits, Symbols;
    result := EncodeValue(Value(b, 256));
    ghost var body := result;
    AlphabetIsSymbols(0);
    var k := 0;
    while k < |b| && b[k] == 0
      invariant 0 <= k <= |b|
      invariant LeadingZeros(b) == k + LeadingZeros(b[k..])
      invariant result == Ones(k) + body
    {
      assert ['1'] + Ones(k) == Ones(k + 1);
      result := [ALPHABET[0]] + result;
      k := k + 1;
    }
  }

  // ---- decoding ----

  function LeadingOnes(s: string): (k: nat)
    ensures k <= |s|
    ensures forall i | 0 <= i < k :: s[i] == '1'
    ensures k < |s| ==> s[k] != '1'
  {
    if s == "" || s[0] != '1' then 0 else 1 + LeadingOnes(s[1..])
  }

  predicate Base58String(s: string) {
    forall i | 0 <= i < |s| :: DigitOf(s[i]).Some?
  }

  function DigitsOf(s: string): (ds: seq<nat>)
    requires Base58String(s)
    ensures |ds| == |s| && Digits(ds, 58)
  {
    forall i | 0 <= i < |s| ensures DigitOf(s[i]).value < 58 { SymbolOfDigit(s[i]); }
    seq(|s|, i requires 0 <= i < |s| => DigitOf(s[i]).value)
  }

  function Zeros(k: nat): seq<Byte> {
    seq(k, _ => 0)
  }

  /** The inverse: a zero byte per leading '1', then the base-256 digits of the rest. */
  function Decoded(s: string): seq<Byte>
    requires Base58String(s)
  {
    var k := LeadingOnes(s);
    Zeros(k) + ToDigits(Value(DigitsOf(s[k..]), 58), 256)
  }

  lemma {:induction false} LeadingZerosOfPadded(k: nat, ds: seq<nat>)
    requires ds != [] ==> ds[0] != 0
    ensures LeadingZeros(Zeros(k) + ds) == k
  {
    var s := Zeros(k) + ds;
    assert forall i | 0 <= i < k :: s[i] == 0;
    assert k < |s| ==> s[k] == ds[0];
  }

  lemma LeadingOnesOfPadded(k: nat, t: string)
    requires t != "" ==> t[0] != '1'
    ensures LeadingOnes(Ones(k) + t) == k
  {
    var s := Ones(k) + t;
    assert forall i | 0 <= i < k :: s[i] == '1';
    assert k < |s| ==> s[k] == t[0];
  }

  lemma DigitsOfSymbols(ds: seq<nat>)
    requires Digits(ds, 58)
    ensures Base58String(Symbols(ds)) && DigitsOf(Symbols(ds)) == ds
    ensures ds != [] && ds[0] != 0 ==> Symbols(ds)[0] != '1'
  {
    forall i | 0 <= i < |ds| ensures DigitOf(Symbols(ds)[i]) == Some(ds[i]) { DigitOfSymbol(ds[i]); }
  }

  lemma DecodedOfParts(k: nat, ds: seq<nat>)
    requires Digits(ds, 58) && (ds != [] ==> ds[0] != 0)
    ensures Base58String(Ones(k) + Symbols(ds))
    ensures Decoded(Ones(k) + Symbols(ds)) == Zeros(k) + ToDigits(Value(ds, 58), 256)
  {
    DigitsOfSymbols(ds);
    LeadingOnesOfPadded(k, Symbols(ds));
    assert (Ones(k) + Symbols(ds))[k..] == Symbols(ds);
  }

  lemma SplitZeros(b: seq<Byte>) returns (rest: seq<Byte>)
    ensures b == Zeros(LeadingZeros(b)) + rest && (rest != [] ==> rest[0] != 0)
    ensures Value(b, 256) == Value(rest, 256)
  {
    var k := LeadingZeros(b);
    rest := b[k..];
    LeadingZerosKeepValue(k, rest, 256);
    assert b == seq(k, _ => 0) + rest;
  }

  /** Decoding inverts encoding, for byte strings of every length. */
  lemma DecodeInvertsEncode(b: seq<Byte>)
    ensures Base58String(Encoded(b)) && Decoded(Encoded(b)) == b
  {
    var rest := SplitZeros(b);
    DecodedOfParts(LeadingZeros(b), ToDigits(Value(b, 256), 58));
    ValueOfDigits(Value(b, 256), 58);
    DigitsOfValue(rest, 256);
  }

  /** Encoding inverts decoding: every base58 string is the encoding of exactly one byte string. */
  lemma EncodeInvertsDecode(s: string)
    requires Base58String(s)
    ensures Encoded(Decoded(s)) == s
  {
    var k := LeadingOnes(s);
    var t := s[k..];
    var ds := DigitsOf(t);
    var bytes := ToDigits(Value(ds, 58), 256);
    LeadingZerosOfPadded(k, bytes);
    LeadingZerosKeepValue(k, bytes, 256);
    assert Zeros(k) + bytes == seq(k, _ => 0) + bytes;
    ValueOfDigits(Value(ds, 58), 256);
    forall i | 0 <= i < |t| ensures Symbol(ds[i]) == t[i] { SymbolOfDigit(t[i]); }
    if t != "" { assert ds[0] != 0; }
    DigitsOfValue(ds, 58);
    assert Symbols(ds) == t;
    assert s == Ones(k) + t;
  }

  lemma ThreeDigits(a: nat, b: nat, c: nat, base: nat)
    ensures Value([a, b, c], base) == (a * base + b) * base + c
  {
    ValueAppend([], a, base);
    ValueAppend([a], b, base);
    ValueAppend([a, b], c, base);
    assert [] + [a] == [a] && [a] + [b] == [a, b] && [a, b] + [c] == [a, b, c];
  }

  /** A known encoding fixes the order of bytes and symbols: "abc" is 6382179, most significant byte first. */
  lemma KnownEncoding()
    ensures Encoded([97, 98, 99]) == "ZiCa"
  {
    hide Value, ToDigits;
    var ds := [32, 41, 11] + [33];
    ThreeDigits(97, 98, 99, 256);
    ThreeDigits(32, 41, 11, 58);
    ValueAppend([32, 41, 11], 33, 58);
    DigitsOfValue(ds, 58);
    assert Symbols(ds) == "ZiCa";
    assert LeadingZeros([97, 98, 99]) == 0 && Ones(0) == "";
    assert "" + "ZiCa" == "ZiCa";
  }

  /** Distinct byte strings have distinct encodings. */
  lemma EncodeIsInjective(a: seq<Byte>, b: seq<Byte>)
    requires Encoded(a) == Encoded(b)
    ensures a == b
  {
    DecodeInvertsEncode(a);
    DecodeInvertsEncode(b);
  }
}
