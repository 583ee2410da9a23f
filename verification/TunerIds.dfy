/** Tuner ids as text, in src/dtv.c: get_int_length, the snprintf of dtv_get_tuners and the parser of dtv_set_source. */
module TunerIds {
  import opened Base

  const ZERO: byte := 48   // '0'
  const MINUS: byte := 45  // '-'

  /** The decimal digits of n. */
  function Digits(n: nat): (s: CStr)
    ensures |s| > 0
  {
    if n < 10 then [ZERO + n] else
      var front, last := Digits(n / 10), [ZERO + n % 10];
      assert NulFree(front + last);
      front + last
  }

  /** The decimal form begins with the digits 1 and 0. */
  predicate StartsWith10(n: nat) {
    var s := Digits(n);
    |s| >= 2 && s[0] == ZERO + 1 && s[1] == ZERO
  }

  /** "%d" */
  function Decimal(d: i32): CStr {
    if d >= 0 then Digits(d) else
      var s := Digits(-(d as int));
      assert NulFree([MINUS] + s);
      [MINUS] + s
  }

  /** What snprintf keeps of s in a buffer of len + 1 octets. */
  function Truncated(s: CStr, len: nat): (t: CStr)
    ensures |t| <= len
  {
    if |s| <= len then s else s[..len]
  }

  function AsU32(d: i32): u32 {
    if d < 0 then d + TWO32 else d
  }

  function AsI32(u: u32): i32 {
    if u < TWO31 then u else u - TWO32
  }

  // ---------- get_int_length ----------

  /** The number of rounds of `while (target > 10) target /= 10`, plus one. */
  function IntLength(target: nat): (len: nat)
    ensures len > 0
  {
    if target <= 10 then 1 else 1 + IntLength(target / 10)
  }

  method GetIntLength(target: u32) returns (len: nat)
    ensures len == |Digits(target)| - (if StartsWith10(target) then 1 else 0)
    ensures 1 <= len <= 10
  {
    len := 1;
    var t: nat := target;
    while t > 10
      invariant IntLength(target) == len - 1 + IntLength(t)
    {
      t := t / 10;
      len := len + 1;
    }
    IntLengthLaw(target);
    TenDigits(target);
  }

  /** The length is the digit count, or one less when the number starts with 1 and 0. */
  lemma {:induction false} IntLengthLaw(n: nat)
    ensures IntLength(n) == |Digits(n)| - (if StartsWith10(n) then 1 else 0)
    ensures StartsWith10(n) ==> n >= 10
  {
    if n < 10 {
    } else if n == 10 {
      assert Digits(1) == [ZERO + 1];
      assert Digits(10) == Digits(1) + [ZERO];
    } else {
      IntLengthLaw(n / 10);
      var s := Digits(n / 10);
      assert Digits(n) == s + [ZERO + n % 10];
      if n < 100 {
        assert s == [ZERO + n / 10];
        assert Digits(n)[0] == ZERO + n / 10 && Digits(n)[1] == ZERO + n % 10;
      } else {
        assert Digits(n)[0] == s[0] && Digits(n)[1] == s[1];
      }
    }
  }

  function Pow10(k: nat): (p: nat)
    ensures p > 0
  {
    if k == 0 then 1 else 10 * Pow10(k - 1)
  }

  lemma {:induction false} DigitsBound(n: nat)
    ensures n < Pow10(|Digits(n)|)
    ensures n > 0 ==> Pow10(|Digits(n)| - 1) <= n
  {
    if n < 10 {
    } else {
      DigitsBound(n / 10);
    }
  }

  lemma {:induction false} Pow10Grows(j: nat, k: nat)
    requires j <= k
    ensures Pow10(j) <= Pow10(k)
  {
    if j == k {
    } else {
      Pow10Grows(j, k - 1);
    }
  }

  lemma Pow10Is()
    ensures Pow10(9) == 1_000_000_000 && Pow10(10) == 10_000_000_000
  {
  }

  lemma TenDigits(n: u32)
    ensures |Digits(n)| <= 10
  {
    DigitsBound(n);
    Pow10Is();
    if |Digits(n)| > 10 {
      Pow10Grows(10, |Digits(n)| - 1);
    }
  }

  // ---------- the id as printed and as parsed ----------

  /** The id that dtv_get_tuners writes for a device. */
  function PrintId(d: i32): CStr {
    Truncated(Decimal(d), IntLength(AsU32(d)))
  }

  /** The id with the loop guard of get_int_length read as `target >= 10`: one octet for every digit. */
  function PrintIdIntended(d: i32): CStr {
    Truncated(Decimal(d), |Digits(AsU32(d))|)
  }

  /** The sum that the parser of dtv_set_source approximates, without wrap-around. */
  function IdValue(s: seq<byte>): int {
    if s == [] then 0 else IdValue(s[..|s| - 1]) * 10 + (s[|s| - 1] - ZERO)
  }

  /** Every character counts, whether it is a digit or not: the value of a text is made of those of its parts. */
  lemma {:induction false} IdValueConcat(s: seq<byte>, t: seq<byte>)
    ensures IdValue(s + t) == IdValue(s) * Pow10(|t|) + IdValue(t)
    ensures |t| == 1 ==> (t[0] as int) - 48 == IdValue(t)
  {
    if t == [] {
      assert s + t == s;
    } else {
      var n := |t| - 1;
      IdValueConcat(s, t[..n]);
      assert (s + t)[..|s + t| - 1] == s + t[..n];
      TenTimes(IdValue(s), Pow10(n));
      assert |t| == 1 ==> t[..0] == [];
    }
  }

  lemma TenTimes(a: int, p: nat)
    ensures a * p * 10 == a * (10 * p)
  {
  }

  /** The device the parsed id is taken for: a uint32_t passed on as an int32_t. */
  function ParseId(s: seq<byte>): i32 {
    AsI32(IdValue(s) % TWO32)
  }

  lemma WrapStep(a: int, c: int)
    ensures ((a % TWO32) * 10 + c) % TWO32 == (a * 10 + c) % TWO32
  {
    var q, r := a / TWO32, a % TWO32;
    var x := r * 10 + c;
    assert a * 10 + c == x + 10 * q * TWO32;
    WrapMultiple(x, 10 * q);
  }

  lemma WrapMultiple(x: int, k: int)
    ensures (x + k * TWO32) % TWO32 == x % TWO32
  {
    var q, r := x / TWO32, x % TWO32;
    assert x + k * TWO32 == (q + k) * TWO32 + r;
  }

  /** The parser loop of dtv_set_source, in 32-bit arithmetic. */
  method ParseTunerId(tunerId: CStr) returns (deviceId: u32)
    ensures deviceId == IdValue(tunerId) % TWO32
  {
    deviceId := 0;
    for idx := 0 to |tunerId|
      invariant deviceId == IdValue(tunerId[..idx]) % TWO32
    {
      assert tunerId[..idx + 1][..idx] == tunerId[..idx];
      WrapStep(IdValue(tunerId[..idx]), tunerId[idx] - ZERO);
      deviceId := (deviceId * 10 + (tunerId[idx] - ZERO)) % TWO32;
    }
    assert tunerId[..|tunerId|] == tunerId;
  }

  lemma {:induction false} DigitsValue(n: nat)
    ensures IdValue(Digits(n)) == n
  {
    if n < 10 {
      assert IdValue([]) == 0;
    } else {
      DigitsValue(n / 10);
      assert Digits(n)[..|Digits(n)| - 1] == Digits(n / 10);
    }
  }

  lemma {:induction false} NegativeValue(n: nat)
    ensures IdValue([MINUS] + Digits(n)) == -3 * Pow10(|Digits(n)|) + n
  {
    var s := [MINUS] + Digits(n);
    var front := s[..|s| - 1];
    if n < 10 {
      assert front == [MINUS];
      assert [MINUS][..0] == [];
      assert IdValue([MINUS]) == -3;
      assert Pow10(1) == 10;
    } else {
      NegativeValue(n / 10);
      assert front == [MINUS] + Digits(n / 10);
    }
  }

  /** The exact law of printing and parsing as written, for every non-negative device id. */
  lemma PrintThenParse(d: i32)
    requires d >= 0
    ensures IdValue(PrintId(d)) == if StartsWith10(d) then d / 10 else d
    ensures ParseId(PrintId(d)) == if StartsWith10(d) then d / 10 else d
  {
    PrintedDigits(d);
    DigitsValue(if StartsWith10(d) then d / 10 else d);
  }

  /** The printed id of a non-negative device: all its digits, or all but the last. */
  lemma PrintedDigits(d: i32)
    requires d >= 0
    ensures StartsWith10(d) ==> d >= 10
    ensures PrintId(d) == Digits(if StartsWith10(d) then d / 10 else d)
  {
    IntLengthLaw(d);
    if StartsWith10(d) {
      assert Digits(d)[..|Digits(d)| - 1] == Digits(d / 10);
    }
  }

  lemma TenDigitLength(n: u32)
    requires n >= TWO31
    ensures IntLength(n) == 10
  {
    IntLengthLaw(n);
    DigitsBound(n);
    TenDigits(n);
    Pow10Is();
    if |Digits(n)| < 10 {
      Pow10Grows(|Digits(n)|, 9);
    }
    if StartsWith10(n) {
      LeadingDigits(n);
    }
  }

  /** A number that starts with 1 and 0 is less than eleven tenths of its leading power of ten. */
  lemma {:induction false} LeadingDigits(n: nat)
    requires StartsWith10(n)
    ensures |Digits(n)| >= 2 && n < 11 * Pow10(|Digits(n)| - 2)
  {
    IntLengthLaw(n);
    var s := Digits(n / 10);
    assert Digits(n) == s + [ZERO + n % 10];
    if |s| == 1 {
      assert n / 10 < 10 && s == [ZERO + n / 10];
      assert Digits(n)[0] == ZERO + n / 10 && Digits(n)[1] == ZERO + n % 10;
      assert Pow10(0) == 1;
    } else {
      assert Digits(n)[0] == s[0] && Digits(n)[1] == s[1];
      LeadingDigits(n / 10);
    }
  }

  /** The '-' of a negative id is parsed as the digit -3, and the result is never the id again. */
  lemma NegativeNeverReturns(d: i32)
    requires d < 0
    ensures ParseId(PrintId(d)) != d
  {
    var a: nat := -(d as int);
    TenDigitLength(AsU32(d));
    TenDigits(a);
    DigitsBound(a);
    Pow10Is();
    var v := IdValue(PrintId(d));
    if |Digits(a)| == 10 {
      assert (([MINUS] + Digits(a))[..10]) == [MINUS] + Digits(a)[..9];
      assert Digits(a)[..9] == Digits(a / 10);
      NegativeValue(a / 10);
    } else {
      NegativeValue(a);
      Pow10Grows(|Digits(a)|, 9);
    }
    assert -TWO32 < v + a < 0;
    NotAMultiple(v, a);
  }

  lemma NotAMultiple(v: int, a: int)
    requires 0 < a <= TWO31 && -TWO32 < v + a < 0
    ensures AsI32(v % TWO32) != -a
  {
    assert v == v / TWO32 * TWO32 + v % TWO32;
  }

  /**
   The id of a device, printed for GET_TUNERS and parsed for SET_SOURCE, names the same device exactly
   when it is non-negative and its decimal form does not start with 10.
   */
  lemma IdReturnsIff(d: i32)
    ensures ParseId(PrintId(d)) == d <==> d >= 0 && !StartsWith10(d)
  {
    if d < 0 {
      NegativeNeverReturns(d);
    } else {
      PrintThenParse(d);
      IntLengthLaw(d);
    }
  }

  /** Decimal digits, without a leading zero. */
  lemma {:induction false} DigitsAreDigits(n: nat)
    ensures forall k :: 0 <= k < |Digits(n)| ==> '0' as int <= Digits(n)[k] <= '9' as int
    ensures n > 0 ==> Digits(n)[0] != '0' as int
  {
    if n < 10 {
    } else {
      DigitsAreDigits(n / 10);
    }
  }

  /** The id of a negative device: a minus sign and its digits, of which the tenth is cut off. */
  lemma NegativePrinted(d: i32)
    requires d < 0
    ensures var s := Digits(-(d as int));
            PrintId(d) == ['-' as int] + if |s| <= 9 then s else s[..9]
  {
    var a: nat := -(d as int);
    TenDigitLength(AsU32(d));
    TenDigits(a);
    assert ([MINUS] + Digits(a))[..1] == [MINUS];
    if |Digits(a)| > 9 {
      assert ([MINUS] + Digits(a))[..10] == [MINUS] + Digits(a)[..9];
    }
  }

  /** With the guard read as `>= 10`, every non-negative id returns. */
  lemma IntendedIdReturns(d: i32)
    requires d >= 0
    ensures ParseId(PrintIdIntended(d)) == d
  {
    DigitsValue(d);
  }

  /** Device 10 is announced as "1", which is device 1. */
  lemma Device10IsMistaken()
    ensures PrintId(10) == [ZERO + 1] && ParseId(PrintId(10)) == 1
  {
  }

  /** No id takes more than ten characters. */
  lemma IdLength(d: i32)
    ensures |PrintId(d)| <= 10
  {
    IntLengthLaw(AsU32(d));
    TenDigits(AsU32(d));
  }
}
