/** Machine integers, C strings and little-endian numbers, as values. */
module Base {
  datatype Option<+T> = None | Some(value: T)

  const TWO31 := 0x8000_0000
  const TWO32 := 0x1_0000_0000
  const TWO64 := 0x1_0000_0000_0000_0000

  type byte = x: int | 0 <= x < 256
  type u32 = x: int | 0 <= x < TWO32
  type u64 = x: int | 0 <= x < TWO64
  type i32 = x: int | -TWO31 <= x < TWO31

  predicate NulFree(s: seq<byte>) {
    forall k :: 0 <= k < |s| ==> s[k] != 0
  }

  /** The characters of a C string, without the terminating NUL. */
  type CStr = s: seq<byte> | NulFree(s) witness []

  /** A C array whose length is held in a uint32_t. */
  type List32<T> = s: seq<T> | |s| < TWO32 witness []

  /** `a += b` on a uint32_t. */
  function Add32(a: u32, b: nat): u32 {
    (a + b) % TWO32
  }

  lemma Add32Accumulates(total: nat, b: nat)
    ensures Add32(total % TWO32, b) == (total + b) % TWO32
  {
    var q, r := total / TWO32, total % TWO32;
    assert total + b == q * TWO32 + (r + b);
    assert (r + b) % TWO32 == (q * TWO32 + (r + b)) % TWO32;
  }

  lemma ConcatAssociates<T>(a: seq<T>, b: seq<T>, c: seq<T>)
    ensures (a + b) + c == a + (b + c)
  {
  }

  /** The k low bytes of v, least significant first. */
  function LeBytes(k: nat, v: nat): (b: seq<byte>)
    ensures |b| == k
  {
    if k == 0 then [] else [v % 256] + LeBytes(k - 1, v / 256)
  }

  function LeValue(b: seq<byte>): nat {
    if b == [] then 0 else b[0] + 256 * LeValue(b[1..])
  }

  function Pow256(k: nat): nat {
    if k == 0 then 1 else 256 * Pow256(k - 1)
  }

  lemma {:induction false} LeValueOfBytes(k: nat, v: nat)
    requires v < Pow256(k)
    ensures LeValue(LeBytes(k, v)) == v
  {
    if k == 0 {
    } else {
      LeValueOfBytes(k - 1, v / 256);
      assert LeBytes(k, v)[1..] == LeBytes(k - 1, v / 256);
    }
  }

  lemma {:induction false} LeBytesOfValue(b: seq<byte>)
    ensures LeValue(b) < Pow256(|b|)
    ensures LeBytes(|b|, LeValue(b)) == b
  {
    if b == [] {
    } else {
      LeBytesOfValue(b[1..]);
      assert LeValue(b) % 256 == b[0] && LeValue(b) / 256 == LeValue(b[1..]);
      assert b == [b[0]] + b[1..];
    }
  }

  lemma Pow256Is()
    ensures Pow256(4) == TWO32 && Pow256(8) == TWO64
  {
  }
}
