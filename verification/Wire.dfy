/**
 The contract of libpdu's append_to_pdu and read_pdu_at that the daemon relies on: a format
 string names one conversion per argument, C = 1 octet, I = 4, L = 8, 0 = NUL-terminated string.
 */
module Wire {
  import opened Base

  datatype Field = C(c: byte) | I(i: u32) | L(l: u64) | Z(s: CStr)

  /** The format letter of a value. */
  function Letter(f: Field): char {
    match f
    case C(_) => 'C'
    case I(_) => 'I'
    case L(_) => 'L'
    case Z(_) => '0'
  }

  function FormatOf(fs: seq<Field>): (fmt: string)
    ensures |fmt| == |fs| && forall k :: 0 <= k < |fs| ==> fmt[k] == Letter(fs[k])
  {
    if fs == [] then [] else [Letter(fs[0])] + FormatOf(fs[1..])
  }

  function U32Bytes(v: u32): (b: seq<byte>)
    ensures |b| == 4
  {
    LeBytes(4, v)
  }

  function U64Bytes(v: u64): (b: seq<byte>)
    ensures |b| == 8
  {
    LeBytes(8, v)
  }

  function EncodeField(f: Field): (b: seq<byte>)
    ensures |b| > 0
  {
    match f
    case C(c) => [c]
    case I(i) => U32Bytes(i)
    case L(l) => U64Bytes(l)
    case Z(s) => s + [0]
  }

  function EncodeFields(fs: seq<Field>): seq<byte> {
    if fs == [] then [] else EncodeField(fs[0]) + EncodeFields(fs[1..])
  }

  /** The position of the first NUL, or |b| when there is none. */
  function NulIndex(b: seq<byte>): (n: nat)
    ensures n <= |b| && NulFree(b[..n])
    ensures n < |b| ==> b[n] == 0
  {
    if b == [] || b[0] == 0 then 0 else
      var n := 1 + NulIndex(b[1..]);
      assert b[..n] == [b[0]] + b[1..][..n - 1];
      n
  }

  /** One conversion of read_pdu_at: the value and the octets that follow it. */
  function ReadField(letter: char, b: seq<byte>): Option<(Field, seq<byte>)> {
    if letter == 'C' then
      if |b| < 1 then None else Some((C(b[0]), b[1..]))
    else if letter == 'I' then
      if |b| < 4 then None else
        LeBytesOfValue(b[..4]);
        Pow256Is();
        Some((I(LeValue(b[..4])), b[4..]))
    else if letter == 'L' then
      if |b| < 8 then None else
        LeBytesOfValue(b[..8]);
        Pow256Is();
        Some((L(LeValue(b[..8])), b[8..]))
    else if letter == '0' then
      var n := NulIndex(b);
      if n == |b| then None else Some((Z(b[..n]), b[n + 1..]))
    else None
  }

  function ReadFields(fmt: string, b: seq<byte>): Option<(seq<Field>, seq<byte>)> {
    if fmt == "" then Some(([], b)) else
    match ReadField(fmt[0], b)
    case None => None
    case Some((f, rest)) =>
      match ReadFields(fmt[1..], rest)
      case None => None
      case Some((fs, rest')) => Some(([f] + fs, rest'))
  }

  lemma {:induction false} NulIndexOf(s: CStr, rest: seq<byte>)
    ensures NulIndex(s + [0] + rest) == |s|
  {
    if s == [] {
    } else {
      NulIndexOf(s[1..], rest);
      assert (s + [0] + rest)[1..] == s[1..] + [0] + rest;
    }
  }

  /** What is written by one conversion is what that conversion reads, and nothing else reads as it. */
  lemma ReadFieldIff(f: Field, rest: seq<byte>, letter: char, b: seq<byte>)
    ensures ReadField(letter, b) == Some((f, rest)) <==> letter == Letter(f) && b == EncodeField(f) + rest
  {
    Pow256Is();
    if letter == Letter(f) && b == EncodeField(f) + rest {
      match f
      case C(c) =>
      case I(i) => assert b[..4] == LeBytes(4, i); LeValueOfBytes(4, i);
      case L(l) => assert b[..8] == LeBytes(8, l); LeValueOfBytes(8, l);
      case Z(s) => NulIndexOf(s, rest); assert b[..|s|] == s;
    }
    if ReadField(letter, b) == Some((f, rest)) {
      match f
      case C(c) =>
      case I(i) => LeBytesOfValue(b[..4]); assert b == b[..4] + b[4..];
      case L(l) => LeBytesOfValue(b[..8]); assert b == b[..8] + b[8..];
      case Z(s) => assert b == b[..|s|] + [b[|s|]] + b[|s| + 1..];
    }
  }

  lemma ReadFieldsHead(fmt: string, b: seq<byte>, f: Field, tail: seq<byte>, fs: seq<Field>, rest: seq<byte>)
    requires fmt != "" && ReadField(fmt[0], b) == Some((f, tail)) && ReadFields(fmt[1..], tail) == Some((fs, rest))
    ensures ReadFields(fmt, b) == Some(([f] + fs, rest))
  {
  }

  /** append_to_pdu followed by read_pdu_at with the same format returns the arguments. */
  lemma {:induction false} ReadsBack(fs: seq<Field>, rest: seq<byte>)
    ensures ReadFields(FormatOf(fs), EncodeFields(fs) + rest) == Some((fs, rest))
  {
    if fs == [] {
      assert EncodeFields(fs) + rest == rest;
    } else {
      var fmt, b, tail := FormatOf(fs), EncodeFields(fs) + rest, EncodeFields(fs[1..]) + rest;
      ConcatAssociates(EncodeField(fs[0]), EncodeFields(fs[1..]), rest);
      ReadFieldIff(fs[0], tail, fmt[0], b);
      ReadsBack(fs[1..], rest);
      assert fmt[1..] == FormatOf(fs[1..]);
      ReadFieldsHead(fmt, b, fs[0], tail, fs[1..], rest);
      assert fs == [fs[0]] + fs[1..];
    }
  }

  /** Whatever read_pdu_at accepts is the encoding of what it returns: no octet is skipped or ignored. */
  lemma {:induction false} OnlyEncodingsRead(fmt: string, b: seq<byte>)
    ensures match ReadFields(fmt, b)
            case None => true
            case Some((fs, rest)) => FormatOf(fs) == fmt && b == EncodeFields(fs) + rest
  {
    if fmt == "" {
    } else {
      match ReadField(fmt[0], b)
      case None =>
      case Some((f, rest)) =>
        ReadFieldIff(f, rest, fmt[0], b);
        OnlyEncodingsRead(fmt[1..], rest);
        match ReadFields(fmt[1..], rest)
        case None =>
        case Some((fs, rest')) =>
          assert ([f] + fs)[1..] == fs;
          assert fmt == [fmt[0]] + fmt[1..];
          ConcatAssociates(EncodeField(f), EncodeFields(fs), rest');
    }
  }

  /** The two laws above as one: reading inverts appending, in both directions. */
  lemma ReadIff(fs: seq<Field>, rest: seq<byte>, fmt: string, b: seq<byte>)
    ensures ReadFields(fmt, b) == Some((fs, rest)) <==> FormatOf(fs) == fmt && b == EncodeFields(fs) + rest
  {
    ReadsBack(fs, rest);
    OnlyEncodingsRead(fmt, b);
  }

  lemma EncodeCons(f: Field, fs: seq<Field>)
    ensures EncodeFields([f] + fs) == EncodeField(f) + EncodeFields(fs)
  {
    assert ([f] + fs)[1..] == fs;
  }

  lemma {:induction false} EncodeConcat(fs: seq<Field>, gs: seq<Field>)
    ensures EncodeFields(fs + gs) == EncodeFields(fs) + EncodeFields(gs)
  {
    if fs == [] {
      assert fs + gs == gs;
    } else {
      EncodeConcat(fs[1..], gs);
      assert fs + gs == [fs[0]] + (fs[1..] + gs);
      EncodeCons(fs[0], fs[1..] + gs);
      ConcatAssociates(EncodeField(fs[0]), EncodeFields(fs[1..]), EncodeFields(gs));
    }
  }

  lemma EncodeOne(f: Field)
    ensures EncodeFields([f]) == EncodeField(f)
  {
  }
}
