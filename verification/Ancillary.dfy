/**
 File descriptors behind a PDU: src/memptr.c, the tail that set_source (src/dtv_io.c) fills, and
 build_ancillary_data (src/dtv_pdu.c). `w` is sizeof(void*) == sizeof(size_t).
 */
module Ancillary {
  import opened Base
  import opened Wire
  import opened Records
  import opened PduBuffer

  type WordSize = w: nat | w == 4 || w == 8 witness 8

  // ---------- src/memptr.c ----------

  function CeilAlign(ptr: nat, align: nat): nat
    requires align > 0
  {
    (ptr / align + 1) * align
  }

  lemma MulSign(d: int, align: nat)
    ensures d >= 0 ==> d * align >= 0
    ensures d >= 1 ==> d * align >= align
    ensures d <= -1 ==> d * align <= -1 * align
  {
  }

  lemma MultipleOf(q: nat, align: nat)
    requires align > 0
    ensures (q * align) % align == 0
  {
    var p := q * align;
    var d := q - p / align;
    assert d * align == p % align by {
      assert p == p / align * align + p % align;
    }
    MulSign(d, align);
  }

  /** No aligned address lies between ptr and the result. */
  lemma CeilAlignLeast(ptr: nat, align: nat, a: nat)
    requires align > 0 && ptr < a && a % align == 0
    ensures CeilAlign(ptr, align) <= a
  {
    var q := ptr / align;
    var d := a / align - (q + 1);
    assert d * align == a - (q * align + align) by {
      assert a == a / align * align;
    }
    assert q * align <= ptr;
    MulSign(d, align);
  }

  /** The result is the first aligned address strictly behind ptr, so at most `align` octets are skipped. */
  lemma CeilAlignIs(ptr: nat, align: nat)
    requires align > 0
    ensures CeilAlign(ptr, align) % align == 0
    ensures ptr < CeilAlign(ptr, align) <= ptr + align
    ensures forall a: nat | ptr < a && a % align == 0 :: CeilAlign(ptr, align) <= a
  {
    var q := ptr / align;
    assert CeilAlign(ptr, align) == q * align + align;
    assert ptr == q * align + ptr % align;
    MultipleOf(q + 1, align);
    forall a: nat | ptr < a && a % align == 0
      ensures CeilAlign(ptr, align) <= a
    {
      CeilAlignLeast(ptr, align, a);
    }
  }

  // ---------- control messages (RFC 3542, section 20.3) ----------

  const SOL_SOCKET: u32 := 1
  const SCM_RIGHTS: u32 := 1

  /** sizeof(struct cmsghdr): a size_t and two ints; already a multiple of the word size. */
  function CmsgHeader(w: WordSize): nat { w + 8 }

  function CmsgAlign(w: WordSize, len: nat): nat { (len + w - 1) / w * w }

  function CmsgSpace(w: WordSize, len: nat): nat { CmsgAlign(w, CmsgHeader(w)) + CmsgAlign(w, len) }

  function CmsgLen(w: WordSize, len: nat): nat { CmsgAlign(w, CmsgHeader(w)) + len }

  lemma CmsgSizes(w: WordSize, len: nat)
    ensures CmsgAlign(w, CmsgHeader(w)) == CmsgHeader(w)
    ensures CmsgLen(w, len) <= CmsgSpace(w, len)
  {
  }

  function IntFields(vs: seq<u32>): (fs: seq<Field>)
    ensures |fs| == |vs| && forall k :: 0 <= k < |vs| ==> fs[k] == I(vs[k])
  {
    seq(|vs|, k requires 0 <= k < |vs| => I(vs[k]))
  }

  /** An int array in memory, or a run of "I" conversions. */
  function Ints(vs: seq<u32>): seq<byte> {
    EncodeFields(IntFields(vs))
  }

  function ReadInts(n: nat, b: seq<byte>): (r: Option<(seq<u32>, seq<byte>)>)
    ensures r.Some? ==> |r.value.0| == n
  {
    OnlyEncodingsRead(Repeat('I', n), b);
    match ReadFields(Repeat('I', n), b)
    case None => None
    case Some((fs, rest)) => Some((IntsOf(fs), rest))
  }

  function IntsOf(fs: seq<Field>): seq<u32>
    requires Shaped(fs, Repeat('I', |fs|))
  {
    seq(|fs|, k requires 0 <= k < |fs| => assert Letter(fs[k]) == 'I'; fs[k].i)
  }

  lemma ReadIntsBack(vs: seq<u32>, rest: seq<byte>)
    ensures ReadInts(|vs|, Ints(vs) + rest) == Some((vs, rest))
  {
    ReadsBack(IntFields(vs), rest);
    ShapedIs(IntFields(vs), Repeat('I', |vs|));
    assert IntsOf(IntFields(vs)) == vs;
  }

  lemma OnlyIntsRead(n: nat, b: seq<byte>)
    requires ReadInts(n, b).Some?
    ensures b == Ints(ReadInts(n, b).value.0) + ReadInts(n, b).value.1
  {
    OnlyEncodingsRead(Repeat('I', n), b);
    var fs := ReadFields(Repeat('I', n), b).value.0;
    assert forall k :: 0 <= k < |fs| ==> Letter(fs[k]) == 'I';
    assert fs == IntFields(IntsOf(fs));
  }

  lemma IntsSnoc(vs: seq<u32>, v: u32)
    ensures Ints(vs + [v]) == Ints(vs) + U32Bytes(v)
  {
    assert IntFields(vs + [v]) == IntFields(vs) + [I(v)];
    EncodeConcat(IntFields(vs), [I(v)]);
    EncodeOne(I(v));
  }

  lemma {:induction false} IntsLength(vs: seq<u32>)
    ensures |Ints(vs)| == 4 * |vs|
  {
    if vs == [] {
    } else {
      var n := |vs| - 1;
      IntsLength(vs[..n]);
      IntsSnoc(vs[..n], vs[n]);
      assert vs == vs[..n] + [vs[n]];
    }
  }

  /** What a receiver reads from msg_control: the descriptors of one SCM_RIGHTS message that fills it. */
  function ParseRights(w: WordSize, control: seq<byte>): Option<seq<u32>> {
    if |control| < CmsgHeader(w) then None else
    var len := LeValue(control[..w]);
    var level, kind := LeValue(control[w..w + 4]), LeValue(control[w + 4..w + 8]);
    if len != |control| || level != SOL_SOCKET || kind != SCM_RIGHTS || (len - CmsgHeader(w)) % 4 != 0 then None else
    match ReadInts((len - CmsgHeader(w)) / 4, control[CmsgHeader(w)..])
    case None => None
    case Some((fds, rest)) => Some(fds)
  }

  // ---------- the tail record ----------

  /** The tail that set_source reserves for n descriptors. */
  function TailSize(w: WordSize, n: nat): nat {
    w + (4 + 4 * n) + CmsgSpace(w, 4 * n)
  }

  /** Where, counted from the start of the payload, the aligned fd record starts. */
  function RecordOffset(w: WordSize, address: nat, maxLen: nat): (off: nat)
    ensures maxLen < off <= maxLen + w
  {
    CeilAlignIs(address + maxLen, w);
    CeilAlign(address + maxLen, w) - address
  }

  /** Memory with, at this offset, the count n and the first i of the descriptors. */
  ghost predicate RecordIn(mem: seq<byte>, off: nat, fds: seq<u32>, i: nat)
    requires i <= |fds| < TWO32
  {
    && off + 4 + 4 * i <= |mem|
    && mem[off..off + 4] == U32Bytes(|fds|)
    && mem[off + 4..off + 4 + 4 * i] == Ints(fds[..i])
  }

  /** A record at this offset with these descriptors, and room for their control message behind it. */
  ghost predicate RecordAt(wbuf: Wbuf, w: WordSize, off: nat, fds: seq<u32>)
    reads wbuf, wbuf.raw
  {
    && wbuf.Valid() && |fds| < TWO32 && wbuf.maxLen < off
    && off + 4 + 4 * |fds| + CmsgHeader(w) + 4 * |fds| <= wbuf.raw.Length
    && RecordIn(wbuf.raw[..], off, fds, |fds|)
  }

  /** The tail was reserved for these descriptors and its aligned record holds them. */
  ghost predicate HoldsFds(wbuf: Wbuf, w: WordSize, fds: seq<u32>)
    reads wbuf, wbuf.raw
  {
    && wbuf.tailSize == TailSize(w, |fds|)
    && RecordAt(wbuf, w, RecordOffset(w, wbuf.address, wbuf.maxLen), fds)
  }

  /** The aligned record and the control area behind it lie in the reserved tail, one behind the other. */
  lemma TailFits(w: WordSize, address: nat, maxLen: nat, n: nat)
    ensures var off := RecordOffset(w, address, maxLen);
            var control := off + 4 + 4 * n;
            && (address + off) % w == 0
            && maxLen < off < off + 4 <= control
            && control + CmsgSpace(w, 4 * n) <= maxLen + TailSize(w, n)
            && control + CmsgHeader(w) + 4 * n <= maxLen + TailSize(w, n)
  {
  }

  /**
   The record is aligned, the struct cmsghdr behind it is not meant to be: with eight-octet words it is aligned
   exactly when the number of descriptors is odd.
   */
  lemma ControlAlignedIff(w: WordSize, address: nat, maxLen: nat, n: nat)
    ensures var control := RecordOffset(w, address, maxLen) + 4 + 4 * n;
            (address + control) % w == 0 <==> w == 4 || n % 2 == 1
  {
    var off := RecordOffset(w, address, maxLen);
    TailFits(w, address, maxLen, n);
    if w == 8 {
      EightOctets(address + off, n);
    } else {
      FourOctets(address + off, n);
    }
  }

  lemma EightOctets(a: nat, n: nat)
    requires a % 8 == 0
    ensures (a + 4 + 4 * n) % 8 == 0 <==> n % 2 == 1
  {
    var h := n / 2;
    assert n == 2 * h + n % 2;
    assert a + 4 + 4 * n == 8 * (a / 8 + h) + 4 + 4 * (n % 2);
  }

  lemma FourOctets(a: nat, n: nat)
    requires a % 4 == 0
    ensures (a + 4 + 4 * n) % 4 == 0
  {
    assert a + 4 + 4 * n == 4 * (a / 4 + 1 + n);
  }

  lemma RecordStarts(mem: seq<byte>, off: nat, fds: seq<u32>, limit: nat)
    requires |fds| < TWO32 && limit <= off && off + 4 <= |mem|
    ensures var mem' := Put(mem, off, U32Bytes(|fds|));
            RecordIn(mem', off, fds, 0) && mem'[..limit] == mem[..limit]
  {
  }

  lemma TwoPieces(mem: seq<byte>, a: nat, b: nat, c: nat)
    requires a <= b <= c <= |mem|
    ensures mem[a..c] == mem[a..b] + mem[b..c]
  {
  }

  lemma RecordGrows(mem: seq<byte>, off: nat, fds: seq<u32>, i: nat, limit: nat)
    requires i < |fds| < TWO32 && RecordIn(mem, off, fds, i)
    requires limit <= off && off + 4 + 4 * (i + 1) <= |mem|
    ensures var mem' := Put(mem, off + 4 + 4 * i, U32Bytes(fds[i]));
            RecordIn(mem', off, fds, i + 1) && mem'[..limit] == mem[..limit]
  {
    var at, b := off + 4 + 4 * i, U32Bytes(fds[i]);
    var mem' := Put(mem, at, b);
    PutElsewhere(mem, at, b, 0, limit);
    PutElsewhere(mem, at, b, off, off + 4);
    PutElsewhere(mem, at, b, off + 4, at);
    TwoPieces(mem', off + 4, at, at + 4);
    assert fds[..i + 1] == fds[..i] + [fds[i]];
    IntsSnoc(fds[..i], fds[i]);
  }

  /** tail_data->fd_num and tail_data->data[], for a record at this offset. */
  method PutRecord(wbuf: Wbuf, w: WordSize, off: nat, fds: seq<u32>)
    requires wbuf.Valid() && |fds| < TWO32 && wbuf.maxLen < off
    requires off + 4 + 4 * |fds| + CmsgHeader(w) + 4 * |fds| <= wbuf.raw.Length
    modifies wbuf.raw
    ensures RecordAt(wbuf, w, off, fds)
    ensures wbuf.raw[..][..wbuf.maxLen] == old(wbuf.raw[..])[..wbuf.maxLen]
  {
    RecordStarts(wbuf.raw[..], off, fds, wbuf.maxLen);
    wbuf.WriteAt(off, U32Bytes(|fds|));
    for i := 0 to |fds|
      invariant wbuf.Valid()
      invariant wbuf.raw[..][..wbuf.maxLen] == old(wbuf.raw[..])[..wbuf.maxLen]
      invariant RecordIn(wbuf.raw[..], off, fds, i)
    {
      RecordGrows(wbuf.raw[..], off, fds, i, wbuf.maxLen);
      wbuf.WriteAt(off + 4 + 4 * i, U32Bytes(fds[i]));
    }
  }

  /** The fd part of set_source: the record in the aligned tail. */
  method FillTail(wbuf: Wbuf, w: WordSize, fds: seq<u32>)
    requires wbuf.Valid() && |fds| < TWO32 && wbuf.tailSize == TailSize(w, |fds|)
    modifies wbuf.raw
    ensures HoldsFds(wbuf, w, fds)
    ensures wbuf.raw[..][..wbuf.maxLen] == old(wbuf.raw[..])[..wbuf.maxLen]
  {
    TailFits(w, wbuf.address, wbuf.maxLen, |fds|);
    PutRecord(wbuf, w, RecordOffset(w, wbuf.address, wbuf.maxLen), fds);
  }

  /** A control message with this data, as octets. */
  function RightsMessage(w: WordSize, data: seq<byte>): seq<byte> {
    LeBytes(w, CmsgHeader(w) + |data|) + U32Bytes(SOL_SOCKET) + U32Bytes(SCM_RIGHTS) + data
  }

  lemma Pow256Grows(w: WordSize)
    ensures Pow256(w) >= TWO32
  {
  }

  /** A control message that is put together like this is read as its data. */
  lemma ControlReads(w: WordSize, m: seq<byte>, fds: seq<u32>)
    requires |m| == CmsgHeader(w) + 4 * |fds|
    requires LeValue(m[..w]) == |m|
    requires LeValue(m[w..w + 4]) == SOL_SOCKET && LeValue(m[w + 4..w + 8]) == SCM_RIGHTS
    requires m[w + 8..] == Ints(fds)
    ensures ParseRights(w, m) == Some(fds)
  {
    assert m[CmsgHeader(w)..] == Ints(fds) + [];
    ReadIntsBack(fds, []);
  }

  lemma RightsMessageReads(w: WordSize, fds: seq<u32>)
    requires CmsgHeader(w) + 4 * |fds| < TWO32
    ensures ParseRights(w, RightsMessage(w, Ints(fds))) == Some(fds)
  {
    IntsLength(fds);
    var len := CmsgHeader(w) + 4 * |fds|;
    Pow256Grows(w);
    LeValueOfBytes(w, len);
    LeValueOfU32(SOL_SOCKET);
    LeValueOfU32(SCM_RIGHTS);
    var b1, b2, b3 := LeBytes(w, len), U32Bytes(SOL_SOCKET), U32Bytes(SCM_RIGHTS);
    Pieces(b1, b2, b3, Ints(fds));
    ControlReads(w, RightsMessage(w, Ints(fds)), fds);
  }

  /** Octet by octet: the length as a size_t, the level 1 (SOL_SOCKET), the type 1 (SCM_RIGHTS), and the data. */
  lemma RightsOctets(w: WordSize, data: seq<byte>)
    ensures RightsMessage(w, data) == LeBytes(w, w + 8 + |data|) + [1, 0, 0, 0] + [1, 0, 0, 0] + data
  {
    OneOctets();
  }

  lemma OneOctets()
    ensures U32Bytes(1) == [1, 0, 0, 0]
  {
    assert LeBytes(4, 1) == [1] + LeBytes(3, 0);
    assert LeBytes(3, 0) == [0] + LeBytes(2, 0);
    assert LeBytes(2, 0) == [0] + LeBytes(1, 0);
  }

  lemma Pieces(a: seq<byte>, b: seq<byte>, c: seq<byte>, d: seq<byte>)
    ensures var m := a + b + c + d;
            && m[..|a|] == a && m[|a|..|a| + |b|] == b
            && m[|a| + |b|..|a| + |b| + |c|] == c && m[|a| + |b| + |c|..] == d
  {
  }

  /** The header and the copied data of a control message; n ints in front of it are the data. */
  method PutControl(wbuf: Wbuf, w: WordSize, control: nat, n: nat)
    requires 4 * n <= control && control + CmsgHeader(w) + 4 * n <= wbuf.raw.Length
    modifies wbuf.raw
    ensures wbuf.raw[..][..control] == old(wbuf.raw[..])[..control]
    ensures wbuf.raw[..][control..control + CmsgHeader(w) + 4 * n]
            == RightsMessage(w, old(wbuf.raw[..])[control - 4 * n..control])
  {
    ghost var mem0 := wbuf.raw[..];
    wbuf.WriteAt(control + w, U32Bytes(SOL_SOCKET));
    ghost var mem1 := wbuf.raw[..];
    wbuf.WriteAt(control + w + 4, U32Bytes(SCM_RIGHTS));
    ghost var mem2 := wbuf.raw[..];
    wbuf.WriteAt(control, LeBytes(w, CmsgHeader(w) + 4 * n));
    ghost var mem3 := wbuf.raw[..];
    var data := wbuf.raw[control - 4 * n..control];
    wbuf.WriteAt(control + CmsgHeader(w), data);
    ghost var mem4 := wbuf.raw[..];
    ControlArea(w, mem0, mem1, mem2, mem3, mem4, control, data);
    BelowControl(w, mem0, mem1, mem2, mem3, mem4, control, data);
    assert data == mem3[..control][control - 4 * n..] == mem0[..control][control - 4 * n..];
    assert data == mem0[control - 4 * n..control];
  }

  ghost predicate ControlWrites(w: WordSize, mem0: seq<byte>, mem1: seq<byte>, mem2: seq<byte>, mem3: seq<byte>,
                                mem4: seq<byte>, control: nat, data: seq<byte>)
  {
    && control + CmsgHeader(w) + |data| <= |mem0|
    && mem1 == Put(mem0, control + w, U32Bytes(SOL_SOCKET))
    && mem2 == Put(mem1, control + w + 4, U32Bytes(SCM_RIGHTS))
    && mem3 == Put(mem2, control, LeBytes(w, CmsgHeader(w) + |data|))
    && mem4 == Put(mem3, control + CmsgHeader(w), data)
  }

  /** The four writes of build_ancillary_data, in their order, make up the control message. */
  lemma ControlArea(w: WordSize, mem0: seq<byte>, mem1: seq<byte>, mem2: seq<byte>, mem3: seq<byte>, mem4: seq<byte>,
                    control: nat, data: seq<byte>)
    requires ControlWrites(w, mem0, mem1, mem2, mem3, mem4, control, data)
    ensures mem4[control..control + CmsgHeader(w) + |data|] == RightsMessage(w, data)
  {
    var from, level := control + CmsgHeader(w), control + w;
    var len := LeBytes(w, CmsgHeader(w) + |data|);
    PutElsewhere(mem3, from, data, control, level);
    PutElsewhere(mem1, level + 4, U32Bytes(SCM_RIGHTS), level, level + 4);
    PutElsewhere(mem2, control, len, level, level + 4);
    PutElsewhere(mem3, from, data, level, level + 4);
    PutElsewhere(mem2, control, len, level + 4, level + 8);
    PutElsewhere(mem3, from, data, level + 4, level + 8);
    FourPieces(mem4, control, level, level + 4, from, from + |data|);
  }

  /** ... and leave everything in front of it alone. */
  lemma BelowControl(w: WordSize, mem0: seq<byte>, mem1: seq<byte>, mem2: seq<byte>, mem3: seq<byte>, mem4: seq<byte>,
                     control: nat, data: seq<byte>)
    requires ControlWrites(w, mem0, mem1, mem2, mem3, mem4, control, data)
    ensures mem4[..control] == mem3[..control] == mem0[..control]
  {
  }

  lemma FourPieces(mem: seq<byte>, a: nat, b: nat, c: nat, d: nat, e: nat)
    requires a <= b <= c <= d <= e <= |mem|
    ensures mem[a..e] == mem[a..b] + mem[b..c] + mem[c..d] + mem[d..e]
  {
    assert mem[a..c] == mem[a..b] + mem[b..c];
    assert mem[a..d] == mem[a..c] + mem[c..d];
    assert mem[a..e] == mem[a..d] + mem[d..e];
  }

  /** Nothing below the control area changes: neither the record nor the payload. */
  lemma BelowIsKept(mem: seq<byte>, mem': seq<byte>, off: nat, fds: seq<u32>, len: nat)
    requires |fds| < TWO32 && RecordIn(mem, off, fds, |fds|) && len <= off
    requires |mem'| == |mem|
    requires var control := off + 4 + 4 * |fds|; mem'[..control] == mem[..control]
    ensures RecordIn(mem', off, fds, |fds|) && mem'[..len] == mem[..len]
  {
    var control := off + 4 + 4 * |fds|;
    assert mem'[off..off + 4] == mem'[..control][off..off + 4] == mem[..control][off..off + 4];
    assert mem'[off + 4..control] == mem'[..control][off + 4..] == mem[..control][off + 4..];
    assert mem'[..len] == mem'[..control][..len] == mem[..control][..len];
  }

  /** The body of build_ancillary_data, for a record at this offset. */
  method CopyRights(wbuf: Wbuf, w: WordSize, off: nat, ghost fds: seq<u32>) returns (control: nat, controlLen: nat)
    requires RecordAt(wbuf, w, off, fds)
    modifies wbuf.raw
    ensures RecordAt(wbuf, w, off, fds)
    ensures wbuf.raw[..][..wbuf.len] == old(wbuf.raw[..])[..wbuf.len]
    ensures control == off + 4 + 4 * |fds| && controlLen == CmsgHeader(w) + 4 * |fds|
    ensures wbuf.raw[..][control..control + controlLen] == RightsMessage(w, Ints(fds))
  {
    ghost var mem := wbuf.raw[..];
    RecordReads(mem, off, fds);
    assert wbuf.raw[off..off + 4] == mem[off..off + 4];
    var n := LeValue(wbuf.raw[off..off + 4]);
    control := off + 4 + 4 * n;
    ghost var data := mem[control - 4 * n..control];
    assert data == Ints(fds);
    PutControl(wbuf, w, control, n);
    controlLen := CmsgHeader(w) + 4 * n;
    assert wbuf.raw[..][control..control + controlLen] == RightsMessage(w, data);
    BelowIsKept(mem, wbuf.raw[..], off, fds, wbuf.len);
  }

  lemma RecordReads(mem: seq<byte>, off: nat, fds: seq<u32>)
    requires |fds| < TWO32 && RecordIn(mem, off, fds, |fds|)
    ensures LeValue(mem[off..off + 4]) == |fds|
    ensures var control := off + 4 + 4 * |fds|; mem[control - 4 * |fds|..control] == Ints(fds)
  {
    LeValueOfU32(|fds|);
    assert fds[..|fds|] == fds;
  }

  /**
   build_ancillary_data: msg_control points behind the record, and its octets are an SCM_RIGHTS
   message with exactly the recorded descriptors. The payload is not touched.
   */
  method BuildAncillaryData(wbuf: Wbuf, w: WordSize, ghost fds: seq<u32>) returns (control: nat, controlLen: nat)
    requires HoldsFds(wbuf, w, fds) && CmsgLen(w, 4 * |fds|) < TWO32
    modifies wbuf.raw
    ensures HoldsFds(wbuf, w, fds)
    ensures wbuf.raw[..][..wbuf.len] == old(wbuf.raw[..])[..wbuf.len]
    ensures controlLen == CmsgLen(w, 4 * |fds|) && control + controlLen <= wbuf.raw.Length
    ensures ParseRights(w, wbuf.raw[..][control..control + controlLen]) == Some(fds)
  {
    CmsgSizes(w, 4 * |fds|);
    RightsMessageReads(w, fds);
    control, controlLen := CopyRights(wbuf, w, RecordOffset(w, wbuf.address, wbuf.maxLen), fds);
  }

  lemma LeValueOfU32(v: u32)
    ensures LeValue(U32Bytes(v)) == v
  {
    Pow256Is();
    LeValueOfBytes(4, v);
  }
}
