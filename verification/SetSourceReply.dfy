/** src/dtv_io.c, set_source once the stream is there: the native handle in the payload, its fds in the tail. */
module SetSourceReply {
  import opened Base
  import opened Protocol
  import opened Wire
  import opened Records
  import opened PduBuffer
  import opened Ancillary
  import opened SendQueue

  /** data holds numFds descriptors followed by numInts integers. */
  datatype NativeHandle = NativeHandle(version: u32, numFds: u32, numInts: u32, data: seq<u32>)

  predicate ValidHandle(h: NativeHandle) {
    |h.data| == h.numFds + h.numInts
  }

  function Fds(h: NativeHandle): seq<u32>
    requires ValidHandle(h)
  {
    h.data[..h.numFds]
  }

  function HandleHead(h: NativeHandle): seq<Field> {
    [I(h.version), I(h.numFds), I(h.numInts)]
  }

  /** The integers the loop `for (i = numFds; i < numInts; i++)` sends. */
  function SentInts(h: NativeHandle): seq<u32>
    requires ValidHandle(h)
  {
    if h.numFds < h.numInts then h.data[h.numFds..h.numInts] else []
  }

  function HandlePayload(h: NativeHandle): seq<byte>
    requires ValidHandle(h)
  {
    EncodeFields(HandleHead(h)) + Ints(SentInts(h))
  }

  /**
   Octet by octet: version, number of descriptors, number of integers, and then, for as far as the loop runs, the
   integers behind the descriptors.
   */
  ghost predicate SpellsHandle(p: seq<byte>, h: NativeHandle)
    requires ValidHandle(h)
  {
    && |p| == 12 + 4 * (if h.numInts > h.numFds then h.numInts - h.numFds else 0)
    && p[..4] == LeBytes(4, h.version) && p[4..8] == LeBytes(4, h.numFds) && p[8..12] == LeBytes(4, h.numInts)
    && forall i :: h.numFds <= i < h.numInts ==>
         p[12 + 4 * (i - h.numFds)..16 + 4 * (i - h.numFds)] == LeBytes(4, h.data[i])
  }

  lemma {:induction false} IntsAt(vs: seq<u32>, k: nat)
    requires k < |vs|
    ensures |Ints(vs)| == 4 * |vs| && Ints(vs)[4 * k..4 * k + 4] == U32Bytes(vs[k])
  {
    IntsLength(vs);
    var n := |vs| - 1;
    assert vs == vs[..n] + [vs[n]];
    IntsSnoc(vs[..n], vs[n]);
    IntsLength(vs[..n]);
    if k == n {
    } else {
      IntsAt(vs[..n], k);
      assert Ints(vs)[4 * k..4 * k + 4] == Ints(vs[..n])[4 * k..4 * k + 4];
    }
  }

  lemma HeadOctets(h: NativeHandle)
    ensures EncodeFields(HandleHead(h)) == U32Bytes(h.version) + U32Bytes(h.numFds) + U32Bytes(h.numInts)
  {
    assert HandleHead(h) == [I(h.version)] + [I(h.numFds), I(h.numInts)];
    EncodeConcat([I(h.version)], [I(h.numFds), I(h.numInts)]);
    EncodeOne(I(h.version));
    EncodeTwo(I(h.numFds), I(h.numInts));
  }

  /** What set_source sends of a handle, for every handle: these octets, and the descriptors it begins with. */
  lemma HandleIsSpelled(h: NativeHandle)
    requires ValidHandle(h)
    ensures SpellsHandle(HandlePayload(h), h)
    ensures |Fds(h)| == h.numFds && forall k :: 0 <= k < h.numFds ==> Fds(h)[k] == h.data[k]
  {
    var ints := Ints(SentInts(h));
    HeadOctets(h);
    IntsLength(SentInts(h));
    HeadAndInts(U32Bytes(h.version), U32Bytes(h.numFds), U32Bytes(h.numInts), ints);
    forall i | h.numFds <= i < h.numInts
      ensures HandlePayload(h)[12 + 4 * (i - h.numFds)..16 + 4 * (i - h.numFds)] == LeBytes(4, h.data[i])
    {
      IntIsSpelled(h, i);
    }
  }

  lemma IntIsSpelled(h: NativeHandle, i: nat)
    requires ValidHandle(h) && h.numFds <= i < h.numInts
    ensures var k := 4 * (i - h.numFds);
            k + 16 <= |HandlePayload(h)| && HandlePayload(h)[12 + k..16 + k] == LeBytes(4, h.data[i])
  {
    IntsAt(SentInts(h), i - h.numFds);
    HandleHeadLength(h);
    Behind(EncodeFields(HandleHead(h)), Ints(SentInts(h)), 4 * (i - h.numFds));
  }

  lemma HeadAndInts(a: seq<byte>, b: seq<byte>, c: seq<byte>, d: seq<byte>)
    requires |a| == |b| == |c| == 4
    ensures var p := (a + b + c) + d; |p| == 12 + |d| && p[..4] == a && p[4..8] == b && p[8..12] == c
  {
  }

  lemma Behind(head: seq<byte>, tail: seq<byte>, k: nat)
    requires |head| == 12 && k + 4 <= |tail|
    ensures (head + tail)[12 + k..16 + k] == tail[k..k + 4]
  {
  }

  lemma HandleHeadLength(h: NativeHandle)
    ensures |EncodeFields(HandleHead(h))| == 12
  {
    assert HandleHead(h) == [I(h.version)] + [I(h.numFds), I(h.numInts)];
    EncodeConcat([I(h.version)], [I(h.numFds), I(h.numInts)]);
    EncodeOne(I(h.version));
    EncodeTwo(I(h.numFds), I(h.numInts));
  }

  lemma RecordStaysInTail(before: seq<byte>, after: seq<byte>, maxLen: nat, off: nat, fds: seq<u32>)
    requires |fds| < TWO32 && RecordIn(before, off, fds, |fds|)
    requires maxLen <= off && |after| == |before| && after[maxLen..] == before[maxLen..]
    ensures RecordIn(after, off, fds, |fds|)
  {
  }

  lemma SentIntsSnoc(h: NativeHandle, i: nat)
    requires ValidHandle(h) && h.numFds <= i < h.numInts
    ensures Ints(h.data[h.numFds..i + 1]) == Ints(h.data[h.numFds..i]) + EncodeFields([I(h.data[i])])
  {
    assert h.data[h.numFds..i + 1] == h.data[h.numFds..i] + [h.data[i]];
    IntsSnoc(h.data[h.numFds..i], h.data[i]);
    EncodeOne(I(h.data[i]));
  }

  lemma NextInt(h: NativeHandle, i: nat, before: seq<byte>)
    requires ValidHandle(h) && h.numFds <= i < h.numInts
    ensures (before + Ints(h.data[h.numFds..i])) + EncodeFields([I(h.data[i])]) == before + Ints(h.data[h.numFds..i + 1])
    ensures |Ints(h.data[h.numFds..i])| == 4 * (i - h.numFds) && |EncodeFields([I(h.data[i])])| == 4
  {
    SentIntsSnoc(h, i);
    IntsLength(h.data[h.numFds..i]);
    ConcatAssociates(before, Ints(h.data[h.numFds..i]), EncodeFields([I(h.data[i])]));
    EncodeOne(I(h.data[i]));
  }

  /** The loop that appends the integers of the handle. */
  method AppendInts(wbuf: Wbuf, h: NativeHandle) returns (res: int)
    requires ValidHandle(h) && wbuf.Valid() && wbuf.len + 4 * h.numInts <= wbuf.maxLen
    modifies wbuf`len, wbuf.raw
    ensures wbuf.Valid() && wbuf.Tail() == old(wbuf.Tail())
    ensures res < 0 <==> old(wbuf.len) + |Ints(SentInts(h))| > PDU_MAX_DATA_LENGTH
    ensures res >= 0 ==> wbuf.Payload() == old(wbuf.Payload()) + Ints(SentInts(h))
  {
    IntsLength(SentInts(h));
    if h.numInts <= h.numFds {
      assert wbuf.Payload() + [] == wbuf.Payload();
      return 0;
    }
    assert h.data[h.numFds..h.numFds] == [];
    for i: int := h.numFds to h.numInts
      invariant wbuf.Valid() && wbuf.Tail() == old(wbuf.Tail())
      invariant wbuf.Payload() == old(wbuf.Payload()) + Ints(h.data[h.numFds..i])
    {
      NextInt(h, i, old(wbuf.Payload()));
      res := wbuf.Append([I(h.data[i])]);
      if res < 0 {
        return -1;
      }
    }
    return 0;
  }

  /** The two create_pdu_wbuf calls of set_source and the descriptors in the tail. */
  method AllocateReply(w: WordSize, address: nat, h: NativeHandle) returns (wbuf: Wbuf)
    requires ValidHandle(h)
    ensures fresh(wbuf) && fresh(wbuf.raw) && wbuf.Valid()
    ensures wbuf.maxLen == 12 + 4 * h.numInts && wbuf.len == 0
    ensures h.numFds == 0 ==> wbuf.tailSize == 0
    ensures h.numFds != 0 ==> HoldsFds(wbuf, w, Fds(h))
  {
    if h.numFds == 0 {
      wbuf := new Wbuf(address, 12 + 4 * h.numInts, 0);
    } else {
      wbuf := new Wbuf(address, 12 + 4 * h.numInts, TailSize(w, h.numFds));
      FillTail(wbuf, w, Fds(h));
    }
  }

  /** The appends of set_source. */
  method AppendHandle(wbuf: Wbuf, w: WordSize, h: NativeHandle) returns (res: int)
    requires ValidHandle(h) && wbuf.Valid() && wbuf.len == 0 && 12 + 4 * h.numInts <= wbuf.maxLen
    requires h.numFds != 0 ==> HoldsFds(wbuf, w, Fds(h))
    modifies wbuf`len, wbuf.raw
    ensures wbuf.Valid() && (h.numFds != 0 ==> HoldsFds(wbuf, w, Fds(h)))
    ensures res < 0 <==> |HandlePayload(h)| > PDU_MAX_DATA_LENGTH
    ensures res >= 0 ==> wbuf.Payload() == HandlePayload(h)
  {
    HandleHeadLength(h);
    ghost var before := wbuf.raw[..];
    assert before[wbuf.maxLen..] == wbuf.Tail();
    res := wbuf.Append(HandleHead(h));
    if res >= 0 {
      assert wbuf.Payload() == EncodeFields(HandleHead(h));
      res := AppendInts(wbuf, h);
    }
    ghost var after := wbuf.raw[..];
    assert after[wbuf.maxLen..] == wbuf.Tail();
    if h.numFds != 0 {
      RecordStaysInTail(before, after, wbuf.maxLen, RecordOffset(w, wbuf.address, wbuf.maxLen), Fds(h));
    }
  }

  /**
   The reply to SET_SOURCE. `address` is wherever the allocator puts the payload. With descriptors
   the tail is used before the allocation is checked: `fault` says that it was not there.
   */
  method BuildSetSourceReply(service: byte, opcode: byte, w: WordSize, address: nat, h: NativeHandle, memoryOk: bool)
    returns (status: byte, wbuf: Wbuf?, fault: bool)
    requires ValidHandle(h)
    ensures fault <==> h.numFds != 0 && !memoryOk
    ensures status == ERROR_NONE || status == ERROR_NOMEM
    ensures status == ERROR_NONE <==> memoryOk && |HandlePayload(h)| <= PDU_MAX_DATA_LENGTH
    ensures status == ERROR_NONE ==>
              && wbuf != null && fresh(wbuf) && fresh(wbuf.raw) && wbuf.Valid()
              && wbuf.service == service && wbuf.opcode == opcode
              && wbuf.Payload() == HandlePayload(h) && SpellsHandle(wbuf.Payload(), h)
              && if h.numFds == 0 then wbuf.tailSize == 0
                 else wbuf.tailSize > 0 && HoldsFds(wbuf, w, Fds(h))
  {
    if !memoryOk {
      return ERROR_NOMEM, null, h.numFds != 0;
    }
    wbuf := AllocateReply(w, address, h);
    wbuf.InitPdu(service, opcode);
    var res := AppendHandle(wbuf, w, h);
    if res < 0 {
      return ERROR_NOMEM, null, false;
    }
    HandleIsSpelled(h);
    return ERROR_NONE, wbuf, false;
  }

  /**
   What the peer receives when the transport sends a buffer: its payload, and the descriptors of the
   control message that build_ancillary_data makes of the tail, if there is a tail. The buffer is as good
   as before, so an attempt that is repeated because the transport blocked makes the same message.
   */
  method Transmit(wbuf: Wbuf, w: WordSize, ghost fds: seq<u32>) returns (m: Msg)
    requires wbuf.Valid()
    requires if wbuf.tailSize == 0 then fds == [] else HoldsFds(wbuf, w, fds) && CmsgLen(w, 4 * |fds|) < TWO32
    modifies wbuf.raw
    ensures m == Msg(wbuf.service, wbuf.opcode, old(wbuf.Payload()), fds)
    ensures wbuf.Valid() && wbuf.Payload() == old(wbuf.Payload())
    ensures wbuf.tailSize != 0 ==> HoldsFds(wbuf, w, fds)
  {
    var payload := wbuf.Payload();
    if wbuf.tailSize == 0 {
      return Msg(wbuf.service, wbuf.opcode, payload, []);
    }
    var control, controlLen := BuildAncillaryData(wbuf, w, fds);
    assert wbuf.Payload() == wbuf.raw[..][..wbuf.len];
    return Msg(wbuf.service, wbuf.opcode, payload, ParseRights(w, wbuf.raw[..][control..control + controlLen]).value);
  }

  /** "Native handle (size of native_handle_t + data)": the reader takes as many integers as numInts says. */
  function DecodeHandle(b: seq<byte>): Option<(u32, u32, seq<u32>, seq<byte>)> {
    OnlyEncodingsRead("III", b);
    match ReadFields("III", b)
    case None => None
    case Some((h, rest)) =>
      assert forall k :: 0 <= k < 3 ==> Letter(h[k]) == "III"[k];
      match ReadInts(h[2].i, rest)
      case None => None
      case Some((ints, rest')) => Some((h[0].i, h[1].i, ints, rest'))
  }

  lemma HandleHeadReads(h: NativeHandle, rest: seq<byte>)
    ensures ReadFields("III", EncodeFields(HandleHead(h)) + rest) == Some((HandleHead(h), rest))
  {
    ReadsBack(HandleHead(h), rest);
    ShapedIs(HandleHead(h), "III");
  }

  /**
   The reader gets the handle's integers exactly when there are no descriptors or no integers:
   the integers start at numFds, but the loop stops at numInts instead of numFds + numInts.
   */
  lemma IntsArriveIff(h: NativeHandle)
    requires ValidHandle(h)
    ensures DecodeHandle(HandlePayload(h)) == Some((h.version, h.numFds, h.data[h.numFds..], []))
       <==> h.numFds == 0 || h.numInts == 0
  {
    var ints := Ints(SentInts(h));
    HandleHeadReads(h, ints);
    IntsLength(SentInts(h));
    if h.numFds == 0 || h.numInts == 0 {
      assert SentInts(h) == h.data[h.numFds..];
      ReadIntsBack(h.data[h.numFds..], []);
      assert ints + [] == ints;
    } else if ReadInts(h.numInts, ints).Some? {
      OnlyIntsRead(h.numInts, ints);
      IntsLength(ReadInts(h.numInts, ints).value.0);
    }
  }

  /** The payload with the loop run to numFds + numInts. */
  function HandlePayloadIntended(h: NativeHandle): seq<byte>
    requires ValidHandle(h)
  {
    EncodeFields(HandleHead(h)) + Ints(h.data[h.numFds..])
  }

  /** It fills what set_source allocates exactly, and every handle arrives. */
  lemma IntendedHandleArrives(h: NativeHandle)
    requires ValidHandle(h)
    ensures |HandlePayloadIntended(h)| == 12 + 4 * h.numInts
    ensures DecodeHandle(HandlePayloadIntended(h)) == Some((h.version, h.numFds, h.data[h.numFds..], []))
  {
    var vs := h.data[h.numFds..];
    HandleHeadLength(h);
    IntsLength(vs);
    HandleHeadReads(h, Ints(vs));
    ReadIntsBack(vs, []);
    assert Ints(vs) + [] == Ints(vs);
  }
}
