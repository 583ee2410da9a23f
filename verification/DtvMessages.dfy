/** src/dtv_io.c: the messages that carry lists of records, from sizing to the finished PDU. */
module DtvMessages {
  import opened Base
  import opened Protocol
  import opened Wire
  import opened Records
  import opened PduBuffer
  import opened DtvPdu
  import opened ProgramLists

  /**
   get_tuners, get_channels and get_programs once the list is there: add up the size, allocate,
   append the count and every record. `memoryOk` is the outcome of create_pdu_wbuf. fault: a program has fewer
   subtitle languages than audio languages, and the size loop has read behind them.
   */
  method BuildListReply(service: byte, opcode: byte, rs: List32<Record>, memoryOk: bool)
    returns (status: byte, wbuf: Wbuf?, fault: bool)
    requires AllReadable(rs) ==> 4 + CalculatedSizes(rs) < TWO32
    ensures fault <==> !AllReadable(rs)
    ensures status == ERROR_NONE || status == ERROR_NOMEM
    ensures status == ERROR_NONE <==> !fault && memoryOk && 4 + |AppendedRecords(rs)| <= PDU_MAX_DATA_LENGTH
    ensures status == ERROR_NONE ==>
              && wbuf != null && fresh(wbuf) && fresh(wbuf.raw) && wbuf.Valid()
              && wbuf.service == service && wbuf.opcode == opcode
              && wbuf.Payload() == U32Bytes(|rs|) + AppendedRecords(rs)
              && wbuf.Tail() == []
              && wbuf.maxLen - wbuf.len == Slacks(rs)
  {
    var size: u32, there := 4, true;
    size, there := SizeOfAll(size, rs);
    if !there {
      return ERROR_NOMEM, null, true;
    }
    if !memoryOk {
      return ERROR_NOMEM, null, false;
    }
    assert size == 4 + CalculatedSizes(rs);
    WrittenFitsReserved(rs);
    EncodeOne(I(|rs|));
    ghost var b1, b2 := EncodeFields([I(|rs|)]), AppendedRecords(rs);
    wbuf := new Wbuf(0, size, 0);
    wbuf.InitPdu(service, opcode);
    var res := wbuf.Append([I(|rs|)]);
    if res < 0 {
      return ERROR_NOMEM, null, false;
    }
    assert wbuf.Payload() == b1;
    res := AppendAll(wbuf, rs);
    if res < 0 {
      return ERROR_NOMEM, null, false;
    }
    return ERROR_NONE, wbuf, false;
  }

  /** set_channel once the channel is there. */
  method BuildChannelReply(service: byte, opcode: byte, ch: Channel, memoryOk: bool)
    returns (status: byte, wbuf: Wbuf?)
    requires CalculatedSize(ChannelRec(ch)) < TWO32
    ensures status == ERROR_NONE || status == ERROR_NOMEM
    ensures status == ERROR_NONE <==> memoryOk && |AppendedRecord(ChannelRec(ch))| <= PDU_MAX_DATA_LENGTH
    ensures status == ERROR_NONE ==>
              && wbuf != null && fresh(wbuf) && fresh(wbuf.raw) && wbuf.Valid()
              && wbuf.service == service && wbuf.opcode == opcode
              && wbuf.Payload() == AppendedRecord(ChannelRec(ch)) && wbuf.len == wbuf.maxLen
  {
    var chSize := CalculateChSize(Some(ch));
    if !memoryOk {
      return ERROR_NOMEM, null;
    }
    wbuf := new Wbuf(0, chSize, 0);
    wbuf.InitPdu(service, opcode);
    var res := AppendChannel(wbuf, ch);
    if res < 0 {
      return ERROR_NOMEM, null;
    }
    return ERROR_NONE, wbuf;
  }

  // ---------- notifications ----------

  /** The tuner id and source type that commands and notifications begin with. */
  function SourceFields(tunerId: CStr, sourceType: byte): seq<Field> {
    [Z(tunerId), C(sourceType)]
  }

  function SourceAndChannel(tunerId: CStr, sourceType: byte, ch: Channel): seq<byte> {
    EncodeFields(SourceFields(tunerId, sourceType)) + AppendedRecord(ChannelRec(ch))
  }

  ghost function EitPayload(tunerId: CStr, sourceType: byte, ch: Channel, progs: List32<Record>): seq<byte>
    requires AllReadable(progs)
  {
    SourceAndChannel(tunerId, sourceType, ch) + U32Bytes(|progs|) + AppendedRecords(progs)
  }

  ghost function EitSize(tunerId: CStr, ch: Channel, progs: seq<Record>): nat
    requires AllReadable(progs)
  {
    |tunerId| + 1 + 1 + CalculatedSize(ChannelRec(ch)) + 4 + CalculatedSizes(progs)
  }

  lemma EitLength(tunerId: CStr, sourceType: byte, ch: Channel, progs: List32<Record>)
    requires AllReadable(progs)
    ensures |EitPayload(tunerId, sourceType, ch, progs)| + Slacks(progs) == EitSize(tunerId, ch, progs)
    ensures |EncodeFields(SourceFields(tunerId, sourceType))| == |tunerId| + 2
  {
    EncodeTwo(Z(tunerId), C(sourceType));
    WrittenFitsReserved(progs);
    WrittenIsSizedLessTitle(ChannelRec(ch));
  }

  /** scanned_complete_cb and scanned_stopped_cb up to run_task. */
  method BuildScanStatus(opcode: byte, tunerId: CStr, sourceType: byte, memoryOk: bool) returns (wbuf: Wbuf?)
    ensures wbuf != null <==>
            memoryOk && |EncodeFields(SourceFields(tunerId, sourceType))| <= PDU_MAX_DATA_LENGTH
    ensures wbuf != null ==>
              && fresh(wbuf) && fresh(wbuf.raw) && wbuf.Valid()
              && wbuf.service == SERVICE_DTV && wbuf.opcode == opcode
              && wbuf.Payload() == EncodeFields(SourceFields(tunerId, sourceType)) && wbuf.len == wbuf.maxLen
  {
    if !memoryOk {
      return null;
    }
    EncodeTwo(Z(tunerId), C(sourceType));
    var buf := new Wbuf(0, |tunerId| + 1 + 1, 0);
    buf.InitPdu(SERVICE_DTV, opcode);
    var res := buf.Append(SourceFields(tunerId, sourceType));
    if res < 0 {
      return null;
    }
    return buf;
  }

  /** The appends that the channel and the event-table notification begin with. */
  method AppendSourceAndChannel(buf: Wbuf, tunerId: CStr, sourceType: byte, ch: Channel) returns (res: int)
    requires buf.Valid() && buf.Payload() == []
    requires |SourceAndChannel(tunerId, sourceType, ch)| <= buf.maxLen
    modifies buf`len, buf.raw
    ensures Appended(buf, SourceAndChannel(tunerId, sourceType, ch), res)
  {
    res := buf.Append(SourceFields(tunerId, sourceType));
    if res < 0 {
      return -1;
    }
    assert buf.Payload() == EncodeFields(SourceFields(tunerId, sourceType));
    res := AppendChannel(buf, ch);
  }

  /** channel_scanned_cb up to run_task. */
  method BuildChannelScanned(tunerId: CStr, sourceType: byte, ch: Channel, memoryOk: bool) returns (wbuf: Wbuf?)
    requires CalculatedSize(ChannelRec(ch)) < TWO32
    ensures var payload := SourceAndChannel(tunerId, sourceType, ch);
            && (wbuf != null <==> memoryOk && |payload| <= PDU_MAX_DATA_LENGTH)
            && (wbuf != null ==>
                  && fresh(wbuf) && fresh(wbuf.raw) && wbuf.Valid()
                  && wbuf.service == SERVICE_DTV && wbuf.opcode == OPCODE_CHANNEL_SCANNED
                  && wbuf.Payload() == payload && wbuf.len == wbuf.maxLen)
  {
    ghost var payload := SourceAndChannel(tunerId, sourceType, ch);
    var chSize := CalculateChSize(Some(ch));
    if !memoryOk {
      return null;
    }
    EncodeTwo(Z(tunerId), C(sourceType));
    assert |payload| == |tunerId| + 1 + 1 + chSize;
    var buf := new Wbuf(0, |tunerId| + 1 + 1 + chSize, 0);
    buf.InitPdu(SERVICE_DTV, OPCODE_CHANNEL_SCANNED);
    var res := AppendSourceAndChannel(buf, tunerId, sourceType, ch);
    if res < 0 {
      return null;
    }
    return buf;
  }

  /** The appends of eit_broadcasted_cb. */
  method AppendEit(buf: Wbuf, tunerId: CStr, sourceType: byte, ch: Channel, progs: List32<Record>) returns (res: int)
    requires AllReadable(progs)
    requires buf.Valid() && buf.Payload() == []
    requires |EitPayload(tunerId, sourceType, ch, progs)| <= buf.maxLen
    modifies buf`len, buf.raw
    ensures buf.Valid() && buf.service == old(buf.service) && buf.opcode == old(buf.opcode)
    ensures res < 0 <==> |EitPayload(tunerId, sourceType, ch, progs)| > PDU_MAX_DATA_LENGTH
    ensures res >= 0 ==> buf.Payload() == EitPayload(tunerId, sourceType, ch, progs)
  {
    ghost var b1, b2, b3 := SourceAndChannel(tunerId, sourceType, ch), EncodeFields([I(|progs|)]), AppendedRecords(progs);
    EncodeOne(I(|progs|));
    assert EitPayload(tunerId, sourceType, ch, progs) == b1 + b2 + b3;
    res := AppendSourceAndChannel(buf, tunerId, sourceType, ch);
    if res < 0 {
      return -1;
    }
    assert buf.Payload() == b1;
    res := buf.Append([I(|progs|)]);
    if res < 0 {
      return -1;
    }
    assert buf.Payload() == b1 + b2;
    res := AppendAll(buf, progs);
  }

  /** eit_broadcasted_cb up to run_task: null when the notification is dropped; fault as for the list replies. */
  method BuildEit(tunerId: CStr, sourceType: byte, ch: Channel, progs: List32<Record>, memoryOk: bool)
    returns (wbuf: Wbuf?, fault: bool)
    requires AllReadable(progs) ==> EitSize(tunerId, ch, progs) < TWO32
    ensures fault <==> !AllReadable(progs)
    ensures wbuf != null <==>
            !fault && memoryOk && |EitPayload(tunerId, sourceType, ch, progs)| <= PDU_MAX_DATA_LENGTH
    ensures wbuf != null ==>
              && fresh(wbuf) && fresh(wbuf.raw) && wbuf.Valid()
              && wbuf.service == SERVICE_DTV && wbuf.opcode == OPCODE_EIT_BROADCASTED
              && wbuf.Payload() == EitPayload(tunerId, sourceType, ch, progs)
              && wbuf.maxLen - wbuf.len == Slacks(progs)
  {
    var progSize: u32, there := 0, true;
    progSize, there := SizeOfAll(progSize, progs);
    if !there {
      return null, true;
    }
    var chSize := CalculateChSize(Some(ch));
    if !memoryOk {
      return null, false;
    }
    var size := |tunerId| + 1 + 1 + chSize + 4 + progSize;
    assert size == EitSize(tunerId, ch, progs);
    EitLength(tunerId, sourceType, ch, progs);
    var buf := new Wbuf(0, size, 0);
    buf.InitPdu(SERVICE_DTV, OPCODE_EIT_BROADCASTED);
    var res := AppendEit(buf, tunerId, sourceType, ch, progs);
    if res < 0 {
      return null, false;
    }
    return buf, false;
  }

  /** A client's reading of the event-table notification, with programs in the untitled layout. */
  function DecodeEit(b: seq<byte>): Option<(CStr, byte, Channel, seq<Record>, seq<byte>)> {
    OnlyEncodingsRead("0C", b);
    match ReadFields("0C", b)
    case None => None
    case Some((h, rest)) =>
      assert Letter(h[0]) == "0C"[0] && Letter(h[1]) == "0C"[1];
      match DecodeChannel(rest)
      case None => None
      case Some((ch, rest')) =>
        match DecodeList(ProgramKind(false), rest')
        case None => None
        case Some((progs, rest'')) => Some((h[0].s, h[1].c, ch, progs, rest''))
  }

  lemma SourceReads(tunerId: CStr, sourceType: byte, rest: seq<byte>)
    ensures ReadFields("0C", EncodeFields(SourceFields(tunerId, sourceType)) + rest)
            == Some((SourceFields(tunerId, sourceType), rest))
  {
    ReadsBack(SourceFields(tunerId, sourceType), rest);
    ShapedIs(SourceFields(tunerId, sourceType), "0C");
  }

  /** What a reader can see of a list comes from the list's encoding, and from nothing else. */
  lemma EncodedListReadsIff(kind: Kind, rs: List32<Record>, b: seq<byte>)
    requires AllOfKind(kind, rs)
    ensures DecodeList(kind, b) == Some((VisibleAll(kind, rs), [])) <==> b == EncodeList(kind, rs)
  {
    var vs: List32<Record> := VisibleAll(kind, rs);
    VisibleIsVisible(kind, rs);
    VisibleEncodes(kind, rs);
    ListDecodesIff(kind, vs, [], b);
    assert EncodeList(kind, vs) + [] == EncodeList(kind, rs);
  }

  /**
   A list reply reads back as its records (programs: the counted subtitle languages, and no titles) exactly when
   what is written for each record agrees with its layout, or is made up for behind it; so it does when all language
   counts agree, and, unless they differ both ways in one list, only then.
   */
  lemma ListReplyReadsBack(kind: Kind, rs: List32<Record>, payload: seq<byte>)
    requires AllOfKind(kind, rs) && kind != ProgramKind(true) && AllReadable(rs)
    requires payload == U32Bytes(|rs|) + AppendedRecords(rs)
    ensures var readsBack := DecodeList(kind, payload) == Some((VisibleAll(kind, rs), []));
            && (readsBack <==> SpellsItself(kind, rs))
            && (AllBalanced(rs) ==> readsBack)
            && (NoneCountsLess(rs) || NoneCountsMore(rs) ==> (readsBack <==> AllBalanced(rs)))
  {
    EncodedListReadsIff(kind, rs, payload);
    SpellsItselfIff(kind, rs);
    SpellsItselfWhen(kind, rs);
    SameBehindPrefix(U32Bytes(|rs|), AppendedRecords(rs), EncodeRecords(kind, rs));
  }

  lemma EitHeadReads(tunerId: CStr, sourceType: byte, ch: Channel, list: seq<byte>)
    ensures DecodeEit(SourceAndChannel(tunerId, sourceType, ch) + list) ==
            match DecodeList(ProgramKind(false), list)
            case None => None
            case Some((progs, rest)) => Some((tunerId, sourceType, ch, progs, rest))
  {
    var h, c := EncodeFields(SourceFields(tunerId, sourceType)), AppendedRecord(ChannelRec(ch));
    ConcatAssociates(h, c, list);
    SourceReads(tunerId, sourceType, c + list);
    ChannelDecodes(ch, list);
  }

  /** The notification reads back, all but the titles, under exactly the same conditions. */
  lemma EitReadsBack(tunerId: CStr, sourceType: byte, ch: Channel, progs: List32<Record>)
    requires AllOfKind(ProgramKind(false), progs) && AllReadable(progs)
    ensures var readsBack := DecodeEit(EitPayload(tunerId, sourceType, ch, progs))
                             == Some((tunerId, sourceType, ch, VisibleAll(ProgramKind(false), progs), []));
            && (readsBack <==> SpellsItself(ProgramKind(false), progs))
            && (AllBalanced(progs) ==> readsBack)
            && (NoneCountsLess(progs) || NoneCountsMore(progs) ==> (readsBack <==> AllBalanced(progs)))
  {
    var list := U32Bytes(|progs|) + AppendedRecords(progs);
    ConcatAssociates(SourceAndChannel(tunerId, sourceType, ch), U32Bytes(|progs|), AppendedRecords(progs));
    EitHeadReads(tunerId, sourceType, ch, list);
    ListReplyReadsBack(ProgramKind(false), progs, list);
  }
}
