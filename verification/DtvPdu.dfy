/** src/dtv_pdu.c: sizing and appending records; and the replies of src/dtv_io.c built from them. */
module DtvPdu {
  import opened Base
  import opened Wire
  import opened Records
  import opened PduBuffer

  // ---------- sizes (uint32_t accumulators) ----------

  method CalculateTunerSize(tuner: Option<Tuner>) returns (size: u32)
    ensures tuner.None? ==> size == 0
    ensures tuner.Some? ==> size == CalculatedSize(TunerRec(tuner.value)) % TWO32
  {
    size := 0;
    if tuner == None {
      return;
    }
    var t := tuner.value;
    TunerLength(t);
    size := Add32(size, 4);
    Add32Accumulates(4, |t.id| + 1);
    size := Add32(size, |t.id| + 1);
    Add32Accumulates(4 + (|t.id| + 1), |t.types|);
    size := Add32(size, |t.types|);
  }

  method CalculateChSize(ch: Option<Channel>) returns (size: u32)
    ensures ch.None? ==> size == 0
    ensures ch.Some? ==> size == CalculatedSize(ChannelRec(ch.value)) % TWO32
  {
    size := 0;
    if ch == None {
      return;
    }
    var c := ch.value;
    ChannelLength(c);
    ghost var total := 0;
    Add32Accumulates(total, |c.networkId| + 1);
    size, total := Add32(size, |c.networkId| + 1), total + |c.networkId| + 1;
    Add32Accumulates(total, |c.transStreamId| + 1);
    size, total := Add32(size, |c.transStreamId| + 1), total + |c.transStreamId| + 1;
    Add32Accumulates(total, |c.serviceId| + 1);
    size, total := Add32(size, |c.serviceId| + 1), total + |c.serviceId| + 1;
    Add32Accumulates(total, 1);
    size, total := Add32(size, 1), total + 1;
    Add32Accumulates(total, |c.number| + 1);
    size, total := Add32(size, |c.number| + 1), total + |c.number| + 1;
    Add32Accumulates(total, |c.name| + 1);
    size, total := Add32(size, |c.name| + 1), total + |c.name| + 1;
    Add32Accumulates(total, 1);
    size, total := Add32(size, 1), total + 1;
    Add32Accumulates(total, 1);
    size, total := Add32(size, 1), total + 1;
  }

  /**
   One of the two language loops of calculate_prog_size; `total` is the sum before wrapping. there: each of the
   n entries it reads exists.
   */
  method AddStrings(start: u32, ghost total: nat, ss: seq<CStr>, n: nat) returns (size: u32, there: bool)
    requires start == total % TWO32
    ensures there <==> n <= |ss|
    ensures there ==> size == (total + StringsLength(ss[..n])) % TWO32
  {
    size := start;
    for i := 0 to n
      invariant i <= |ss|
      invariant size == (total + StringsLength(ss[..i])) % TWO32
    {
      if i == |ss| {
        return size, false;
      }
      assert ss[..i + 1] == ss[..i] + [ss[i]];
      StringsSnoc(ss[..i], ss[i]);
      Add32Accumulates(total + StringsLength(ss[..i]), |ss[i]| + 1);
      size := Add32(size, |ss[i]| + 1);
    }
    return size, true;
  }

  /** The sum of calculate_prog_size, with stlNum as the bound of its second loop. */
  method SumProgram(p: Program, stlNum: nat) returns (size: u32, there: bool)
    ensures there <==> stlNum <= |p.stlLangs|
    ensures there ==> size == ProgramSizeTo(p, stlNum) % TWO32
  {
    size := 0;
    ghost var total := 0;
    Add32Accumulates(total, |p.evtId| + 1);
    size, total := Add32(size, |p.evtId| + 1), total + |p.evtId| + 1;
    Add32Accumulates(total, |p.title| + 1);
    size, total := Add32(size, |p.title| + 1), total + |p.title| + 1;
    Add32Accumulates(total, 8);
    size, total := Add32(size, 8), total + 8;
    Add32Accumulates(total, 8);
    size, total := Add32(size, 8), total + 8;
    Add32Accumulates(total, |p.descpt| + 1);
    size, total := Add32(size, |p.descpt| + 1), total + |p.descpt| + 1;
    Add32Accumulates(total, |p.rating| + 1);
    size, total := Add32(size, |p.rating| + 1), total + |p.rating| + 1;
    Add32Accumulates(total, 4);
    size, total := Add32(size, 4), total + 4;
    assert p.langs[..|p.langs|] == p.langs;
    size, there := AddStrings(size, total, p.langs, |p.langs|);
    total := total + StringsLength(p.langs);
    Add32Accumulates(total, 4);
    size, total := Add32(size, 4), total + 4;
    size, there := AddStrings(size, total, p.stlLangs, stlNum);
  }

  method CalculateProgSize(prog: Option<Program>) returns (size: u32, there: bool)
    ensures there <==> prog.Some? ==> Readable(ProgramRec(prog.value))
    ensures prog.None? ==> size == 0
    ensures prog.Some? && there ==> size == CalculatedSize(ProgramRec(prog.value)) % TWO32
  {
    if prog == None {
      return 0, true;
    }
    ProgramSizes(prog.value);
    size, there := SumProgram(prog.value, |prog.value.langs|);
  }

  /** calculate_prog_size with its second loop run to stl_lang_num. */
  method CalculateProgSizeIntended(prog: Option<Program>) returns (size: u32, there: bool)
    ensures there <==> prog.Some? ==> Counted(prog.value)
    ensures prog.None? ==> size == 0
    ensures prog.Some? && there ==> size == |EncodeRecord(ProgramKind(true), ProgramRec(prog.value))| % TWO32
  {
    if prog == None {
      return 0, true;
    }
    ProgramSizes(prog.value);
    size, there := SumProgram(prog.value, prog.value.stlNum);
  }

  method CalculateSize(r: Record) returns (size: u32, there: bool)
    ensures there <==> Readable(r)
    ensures there ==> size == CalculatedSize(r) % TWO32
  {
    there := true;
    match r
    case TunerRec(t) => size := CalculateTunerSize(Some(t));
    case ChannelRec(c) => size := CalculateChSize(Some(c));
    case ProgramRec(p) => size, there := CalculateProgSize(Some(p));
  }

  // ---------- appending ----------

  /** What every append_* leaves behind: the octets at the end of the payload, or an error because the PDU is full. */
  twostate predicate Appended(wbuf: Wbuf, b: seq<byte>, res: int)
    reads wbuf, wbuf.raw
  {
    && old(wbuf.Valid()) && wbuf.Valid()
    && wbuf.service == old(wbuf.service) && wbuf.opcode == old(wbuf.opcode)
    && wbuf.Tail() == old(wbuf.Tail())
    && (res < 0 <==> old(wbuf.len) + |b| > PDU_MAX_DATA_LENGTH)
    && (res >= 0 ==> wbuf.Payload() == old(wbuf.Payload()) + b)
  }

  /** The loop of append_tuner over the supported types. */
  method AppendTypes(wbuf: Wbuf, types: seq<byte>) returns (res: int)
    requires wbuf.Valid() && wbuf.len + |types| <= wbuf.maxLen
    modifies wbuf`len, wbuf.raw
    ensures Appended(wbuf, types, res)
  {
    for i := 0 to |types|
      invariant wbuf.Valid() && wbuf.Tail() == old(wbuf.Tail())
      invariant wbuf.Payload() == old(wbuf.Payload()) + types[..i]
    {
      EncodeOne(C(types[i]));
      res := wbuf.Append([C(types[i])]);
      if res < 0 {
        return -1;
      }
      assert types[..i + 1] == types[..i] + [types[i]];
      ConcatAssociates(old(wbuf.Payload()), types[..i], [types[i]]);
    }
    assert types[..|types|] == types;
    return 0;
  }

  method AppendTuner(wbuf: Wbuf, t: Tuner) returns (res: int)
    requires wbuf.Valid() && wbuf.len + |AppendedRecord(TunerRec(t))| <= wbuf.maxLen
    modifies wbuf`len, wbuf.raw
    ensures Appended(wbuf, AppendedRecord(TunerRec(t)), res)
  {
    TunerParts(t, []);
    OctetsAreThemselves(t.types);
    ConcatAssociates(wbuf.Payload(), EncodeFields(TunerHead(t)), t.types);
    res := wbuf.Append([Z(t.id), I(|t.types|)]);
    if res < 0 {
      return -1;
    }
    res := AppendTypes(wbuf, t.types);
  }

  /** append_channel with all eight arguments of its format (see README on the missing name). */
  method AppendChannel(wbuf: Wbuf, c: Channel) returns (res: int)
    requires wbuf.Valid() && wbuf.len + |AppendedRecord(ChannelRec(c))| <= wbuf.maxLen
    modifies wbuf`len, wbuf.raw
    ensures Appended(wbuf, AppendedRecord(ChannelRec(c)), res)
  {
    res := wbuf.Append([Z(c.networkId), Z(c.transStreamId), Z(c.serviceId), C(c.kind),
                        Z(c.number), Z(c.name), C(c.isEmergency), C(c.isFree)]);
  }

  lemma NextString(ss: seq<CStr>, i: nat, n: nat)
    requires i < n <= |ss|
    ensures EncodeFields(Strings(ss[..i + 1])) == EncodeFields(Strings(ss[..i])) + EncodeFields([Z(ss[i])])
    ensures StringsLength(ss[..i + 1]) <= StringsLength(ss[..n])
  {
    assert ss[..i + 1] == ss[..i] + [ss[i]];
    StringsSnoc(ss[..i], ss[i]);
    EncodeOne(Z(ss[i]));
    assert ss[..n] == ss[..i + 1] + ss[i + 1..n];
    StringsConcat(ss[..i + 1], ss[i + 1..n]);
  }

  /** One of the two language loops of append_program; `rest` octets follow in the same record. */
  method AppendStrings(wbuf: Wbuf, ss: seq<CStr>, n: nat) returns (res: int)
    requires n <= |ss|
    requires wbuf.Valid() && wbuf.len + StringsLength(ss[..n]) <= wbuf.maxLen
    modifies wbuf`len, wbuf.raw
    ensures Appended(wbuf, EncodeFields(Strings(ss[..n])), res)
  {
    for i := 0 to n
      invariant wbuf.Valid() && wbuf.Tail() == old(wbuf.Tail())
      invariant wbuf.Payload() == old(wbuf.Payload()) + EncodeFields(Strings(ss[..i]))
    {
      NextString(ss, i, n);
      ConcatAssociates(old(wbuf.Payload()), EncodeFields(Strings(ss[..i])), EncodeFields([Z(ss[i])]));
      res := wbuf.Append([Z(ss[i])]);
      if res < 0 {
        return -1;
      }
    }
    return 0;
  }

  method AppendProgram(wbuf: Wbuf, p: Program) returns (res: int)
    requires Readable(ProgramRec(p))
    requires wbuf.Valid() && wbuf.len + |AppendedRecord(ProgramRec(p))| <= wbuf.maxLen
    modifies wbuf`len, wbuf.raw
    ensures Appended(wbuf, AppendedRecord(ProgramRec(p)), res)
  {
    AppendedParts(p);
    assert p.langs[..|p.langs|] == p.langs;
    EncodeOne(I(p.stlNum));
    ghost var start := wbuf.Payload();
    ghost var b1, b2 := EncodeFields(ProgramHead(false, p)), EncodeFields(Strings(p.langs));
    ghost var b3, b4 := U32Bytes(p.stlNum), EncodeFields(Strings(p.stlLangs[..|p.langs|]));
    ConcatAssociates(start, b1, b2);
    ConcatAssociates(start, b1 + b2, b3);
    ConcatAssociates(start, b1 + b2 + b3, b4);
    res := wbuf.Append([Z(p.evtId), L(p.startTime), L(p.duration), Z(p.descpt), Z(p.rating), I(|p.langs|)]);
    if res < 0 {
      return -1;
    }
    res := AppendStrings(wbuf, p.langs, |p.langs|);
    if res < 0 {
      return -1;
    }
    res := wbuf.Append([I(p.stlNum)]);
    if res < 0 {
      return -1;
    }
    res := AppendStrings(wbuf, p.stlLangs, |p.langs|);
    if res < 0 {
      return -1;
    }
    return 0;
  }

  method AppendOne(wbuf: Wbuf, r: Record) returns (res: int)
    requires Readable(r)
    requires wbuf.Valid() && wbuf.len + |AppendedRecord(r)| <= wbuf.maxLen
    modifies wbuf`len, wbuf.raw
    ensures Appended(wbuf, AppendedRecord(r), res)
  {
    match r
    case TunerRec(t) => res := AppendTuner(wbuf, t);
    case ChannelRec(c) => res := AppendChannel(wbuf, c);
    case ProgramRec(p) => res := AppendProgram(wbuf, p);
  }

  // ---------- the size loop and the append loop of a list ----------

  /** `pdu_size += calculate_*_size(&list[idx])` over a list, up to the first program with too few entries. */
  method SizeOfAll(start: u32, rs: seq<Record>) returns (size: u32, there: bool)
    ensures there <==> AllReadable(rs)
    ensures there ==> size == (start + CalculatedSizes(rs)) % TWO32
  {
    size := start;
    for i := 0 to |rs|
      invariant AllReadable(rs[..i])
      invariant size == (start + CalculatedSizes(rs[..i])) % TWO32
    {
      var s;
      s, there := CalculateSize(rs[i]);
      if !there {
        return;
      }
      NextSize(start, rs, i, size, s);
      size := Add32(size, s);
    }
    assert rs[..|rs|] == rs;
    return size, true;
  }

  lemma NextSize(start: u32, rs: seq<Record>, i: nat, size: u32, s: u32)
    requires i < |rs| && AllReadable(rs[..i]) && Readable(rs[i])
    requires size == (start + CalculatedSizes(rs[..i])) % TWO32 && s == CalculatedSize(rs[i]) % TWO32
    ensures AllReadable(rs[..i + 1])
    ensures Add32(size, s) == (start + CalculatedSizes(rs[..i + 1])) % TWO32
  {
    NextCalculated(rs, i);
    WrapTwice(start + CalculatedSizes(rs[..i]), CalculatedSize(rs[i]));
  }

  lemma NextCalculated(rs: seq<Record>, i: nat)
    requires i < |rs| && AllReadable(rs[..i]) && Readable(rs[i])
    ensures AllReadable(rs[..i + 1])
    ensures CalculatedSizes(rs[..i + 1]) == CalculatedSizes(rs[..i]) + CalculatedSize(rs[i])
  {
    assert rs[..i + 1][..i] == rs[..i];
  }

  lemma WrapTwice(a: nat, b: nat)
    ensures Add32(a % TWO32, b % TWO32) == (a + b) % TWO32
  {
    Add32Accumulates(b, a % TWO32);
    Add32Accumulates(a, b);
  }

  /** `append_*(pdu, &list[idx])` over a list. */
  method AppendAll(wbuf: Wbuf, rs: seq<Record>) returns (res: int)
    requires AllReadable(rs)
    requires wbuf.Valid() && wbuf.len + |AppendedRecords(rs)| <= wbuf.maxLen
    modifies wbuf`len, wbuf.raw
    ensures Appended(wbuf, AppendedRecords(rs), res)
  {
    for i := 0 to |rs|
      invariant wbuf.Valid() && wbuf.Tail() == old(wbuf.Tail())
      invariant wbuf.Payload() == old(wbuf.Payload()) + AppendedRecords(rs[..i])
    {
      NextRecord(rs, i);
      ReservedGrows(rs, i + 1);
      ConcatAssociates(old(wbuf.Payload()), AppendedRecords(rs[..i]), AppendedRecord(rs[i]));
      res := AppendOne(wbuf, rs[i]);
      if res < 0 {
        return -1;
      }
    }
    assert rs[..|rs|] == rs;
    return 0;
  }
}
