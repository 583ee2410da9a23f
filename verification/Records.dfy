/**
 The three records the DTV service sends (src/tv_utils.h, doc/ipc.txt "Structures"): how the
 protocol document lays them out, what append_* really writes, and how a client reads them back.
 */
module Records {
  import opened Base
  import opened Wire

  datatype Tuner = Tuner(id: CStr, types: List32<byte>)

  datatype Channel = Channel(
    networkId: CStr, transStreamId: CStr, serviceId: CStr, kind: byte,
    number: CStr, name: CStr, isEmergency: byte, isFree: byte)

  /** stlNum is the field stl_lang_num; stlLangs are the entries that stl_langs really has. */
  datatype Program = Program(
    evtId: CStr, title: CStr, startTime: u64, duration: u64, descpt: CStr, rating: CStr,
    langs: List32<CStr>, stlNum: u32, stlLangs: seq<CStr>)

  datatype Record = TunerRec(tuner: Tuner) | ChannelRec(channel: Channel) | ProgramRec(program: Program)

  /** ProgramKind(true) is the documented program structure, ProgramKind(false) the same without the title. */
  datatype Kind = TunerKind | ChannelKind | ProgramKind(titled: bool)

  // ---------- layouts ----------

  function Octets(b: seq<byte>): (fs: seq<Field>)
    ensures |fs| == |b| && forall k :: 0 <= k < |b| ==> fs[k] == C(b[k])
  {
    seq(|b|, k requires 0 <= k < |b| => C(b[k]))
  }

  function Strings(ss: seq<CStr>): (fs: seq<Field>)
    ensures |fs| == |ss| && forall k :: 0 <= k < |ss| ==> fs[k] == Z(ss[k])
  {
    seq(|ss|, k requires 0 <= k < |ss| => Z(ss[k]))
  }

  function TunerHead(t: Tuner): seq<Field> {
    [Z(t.id), I(|t.types|)]
  }

  function ChannelFields(c: Channel): seq<Field> {
    [Z(c.networkId), Z(c.transStreamId), Z(c.serviceId), C(c.kind),
     Z(c.number), Z(c.name), C(c.isEmergency), C(c.isFree)]
  }

  function ProgramHead(titled: bool, p: Program): seq<Field> {
    if titled then
      [Z(p.evtId), Z(p.title), L(p.startTime), L(p.duration), Z(p.descpt), Z(p.rating), I(|p.langs|)]
    else
      [Z(p.evtId), L(p.startTime), L(p.duration), Z(p.descpt), Z(p.rating), I(|p.langs|)]
  }

  /** As many subtitle languages are there as stl_lang_num says. */
  predicate Counted(p: Program) {
    p.stlNum <= |p.stlLangs|
  }

  function Subtitles(p: Program): seq<CStr>
    requires Counted(p)
  {
    p.stlLangs[..p.stlNum]
  }

  function ProgramFields(titled: bool, p: Program): seq<Field>
    requires Counted(p)
  {
    ProgramHead(titled, p) + Strings(p.langs) + [I(p.stlNum)] + Strings(Subtitles(p))
  }

  /** The layout of this kind can hold the record. */
  predicate OfKind(kind: Kind, r: Record) {
    match kind
    case TunerKind => r.TunerRec?
    case ChannelKind => r.ChannelRec?
    case ProgramKind(_) => r.ProgramRec? && Counted(r.program)
  }

  /** The octets of a record in the layout of its kind. */
  function EncodeRecord(kind: Kind, r: Record): seq<byte>
    requires OfKind(kind, r)
  {
    match kind
    case TunerKind => EncodeFields(TunerHead(r.tuner) + Octets(r.tuner.types))
    case ChannelKind => EncodeFields(ChannelFields(r.channel))
    case ProgramKind(titled) => EncodeFields(ProgramFields(titled, r.program))
  }

  // ---------- reading them back ----------

  function Repeat(c: char, n: nat): (fmt: string)
    ensures |fmt| == n && forall k :: 0 <= k < n ==> fmt[k] == c
  {
    seq(n, _ => c)
  }

  /** Values that were read with these letters, in order. */
  ghost predicate Shaped(h: seq<Field>, fmt: string) {
    |h| == |fmt| && forall k :: 0 <= k < |h| ==> Letter(h[k]) == fmt[k]
  }

  lemma ShapedIs(h: seq<Field>, fmt: string)
    requires Shaped(h, fmt)
    ensures FormatOf(h) == fmt
  {
  }

  function OctetsOf(fs: seq<Field>): seq<byte>
    requires Shaped(fs, Repeat('C', |fs|))
  {
    seq(|fs|, k requires 0 <= k < |fs| => assert Letter(fs[k]) == 'C'; fs[k].c)
  }

  function StringsOf(fs: seq<Field>): seq<CStr>
    requires Shaped(fs, Repeat('0', |fs|))
  {
    seq(|fs|, k requires 0 <= k < |fs| => assert Letter(fs[k]) == '0'; fs[k].s)
  }

  function ReadOctets(n: nat, b: seq<byte>): (r: Option<(seq<byte>, seq<byte>)>)
    ensures r.Some? ==> |r.value.0| == n
  {
    OnlyEncodingsRead(Repeat('C', n), b);
    match ReadFields(Repeat('C', n), b)
    case None => None
    case Some((fs, rest)) => Some((OctetsOf(fs), rest))
  }

  function ReadStrings(n: nat, b: seq<byte>): (r: Option<(seq<CStr>, seq<byte>)>)
    ensures r.Some? ==> |r.value.0| == n
  {
    OnlyEncodingsRead(Repeat('0', n), b);
    match ReadFields(Repeat('0', n), b)
    case None => None
    case Some((fs, rest)) => Some((StringsOf(fs), rest))
  }

  lemma OctetsRoundTrip(x: seq<byte>)
    ensures FormatOf(Octets(x)) == Repeat('C', |x|) && OctetsOf(Octets(x)) == x
  {
  }

  lemma StringsRoundTrip(ss: seq<CStr>)
    ensures FormatOf(Strings(ss)) == Repeat('0', |ss|) && StringsOf(Strings(ss)) == ss
  {
  }

  lemma OnlyOctets(fs: seq<Field>)
    requires Shaped(fs, Repeat('C', |fs|))
    ensures Octets(OctetsOf(fs)) == fs
  {
  }

  lemma OnlyStrings(fs: seq<Field>)
    requires Shaped(fs, Repeat('0', |fs|))
    ensures Strings(StringsOf(fs)) == fs
  {
  }

  lemma ReadOctetsBack(x: seq<byte>, rest: seq<byte>)
    ensures ReadOctets(|x|, EncodeFields(Octets(x)) + rest) == Some((x, rest))
  {
    ReadsBack(Octets(x), rest);
    OctetsRoundTrip(x);
  }

  lemma OnlyOctetsRead(n: nat, b: seq<byte>)
    requires ReadOctets(n, b).Some?
    ensures b == EncodeFields(Octets(ReadOctets(n, b).value.0)) + ReadOctets(n, b).value.1
  {
    OnlyEncodingsRead(Repeat('C', n), b);
    OnlyOctets(ReadFields(Repeat('C', n), b).value.0);
  }

  lemma ReadStringsBack(ss: seq<CStr>, rest: seq<byte>)
    ensures ReadStrings(|ss|, EncodeFields(Strings(ss)) + rest) == Some((ss, rest))
  {
    ReadsBack(Strings(ss), rest);
    StringsRoundTrip(ss);
  }

  lemma OnlyStringsRead(n: nat, b: seq<byte>)
    requires ReadStrings(n, b).Some?
    ensures b == EncodeFields(Strings(ReadStrings(n, b).value.0)) + ReadStrings(n, b).value.1
  {
    OnlyEncodingsRead(Repeat('0', n), b);
    OnlyStrings(ReadFields(Repeat('0', n), b).value.0);
  }

  /** The fixed part of a tuner: its id and the number of supported types. */
  function ReadTunerHead(b: seq<byte>): Option<(CStr, u32, seq<byte>)> {
    OnlyEncodingsRead("0I", b);
    match ReadFields("0I", b)
    case None => None
    case Some((h, rest)) =>
      assert Letter(h[0]) == "0I"[0] && Letter(h[1]) == "0I"[1];
      Some((h[0].s, h[1].i, rest))
  }

  function DecodeTuner(b: seq<byte>): Option<(Tuner, seq<byte>)> {
    match ReadTunerHead(b)
    case None => None
    case Some((id, n, rest)) =>
      match ReadOctets(n, rest)
      case None => None
      case Some((types, rest')) => Some((Tuner(id, types), rest'))
  }

  const CHANNEL_FORMAT := "000C00CC"

  function ChannelOf(h: seq<Field>): Channel
    requires Shaped(h, CHANNEL_FORMAT)
  {
    assert forall k :: 0 <= k < 8 ==> Letter(h[k]) == CHANNEL_FORMAT[k];
    Channel(h[0].s, h[1].s, h[2].s, h[3].c, h[4].s, h[5].s, h[6].c, h[7].c)
  }

  function DecodeChannel(b: seq<byte>): Option<(Channel, seq<byte>)> {
    OnlyEncodingsRead(CHANNEL_FORMAT, b);
    match ReadFields(CHANNEL_FORMAT, b)
    case None => None
    case Some((h, rest)) => Some((ChannelOf(h), rest))
  }

  function ProgramFormat(titled: bool): string {
    if titled then "00LL00I" else "0LL00I"
  }

  function ProgramHeadOf(titled: bool, h: seq<Field>): (Program, u32)
    requires Shaped(h, ProgramFormat(titled))
  {
    assert forall k :: 0 <= k < |h| ==> Letter(h[k]) == ProgramFormat(titled)[k];
    if titled then (Program(h[0].s, h[1].s, h[2].l, h[3].l, h[4].s, h[5].s, [], 0, []), h[6].i)
    else (Program(h[0].s, [], h[1].l, h[2].l, h[3].s, h[4].s, [], 0, []), h[5].i)
  }

  /** The fixed part of a program: all fields but the two language lists, and the number of audio languages. */
  function ReadProgramHead(titled: bool, b: seq<byte>): Option<(Program, u32, seq<byte>)> {
    OnlyEncodingsRead(ProgramFormat(titled), b);
    match ReadFields(ProgramFormat(titled), b)
    case None => None
    case Some((h, rest)) =>
      var (p, n) := ProgramHeadOf(titled, h);
      Some((p, n, rest))
  }

  function DecodeProgram(titled: bool, b: seq<byte>): Option<(Program, seq<byte>)> {
    match ReadProgramHead(titled, b)
    case None => None
    case Some((head, langNum, rest)) =>
      match ReadStrings(langNum, rest)
      case None => None
      case Some((langs, rest')) =>
        match ReadStringCount(rest')
        case None => None
        case Some((stlNum, rest'')) =>
          match ReadStrings(stlNum, rest'')
          case None => None
          case Some((stlLangs, rest''')) =>
            Some((head.(langs := langs, stlNum := stlNum, stlLangs := stlLangs), rest'''))
  }

  function ReadStringCount(b: seq<byte>): Option<(u32, seq<byte>)> {
    OnlyEncodingsRead("I", b);
    match ReadFields("I", b)
    case None => None
    case Some((h, rest)) => assert Letter(h[0]) == "I"[0]; Some((h[0].i, rest))
  }

  function DecodeRecord(kind: Kind, b: seq<byte>): Option<(Record, seq<byte>)> {
    match kind
    case TunerKind => (match DecodeTuner(b) case None => None case Some((t, rest)) => Some((TunerRec(t), rest)))
    case ChannelKind => (match DecodeChannel(b) case None => None case Some((c, rest)) => Some((ChannelRec(c), rest)))
    case ProgramKind(titled) =>
      (match DecodeProgram(titled, b) case None => None case Some((p, rest)) => Some((ProgramRec(p), rest)))
  }

  /** The fixed part of a program. */
  function Bare(p: Program): Program {
    p.(langs := [], stlNum := 0, stlLangs := [])
  }

  /** What a reader of the layout can know of a program: the counted subtitle languages, and no title where there is none. */
  function VisibleProgram(titled: bool, p: Program): (v: Program)
    requires Counted(p)
    ensures Counted(v) && ProgramFields(titled, v) == ProgramFields(titled, p)
  {
    var v := p.(title := if titled then p.title else [], stlLangs := Subtitles(p));
    assert Subtitles(v) == Subtitles(p);
    v
  }

  /** What a reader of the layout can know of a record. */
  function Visible(kind: Kind, r: Record): (v: Record)
    requires OfKind(kind, r)
    ensures OfKind(kind, v) && EncodeRecord(kind, v) == EncodeRecord(kind, r)
  {
    match kind
    case ProgramKind(titled) => ProgramRec(VisibleProgram(titled, r.program))
    case _ => r
  }

  lemma CountIff(n: u32, rest: seq<byte>, b: seq<byte>)
    ensures ReadStringCount(b) == Some((n, rest)) <==> b == U32Bytes(n) + rest
  {
    ReadIff([I(n)], rest, "I", b);
    OnlyEncodingsRead("I", b);
    EncodeOne(I(n));
    assert FormatOf([I(n)]) == "I";
    if ReadStringCount(b) == Some((n, rest)) {
      var h := ReadFields("I", b).value.0;
      assert Letter(h[0]) == 'I';
      assert h == [I(n)];
    }
  }

  lemma TunerHeadReads(t: Tuner, rest: seq<byte>)
    ensures ReadTunerHead(EncodeFields(TunerHead(t)) + rest) == Some((t.id, |t.types|, rest))
  {
    ReadsBack(TunerHead(t), rest);
    ShapedIs(TunerHead(t), "0I");
  }

  lemma TunerHeadOnlyEncodings(b: seq<byte>, t: Tuner)
    requires ReadTunerHead(b).Some? && ReadTunerHead(b).value.0 == t.id && ReadTunerHead(b).value.1 == |t.types|
    ensures b == EncodeFields(TunerHead(t)) + ReadTunerHead(b).value.2
  {
    OnlyEncodingsRead("0I", b);
    var h := ReadFields("0I", b).value.0;
    assert Letter(h[0]) == "0I"[0] && Letter(h[1]) == "0I"[1];
    assert h == TunerHead(t);
  }

  /** The octets of a tuner, part by part. */
  lemma TunerParts(t: Tuner, rest: seq<byte>)
    ensures EncodeRecord(TunerKind, TunerRec(t)) == EncodeFields(TunerHead(t)) + EncodeFields(Octets(t.types))
    ensures EncodeRecord(TunerKind, TunerRec(t)) + rest
            == EncodeFields(TunerHead(t)) + (EncodeFields(Octets(t.types)) + rest)
  {
    EncodeConcat(TunerHead(t), Octets(t.types));
    ConcatAssociates(EncodeFields(TunerHead(t)), EncodeFields(Octets(t.types)), rest);
  }

  lemma TunerDecodes(t: Tuner, rest: seq<byte>)
    ensures DecodeTuner(EncodeRecord(TunerKind, TunerRec(t)) + rest) == Some((t, rest))
  {
    TunerParts(t, rest);
    TunerHeadReads(t, EncodeFields(Octets(t.types)) + rest);
    ReadOctetsBack(t.types, rest);
  }

  lemma TunerOnlyEncodings(b: seq<byte>)
    requires DecodeTuner(b).Some?
    ensures var (t, rest) := DecodeTuner(b).value; b == EncodeRecord(TunerKind, TunerRec(t)) + rest
  {
    var (t, rest) := DecodeTuner(b).value;
    var (_, n, mid) := ReadTunerHead(b).value;
    OnlyOctetsRead(n, mid);
    TunerHeadOnlyEncodings(b, t);
    TunerParts(t, rest);
  }

  lemma ChannelFieldsOf(h: seq<Field>)
    requires Shaped(h, CHANNEL_FORMAT)
    ensures ChannelFields(ChannelOf(h)) == h
  {
  }

  lemma ProgramFieldsOf(titled: bool, h: seq<Field>, p: Program)
    requires Shaped(h, ProgramFormat(titled))
    requires ProgramHeadOf(titled, h) == (Bare(p), |p.langs|)
    ensures ProgramHead(titled, p) == h
  {
  }

  lemma ChannelShape(c: Channel)
    ensures FormatOf(ChannelFields(c)) == CHANNEL_FORMAT && ChannelOf(ChannelFields(c)) == c
  {
  }

  lemma ChannelDecodes(c: Channel, rest: seq<byte>)
    ensures DecodeChannel(EncodeRecord(ChannelKind, ChannelRec(c)) + rest) == Some((c, rest))
  {
    ChannelShape(c);
    ReadsBack(ChannelFields(c), rest);
  }

  lemma ChannelOnlyEncodings(b: seq<byte>)
    requires DecodeChannel(b).Some?
    ensures var (c, rest) := DecodeChannel(b).value; b == EncodeRecord(ChannelKind, ChannelRec(c)) + rest
  {
    OnlyEncodingsRead(CHANNEL_FORMAT, b);
    ChannelFieldsOf(ReadFields(CHANNEL_FORMAT, b).value.0);
  }

  lemma ProgramHeadShape(titled: bool, p: Program)
    requires !titled ==> p.title == []
    ensures Shaped(ProgramHead(titled, p), ProgramFormat(titled))
    ensures ProgramHeadOf(titled, ProgramHead(titled, p)) == (Bare(p), |p.langs|)
  {
  }

  lemma ProgramHeadReads(titled: bool, p: Program, rest: seq<byte>)
    requires !titled ==> p.title == []
    ensures ReadProgramHead(titled, EncodeFields(ProgramHead(titled, p)) + rest)
            == Some((Bare(p), |p.langs|, rest))
  {
    var fs := ProgramHead(titled, p);
    ProgramHeadShape(titled, p);
    ShapedIs(fs, ProgramFormat(titled));
    ReadsBack(fs, rest);
  }

  lemma ProgramHeadOnlyEncodings(titled: bool, b: seq<byte>, p: Program)
    requires ReadProgramHead(titled, b).Some?
    requires var (head, n, rest) := ReadProgramHead(titled, b).value;
             Bare(p) == head && |p.langs| == n
    ensures b == EncodeFields(ProgramHead(titled, p)) + ReadProgramHead(titled, b).value.2
    ensures !titled ==> p.title == []
  {
    OnlyEncodingsRead(ProgramFormat(titled), b);
    ProgramFieldsOf(titled, ReadFields(ProgramFormat(titled), b).value.0, p);
  }

  lemma RightNested(a: seq<byte>, b: seq<byte>, c: seq<byte>, d: seq<byte>, e: seq<byte>)
    ensures a + b + c + d + e == a + (b + (c + (d + e)))
  {
  }

  /** The octets of a program, part by part. */
  lemma ProgramParts(titled: bool, p: Program, rest: seq<byte>)
    requires Counted(p)
    ensures EncodeFields(ProgramFields(titled, p)) + rest ==
            EncodeFields(ProgramHead(titled, p)) + (EncodeFields(Strings(p.langs))
            + (U32Bytes(p.stlNum) + (EncodeFields(Strings(Subtitles(p))) + rest)))
  {
    var f1, f2, f3, f4 := ProgramHead(titled, p), Strings(p.langs), [I(p.stlNum)], Strings(Subtitles(p));
    EncodeConcat(f1, f2);
    EncodeConcat(f1 + f2, f3);
    EncodeConcat(f1 + f2 + f3, f4);
    EncodeOne(I(p.stlNum));
    RightNested(EncodeFields(f1), EncodeFields(f2), EncodeFields(f3), EncodeFields(f4), rest);
  }

  lemma ProgramDecodes(titled: bool, p: Program, rest: seq<byte>)
    requires |p.stlLangs| == p.stlNum && (!titled ==> p.title == [])
    ensures DecodeProgram(titled, EncodeFields(ProgramFields(titled, p)) + rest) == Some((p, rest))
  {
    assert Subtitles(p) == p.stlLangs;
    var b4 := EncodeFields(Strings(p.stlLangs)) + rest;
    var b3 := U32Bytes(p.stlNum) + b4;
    var b2 := EncodeFields(Strings(p.langs)) + b3;
    ProgramParts(titled, p, rest);
    ProgramHeadReads(titled, p, b2);
    ReadStringsBack(p.langs, b3);
    CountIff(p.stlNum, b4, b3);
    ReadStringsBack(p.stlLangs, rest);
  }

  lemma ProgramOnlyEncodings(titled: bool, b: seq<byte>)
    requires DecodeProgram(titled, b).Some?
    ensures var (p, rest) := DecodeProgram(titled, b).value;
            && |p.stlLangs| == p.stlNum && (!titled ==> p.title == [])
            && b == EncodeFields(ProgramFields(titled, p)) + rest
  {
    var (p, rest) := DecodeProgram(titled, b).value;
    var (head, langNum, b2) := ReadProgramHead(titled, b).value;
    var (langs, b3) := ReadStrings(langNum, b2).value;
    var (stlNum, b4) := ReadStringCount(b3).value;
    ProgramHeadOnlyEncodings(titled, b, p);
    OnlyStringsRead(langNum, b2);
    CountIff(stlNum, b4, b3);
    OnlyStringsRead(stlNum, b4);
    assert Subtitles(p) == p.stlLangs;
    ProgramParts(titled, p, rest);
  }

  /**
   A reader of a layout recovers exactly the records written in it: the written octets decode to
   the record and leave what follows untouched, and no other octets decode to it.
   */
  lemma RecordRoundTrip(kind: Kind, r: Record, rest: seq<byte>, b: seq<byte>)
    requires OfKind(kind, r) && Visible(kind, r) == r
    ensures DecodeRecord(kind, b) == Some((r, rest)) <==> b == EncodeRecord(kind, r) + rest
  {
    match kind
    case TunerKind =>
      TunerDecodes(r.tuner, rest);
      if DecodeTuner(b).Some? { TunerOnlyEncodings(b); }
    case ChannelKind =>
      ChannelDecodes(r.channel, rest);
      if DecodeChannel(b).Some? { ChannelOnlyEncodings(b); }
    case ProgramKind(titled) =>
      ProgramDecodes(titled, r.program, rest);
      if DecodeProgram(titled, b).Some? { ProgramOnlyEncodings(titled, b); }
  }

  lemma DecodedIsVisible(kind: Kind, b: seq<byte>)
    requires DecodeRecord(kind, b).Some?
    ensures var r := DecodeRecord(kind, b).value.0; OfKind(kind, r) && Visible(kind, r) == r
  {
    if kind.ProgramKind? {
      ProgramOnlyEncodings(kind.titled, b);
    }
  }

  // ---------- counted lists of records ----------

  ghost predicate AllOfKind(kind: Kind, rs: seq<Record>) {
    forall k :: 0 <= k < |rs| ==> OfKind(kind, rs[k])
  }

  ghost function EncodeRecords(kind: Kind, rs: seq<Record>): seq<byte>
    requires AllOfKind(kind, rs)
  {
    if rs == [] then [] else EncodeRecord(kind, rs[0]) + EncodeRecords(kind, rs[1..])
  }

  /** "# of records (4 octets), records": the payload of the list replies. */
  ghost function EncodeList(kind: Kind, rs: List32<Record>): seq<byte>
    requires AllOfKind(kind, rs)
  {
    U32Bytes(|rs|) + EncodeRecords(kind, rs)
  }

  function DecodeRecords(kind: Kind, n: nat, b: seq<byte>): Option<(seq<Record>, seq<byte>)> {
    if n == 0 then Some(([], b)) else
    match DecodeRecord(kind, b)
    case None => None
    case Some((r, rest)) =>
      match DecodeRecords(kind, n - 1, rest)
      case None => None
      case Some((rs, rest')) => Some(([r] + rs, rest'))
  }

  function DecodeList(kind: Kind, b: seq<byte>): Option<(seq<Record>, seq<byte>)> {
    match ReadStringCount(b)
    case None => None
    case Some((n, rest)) => DecodeRecords(kind, n, rest)
  }

  function VisibleAll(kind: Kind, rs: seq<Record>): (vs: seq<Record>)
    requires forall k :: 0 <= k < |rs| ==> OfKind(kind, rs[k])
    ensures |vs| == |rs| && forall k :: 0 <= k < |rs| ==> vs[k] == Visible(kind, rs[k])
  {
    seq(|rs|, k requires 0 <= k < |rs| => Visible(kind, rs[k]))
  }

  lemma EncodeRecordsHead(kind: Kind, rs: seq<Record>, rest: seq<byte>)
    requires AllOfKind(kind, rs) && rs != []
    ensures EncodeRecords(kind, rs) + rest == EncodeRecord(kind, rs[0]) + (EncodeRecords(kind, rs[1..]) + rest)
  {
    ConcatAssociates(EncodeRecord(kind, rs[0]), EncodeRecords(kind, rs[1..]), rest);
  }

  lemma DecodeRecordsHead(kind: Kind, n: nat, b: seq<byte>, v: Record, tail: seq<byte>, vs: seq<Record>, rest: seq<byte>)
    requires DecodeRecord(kind, b) == Some((v, tail)) && DecodeRecords(kind, n, tail) == Some((vs, rest))
    ensures DecodeRecords(kind, n + 1, b) == Some(([v] + vs, rest))
  {
  }

  lemma VisibleHead(kind: Kind, rs: seq<Record>)
    requires AllOfKind(kind, rs) && rs != []
    ensures VisibleAll(kind, rs) == [Visible(kind, rs[0])] + VisibleAll(kind, rs[1..])
  {
    var vs, ws := VisibleAll(kind, rs), VisibleAll(kind, rs[1..]);
    forall k | 0 < k < |rs|
      ensures vs[k] == ws[k - 1]
    {
      assert rs[1..][k - 1] == rs[k];
    }
  }

  lemma {:induction false} RecordsRoundTrip(kind: Kind, rs: seq<Record>, rest: seq<byte>)
    requires AllOfKind(kind, rs)
    ensures DecodeRecords(kind, |rs|, EncodeRecords(kind, rs) + rest) == Some((VisibleAll(kind, rs), rest))
  {
    if rs == [] {
      assert EncodeRecords(kind, rs) + rest == rest;
    } else {
      var b, v, tail := EncodeRecords(kind, rs) + rest, Visible(kind, rs[0]), EncodeRecords(kind, rs[1..]) + rest;
      EncodeRecordsHead(kind, rs, rest);
      RecordRoundTrip(kind, v, tail, b);
      RecordsRoundTrip(kind, rs[1..], rest);
      VisibleHead(kind, rs);
      DecodeRecordsHead(kind, |rs| - 1, b, v, tail, VisibleAll(kind, rs[1..]), rest);
    }
  }

  /** A client that follows the protocol document recovers the count and every record of a list. */
  lemma ListRoundTrip(kind: Kind, rs: List32<Record>, rest: seq<byte>)
    requires AllOfKind(kind, rs)
    ensures DecodeList(kind, EncodeList(kind, rs) + rest) == Some((VisibleAll(kind, rs), rest))
  {
    var tail := EncodeRecords(kind, rs) + rest;
    assert EncodeList(kind, rs) + rest == U32Bytes(|rs|) + tail;
    CountIff(|rs|, tail, EncodeList(kind, rs) + rest);
    RecordsRoundTrip(kind, rs, rest);
  }

  lemma EncodeRecordsCons(kind: Kind, r: Record, rs: seq<Record>)
    requires OfKind(kind, r) && AllOfKind(kind, rs)
    ensures AllOfKind(kind, [r] + rs) && EncodeRecords(kind, [r] + rs) == EncodeRecord(kind, r) + EncodeRecords(kind, rs)
  {
  }

  /** Records of this kind as its layout shows them. */
  ghost predicate AllVisible(kind: Kind, rs: seq<Record>) {
    AllOfKind(kind, rs) && forall k :: 0 <= k < |rs| ==> Visible(kind, rs[k]) == rs[k]
  }

  lemma AllVisibleCons(kind: Kind, r: Record, rs: seq<Record>)
    requires OfKind(kind, r) && Visible(kind, r) == r && AllVisible(kind, rs)
    ensures AllVisible(kind, [r] + rs)
  {
  }

  lemma {:induction false} OnlyRecordsDecode(kind: Kind, n: nat, b: seq<byte>)
    requires DecodeRecords(kind, n, b).Some?
    ensures var (rs, rest) := DecodeRecords(kind, n, b).value;
            |rs| == n && AllVisible(kind, rs) && b == EncodeRecords(kind, rs) + rest
  {
    if n == 0 {
    } else {
      var (r, tail) := DecodeRecord(kind, b).value;
      var (rs, rest) := DecodeRecords(kind, n - 1, tail).value;
      OnlyRecordsDecode(kind, n - 1, tail);
      OneMoreDecodes(kind, b, r, tail, rs, rest);
    }
  }

  lemma OneMoreDecodes(kind: Kind, b: seq<byte>, r: Record, tail: seq<byte>, rs: seq<Record>, rest: seq<byte>)
    requires DecodeRecord(kind, b) == Some((r, tail)) && AllVisible(kind, rs) && tail == EncodeRecords(kind, rs) + rest
    ensures AllVisible(kind, [r] + rs) && b == EncodeRecords(kind, [r] + rs) + rest
  {
    DecodedIsVisible(kind, b);
    RecordRoundTrip(kind, r, tail, b);
    AllVisibleCons(kind, r, rs);
    EncodeRecordsCons(kind, r, rs);
    ConcatAssociates(EncodeRecord(kind, r), EncodeRecords(kind, rs), rest);
  }

  /** Nothing but the encoding of a list, its count included, reads as that list. */
  lemma OnlyListsDecode(kind: Kind, b: seq<byte>)
    requires DecodeList(kind, b).Some?
    ensures var (rs, rest) := DecodeList(kind, b).value;
            && |rs| < TWO32 && AllVisible(kind, rs)
            && b == EncodeList(kind, rs) + rest
  {
    var (n, tail) := ReadStringCount(b).value;
    var (rs, rest) := DecodeList(kind, b).value;
    CountIff(n, tail, b);
    OnlyRecordsDecode(kind, n, tail);
    ConcatAssociates(U32Bytes(n), EncodeRecords(kind, rs), rest);
  }

  /** A list of records as their layout shows them is read exactly from its encoding. */
  lemma ListDecodesIff(kind: Kind, rs: List32<Record>, rest: seq<byte>, b: seq<byte>)
    requires AllVisible(kind, rs)
    ensures DecodeList(kind, b) == Some((rs, rest)) <==> b == EncodeList(kind, rs) + rest
  {
    ListRoundTrip(kind, rs, rest);
    assert VisibleAll(kind, rs) == rs;
    if DecodeList(kind, b) == Some((rs, rest)) {
      OnlyListsDecode(kind, b);
    }
  }

  lemma {:induction false} EncodeRecordsConcat(kind: Kind, rs: seq<Record>, qs: seq<Record>)
    requires AllOfKind(kind, rs) && AllOfKind(kind, qs)
    ensures EncodeRecords(kind, rs + qs) == EncodeRecords(kind, rs) + EncodeRecords(kind, qs)
  {
    if rs == [] {
      assert rs + qs == qs;
    } else {
      assert (rs + qs)[1..] == rs[1..] + qs;
      EncodeRecordsConcat(kind, rs[1..], qs);
    }
  }

  lemma EncodeRecordsSnoc(kind: Kind, rs: seq<Record>, r: Record)
    requires AllOfKind(kind, rs) && OfKind(kind, r)
    ensures EncodeRecords(kind, rs + [r]) == EncodeRecords(kind, rs) + EncodeRecord(kind, r)
  {
    EncodeRecordsConcat(kind, rs, [r]);
    assert EncodeRecords(kind, [r]) == EncodeRecord(kind, r) + EncodeRecords(kind, []);
  }

  // ---------- lengths, and the layout append_program really writes ----------

  lemma {:induction false} OctetsAreThemselves(b: seq<byte>)
    ensures EncodeFields(Octets(b)) == b
  {
    if b == [] {
    } else {
      OctetsAreThemselves(b[1..]);
      assert Octets(b)[1..] == Octets(b[1..]);
      assert b == [b[0]] + b[1..];
    }
  }

  ghost function StringsLength(ss: seq<CStr>): nat {
    |EncodeFields(Strings(ss))|
  }

  lemma StringsConcat(ss: seq<CStr>, tt: seq<CStr>)
    ensures EncodeFields(Strings(ss + tt)) == EncodeFields(Strings(ss)) + EncodeFields(Strings(tt))
  {
    assert Strings(ss + tt) == Strings(ss) + Strings(tt);
    EncodeConcat(Strings(ss), Strings(tt));
  }

  lemma StringsSnoc(ss: seq<CStr>, s: CStr)
    ensures EncodeFields(Strings(ss + [s])) == EncodeFields(Strings(ss)) + (s + [0])
    ensures StringsLength(ss + [s]) == StringsLength(ss) + |s| + 1
  {
    StringsConcat(ss, [s]);
    assert Strings([s]) == [Z(s)];
    EncodeOne(Z(s));
  }

  lemma {:induction false} StringsTakeRoom(ss: seq<CStr>)
    ensures StringsLength(ss) >= |ss|
  {
    if ss == [] {
    } else {
      var last := |ss| - 1;
      assert ss == ss[..last] + [ss[last]];
      StringsTakeRoom(ss[..last]);
      StringsSnoc(ss[..last], ss[last]);
    }
  }

  lemma EncodeTwo(f: Field, g: Field)
    ensures EncodeFields([f, g]) == EncodeField(f) + EncodeField(g)
  {
    assert [f, g] == [f] + [g];
    EncodeConcat([f], [g]);
    EncodeOne(f);
    EncodeOne(g);
  }

  lemma TunerLength(t: Tuner)
    ensures |EncodeRecord(TunerKind, TunerRec(t))| == 4 + (|t.id| + 1) + |t.types|
  {
    TunerParts(t, []);
    EncodeTwo(Z(t.id), I(|t.types|));
    OctetsAreThemselves(t.types);
  }

  lemma ChannelLength(c: Channel)
    ensures |EncodeRecord(ChannelKind, ChannelRec(c))| ==
            (|c.networkId| + 1) + (|c.transStreamId| + 1) + (|c.serviceId| + 1) + 1
            + (|c.number| + 1) + (|c.name| + 1) + 1 + 1
  {
    var f1, f2 := [Z(c.networkId), Z(c.transStreamId)], [Z(c.serviceId), C(c.kind)];
    var f3, f4 := [Z(c.number), Z(c.name)], [C(c.isEmergency), C(c.isFree)];
    assert ChannelFields(c) == f1 + f2 + f3 + f4;
    EncodeConcat(f1, f2);
    EncodeConcat(f1 + f2, f3);
    EncodeConcat(f1 + f2 + f3, f4);
    EncodeTwo(Z(c.networkId), Z(c.transStreamId));
    EncodeTwo(Z(c.serviceId), C(c.kind));
    EncodeTwo(Z(c.number), Z(c.name));
    EncodeTwo(C(c.isEmergency), C(c.isFree));
  }

  lemma ProgramHeadLength(titled: bool, p: Program)
    ensures |EncodeFields(ProgramHead(titled, p))| == (|p.evtId| + 1) + (if titled then |p.title| + 1 else 0)
            + 8 + 8 + (|p.descpt| + 1) + (|p.rating| + 1) + 4
  {
    var start := if titled then [Z(p.evtId), Z(p.title)] else [Z(p.evtId)];
    var f2, f3, f4 := [L(p.startTime), L(p.duration)], [Z(p.descpt), Z(p.rating)], [I(|p.langs|)];
    assert ProgramHead(titled, p) == start + f2 + f3 + f4;
    EncodeConcat(start, f2);
    EncodeConcat(start + f2, f3);
    EncodeConcat(start + f2 + f3, f4);
    EncodeTwo(Z(p.evtId), Z(p.title));
    EncodeOne(Z(p.evtId));
    EncodeTwo(L(p.startTime), L(p.duration));
    EncodeTwo(Z(p.descpt), Z(p.rating));
    EncodeOne(I(|p.langs|));
  }

  lemma ProgramLength(titled: bool, p: Program)
    requires Counted(p)
    ensures |EncodeFields(ProgramFields(titled, p))| ==
            |EncodeFields(ProgramHead(titled, p))| + StringsLength(p.langs) + 4 + StringsLength(Subtitles(p))
  {
    ProgramParts(titled, p, []);
    assert EncodeFields(ProgramFields(titled, p)) + [] == EncodeFields(ProgramFields(titled, p));
  }

  /** The subtitle loops run to lang_num, whatever stl_lang_num says: that many entries must be there. */
  predicate Readable(r: Record) {
    r.ProgramRec? ==> |r.program.langs| <= |r.program.stlLangs|
  }

  /** The program that the loops over lang_num see: as many subtitle languages as audio languages. */
  function Clipped(p: Program): (c: Program)
    requires Readable(ProgramRec(p))
    ensures Counted(c)
  {
    p.(stlNum := |p.langs|, stlLangs := p.stlLangs[..|p.langs|])
  }

  /** What append_program appends: no title, stl_lang_num as the count, but lang_num subtitle languages. */
  function AppendedFields(p: Program): seq<Field>
    requires Readable(ProgramRec(p))
  {
    ProgramHead(false, p) + Strings(p.langs) + [I(p.stlNum)] + Strings(p.stlLangs[..|p.langs|])
  }

  /** The octets append_tuner, append_channel (with its name argument supplied) and append_program append. */
  function AppendedRecord(r: Record): seq<byte>
    requires Readable(r)
  {
    match r
    case TunerRec(_) => EncodeRecord(TunerKind, r)
    case ChannelRec(_) => EncodeRecord(ChannelKind, r)
    case ProgramRec(p) => EncodeFields(AppendedFields(p))
  }

  /** What calculate_*_size adds up, before it is cut to 32 bits: the documented layout of the clipped record. */
  function CalculatedSize(r: Record): nat
    requires Readable(r)
  {
    match r
    case TunerRec(_) => |EncodeRecord(TunerKind, r)|
    case ChannelRec(_) => |EncodeRecord(ChannelKind, r)|
    case ProgramRec(p) => |EncodeRecord(ProgramKind(true), ProgramRec(Clipped(p)))|
  }

  /** The octets that are reserved but not written: the title of a program. */
  function Slack(r: Record): nat {
    if r.ProgramRec? then |r.program.title| + 1 else 0
  }

  /** The octets of append_program, part by part. */
  lemma AppendedParts(p: Program)
    requires Readable(ProgramRec(p))
    ensures AppendedRecord(ProgramRec(p)) == EncodeFields(ProgramHead(false, p)) + EncodeFields(Strings(p.langs))
            + U32Bytes(p.stlNum) + EncodeFields(Strings(p.stlLangs[..|p.langs|]))
  {
    var f1, f2, f3 := ProgramHead(false, p), Strings(p.langs), [I(p.stlNum)];
    var f4 := Strings(p.stlLangs[..|p.langs|]);
    EncodeConcat(f1, f2);
    EncodeConcat(f1 + f2, f3);
    EncodeConcat(f1 + f2 + f3, f4);
    EncodeOne(I(p.stlNum));
  }

  lemma AppendedLength(p: Program)
    requires Readable(ProgramRec(p))
    ensures |AppendedRecord(ProgramRec(p))| == |EncodeFields(ProgramHead(false, p))| + StringsLength(p.langs)
            + 4 + StringsLength(p.stlLangs[..|p.langs|])
  {
    AppendedParts(p);
  }

  /** The sum of calculate_prog_size with its second loop run to n. */
  ghost function ProgramSizeTo(p: Program, n: nat): nat
    requires n <= |p.stlLangs|
  {
    (|p.evtId| + 1) + (|p.title| + 1) + 8 + 8 + (|p.descpt| + 1) + (|p.rating| + 1) + 4
    + StringsLength(p.langs) + 4 + StringsLength(p.stlLangs[..n])
  }

  /** Every further entry takes an octet at least. */
  lemma PrefixLength(ss: seq<CStr>, i: nat, j: nat)
    requires i <= j <= |ss|
    ensures StringsLength(ss[..i]) + j - i <= StringsLength(ss[..j])
  {
    assert ss[..j] == ss[..i] + ss[i..j];
    StringsConcat(ss[..i], ss[i..j]);
    StringsTakeRoom(ss[i..j]);
  }

  lemma PrefixLengthIff(ss: seq<CStr>, i: nat, j: nat)
    requires i <= |ss| && j <= |ss|
    ensures StringsLength(ss[..i]) == StringsLength(ss[..j]) <==> i == j
    ensures StringsLength(ss[..i]) <= StringsLength(ss[..j]) <==> i <= j
  {
    if i <= j {
      PrefixLength(ss, i, j);
    } else {
      PrefixLength(ss, j, i);
    }
  }

  /**
   Run to stl_lang_num, as it is meant, the sum is the size of the documented structure. Run to lang_num, as it
   is written, it is what calculate_prog_size reserves, for every stl_lang_num; and that is the size of the
   documented structure exactly when the two counts agree.
   */
  lemma ProgramSizes(p: Program)
    ensures Counted(p) ==> ProgramSizeTo(p, p.stlNum) == |EncodeRecord(ProgramKind(true), ProgramRec(p))|
    ensures Readable(ProgramRec(p)) ==> ProgramSizeTo(p, |p.langs|) == CalculatedSize(ProgramRec(p))
    ensures Counted(p) && Readable(ProgramRec(p)) ==>
              (CalculatedSize(ProgramRec(p)) == |EncodeRecord(ProgramKind(true), ProgramRec(p))| <==> |p.langs| == p.stlNum)
  {
    ProgramHeadLength(true, p);
    if Counted(p) {
      ProgramLength(true, p);
    }
    if Readable(ProgramRec(p)) {
      assert Subtitles(Clipped(p)) == p.stlLangs[..|p.langs|];
      ProgramLength(true, Clipped(p));
      ProgramHeadLength(true, Clipped(p));
    }
    if Counted(p) && Readable(ProgramRec(p)) {
      PrefixLengthIff(p.stlLangs, |p.langs|, p.stlNum);
    }
  }

  /** Every record is written in exactly its calculated size, less the title of a program. */
  lemma WrittenIsSizedLessTitle(r: Record)
    requires Readable(r)
    ensures |AppendedRecord(r)| + Slack(r) == CalculatedSize(r)
  {
    if r.ProgramRec? {
      var p := r.program;
      AppendedLength(p);
      ProgramSizes(p);
      ProgramHeadLength(false, p);
    }
  }

  /** The written octets are longer or shorter than the untitled layout as lang_num is greater or less than stl_lang_num. */
  lemma AppendedCompares(p: Program)
    requires Readable(ProgramRec(p)) && Counted(p)
    ensures var a, e := AppendedRecord(ProgramRec(p)), EncodeRecord(ProgramKind(false), ProgramRec(p));
            (|a| == |e| <==> |p.langs| == p.stlNum) && (|a| <= |e| <==> |p.langs| <= p.stlNum)
  {
    AppendedLength(p);
    ProgramLength(false, p);
    PrefixLengthIff(p.stlLangs, |p.langs|, p.stlNum);
  }

  // ---------- the written program is never the documented one ----------

  /** j is a multiple of m. */
  predicate Aligned(j: nat, m: nat)
    requires m > 0
  {
    j == 0 || (j >= m && Aligned(j - m, m))
  }

  /** b repeats the m octets it begins with, and only the last of them is NUL. */
  ghost predicate Repeats(b: seq<byte>, m: nat) {
    && m > 0
    && (forall j :: m <= j < |b| ==> b[j] == b[j - m])
    && (forall j :: 0 <= j < m && j < |b| ==> (b[j] == 0 <==> j == m - 1))
  }

  lemma {:induction false} NulEndsBlock(b: seq<byte>, m: nat, j: nat)
    requires Repeats(b, m) && 0 < j <= |b| && b[j - 1] == 0
    ensures Aligned(j, m)
  {
    if j <= m {
      assert Aligned(0, m);
    } else {
      NulEndsBlock(b, m, j - m);
    }
  }

  lemma {:induction false} BlocksAreEqual(b: seq<byte>, m: nat, j: nat, i: nat)
    requires Repeats(b, m) && Aligned(j, m) && j + i < |b|
    ensures b[j + i] == b[i]
  {
    if j == 0 {
    } else {
      BlocksAreEqual(b, m, j - m, i);
    }
  }

  /** Two stretches behind a NUL begin alike. */
  lemma NumbersAreEqual(b: seq<byte>, m: nat, j: nat, k: nat, x: u32, y: u32)
    requires Repeats(b, m) && 0 < j && 0 < k && j + 4 <= |b| && k + 4 <= |b| && b[j - 1] == 0 && b[k - 1] == 0
    requires b[j..j + 4] == U32Bytes(x) && b[k..k + 4] == U32Bytes(y)
    ensures x == y
  {
    NulEndsBlock(b, m, j);
    NulEndsBlock(b, m, k);
    forall i | 0 <= i < 4
      ensures U32Bytes(x)[i] == U32Bytes(y)[i]
    {
      BlocksAreEqual(b, m, j, i);
      BlocksAreEqual(b, m, k, i);
      assert U32Bytes(x)[i] == b[j + i] && U32Bytes(y)[i] == b[k + i];
    }
    assert U32Bytes(x) == U32Bytes(y);
    Pow256Is();
    LeValueOfBytes(4, x);
    LeValueOfBytes(4, y);
  }

  /** Octets that come out the same behind a string as in front of it repeat that string. */
  lemma ShiftRepeats(t: CStr, b: seq<byte>, x: seq<byte>, y: seq<byte>)
    requires b + x == (t + [0]) + (b + y)
    ensures Repeats(b, |t| + 1)
  {
    var u, m := t + [0], |t| + 1;
    forall j | m <= j < |b|
      ensures b[j] == b[j - m]
    {
      assert b[j] == (b + x)[j] == (u + (b + y))[j];
    }
    forall j | 0 <= j < m && j < |b|
      ensures b[j] == 0 <==> j == m - 1
    {
      assert b[j] == (b + x)[j] == (u + (b + y))[j] == u[j];
      assert j < m - 1 ==> u[j] == t[j];
    }
  }

  /** The octets of a program head between title and number of audio languages, without the last NUL. */
  function Middle(p: Program): seq<byte> {
    EncodeFields([L(p.startTime), L(p.duration), Z(p.descpt)]) + p.rating
  }

  lemma HeadParts(titled: bool, p: Program)
    ensures EncodeFields(ProgramHead(titled, p)) ==
            (p.evtId + [0]) + ((if titled then p.title + [0] else []) + (Middle(p) + [0] + U32Bytes(|p.langs|)))
  {
    var e, t, m := [Z(p.evtId)], if titled then [Z(p.title)] else [], [L(p.startTime), L(p.duration), Z(p.descpt)];
    var r, n := [Z(p.rating)], [I(|p.langs|)];
    assert ProgramHead(titled, p) == e + (t + (m + r + n));
    EncodeConcat(e, t + (m + r + n));
    EncodeConcat(t, m + r + n);
    EncodeConcat(m + r, n);
    EncodeConcat(m, r);
    EncodeOne(Z(p.evtId));
    EncodeOne(Z(p.title));
    EncodeOne(Z(p.rating));
    EncodeOne(I(|p.langs|));
    ConcatAssociates(EncodeFields(m), p.rating, [0]);
  }

  lemma StringsEndInNul(ss: seq<CStr>)
    requires ss != []
    ensures var b := EncodeFields(Strings(ss)); |b| > 0 && b[|b| - 1] == 0
  {
    var n := |ss| - 1;
    assert ss == ss[..n] + [ss[n]];
    StringsSnoc(ss[..n], ss[n]);
  }

  /** The part that a program's octets share in both layouts: everything up to the subtitle languages. */
  function Shared(p: Program): seq<byte> {
    Middle(p) + [0] + U32Bytes(|p.langs|) + EncodeFields(Strings(p.langs)) + U32Bytes(p.stlNum)
  }

  lemma SharedAppended(p: Program)
    requires Readable(ProgramRec(p))
    ensures AppendedRecord(ProgramRec(p)) == (p.evtId + [0]) + (Shared(p) + EncodeFields(Strings(p.stlLangs[..|p.langs|])))
  {
    AppendedParts(p);
    HeadParts(false, p);
    var e, h := p.evtId + [0], Middle(p) + [0] + U32Bytes(|p.langs|);
    assert [] + h == h;
    LeftNested(e, h, EncodeFields(Strings(p.langs)), U32Bytes(p.stlNum), EncodeFields(Strings(p.stlLangs[..|p.langs|])));
  }

  lemma SharedTitled(p: Program)
    requires Counted(p)
    ensures EncodeRecord(ProgramKind(true), ProgramRec(p))
            == (p.evtId + [0]) + ((p.title + [0]) + (Shared(p) + EncodeFields(Strings(Subtitles(p)))))
  {
    HeadParts(true, p);
    ProgramParts(true, p, []);
    var e, t, h := p.evtId + [0], p.title + [0], Middle(p) + [0] + U32Bytes(|p.langs|);
    var l, c, sub := EncodeFields(Strings(p.langs)), U32Bytes(p.stlNum), EncodeFields(Strings(Subtitles(p)));
    assert sub + [] == sub && EncodeFields(ProgramFields(true, p)) + [] == EncodeFields(ProgramFields(true, p));
    RightNested(e + (t + h), l, c, sub, []);
    LeftNested(e + t, h, l, c, sub);
    ConcatAssociates(e, t, h);
    ConcatAssociates(e, t, Shared(p) + sub);
  }

  lemma LeftNested(e: seq<byte>, h: seq<byte>, l: seq<byte>, c: seq<byte>, x: seq<byte>)
    ensures (e + h) + l + c + x == e + (h + l + c + x)
    ensures (e + h) + (l + (c + x)) == e + (h + l + c + x)
  {
  }

  lemma FivePieces(m: seq<byte>, n: seq<byte>, l: seq<byte>, c: seq<byte>)
    requires |n| == 4 && |l| > 0 && |c| == 4
    ensures var b, k := m + [0] + n + l + c, |m| + 5 + |l|;
            && |b| == k + 4 && b[|m|] == 0 && b[|m| + 1..|m| + 5] == n
            && b[k - 1] == l[|l| - 1] && b[k..k + 4] == c
  {
  }

  /** Were the two layouts equal, the title's octets would repeat throughout the program, and both counts be the same number. */
  lemma EqualCountsAtLeast(p: Program, x: seq<byte>, y: seq<byte>)
    requires p.langs != [] && Shared(p) + x == (p.title + [0]) + (Shared(p) + y)
    ensures |p.langs| == p.stlNum
  {
    var b, m, l := Shared(p), Middle(p), EncodeFields(Strings(p.langs));
    ShiftRepeats(p.title, b, x, y);
    StringsEndInNul(p.langs);
    FivePieces(m, U32Bytes(|p.langs|), l, U32Bytes(p.stlNum));
    NumbersAreEqual(b, |p.title| + 1, |m| + 1, |m| + 5 + |l|, |p.langs|, p.stlNum);
  }

  lemma NeverTitled(p: Program)
    requires Readable(ProgramRec(p)) && Counted(p)
    ensures AppendedRecord(ProgramRec(p)) != EncodeRecord(ProgramKind(true), ProgramRec(p))
  {
    SharedAppended(p);
    SharedTitled(p);
    PrefixLengthIff(p.stlLangs, |p.langs|, p.stlNum);
    var e, t, b := p.evtId + [0], p.title + [0], Shared(p);
    var sub, all := EncodeFields(Strings(Subtitles(p))), EncodeFields(Strings(p.stlLangs[..|p.langs|]));
    assert |p.langs| <= p.stlNum ==> |b + all| < |t + (b + sub)|;
    if |p.langs| > p.stlNum && b + all == t + (b + sub) {
      EqualCountsAtLeast(p, all, sub);
    }
    SameBehindPrefix(e, b + all, t + (b + sub));
  }

  lemma SameBehindPrefix(e: seq<byte>, a: seq<byte>, b: seq<byte>)
    ensures e + a == e + b <==> a == b
  {
    if e + a == e + b {
      assert a == (e + a)[|e|..] == (e + b)[|e|..] == b;
    }
  }

  lemma AppendedFieldsBalanced(p: Program)
    requires |p.langs| == p.stlNum <= |p.stlLangs|
    ensures AppendedFields(p) == ProgramFields(false, p)
  {
  }

  /**
   append_program writes the untitled program structure exactly when the two language counts
   agree, and the documented structure never.
   */
  lemma AppendedLayout(p: Program)
    requires Readable(ProgramRec(p)) && Counted(p)
    ensures AppendedRecord(ProgramRec(p)) == EncodeRecord(ProgramKind(false), ProgramRec(p)) <==> |p.langs| == p.stlNum
    ensures AppendedRecord(ProgramRec(p)) != EncodeRecord(ProgramKind(true), ProgramRec(p))
  {
    AppendedCompares(p);
    NeverTitled(p);
    if |p.langs| == p.stlNum {
      AppendedFieldsBalanced(p);
    }
  }

  lemma SameBehindSuffix(a: seq<byte>, b: seq<byte>, rest: seq<byte>)
    ensures a + rest == b + rest <==> a == b
  {
    if a + rest == b + rest {
      assert |a| == |b|;
      assert a == (a + rest)[..|a|] == (b + rest)[..|b|] == b;
    }
  }

  /**
   What append_program writes reads back as every field but the title, the counted subtitle languages included,
   exactly when the two language counts agree.
   */
  lemma AppendedProgramReadsBack(p: Program, rest: seq<byte>)
    requires Readable(ProgramRec(p)) && Counted(p)
    ensures DecodeRecord(ProgramKind(false), AppendedRecord(ProgramRec(p)) + rest)
            == Some((ProgramRec(p.(title := [], stlLangs := p.stlLangs[..p.stlNum])), rest))
       <==> |p.langs| == p.stlNum
  {
    AppendedLayout(p);
    var v, b := Visible(ProgramKind(false), ProgramRec(p)), AppendedRecord(ProgramRec(p));
    RecordRoundTrip(ProgramKind(false), v, rest, b + rest);
    SameBehindSuffix(b, EncodeRecord(ProgramKind(false), v), rest);
  }
  // ---------- sums over lists ----------

  ghost predicate AllReadable(rs: seq<Record>) {
    forall k :: 0 <= k < |rs| ==> Readable(rs[k])
  }

  ghost function AppendedRecords(rs: seq<Record>): seq<byte>
    requires AllReadable(rs)
  {
    if rs == [] then [] else
      AppendedRecords(rs[..|rs| - 1]) + AppendedRecord(rs[|rs| - 1])
  }

  ghost function CalculatedSizes(rs: seq<Record>): nat
    requires AllReadable(rs)
  {
    if rs == [] then 0 else CalculatedSizes(rs[..|rs| - 1]) + CalculatedSize(rs[|rs| - 1])
  }

  ghost function Slacks(rs: seq<Record>): nat {
    if rs == [] then 0 else Slacks(rs[..|rs| - 1]) + Slack(rs[|rs| - 1])
  }

  /** Over a whole list, what is written falls short of what is reserved by exactly the titles. */
  lemma {:induction false} WrittenFitsReserved(rs: seq<Record>)
    requires AllReadable(rs)
    ensures |AppendedRecords(rs)| + Slacks(rs) == CalculatedSizes(rs)
  {
    if rs == [] {
    } else {
      WrittenFitsReserved(rs[..|rs| - 1]);
      WrittenIsSizedLessTitle(rs[|rs| - 1]);
    }
  }

  /** A list of tuners fills what is reserved for it exactly. */
  lemma {:induction false} TunersHaveNoSlack(rs: seq<Record>)
    requires forall k :: 0 <= k < |rs| ==> rs[k].TunerRec?
    ensures Slacks(rs) == 0
  {
    if rs == [] {
    } else {
      TunersHaveNoSlack(rs[..|rs| - 1]);
    }
  }

  lemma NextRecord(rs: seq<Record>, i: nat)
    requires i < |rs| && AllReadable(rs)
    ensures AppendedRecords(rs[..i + 1]) == AppendedRecords(rs[..i]) + AppendedRecord(rs[i])
    ensures CalculatedSizes(rs[..i + 1]) == CalculatedSizes(rs[..i]) + CalculatedSize(rs[i])
  {
    assert rs[..i + 1][..i] == rs[..i];
  }

  lemma {:induction false} ReservedGrows(rs: seq<Record>, n: nat)
    requires AllReadable(rs) && n <= |rs|
    ensures CalculatedSizes(rs[..n]) <= CalculatedSizes(rs)
    ensures |AppendedRecords(rs[..n])| <= |AppendedRecords(rs)|
  {
    if n < |rs| {
      ReservedGrows(rs[..|rs| - 1], n);
      assert rs[..|rs| - 1][..n] == rs[..n];
    } else {
      assert rs[..n] == rs;
    }
  }

  /** A record whose written octets are those of its layout, the title aside. */
  predicate Balanced(r: Record) {
    r.ProgramRec? ==> |r.program.langs| == r.program.stlNum
  }

  ghost predicate AllBalanced(rs: seq<Record>) {
    forall k :: 0 <= k < |rs| ==> Balanced(rs[k])
  }

  lemma AppendedIsEncodedOne(kind: Kind, r: Record)
    requires OfKind(kind, r) && Balanced(r) && kind != ProgramKind(true)
    ensures AppendedRecord(r) == EncodeRecord(kind, r)
  {
    if r.ProgramRec? {
      AppendedLayout(r.program);
    }
  }

  lemma AppendedSnoc(rs: seq<Record>, r: Record)
    requires AllReadable(rs) && Readable(r)
    ensures AllReadable(rs + [r]) && AppendedRecords(rs + [r]) == AppendedRecords(rs) + AppendedRecord(r)
  {
  }

  lemma AppendedIsEncodedSnoc(kind: Kind, rs: seq<Record>, r: Record)
    requires AllOfKind(kind, rs) && OfKind(kind, r) && AllReadable(rs) && Balanced(r) && kind != ProgramKind(true)
    requires AppendedRecords(rs) == EncodeRecords(kind, rs)
    ensures AllOfKind(kind, rs + [r]) && AllReadable(rs + [r])
    ensures AppendedRecords(rs + [r]) == EncodeRecords(kind, rs + [r])
  {
    AppendedIsEncodedOne(kind, r);
    AppendedSnoc(rs, r);
    EncodeRecordsSnoc(kind, rs, r);
  }

  /** What the append loops write for a list of balanced records is the list in its documented layout, titles aside. */
  lemma {:induction false} AppendedIsEncoded(kind: Kind, rs: seq<Record>)
    requires AllOfKind(kind, rs) && AllReadable(rs) && kind != ProgramKind(true)
    requires AllBalanced(rs)
    ensures AppendedRecords(rs) == EncodeRecords(kind, rs)
  {
    if rs == [] {
    } else {
      var front, last := rs[..|rs| - 1], rs[|rs| - 1];
      assert front + [last] == rs;
      AppendedIsEncoded(kind, front);
      AppendedIsEncodedSnoc(kind, front, last);
    }
  }

  lemma AllBalancedSnoc(rs: seq<Record>, r: Record)
    ensures AllBalanced(rs + [r]) <==> AllBalanced(rs) && Balanced(r)
  {
    assert (rs + [r])[|rs|] == r;
    assert forall k :: 0 <= k < |rs| ==> (rs + [r])[k] == rs[k];
  }
}
