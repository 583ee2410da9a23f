/** The records octet by octet, as doc/ipc.txt lists their fields, beside the layouts that Records reads and writes. */
module Octets {
  import opened Base
  import opened Wire
  import opened Records

  /** C strings one behind the other. */
  function Joined(ss: seq<CStr>): seq<byte> {
    if ss == [] then [] else ss[0] + [0] + Joined(ss[1..])
  }

  function TunerOctets(t: Tuner): seq<byte> {
    t.id + [0] + LeBytes(4, |t.types|) + t.types
  }

  function ChannelOctets(c: Channel): seq<byte> {
    c.networkId + [0] + c.transStreamId + [0] + c.serviceId + [0] + [c.kind]
    + c.number + [0] + c.name + [0] + [c.isEmergency] + [c.isFree]
  }

  /** `subtitles` are written behind the count stl_lang_num, whatever it says. */
  function ProgramOctets(titled: bool, p: Program, subtitles: seq<CStr>): seq<byte> {
    p.evtId + [0] + (if titled then p.title + [0] else [])
    + LeBytes(8, p.startTime) + LeBytes(8, p.duration) + p.descpt + [0] + p.rating + [0]
    + LeBytes(4, |p.langs|) + Joined(p.langs) + LeBytes(4, p.stlNum) + Joined(subtitles)
  }

  lemma {:induction false} JoinedIs(ss: seq<CStr>)
    ensures EncodeFields(Strings(ss)) == Joined(ss)
  {
    if ss == [] {
    } else {
      JoinedIs(ss[1..]);
      assert Strings(ss)[1..] == Strings(ss[1..]);
    }
  }

  lemma TunerIs(t: Tuner)
    ensures EncodeRecord(TunerKind, TunerRec(t)) == TunerOctets(t)
  {
    TunerParts(t, []);
    EncodeTwo(Z(t.id), I(|t.types|));
    OctetsAreThemselves(t.types);
  }

  lemma ChannelIs(c: Channel)
    ensures EncodeRecord(ChannelKind, ChannelRec(c)) == ChannelOctets(c)
  {
    var f1, f2 := [Z(c.networkId), Z(c.transStreamId)], [Z(c.serviceId), C(c.kind)];
    var f3, f4 := [Z(c.number), Z(c.name)], [C(c.isEmergency), C(c.isFree)];
    assert ChannelFields(c) == f1 + f2 + f3 + f4;
    EncodeConcat(f1, f2);
    EncodeConcat(f1 + f2, f3);
    EncodeConcat(f1 + f2 + f3, f4);
    EncodeTwo(Z(c.networkId), Z(c.transStreamId));
    EncodeTwo(Z(c.serviceId), C(c.kind));
    EncodeTwo(Z(c.number), Z(c.name));
    EncodeTwo(C(c.isEmergency), C(c.isFree));
    ChannelRegroup(c.networkId, c.transStreamId, c.serviceId, [c.kind], c.number, c.name, [c.isEmergency], [c.isFree]);
  }

  lemma ChannelRegroup(a: seq<byte>, b: seq<byte>, c: seq<byte>, d: seq<byte>,
                       e: seq<byte>, f: seq<byte>, g: seq<byte>, h: seq<byte>)
    ensures ((a + [0]) + (b + [0])) + ((c + [0]) + d) + ((e + [0]) + (f + [0])) + (g + h)
            == a + [0] + b + [0] + c + [0] + d + e + [0] + f + [0] + g + h
  {
    var u := a + [0] + b + [0];
    Chained(a + [0], b, [0]);
    Chained(u, c + [0], d);
    Chained(u, c, [0]);
    var v := u + c + [0] + d;
    Chained(v, (e + [0]), f + [0]);
    Chained(v, e, [0]);
    Chained(v + e + [0], f, [0]);
    Chained(v + e + [0] + f + [0], g, h);
  }

  lemma Chained(a: seq<byte>, b: seq<byte>, c: seq<byte>)
    ensures a + (b + c) == a + b + c
  {
  }

  lemma MiddleIs(p: Program)
    ensures Middle(p) == LeBytes(8, p.startTime) + LeBytes(8, p.duration) + p.descpt + [0] + p.rating
  {
    assert [L(p.startTime), L(p.duration), Z(p.descpt)] == [L(p.startTime), L(p.duration)] + [Z(p.descpt)];
    EncodeConcat([L(p.startTime), L(p.duration)], [Z(p.descpt)]);
    EncodeTwo(L(p.startTime), L(p.duration));
    EncodeOne(Z(p.descpt));
    Chained(LeBytes(8, p.startTime) + LeBytes(8, p.duration), p.descpt, [0]);
  }

  lemma SharedIs(p: Program)
    ensures Shared(p) == LeBytes(8, p.startTime) + LeBytes(8, p.duration) + p.descpt + [0] + p.rating + [0]
                         + LeBytes(4, |p.langs|) + Joined(p.langs) + LeBytes(4, p.stlNum)
  {
    MiddleIs(p);
    JoinedIs(p.langs);
  }

  lemma ProgramOctetsAre(titled: bool, p: Program, subtitles: seq<CStr>)
    ensures ProgramOctets(titled, p, subtitles)
            == (p.evtId + [0]) + ((if titled then p.title + [0] else []) + (Shared(p) + Joined(subtitles)))
  {
    SharedIs(p);
    var e, t := p.evtId + [0], if titled then p.title + [0] else [];
    var a, b, c, d := LeBytes(8, p.startTime), LeBytes(8, p.duration), p.descpt, p.rating;
    Regroup(e, t, a, b, c, d, LeBytes(4, |p.langs|), Joined(p.langs), LeBytes(4, p.stlNum), Joined(subtitles));
  }

  lemma Regroup(e: seq<byte>, t: seq<byte>, a: seq<byte>, b: seq<byte>, c: seq<byte>, d: seq<byte>,
                n: seq<byte>, l: seq<byte>, m: seq<byte>, x: seq<byte>)
    ensures e + t + a + b + c + [0] + d + [0] + n + l + m + x
            == e + (t + ((a + b + c + [0] + d + [0] + n + l + m) + x))
  {
    ConcatAssociates(e, t, (a + b + c + [0] + d + [0] + n + l + m) + x);
    var u := e + t;
    Chained(u, a + b + c + [0] + d + [0] + n + l + m, x);
    Chained(u, a + b + c + [0] + d + [0] + n + l, m);
    Chained(u, a + b + c + [0] + d + [0] + n, l);
    Chained(u, a + b + c + [0] + d + [0], n);
    Chained(u, a + b + c + [0] + d, [0]);
    Chained(u, a + b + c + [0], d);
    Chained(u, a + b + c, [0]);
    Chained(u, a + b, c);
    Chained(u, a, b);
  }

  /** append_program: no title, and lang_num subtitle languages behind stl_lang_num. */
  lemma AppendedProgramIs(p: Program)
    requires Readable(ProgramRec(p))
    ensures AppendedRecord(ProgramRec(p)) == ProgramOctets(false, p, p.stlLangs[..|p.langs|])
  {
    SharedAppended(p);
    ProgramOctetsAre(false, p, p.stlLangs[..|p.langs|]);
    JoinedIs(p.stlLangs[..|p.langs|]);
    var b := Shared(p) + Joined(p.stlLangs[..|p.langs|]);
    assert [] + b == b;
  }

  /** The documented structure. */
  lemma TitledProgramIs(p: Program)
    requires Counted(p)
    ensures EncodeRecord(ProgramKind(true), ProgramRec(p)) == ProgramOctets(true, p, p.stlLangs[..p.stlNum])
  {
    SharedTitled(p);
    ProgramOctetsAre(true, p, p.stlLangs[..p.stlNum]);
    JoinedIs(p.stlLangs[..p.stlNum]);
  }

  // ---------- arguments of commands ----------

  /** The octets begin with a tuner id and a source type. */
  predicate NamesTuner(b: seq<byte>, id: CStr, sourceType: byte) {
    id + [0, sourceType] <= b
  }

  predicate NamesChannel(b: seq<byte>, id: CStr, sourceType: byte, number: CStr) {
    id + [0, sourceType] + number + [0] <= b
  }

  predicate NamesPrograms(b: seq<byte>, id: CStr, sourceType: byte, number: CStr, start: u64, end: u64) {
    id + [0, sourceType] + number + [0] + LeBytes(8, start) + LeBytes(8, end) <= b
  }

  /** Something is read by a format, with any rest, exactly when the octets begin with its encoding. */
  lemma ReadsPrefix(fs: seq<Field>, fmt: string, b: seq<byte>)
    requires FormatOf(fs) == fmt
    ensures EncodeFields(fs) <= b <==> ReadFields(fmt, b).Some? && ReadFields(fmt, b).value.0 == fs
  {
    if EncodeFields(fs) <= b {
      var rest := b[|EncodeFields(fs)|..];
      assert b == EncodeFields(fs) + rest;
      ReadIff(fs, rest, fmt, b);
    }
    if ReadFields(fmt, b).Some? && ReadFields(fmt, b).value.0 == fs {
      ReadIff(fs, ReadFields(fmt, b).value.1, fmt, b);
    }
  }

  lemma TunerArguments(id: CStr, sourceType: byte)
    ensures EncodeFields([Z(id), C(sourceType)]) == id + [0, sourceType]
    ensures FormatOf([Z(id), C(sourceType)]) == "0C"
  {
    EncodeTwo(Z(id), C(sourceType));
  }

  lemma ChannelArguments(id: CStr, sourceType: byte, number: CStr)
    ensures EncodeFields([Z(id), C(sourceType), Z(number)]) == id + [0, sourceType] + number + [0]
    ensures FormatOf([Z(id), C(sourceType), Z(number)]) == "0C0"
  {
    assert [Z(id), C(sourceType), Z(number)] == [Z(id), C(sourceType)] + [Z(number)];
    EncodeConcat([Z(id), C(sourceType)], [Z(number)]);
    TunerArguments(id, sourceType);
    EncodeOne(Z(number));
    Chained(id + [0, sourceType], number, [0]);
  }

  lemma ProgramsArguments(id: CStr, sourceType: byte, number: CStr, start: u64, end: u64)
    ensures EncodeFields([Z(id), C(sourceType), Z(number), L(start), L(end)])
            == id + [0, sourceType] + number + [0] + LeBytes(8, start) + LeBytes(8, end)
    ensures FormatOf([Z(id), C(sourceType), Z(number), L(start), L(end)]) == "0C0LL"
  {
    var head := [Z(id), C(sourceType), Z(number)];
    assert head + [L(start), L(end)] == [Z(id), C(sourceType), Z(number), L(start), L(end)];
    EncodeConcat(head, [L(start), L(end)]);
    ChannelArguments(id, sourceType, number);
    EncodeTwo(L(start), L(end));
    Chained(EncodeFields(head), LeBytes(8, start), LeBytes(8, end));
  }
}
