/**
 What a client reads from a list of records as the append loops write it: whether it reads each record from
 that record's own octets, and whether it reads the list.
 */
module ProgramLists {
  import opened Base
  import opened Wire
  import opened Records

  // ---------- a list, record by record ----------

  lemma {:induction false} AppendedConcat(rs: seq<Record>, qs: seq<Record>)
    requires AllReadable(rs) && AllReadable(qs)
    ensures AllReadable(rs + qs) && AppendedRecords(rs + qs) == AppendedRecords(rs) + AppendedRecords(qs)
  {
    if qs == [] {
      assert rs + qs == rs;
    } else {
      var front, last := qs[..|qs| - 1], qs[|qs| - 1];
      assert qs == front + [last];
      AppendedConcat(rs, front);
      AppendedConcatSnoc(rs, front, last);
    }
  }

  lemma AppendedConcatSnoc(rs: seq<Record>, qs: seq<Record>, r: Record)
    requires AllReadable(rs) && AllReadable(qs) && Readable(r) && AllReadable(rs + qs)
    requires AppendedRecords(rs + qs) == AppendedRecords(rs) + AppendedRecords(qs)
    ensures AllReadable(rs + (qs + [r])) && AllReadable(qs + [r])
    ensures AppendedRecords(rs + (qs + [r])) == AppendedRecords(rs) + AppendedRecords(qs + [r])
  {
    assert rs + (qs + [r]) == (rs + qs) + [r];
    AppendedSnoc(rs + qs, r);
    AppendedSnoc(qs, r);
    ConcatAssociates(AppendedRecords(rs), AppendedRecords(qs), AppendedRecord(r));
  }

  lemma AppendedSplit(rs: seq<Record>, k: nat)
    requires AllReadable(rs) && k <= |rs|
    ensures AppendedRecords(rs) == AppendedRecords(rs[..k]) + AppendedRecords(rs[k..])
  {
    assert rs == rs[..k] + rs[k..];
    AppendedConcat(rs[..k], rs[k..]);
  }

  lemma AppendedHead(rs: seq<Record>)
    requires AllReadable(rs) && rs != []
    ensures AppendedRecords(rs) == AppendedRecord(rs[0]) + AppendedRecords(rs[1..])
  {
    AppendedSplit(rs, 1);
    assert rs[..1] == [] + [rs[0]];
    AppendedSnoc([], rs[0]);
    assert [] + AppendedRecord(rs[0]) == AppendedRecord(rs[0]);
  }

  lemma AppendedFrom(rs: seq<Record>, k: nat)
    requires AllReadable(rs) && k < |rs|
    ensures |AppendedRecords(rs[k..])| == |AppendedRecord(rs[k])| + |AppendedRecords(rs[k + 1..])|
  {
    AppendedHead(rs[k..]);
    assert rs[k..][1..] == rs[k + 1..];
  }

  lemma EncodedTo(kind: Kind, rs: seq<Record>, k: nat)
    requires AllOfKind(kind, rs) && k < |rs|
    ensures |EncodeRecords(kind, rs[..k + 1])| == |EncodeRecords(kind, rs[..k])| + |EncodeRecord(kind, rs[k])|
  {
    assert rs[..k + 1] == rs[..k] + [rs[k]];
    EncodeRecordsSnoc(kind, rs[..k], rs[k]);
  }

  lemma {:induction false} VisibleEncodes(kind: Kind, rs: seq<Record>)
    requires AllOfKind(kind, rs)
    ensures AllOfKind(kind, VisibleAll(kind, rs)) && EncodeRecords(kind, VisibleAll(kind, rs)) == EncodeRecords(kind, rs)
  {
    if rs == [] {
    } else {
      VisibleEncodes(kind, rs[1..]);
      VisibleHead(kind, rs);
      assert VisibleAll(kind, rs)[1..] == VisibleAll(kind, rs[1..]);
    }
  }

  lemma VisibleIsVisible(kind: Kind, rs: seq<Record>)
    requires AllOfKind(kind, rs)
    ensures AllVisible(kind, VisibleAll(kind, rs))
  {
    forall k | 0 <= k < |rs|
      ensures Visible(kind, Visible(kind, rs[k])) == Visible(kind, rs[k])
    {
      VisibleTwice(kind, rs[k]);
    }
  }

  lemma VisibleTwice(kind: Kind, r: Record)
    requires OfKind(kind, r)
    ensures Visible(kind, Visible(kind, r)) == Visible(kind, r)
  {
  }

  /** The program counts fewer subtitle languages than append_program writes; or more. */
  predicate CountsLess(r: Record) {
    r.ProgramRec? && r.program.stlNum < |r.program.langs|
  }

  predicate CountsMore(r: Record) {
    r.ProgramRec? && r.program.stlNum > |r.program.langs|
  }

  /** So its octets are more, or fewer, than those of its layout. */
  lemma LengthsCompare(kind: Kind, r: Record)
    requires OfKind(kind, r) && Readable(r) && kind != ProgramKind(true)
    ensures |AppendedRecord(r)| > |EncodeRecord(kind, r)| <==> CountsLess(r)
    ensures |AppendedRecord(r)| < |EncodeRecord(kind, r)| <==> CountsMore(r)
    ensures Balanced(r) <==> !CountsLess(r) && !CountsMore(r)
  {
    if r.ProgramRec? {
      AppendedCompares(r.program);
    }
  }

  // ---------- each record from its own octets ----------

  /** After k records the reader has the first k, and stands where the next one was written. */
  ghost predicate InStep(kind: Kind, rs: seq<Record>, k: nat)
    requires AllOfKind(kind, rs) && AllReadable(rs) && k <= |rs|
  {
    DecodeRecords(kind, k, AppendedRecords(rs)) == Some((VisibleAll(kind, rs[..k]), AppendedRecords(rs[k..])))
  }

  lemma InStepLength(kind: Kind, rs: seq<Record>, k: nat)
    requires AllOfKind(kind, rs) && AllReadable(rs) && k <= |rs| && InStep(kind, rs, k)
    ensures |AppendedRecords(rs)| == |EncodeRecords(kind, rs[..k])| + |AppendedRecords(rs[k..])|
  {
    OnlyRecordsDecode(kind, k, AppendedRecords(rs));
    VisibleEncodes(kind, rs[..k]);
  }

  lemma InStepIsBalanced(kind: Kind, rs: seq<Record>, k: nat)
    requires AllOfKind(kind, rs) && AllReadable(rs) && kind != ProgramKind(true)
    requires k < |rs| && InStep(kind, rs, k) && InStep(kind, rs, k + 1)
    ensures Balanced(rs[k])
  {
    InStepLength(kind, rs, k);
    InStepLength(kind, rs, k + 1);
    AppendedFrom(rs, k);
    EncodedTo(kind, rs, k);
    LengthsCompare(kind, rs[k]);
  }

  lemma BalancedIsInStep(kind: Kind, rs: seq<Record>, k: nat)
    requires AllOfKind(kind, rs) && AllReadable(rs) && kind != ProgramKind(true) && AllBalanced(rs) && k <= |rs|
    ensures InStep(kind, rs, k)
  {
    AppendedSplit(rs, k);
    AppendedIsEncoded(kind, rs[..k]);
    RecordsRoundTrip(kind, rs[..k], AppendedRecords(rs[k..]));
  }

  /** A client reads every record of a list from that record's own octets exactly when all language counts agree. */
  lemma InStepIff(kind: Kind, rs: seq<Record>)
    requires AllOfKind(kind, rs) && AllReadable(rs) && kind != ProgramKind(true)
    ensures (forall k :: 0 <= k <= |rs| ==> InStep(kind, rs, k)) <==> AllBalanced(rs)
  {
    if forall k :: 0 <= k <= |rs| ==> InStep(kind, rs, k) {
      forall k | 0 <= k < |rs|
        ensures Balanced(rs[k])
      {
        InStepIsBalanced(kind, rs, k);
      }
    }
    if AllBalanced(rs) {
      forall k | 0 <= k <= |rs|
        ensures InStep(kind, rs, k)
      {
        BalancedIsInStep(kind, rs, k);
      }
    }
  }

  // ---------- the list as a whole ----------

  ghost predicate NoneCountsLess(rs: seq<Record>) {
    forall k :: 0 <= k < |rs| ==> !CountsLess(rs[k])
  }

  ghost predicate NoneCountsMore(rs: seq<Record>) {
    forall k :: 0 <= k < |rs| ==> !CountsMore(rs[k])
  }

  lemma ListLengthSnoc(kind: Kind, rs: seq<Record>, r: Record)
    requires AllOfKind(kind, rs) && AllReadable(rs) && OfKind(kind, r) && Readable(r)
    ensures AllOfKind(kind, rs + [r]) && AllReadable(rs + [r])
    ensures |EncodeRecords(kind, rs + [r])| - |AppendedRecords(rs + [r])|
            == |EncodeRecords(kind, rs)| - |AppendedRecords(rs)| + |EncodeRecord(kind, r)| - |AppendedRecord(r)|
    ensures NoneCountsLess(rs + [r]) ==> NoneCountsLess(rs) && !CountsLess(r)
    ensures NoneCountsMore(rs + [r]) ==> NoneCountsMore(rs) && !CountsMore(r)
  {
    AppendedSnoc(rs, r);
    EncodeRecordsSnoc(kind, rs, r);
    assert (rs + [r])[|rs|] == r;
    assert forall k :: 0 <= k < |rs| ==> (rs + [r])[k] == rs[k];
  }

  lemma {:induction false} ListLengths(kind: Kind, rs: seq<Record>)
    requires AllOfKind(kind, rs) && AllReadable(rs) && kind != ProgramKind(true)
    ensures NoneCountsLess(rs) ==>
              && |AppendedRecords(rs)| <= |EncodeRecords(kind, rs)|
              && (|AppendedRecords(rs)| == |EncodeRecords(kind, rs)| ==> AllBalanced(rs))
    ensures NoneCountsMore(rs) ==>
              && |AppendedRecords(rs)| >= |EncodeRecords(kind, rs)|
              && (|AppendedRecords(rs)| == |EncodeRecords(kind, rs)| ==> AllBalanced(rs))
  {
    if rs == [] {
    } else {
      var front, last := rs[..|rs| - 1], rs[|rs| - 1];
      assert rs == front + [last];
      ListLengths(kind, front);
      LengthsCompare(kind, last);
      ListLengthSnoc(kind, front, last);
      AllBalancedSnoc(front, last);
    }
  }

  /** Octets that agree as far as both go, without what they share. */
  predicate Agree(a: seq<byte>, e: seq<byte>) {
    a <= e || e <= a
  }

  /**
   The writer has put `a` in front of the records, the reader expects `e` there: record by record, what is written
   agrees with what is expected, and in the end nothing is left over on either side.
   */
  ghost predicate CatchesUp(kind: Kind, a: seq<byte>, e: seq<byte>, rs: seq<Record>)
    requires AllOfKind(kind, rs) && AllReadable(rs)
    decreases |rs|
  {
    if rs == [] then a == e else
      var a', e' := a + AppendedRecord(rs[0]), e + EncodeRecord(kind, rs[0]);
      && Agree(a', e')
      && if |a'| <= |e'| then CatchesUp(kind, [], e'[|a'|..], rs[1..])
         else CatchesUp(kind, a'[|e'|..], [], rs[1..])
  }

  lemma AgreeingFronts(a: seq<byte>, x: seq<byte>, e: seq<byte>, y: seq<byte>)
    ensures a + x == e + y ==> Agree(a, e)
    ensures a <= e ==> (a + x == e + y <==> x == e[|a|..] + y)
    ensures e <= a ==> (a + x == e + y <==> a[|e|..] + x == y)
  {
    if a + x == e + y {
      if |a| <= |e| {
        assert a == (a + x)[..|a|] == (e + y)[..|a|] == e[..|a|];
      } else {
        assert e == (e + y)[..|e|] == (a + x)[..|e|] == a[..|e|];
      }
    }
    if a <= e {
      assert e + y == a + (e[|a|..] + y);
      SameBehindPrefix(a, x, e[|a|..] + y);
    }
    if e <= a {
      assert a + x == e + (a[|e|..] + x);
      SameBehindPrefix(e, a[|e|..] + x, y);
    }
  }

  lemma {:induction false} CatchesUpIff(kind: Kind, a: seq<byte>, e: seq<byte>, rs: seq<Record>)
    requires AllOfKind(kind, rs) && AllReadable(rs)
    ensures CatchesUp(kind, a, e, rs) <==> a + AppendedRecords(rs) == e + EncodeRecords(kind, rs)
    decreases |rs|
  {
    if rs == [] {
      assert a + [] == a && e + [] == e;
    } else {
      var a', e' := a + AppendedRecord(rs[0]), e + EncodeRecord(kind, rs[0]);
      var x, y := AppendedRecords(rs[1..]), EncodeRecords(kind, rs[1..]);
      AppendedHead(rs);
      ConcatAssociates(a, AppendedRecord(rs[0]), x);
      ConcatAssociates(e, EncodeRecord(kind, rs[0]), y);
      AgreeingFronts(a', x, e', y);
      if Agree(a', e') {
        if |a'| <= |e'| {
          CatchesUpIff(kind, [], e'[|a'|..], rs[1..]);
          assert [] + x == x;
        } else {
          CatchesUpIff(kind, a'[|e'|..], [], rs[1..]);
          assert [] + y == y;
        }
      }
    }
  }

  /** What the append loops write for the list is the list's encoding, misaligned programs making up for each other. */
  ghost predicate SpellsItself(kind: Kind, rs: seq<Record>)
    requires AllOfKind(kind, rs) && AllReadable(rs)
  {
    CatchesUp(kind, [], [], rs)
  }

  lemma SpellsItselfIff(kind: Kind, rs: seq<Record>)
    requires AllOfKind(kind, rs) && AllReadable(rs)
    ensures SpellsItself(kind, rs) <==> AppendedRecords(rs) == EncodeRecords(kind, rs)
  {
    CatchesUpIff(kind, [], [], rs);
    assert [] + AppendedRecords(rs) == AppendedRecords(rs) && [] + EncodeRecords(kind, rs) == EncodeRecords(kind, rs);
  }

  /**
   A list with agreeing language counts spells itself. One with a program whose counts differ does so only if
   another program's counts differ the other way.
   */
  lemma SpellsItselfWhen(kind: Kind, rs: seq<Record>)
    requires AllOfKind(kind, rs) && AllReadable(rs) && kind != ProgramKind(true)
    ensures AllBalanced(rs) ==> SpellsItself(kind, rs)
    ensures NoneCountsLess(rs) || NoneCountsMore(rs) ==> (SpellsItself(kind, rs) <==> AllBalanced(rs))
  {
    SpellsItselfIff(kind, rs);
    ListLengths(kind, rs);
    if AllBalanced(rs) {
      AppendedIsEncoded(kind, rs);
    }
  }

  // ---------- two programs that make up for each other ----------

  function Empties(n: nat): (ss: seq<CStr>)
    ensures |ss| == n && forall k :: 0 <= k < n ==> ss[k] == []
  {
    seq(n, _ => [])
  }

  function Zeros(n: nat): (b: seq<byte>)
    ensures |b| == n && forall k :: 0 <= k < n ==> b[k] == 0
  {
    seq(n, _ => 0)
  }

  lemma {:induction false} EmptiesAreZeros(n: nat)
    ensures EncodeFields(Strings(Empties(n))) == Zeros(n)
  {
    if n == 0 {
    } else {
      EmptiesAreZeros(n - 1);
      assert Empties(n) == Empties(n - 1) + [[]];
      StringsSnoc(Empties(n - 1), []);
    }
  }

  /** Twenty-six subtitle languages whose octets are those of a program without any text, number or audio language. */
  function Surplus(): (ss: seq<CStr>)
    ensures |ss| == 26
  {
    Empties(23) + [[26]] + Empties(2)
  }

  /** It counts none of the subtitle languages that are written for its twenty-six audio languages. */
  function First(): Program {
    Program([], [], 0, 0, [], [], Empties(26), 0, Surplus())
  }

  /** It counts twenty-six subtitle languages, and none is written. */
  function Second(): Program {
    Program([], [], 0, 0, [], [], [], 26, Surplus())
  }

  lemma SurplusOctets()
    ensures EncodeFields(Strings(Surplus())) == Zeros(23) + [26] + Zeros(3)
  {
    EmptiesAreZeros(23);
    EmptiesAreZeros(2);
    StringsSnoc(Empties(23), [26]);
    StringsConcat(Empties(23) + [[26]], Empties(2));
    SurplusJoin(Zeros(23));
  }

  lemma SurplusJoin(z: seq<byte>)
    ensures z + ([26] + [0]) + Zeros(2) == z + [26] + Zeros(3)
  {
  }

  lemma ZerosJoin(i: nat, j: nat)
    ensures Zeros(i) + Zeros(j) == Zeros(i + j)
  {
  }

  lemma {:induction false} ZeroBytes(k: nat)
    ensures LeBytes(k, 0) == Zeros(k)
  {
    if k == 0 {
    } else {
      ZeroBytes(k - 1);
      assert LeBytes(k, 0) == [0] + LeBytes(k - 1, 0);
    }
  }

  lemma NoTimes()
    ensures EncodeFields([L(0), L(0), Z([])]) == Zeros(17)
  {
    assert [L(0), L(0), Z([])] == [L(0), L(0)] + [Z([])];
    EncodeConcat([L(0), L(0)], [Z([])]);
    EncodeTwo(L(0), L(0));
    EncodeOne(Z([]));
    ZeroBytes(8);
    ZerosJoin(8, 8);
    assert EncodeField(Z([])) == Zeros(1);
    ZerosJoin(16, 1);
  }

  lemma NoText(p: Program)
    requires p.evtId == [] && p.startTime == 0 && p.duration == 0 && p.descpt == [] && p.rating == [] && p.langs == []
    ensures EncodeFields(ProgramHead(false, p)) == Zeros(23)
  {
    HeadParts(false, p);
    NoTimes();
    ZeroBytes(4);
    assert Middle(p) == Zeros(17);
    NoTextOctets(Middle(p), U32Bytes(0));
  }

  lemma NoTextOctets(m: seq<byte>, c: seq<byte>)
    requires m == Zeros(17) && c == Zeros(4)
    ensures ([] + [0]) + ([] + (m + [0] + c)) == Zeros(23)
  {
  }

  /** The octets of a program up to its subtitle languages. */
  function Front(p: Program): seq<byte> {
    EncodeFields(ProgramHead(false, p)) + EncodeFields(Strings(p.langs)) + U32Bytes(p.stlNum)
  }

  /** The untitled layout and what is written differ in the number of subtitle languages only. */
  lemma BehindFront(p: Program)
    requires Readable(ProgramRec(p)) && Counted(p)
    ensures AppendedRecord(ProgramRec(p)) == Front(p) + EncodeFields(Strings(p.stlLangs[..|p.langs|]))
    ensures EncodeRecord(ProgramKind(false), ProgramRec(p)) == Front(p) + EncodeFields(Strings(Subtitles(p)))
  {
    AppendedParts(p);
    ProgramParts(false, p, []);
    var h, l, c := EncodeFields(ProgramHead(false, p)), EncodeFields(Strings(p.langs)), U32Bytes(p.stlNum);
    var s := EncodeFields(Strings(Subtitles(p)));
    RightNested(h, l, c, s, []);
    NothingBehind(EncodeFields(ProgramFields(false, p)));
    NothingBehind(h + l + c + s);
  }

  lemma NothingBehind(b: seq<byte>)
    ensures b + [] == b && [] + b == b
  {
  }

  lemma SecondFront()
    ensures Front(Second()) == EncodeFields(Strings(Surplus()))
  {
    SurplusOctets();
    NoText(Second());
    assert U32Bytes(26) == [26] + LeBytes(3, 0);
    ZeroBytes(3);
    assert EncodeFields(Strings([])) == [];
    assert Zeros(23) + [] + ([26] + Zeros(3)) == Zeros(23) + [26] + Zeros(3);
  }

  lemma FourOctets(f: seq<byte>, b: seq<byte>)
    ensures (f + b) + (b + []) == (f + []) + ((b + b) + [])
  {
  }

  lemma TwoRecords(r: Record, q: Record)
    requires Readable(r) && Readable(q) && OfKind(ProgramKind(false), r) && OfKind(ProgramKind(false), q)
    ensures AppendedRecords([r, q]) == AppendedRecord(r) + (AppendedRecord(q) + [])
    ensures EncodeRecords(ProgramKind(false), [r, q])
            == EncodeRecord(ProgramKind(false), r) + (EncodeRecord(ProgramKind(false), q) + [])
  {
    AppendedHead([r, q]);
    AppendedHead([q]);
    assert [r, q][1..] == [q] && [q][1..] == [];
    assert EncodeRecords(ProgramKind(false), [q]) == EncodeRecord(ProgramKind(false), q) + EncodeRecords(ProgramKind(false), []);
  }

  lemma FirstRecord()
    ensures AppendedRecord(ProgramRec(First())) == Front(First()) + EncodeFields(Strings(Surplus()))
    ensures EncodeRecord(ProgramKind(false), ProgramRec(First())) == Front(First()) + []
  {
    BehindFront(First());
    assert Surplus()[..26] == Surplus() && Surplus()[..0] == [] && Strings([]) == [];
  }

  lemma SecondRecord()
    ensures var b := EncodeFields(Strings(Surplus()));
            && AppendedRecord(ProgramRec(Second())) == b
            && EncodeRecord(ProgramKind(false), ProgramRec(Second())) == b + b
  {
    BehindFront(Second());
    SecondFront();
    assert Surplus()[..26] == Surplus() && Surplus()[..0] == [] && Strings([]) == [];
    NothingBehind(Front(Second()));
  }

  lemma PairSpellsItself(r: Record, q: Record, f: seq<byte>, b: seq<byte>)
    requires Readable(r) && Readable(q) && OfKind(ProgramKind(false), r) && OfKind(ProgramKind(false), q)
    requires AppendedRecord(r) == f + b && EncodeRecord(ProgramKind(false), r) == f + []
    requires AppendedRecord(q) == b && EncodeRecord(ProgramKind(false), q) == b + b
    ensures AllOfKind(ProgramKind(false), [r, q]) && AllReadable([r, q]) && SpellsItself(ProgramKind(false), [r, q])
  {
    TwoRecords(r, q);
    FourOctets(f, b);
    SpellsItselfIff(ProgramKind(false), [r, q]);
  }

  /** So a list can be read back although no program in it is written in its layout. */
  lemma WrongCountsCancel()
    ensures var rs := [ProgramRec(First()), ProgramRec(Second())];
            && AllOfKind(ProgramKind(false), rs) && AllReadable(rs) && SpellsItself(ProgramKind(false), rs)
            && !Balanced(rs[0]) && !Balanced(rs[1])
  {
    FirstRecord();
    SecondRecord();
    PairSpellsItself(ProgramRec(First()), ProgramRec(Second()), Front(First()), EncodeFields(Strings(Surplus())));
  }
}
