/** src/dtv.c: the list of tuners, from the device table to the records that GET_TUNERS sends. */
module Dtv {
  import opened Base
  import opened Records
  import opened TunerIds
  import opened DeviceTable
  import opened TvHal

  /** What dtv_get_tuners lists: a tuner without supported types for every tuner of the table. */
  function TunerRecords(slots: seq<DeviceInfo>): (rs: seq<Record>)
    ensures forall k :: 0 <= k < |rs| ==> rs[k].TunerRec?
  {
    var ids := IdsOfType(slots, TunerInput);
    seq(|ids|, k requires 0 <= k < |ids| => TunerRec(Tuner(PrintId(ids[k]), [])))
  }

  /** dtv_get_tuner_num */
  method DtvGetTunerNum(hal: DeviceList) returns (n: nat)
    requires hal.Valid()
    ensures n == |TunerRecords(hal.View().slots)| <= MAX_DEVICE_NUM
  {
    n := hal.GetInputNumByType(TunerInput);
  }

  /** The loop of dtv_get_tuners that prints the ids. */
  method PrintIds(ids: array<i32>, tuners: array<Tuner>)
    requires ids.Length == tuners.Length
    modifies tuners
    ensures forall k :: 0 <= k < tuners.Length ==> tuners[k] == Tuner(PrintId(ids[k]), [])
  {
    for idx := 0 to ids.Length
      invariant forall k :: 0 <= k < idx ==> tuners[k] == Tuner(PrintId(ids[k]), [])
    {
      var len := GetIntLength(AsU32(ids[idx]));
      IntLengthLaw(AsU32(ids[idx]));
      tuners[idx] := Tuner(Truncated(Decimal(ids[idx]), len), []);
    }
  }

  /** dtv_get_tuners: fills the caller's array, which was sized by dtv_get_tuner_num. */
  method DtvGetTuners(hal: DeviceList, tunerNum: nat, tuners: array<Tuner>)
    requires hal.Valid() && tunerNum == |TunerRecords(hal.View().slots)| == tuners.Length
    modifies tuners
    ensures forall k :: 0 <= k < tunerNum ==> TunerRec(tuners[k]) == TunerRecords(hal.View().slots)[k]
  {
    var tunerIdList := new i32[tunerNum];
    ghost var ids := IdsOfType(hal.View().slots, TunerInput);
    var ret := hal.GetInputsByType(TunerInput, tunerIdList);
    assert tunerIdList[..] == ids;
    PrintIds(tunerIdList, tuners);
    assert forall k :: 0 <= k < tunerNum ==> tunerIdList[k] == tunerIdList[..][k] == ids[k];
  }

  lemma {:induction false} TunersLength(rs: seq<Record>)
    requires forall k :: 0 <= k < |rs| ==> rs[k].TunerRec? && |rs[k].tuner.id| <= 10 && rs[k].tuner.types == []
    ensures |AppendedRecords(rs)| <= 15 * |rs|
  {
    if rs == [] {
    } else {
      TunersLength(rs[..|rs| - 1]);
      TunerLength(rs[|rs| - 1].tuner);
    }
  }

  lemma ShortTuners(slots: seq<DeviceInfo>)
    ensures var rs := TunerRecords(slots);
            && |rs| <= |slots|
            && forall k :: 0 <= k < |rs| ==> |rs[k].tuner.id| <= 10 && rs[k].tuner.types == []
  {
    var rs := TunerRecords(slots);
    forall k | 0 <= k < |rs|
      ensures |rs[k].tuner.id| <= 10
    {
      IdLength(IdsOfType(slots, TunerInput)[k]);
    }
  }
}
