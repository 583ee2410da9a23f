/**
 src/tv_hal.c as a state machine: the live slots of the device table, and the streams that the
 driver has open. What the driver answers is an input of every step.
 */
module DeviceTable {
  import opened Base

  const MAX_DEVICE_NUM := 100
  const NO_STREAM: i32 := -1
  const TV_STATUS_SUCCESS: byte := 0
  const TV_STATUS_FAIL: byte := 1

  // The numeric values of these enumerators are in hardware/tv_input.h.
  datatype InputType = TunerInput | OtherInput(code: int)
  datatype StreamType = IndependentVideoSource | BufferProducer | OtherStream
  datatype EventKind = DeviceAvailable | DeviceUnavailable | StreamConfigurationsChanged | OtherEvent

  datatype HotPlug = HotPlug(kind: EventKind, deviceId: i32, inputType: InputType)
  datatype StreamConfig = StreamConfig(kind: StreamType, streamId: i32)

  /** What get_stream_configurations, close_stream and open_stream answer, if they are called. */
  datatype Answers = Answers(configs: Option<seq<StreamConfig>>, closeResult: int, openResult: int)

  datatype DeviceInfo = DeviceInfo(deviceId: i32, kind: InputType, acting: i32)
  datatype StreamKey = StreamKey(device: i32, stream: i32)

  /**
   up: `device` is not NULL. hooked: some init has given the driver our callback, which no function takes
   back. fault: a driver call went through a NULL device, or a slot behind the array was written.
   open: the streams the driver really has open.
   */
  datatype Hal = Hal(up: bool, hooked: bool, fault: bool, slots: seq<DeviceInfo>, open: set<StreamKey>)

  // ---------- the steps ----------

  /** The first slot with this id, or the number of slots. */
  function FirstSlot(slots: seq<DeviceInfo>, id: i32): (i: nat)
    ensures i <= |slots|
    ensures i < |slots| ==> slots[i].deviceId == id
    ensures forall j :: 0 <= j < i ==> slots[j].deviceId != id
  {
    if slots == [] || slots[0].deviceId == id then 0 else 1 + FirstSlot(slots[1..], id)
  }

  predicate Listed(slots: seq<DeviceInfo>, id: i32) {
    FirstSlot(slots, id) < |slots|
  }

  function Without<T>(s: seq<T>, i: nat): seq<T>
    requires i < |s|
  {
    s[..i] + s[i + 1..]
  }

  /** device_init_notify; its close_stream calls are taken to succeed, and end the daemon without a device. */
  function Notify(h: Hal, e: HotPlug): Hal {
    if e.kind != OtherEvent && e.inputType != TunerInput then h else
    match e.kind
    case DeviceAvailable =>
      if |h.slots| >= MAX_DEVICE_NUM then h
      else h.(slots := h.slots + [DeviceInfo(e.deviceId, e.inputType, NO_STREAM)])
    case DeviceUnavailable =>
      var i := FirstSlot(h.slots, e.deviceId);
      if i >= |h.slots| then h
      else if !h.up then h.(fault := true)
      else h.(slots := Without(h.slots, i), open := h.open - {StreamKey(e.deviceId, h.slots[i].acting)})
    case StreamConfigurationsChanged =>
      var i := FirstSlot(h.slots, e.deviceId);
      if i >= |h.slots| then h
      else if !h.up then h.(fault := true)
      else h.(slots := h.slots[i := h.slots[i].(acting := NO_STREAM)],
              open := h.open - {StreamKey(e.deviceId, h.slots[i].acting)})
    case OtherEvent => h
  }

  /** tv_input_hal_init: the table is emptied whatever happens. */
  function Init(h: Hal, moduleOk: bool, deviceOk: bool): Hal {
    h.(slots := [], up := moduleOk && deviceOk, hooked := h.hooked || (moduleOk && deviceOk))
  }

  function Recorded(slots: seq<DeviceInfo>): set<StreamKey> {
    set i | 0 <= i < |slots| && slots[i].acting != NO_STREAM :: StreamKey(slots[i].deviceId, slots[i].acting)
  }

  /** tv_input_hal_uninit: closes what is recorded and leaves the table as it is. */
  function Uninit(h: Hal): Hal {
    if !h.up && Recorded(h.slots) != {} then h.(fault := true)
    else h.(open := h.open - Recorded(h.slots))
  }

  /** The stream of the first independent video source. */
  function ChosenStream(configs: seq<StreamConfig>): Option<i32> {
    if configs == [] then None
    else if configs[0].kind == IndependentVideoSource then Some(configs[0].streamId)
    else ChosenStream(configs[1..])
  }

  /** The position of the first independent video source. */
  ghost predicate FirstSource(configs: seq<StreamConfig>, i: int) {
    && 0 <= i < |configs| && configs[i].kind == IndependentVideoSource
    && forall j :: 0 <= j < i ==> configs[j].kind != IndependentVideoSource
  }

  /** A stream is chosen exactly when it belongs to the first independent video source. */
  lemma {:induction false} ChosenIsFirst(configs: seq<StreamConfig>, stream: i32)
    ensures ChosenStream(configs) == Some(stream)
       <==> exists i :: FirstSource(configs, i) && configs[i].streamId == stream
  {
    if configs == [] {
    } else if configs[0].kind == IndependentVideoSource {
      assert FirstSource(configs, 0);
    } else {
      ChosenIsFirst(configs[1..], stream);
      if i :| FirstSource(configs[1..], i) && configs[1..][i].streamId == stream {
        assert FirstSource(configs, i + 1);
      }
      if i :| FirstSource(configs, i) && configs[i].streamId == stream {
        assert FirstSource(configs[1..], i - 1);
      }
    }
  }

  /** The stream a call asks for, or None when it fails before looking at the table. */
  function Requested(a: Answers): Option<i32> {
    if a.configs.None? then None else ChosenStream(a.configs.value)
  }

  /** A call asks for the stream of the first independent video source that the driver offers, and for no other. */
  lemma RequestedIsFirst(a: Answers, stream: i32)
    ensures Requested(a) == Some(stream)
       <==> a.configs.Some? && exists i :: FirstSource(a.configs.value, i) && a.configs.value[i].streamId == stream
  {
    if a.configs.Some? {
      ChosenIsFirst(a.configs.value, stream);
    }
  }

  lemma RequestedAt(a: Answers, i: nat)
    requires a.configs.Some? && FirstSource(a.configs.value, i)
    ensures Requested(a) == Some(a.configs.value[i].streamId)
  {
    RequestedIsFirst(a, a.configs.value[i].streamId);
  }

  /** The state after the recorded stream, if it is another one, has been closed; None when that fails. */
  function ClosePrevious(h: Hal, id: i32, stream: i32, a: Answers): Option<Hal> {
    var i := FirstSlot(h.slots, id);
    if i < |h.slots| && h.slots[i].acting != NO_STREAM && h.slots[i].acting != stream then
      if a.closeResult == 0 then Some(h.(open := h.open - {StreamKey(id, h.slots[i].acting)})) else None
    else Some(h)
  }

  /** The requested stream is recorded as acting already, so nothing is opened. */
  predicate AlreadyActing(h: Hal, id: i32, stream: i32) {
    var i := FirstSlot(h.slots, id);
    i < |h.slots| && h.slots[i].acting == stream != NO_STREAM
  }

  /** tv_input_hal_get_stream: the slot it writes is the one where its search loop stopped. */
  function GetStream(h: Hal, id: i32, a: Answers): (Hal, byte) {
    if !h.up then (h.(fault := true), TV_STATUS_FAIL) else
    match Requested(a)
    case None => (h, TV_STATUS_FAIL)
    case Some(stream) =>
      if AlreadyActing(h, id, stream) then (h, TV_STATUS_SUCCESS) else
      match ClosePrevious(h, id, stream, a)
      case None => (h, TV_STATUS_FAIL)
      case Some(h1) =>
        if a.openResult != 0 then (h1, TV_STATUS_FAIL) else
        var i := FirstSlot(h.slots, id);
        // For a device that is not listed this is the slot behind the live ones, or behind the array.
        var slots := if i < |h.slots| then h.slots[i := h.slots[i].(acting := stream)] else h.slots;
        (h1.(slots := slots, open := h1.open + {StreamKey(id, stream)}, fault := h.fault || i >= MAX_DEVICE_NUM),
         TV_STATUS_SUCCESS)
  }

  /**
   A granted call is about this stream: it is what the device's slot records afterwards, and what has been opened
   unless it was on record before.
   */
  ghost predicate TakesStream(h: Hal, h': Hal, id: i32, stream: i32, opened': bool) {
    var i := FirstSlot(h.slots, id);
    && (i < |h.slots| ==> i < |h'.slots| && h'.slots[i] == h.slots[i].(acting := stream))
    && (opened' ==> StreamKey(id, stream) in h'.open)
    && (!opened' ==> i < |h.slots| && h.slots[i].acting == stream && h' == h)
  }

  /** It is about the stream of the first independent video source among the device's configurations. */
  ghost predicate TakesFirstSource(h: Hal, h': Hal, id: i32, a: Answers, opened': bool) {
    && a.configs.Some?
    && exists i :: FirstSource(a.configs.value, i) && TakesStream(h, h', id, a.configs.value[i].streamId, opened')
  }

  lemma GrantedTakesFirst(h: Hal, id: i32, a: Answers)
    ensures var (h', status) := GetStream(h, id, a);
            h.up && status == TV_STATUS_SUCCESS ==>
              Requested(a).Some? && TakesFirstSource(h, h', id, a, !AlreadyActing(h, id, Requested(a).value))
  {
    var (h', status) := GetStream(h, id, a);
    if h.up && status == TV_STATUS_SUCCESS {
      var x := Requested(a).value;
      GrantedTakesStream(h, id, a, x);
      RequestedIsFirst(a, x);
      var i :| FirstSource(a.configs.value, i) && a.configs.value[i].streamId == x;
      assert TakesStream(h, h', id, a.configs.value[i].streamId, !AlreadyActing(h, id, x));
    }
  }

  lemma GrantedTakesStream(h: Hal, id: i32, a: Answers, stream: i32)
    requires h.up && Requested(a) == Some(stream) && GetStream(h, id, a).1 == TV_STATUS_SUCCESS
    ensures TakesStream(h, GetStream(h, id, a).0, id, stream, !AlreadyActing(h, id, stream))
  {
    var i := FirstSlot(h.slots, id);
    if AlreadyActing(h, id, stream) {
      assert h.slots[i].(acting := stream) == h.slots[i];
    }
  }

  // ---------- memory ----------

  /** The event calls close_stream although `device` is NULL. */
  predicate ClosesWithoutDevice(h: Hal, e: HotPlug) {
    && !h.up && e.inputType == TunerInput && Listed(h.slots, e.deviceId)
    && (e.kind == DeviceUnavailable || e.kind == StreamConfigurationsChanged)
  }

  /** With a driver, a call succeeds when its stream is acting already, or the driver closes the previous one and opens it. */
  predicate Grants(h: Hal, id: i32, a: Answers) {
    match Requested(a)
    case None => false
    case Some(stream) =>
      AlreadyActing(h, id, stream) || (ClosePrevious(h, id, stream, a).Some? && a.openResult == 0)
  }

  /** A stream opens for a device that is not listed while the table is full. */
  predicate RecordsOutside(h: Hal, id: i32, a: Answers) {
    Requested(a).Some? && a.openResult == 0 && !Listed(h.slots, id) && |h.slots| == MAX_DEVICE_NUM
  }

  lemma NotifyFaultsIff(h: Hal, e: HotPlug)
    requires !h.fault
    ensures Notify(h, e).fault <==> ClosesWithoutDevice(h, e)
    ensures Notify(h, e).fault ==> Notify(h, e) == h.(fault := true)
  {
  }

  lemma GetStreamFaultsIff(h: Hal, id: i32, a: Answers)
    requires !h.fault && h.up && Table(h)
    ensures GetStream(h, id, a).0.fault <==> RecordsOutside(h, id, a)
    ensures GetStream(h, id, a).1 == TV_STATUS_SUCCESS <==> Grants(h, id, a)
    ensures !Grants(h, id, a) ==> GetStream(h, id, a).1 == TV_STATUS_FAIL
  {
  }

  /**
   Exactly these events leave everything as it is: those of other kinds or of other devices than tuners, an
   announcement that finds the table full, and what concerns a device that is not listed or, when its
   configurations change, records no stream.
   */
  lemma EventIgnoredIff(h: Hal, e: HotPlug)
    requires Ledger(h) && Table(h) && h.up
    ensures Notify(h, e) == h <==>
            || e.kind == OtherEvent || e.inputType != TunerInput
            || (e.kind == DeviceAvailable && |h.slots| == 100)
            || (e.kind == DeviceUnavailable && forall j :: 0 <= j < |h.slots| ==> h.slots[j].deviceId != e.deviceId)
            || (e.kind == StreamConfigurationsChanged
                && forall j :: 0 <= j < |h.slots| && h.slots[j].deviceId == e.deviceId ==> h.slots[j].acting == NO_STREAM)
  {
    var i := FirstSlot(h.slots, e.deviceId);
    if e.inputType == TunerInput && i < |h.slots| {
      if e.kind == DeviceUnavailable {
        assert |Notify(h, e).slots| < |h.slots|;
      } else if e.kind == StreamConfigurationsChanged {
        ReleaseChanges(h, i);
      }
    }
    if e.inputType == TunerInput && e.kind == DeviceAvailable && |h.slots| < 100 {
      assert |Notify(h, e).slots| > |h.slots|;
    }
  }

  lemma ReleaseChanges(h: Hal, i: nat)
    requires Ledger(h) && i < |h.slots| && FirstSlot(h.slots, h.slots[i].deviceId) == i
    ensures var id := h.slots[i].deviceId;
            var h' := h.(slots := h.slots[i := h.slots[i].(acting := NO_STREAM)],
                         open := h.open - {StreamKey(id, h.slots[i].acting)});
            h' == h <==> forall j :: 0 <= j < |h.slots| && h.slots[j].deviceId == id ==> h.slots[j].acting == NO_STREAM
  {
    var s := h.slots[i := h.slots[i].(acting := NO_STREAM)];
    assert s[i].acting == NO_STREAM;
    if h.slots[i].acting == NO_STREAM {
      assert s == h.slots;
      assert h.open - {StreamKey(h.slots[i].deviceId, NO_STREAM)} == h.open;
    }
  }

  // ---------- no stream is lost ----------

  /** Only the first slot of a device id records a stream. */
  ghost predicate FirstSlotsAct(slots: seq<DeviceInfo>) {
    forall i :: 0 <= i < |slots| && slots[i].acting != NO_STREAM ==> FirstSlot(slots, slots[i].deviceId) == i
  }

  /** An open stream is the acting stream of the first slot of its device. */
  ghost predicate IsRecorded(slots: seq<DeviceInfo>, k: StreamKey) {
    var i := FirstSlot(slots, k.device);
    i < |slots| && slots[i].acting == k.stream && k.stream != NO_STREAM
  }

  ghost predicate Ledger(h: Hal) {
    && FirstSlotsAct(h.slots)
    && forall k :: k in h.open ==> IsRecorded(h.slots, k)
  }

  ghost predicate Table(h: Hal) {
    && |h.slots| <= MAX_DEVICE_NUM
    && forall i :: 0 <= i < |h.slots| ==> h.slots[i].kind == TunerInput
  }

  /** Under the ledger an open stream is recorded by exactly one slot, and a device has at most one. */
  lemma LedgerMeans(h: Hal, k: StreamKey)
    requires Ledger(h) && k in h.open
    ensures exists i :: && 0 <= i < |h.slots| && StreamKey(h.slots[i].deviceId, h.slots[i].acting) == k
                        && forall j :: 0 <= j < |h.slots| && StreamKey(h.slots[j].deviceId, h.slots[j].acting) == k ==> j == i
    ensures forall k' :: k' in h.open && k'.device == k.device ==> k' == k
  {
  }

  lemma FirstSlotUnique(slots: seq<DeviceInfo>, id: i32, i: nat)
    requires i < |slots| && slots[i].deviceId == id
    requires forall j :: 0 <= j < i ==> slots[j].deviceId != id
    ensures FirstSlot(slots, id) == i
  {
  }

  lemma FirstSlotAfterAppend(slots: seq<DeviceInfo>, d: DeviceInfo, id: i32)
    ensures FirstSlot(slots + [d], id) ==
            if Listed(slots, id) then FirstSlot(slots, id) else if d.deviceId == id then |slots| else |slots| + 1
  {
    var s, i := slots + [d], FirstSlot(slots, id);
    assert forall j :: 0 <= j < |slots| ==> s[j] == slots[j];
    if i < |slots| {
      FirstSlotUnique(s, id, i);
    } else if d.deviceId == id {
      FirstSlotUnique(s, id, |slots|);
    }
  }

  /** Compaction moves the first slot of every other device down by one, or leaves it. */
  lemma FirstSlotAfterRemoval(slots: seq<DeviceInfo>, i: nat, id: i32)
    requires i < |slots| && slots[i].deviceId != id
    ensures FirstSlot(Without(slots, i), id) == var f := FirstSlot(slots, id); if f > i then f - 1 else f
  {
    var s, f := Without(slots, i), FirstSlot(slots, id);
    assert forall j :: 0 <= j < |s| ==> s[j] == if j < i then slots[j] else slots[j + 1];
    if f < |slots| {
      FirstSlotUnique(s, id, if f > i then f - 1 else f);
    }
  }

  lemma FirstSlotAfterUpdate(slots: seq<DeviceInfo>, i: nat, acting: i32, id: i32)
    requires i < |slots|
    ensures FirstSlot(slots[i := slots[i].(acting := acting)], id) == FirstSlot(slots, id)
  {
    var s := slots[i := slots[i].(acting := acting)];
    assert forall j :: 0 <= j < |s| ==> s[j].deviceId == slots[j].deviceId;
    if FirstSlot(slots, id) < |slots| {
      FirstSlotUnique(s, id, FirstSlot(slots, id));
    }
  }

  lemma AppendKeepsLedger(h: Hal, d: DeviceInfo)
    requires Ledger(h) && d.acting == NO_STREAM
    ensures Ledger(h.(slots := h.slots + [d]))
  {
    var s := h.slots + [d];
    forall i | 0 <= i < |s| && s[i].acting != NO_STREAM
      ensures FirstSlot(s, s[i].deviceId) == i
    {
      FirstSlotAfterAppend(h.slots, d, s[i].deviceId);
    }
    forall k | k in h.open
      ensures IsRecorded(s, k)
    {
      assert IsRecorded(h.slots, k);
      FirstSlotAfterAppend(h.slots, d, k.device);
    }
  }

  lemma RemovalKeepsLedger(h: Hal, i: nat)
    requires Ledger(h) && i < |h.slots| && FirstSlot(h.slots, h.slots[i].deviceId) == i
    ensures Ledger(h.(slots := Without(h.slots, i), open := h.open - {StreamKey(h.slots[i].deviceId, h.slots[i].acting)}))
  {
    var s, id := Without(h.slots, i), h.slots[i].deviceId;
    forall j | 0 <= j < |s| && s[j].acting != NO_STREAM
      ensures FirstSlot(s, s[j].deviceId) == j
    {
      var j0 := if j < i then j else j + 1;
      assert s[j] == h.slots[j0];
      assert FirstSlot(h.slots, s[j].deviceId) == j0;
      FirstSlotAfterRemoval(h.slots, i, s[j].deviceId);
    }
    forall k | k in h.open && k != StreamKey(id, h.slots[i].acting)
      ensures IsRecorded(s, k)
    {
      assert IsRecorded(h.slots, k);
      FirstSlotAfterRemoval(h.slots, i, k.device);
    }
  }

  /** Recording another stream for the first slot of a device, once its previous one is closed. */
  lemma RecordingKeepsLedger(h: Hal, i: nat, stream: i32, open: set<StreamKey>)
    requires Ledger(h) && i < |h.slots| && FirstSlot(h.slots, h.slots[i].deviceId) == i
    requires forall k :: k in open ==> k in h.open || (k == StreamKey(h.slots[i].deviceId, stream) && stream != NO_STREAM)
    requires forall k :: k in open && k.device == h.slots[i].deviceId ==> k.stream == stream && stream != NO_STREAM
    ensures Ledger(h.(slots := h.slots[i := h.slots[i].(acting := stream)], open := open))
  {
    var s := h.slots[i := h.slots[i].(acting := stream)];
    forall j | 0 <= j < |s| && s[j].acting != NO_STREAM
      ensures FirstSlot(s, s[j].deviceId) == j
    {
      FirstSlotAfterUpdate(h.slots, i, stream, s[j].deviceId);
    }
    forall k | k in open
      ensures IsRecorded(s, k)
    {
      if k.device != h.slots[i].deviceId {
        assert IsRecorded(h.slots, k);
      }
      FirstSlotAfterUpdate(h.slots, i, stream, k.device);
    }
  }

  lemma OpenOfFirstSlot(h: Hal, k: StreamKey)
    requires Ledger(h) && k in h.open
    ensures var i := FirstSlot(h.slots, k.device); i < |h.slots| && h.slots[i].acting == k.stream != NO_STREAM
  {
  }

  lemma NotifyKeepsLedger(h: Hal, e: HotPlug)
    requires Ledger(h) && Table(h)
    ensures Ledger(Notify(h, e)) && Table(Notify(h, e))
    ensures Notify(h, e).open <= h.open
  {
    var i := FirstSlot(h.slots, e.deviceId);
    if e.kind == DeviceAvailable {
      AppendKeepsLedger(h, DeviceInfo(e.deviceId, e.inputType, NO_STREAM));
    } else if i < |h.slots| && e.kind == DeviceUnavailable {
      RemovalKeepsLedger(h, i);
    } else if i < |h.slots| && e.kind == StreamConfigurationsChanged {
      var open := h.open - {StreamKey(e.deviceId, h.slots[i].acting)};
      forall k | k in open && k.device == e.deviceId
        ensures false
      {
        OpenOfFirstSlot(h, k);
      }
      RecordingKeepsLedger(h, i, NO_STREAM, open);
    }
  }

  /**
   When a device goes away or its configurations change, exactly its streams are closed, and no stream
   is taken for acting on it any more, not even by another slot with the same id.
   */
  lemma EventReleasesDevice(h: Hal, e: HotPlug, k: StreamKey, stream: i32)
    requires Ledger(h) && Listed(h.slots, e.deviceId) && e.inputType == TunerInput
    requires h.up && (e.kind == DeviceUnavailable || e.kind == StreamConfigurationsChanged)
    ensures k in Notify(h, e).open <==> k in h.open && k.device != e.deviceId
    ensures !AlreadyActing(Notify(h, e), e.deviceId, stream)
  {
  }

  /** Without a driver no slot records a stream. */
  ghost predicate IdleWithoutDevice(h: Hal) {
    !h.up ==> forall i :: 0 <= i < |h.slots| ==> h.slots[i].acting == NO_STREAM
  }

  /** After tv_input_hal_uninit nothing is open, so emptying the table at the next init loses nothing. */
  lemma UninitClosesAll(h: Hal)
    requires Ledger(h) && IdleWithoutDevice(h)
    ensures Uninit(h).open == {} && Ledger(Uninit(h)) && Uninit(h).fault == h.fault
  {
  }

  /** The one way in which get_stream can lose a stream: opening it where no live slot records it. */
  predicate OpensUnrecorded(h: Hal, id: i32, a: Answers) {
    match Requested(a)
    case None => false
    case Some(stream) =>
      && !AlreadyActing(h, id, stream) && a.openResult == 0
      && (!Listed(h.slots, id) || (stream == NO_STREAM && ClosePrevious(h, id, stream, a).Some?))
  }

  lemma ClosingKeepsLedger(h: Hal, id: i32, stream: i32, a: Answers)
    requires Ledger(h) && ClosePrevious(h, id, stream, a).Some? && !AlreadyActing(h, id, stream)
    ensures var h1 := ClosePrevious(h, id, stream, a).value;
            && Ledger(h1) && h1.slots == h.slots && h1.open <= h.open
            && forall k :: k in h1.open ==> k.device != id
  {
  }

  /** get_stream keeps the ledger exactly when it does not open a stream unrecorded. */
  lemma GetStreamKeepsLedgerIff(h: Hal, id: i32, a: Answers)
    requires Ledger(h) && Table(h) && h.up
    ensures Ledger(GetStream(h, id, a).0) <==> !OpensUnrecorded(h, id, a)
    ensures Table(GetStream(h, id, a).0)
  {
    match Requested(a)
    case None =>
    case Some(stream) =>
      var h' := GetStream(h, id, a).0;
      if !AlreadyActing(h, id, stream) && ClosePrevious(h, id, stream, a).Some? {
        ClosingKeepsLedger(h, id, stream, a);
        var h1 := ClosePrevious(h, id, stream, a).value;
        if a.openResult == 0 {
          if OpensUnrecorded(h, id, a) {
            assert StreamKey(id, stream) in h'.open;
            if Ledger(h') {
              OpenOfFirstSlot(h', StreamKey(id, stream));
            }
          } else {
            RecordingKeepsLedger(h1, FirstSlot(h.slots, id), stream, h'.open);
          }
        }
      }
  }

  /** get_stream leaves the streams of other devices alone, and every slot but the first of its own device. */
  lemma GetStreamIsLocal(h: Hal, id: i32, a: Answers, k: StreamKey, j: nat)
    requires k.device != id && j < |h.slots| && j != FirstSlot(h.slots, id)
    ensures var h' := GetStream(h, id, a).0;
            (k in h'.open <==> k in h.open) && |h'.slots| == |h.slots| && h'.slots[j] == h.slots[j]
  {
  }

  // ---------- what is granted is open ----------

  ghost predicate RecordedIsOpen(h: Hal) {
    forall i :: 0 <= i < |h.slots| && h.slots[i].acting != NO_STREAM ==>
      StreamKey(h.slots[i].deviceId, h.slots[i].acting) in h.open
  }

  /** The ledger in both directions: the open streams are exactly the recorded ones. */
  ghost predicate Exact(h: Hal) {
    Ledger(h) && RecordedIsOpen(h)
  }

  /** The recorded stream of the device is another one; it closes, and the requested one fails to open. */
  predicate ClosesThenFails(h: Hal, id: i32, a: Answers) {
    match Requested(a)
    case None => false
    case Some(stream) =>
      var i := FirstSlot(h.slots, id);
      && i < |h.slots| && h.slots[i].acting != NO_STREAM && h.slots[i].acting != stream
      && a.closeResult == 0 && a.openResult != 0
  }

  lemma RemovalKeepsRecorded(h: Hal, i: nat)
    requires Exact(h) && i < |h.slots| && FirstSlot(h.slots, h.slots[i].deviceId) == i
    ensures RecordedIsOpen(h.(slots := Without(h.slots, i),
                              open := h.open - {StreamKey(h.slots[i].deviceId, h.slots[i].acting)}))
  {
    var s := Without(h.slots, i);
    forall j | 0 <= j < |s| && s[j].acting != NO_STREAM
      ensures StreamKey(s[j].deviceId, s[j].acting) in h.open - {StreamKey(h.slots[i].deviceId, h.slots[i].acting)}
    {
      var j0 := if j < i then j else j + 1;
      assert s[j] == h.slots[j0];
      assert FirstSlot(h.slots, s[j].deviceId) == j0;
    }
  }

  lemma ReleaseKeepsRecorded(h: Hal, i: nat)
    requires Exact(h) && i < |h.slots| && FirstSlot(h.slots, h.slots[i].deviceId) == i
    ensures RecordedIsOpen(h.(slots := h.slots[i := h.slots[i].(acting := NO_STREAM)],
                              open := h.open - {StreamKey(h.slots[i].deviceId, h.slots[i].acting)}))
  {
    forall j | 0 <= j < |h.slots| && j != i && h.slots[j].acting != NO_STREAM
      ensures StreamKey(h.slots[j].deviceId, h.slots[j].acting)
              in h.open - {StreamKey(h.slots[i].deviceId, h.slots[i].acting)}
    {
      assert FirstSlot(h.slots, h.slots[j].deviceId) == j;
    }
  }

  lemma NotifyKeepsExact(h: Hal, e: HotPlug)
    requires Exact(h) && Table(h)
    ensures Exact(Notify(h, e))
  {
    NotifyKeepsLedger(h, e);
    var i := FirstSlot(h.slots, e.deviceId);
    if i < |h.slots| {
      RemovalKeepsRecorded(h, i);
      ReleaseKeepsRecorded(h, i);
    }
  }

  /** A failed open behind a successful close leaves a slot recording what is closed. */
  lemma StrandedIsNotExact(h: Hal, id: i32, a: Answers)
    requires Exact(h) && h.up && ClosesThenFails(h, id, a)
    ensures !Exact(GetStream(h, id, a).0)
  {
    var h', i := GetStream(h, id, a).0, FirstSlot(h.slots, id);
    assert h'.slots[i] == h.slots[i];
    assert StreamKey(id, h.slots[i].acting) !in h'.open;
  }

  /** What is recorded afterwards is open, unless the previous stream was closed for one that did not open. */
  lemma GetStreamRecordsOpen(h: Hal, id: i32, a: Answers)
    requires Exact(h) && h.up && !OpensUnrecorded(h, id, a) && !ClosesThenFails(h, id, a)
    ensures RecordedIsOpen(GetStream(h, id, a).0)
  {
    var h', i := GetStream(h, id, a).0, FirstSlot(h.slots, id);
    forall j | 0 <= j < |h'.slots| && h'.slots[j].acting != NO_STREAM
      ensures StreamKey(h'.slots[j].deviceId, h'.slots[j].acting) in h'.open
    {
      if h'.slots[j] == h.slots[j] {
        assert StreamKey(h.slots[j].deviceId, h.slots[j].acting) in h.open;
        assert FirstSlot(h.slots, h.slots[j].deviceId) == j;
      }
    }
  }

  /**
   get_stream keeps record and driver equal exactly when it neither opens a stream unrecorded, nor closes the
   previous stream for one that then fails to open.
   */
  lemma GetStreamKeepsExactIff(h: Hal, id: i32, a: Answers)
    requires Exact(h) && Table(h) && h.up
    ensures Exact(GetStream(h, id, a).0) <==> !OpensUnrecorded(h, id, a) && !ClosesThenFails(h, id, a)
  {
    GetStreamKeepsLedgerIff(h, id, a);
    if ClosesThenFails(h, id, a) {
      StrandedIsNotExact(h, id, a);
    } else if !OpensUnrecorded(h, id, a) {
      GetStreamRecordsOpen(h, id, a);
    }
  }

  /** From such a state a successful call leaves its stream open, whether it was acting or is new. */
  lemma GrantedIsOpen(h: Hal, id: i32, a: Answers)
    requires Exact(h) && GetStream(h, id, a).1 == TV_STATUS_SUCCESS
    ensures Requested(a).Some? && StreamKey(id, Requested(a).value) in GetStream(h, id, a).0.open
  {
    var i := FirstSlot(h.slots, id);
    if i < |h.slots| && h.slots[i].acting != NO_STREAM {
      assert StreamKey(h.slots[i].deviceId, h.slots[i].acting) in h.open;
    }
  }

  /** After every failure of that kind, the next call that asks for the recorded stream is granted one that is closed. */
  lemma StrandedIsGranted(h: Hal, id: i32, a: Answers, b: Answers)
    requires h.up && ClosesThenFails(h, id, a)
    requires Requested(b) == Some(h.slots[FirstSlot(h.slots, id)].acting)
    ensures var (h1, s1) := GetStream(h, id, a); var (h2, s2) := GetStream(h1, id, b);
            s1 == TV_STATUS_FAIL && s2 == TV_STATUS_SUCCESS && StreamKey(id, Requested(b).value) !in h2.open
  {
  }

  // ---------- streams on record that are closed ----------

  /** The first slot of the device records a stream that is not open. */
  ghost predicate RecordsClosed(h: Hal, id: i32) {
    var i := FirstSlot(h.slots, id);
    i < |h.slots| && h.slots[i].acting != NO_STREAM && StreamKey(id, h.slots[i].acting) !in h.open
  }

  /** The event takes the device out of the table, or its recorded stream out of its slot. */
  predicate Releases(e: HotPlug, id: i32) {
    e.inputType == TunerInput && e.deviceId == id && (e.kind == DeviceUnavailable || e.kind == StreamConfigurationsChanged)
  }

  /** The call succeeds by opening its stream, not by finding it on record. */
  predicate OpensAnew(h: Hal, id: i32, a: Answers) {
    Grants(h, id, a) && !AlreadyActing(h, id, Requested(a).value)
  }

  lemma AppendKeepsClosed(h: Hal, d: DeviceInfo, id: i32)
    requires d.acting == NO_STREAM
    ensures RecordsClosed(h.(slots := h.slots + [d]), id) <==> RecordsClosed(h, id)
  {
    FirstSlotAfterAppend(h.slots, d, id);
  }

  /** Another slot with the id of the removed one records nothing. */
  lemma NextSlotIsIdle(slots: seq<DeviceInfo>, i: nat)
    requires FirstSlotsAct(slots) && i < |slots| && FirstSlot(slots, slots[i].deviceId) == i
    ensures var s := Without(slots, i); var j := FirstSlot(s, slots[i].deviceId);
            j < |s| ==> s[j].acting == NO_STREAM
  {
    var s, id := Without(slots, i), slots[i].deviceId;
    var j := FirstSlot(s, id);
    if j < |s| {
      WithoutAt(slots, i, j);
      var j0 := if j < i then j else j + 1;
      assert FirstSlot(slots, slots[j0].deviceId) == i != j0;
    }
  }

  lemma WithoutAt<T>(s: seq<T>, i: nat, j: nat)
    requires i < |s| && j < |s| - 1
    ensures Without(s, i)[j] == s[if j < i then j else j + 1]
  {
  }

  lemma OtherSlotStays(slots: seq<DeviceInfo>, i: nat, id: i32)
    requires i < |slots| && slots[i].deviceId != id
    ensures var s := Without(slots, i); var j := FirstSlot(s, id); var f := FirstSlot(slots, id);
            (j < |s| <==> f < |slots|) && (j < |s| ==> s[j] == slots[f])
  {
    FirstSlotAfterRemoval(slots, i, id);
  }

  lemma RemovalKeepsClosed(h: Hal, i: nat, id: i32)
    requires Ledger(h) && i < |h.slots| && FirstSlot(h.slots, h.slots[i].deviceId) == i
    ensures var h' := h.(slots := Without(h.slots, i), open := h.open - {StreamKey(h.slots[i].deviceId, h.slots[i].acting)});
            RecordsClosed(h', id) <==> RecordsClosed(h, id) && id != h.slots[i].deviceId
  {
    if id == h.slots[i].deviceId {
      NextSlotIsIdle(h.slots, i);
    } else {
      OtherSlotStays(h.slots, i, id);
    }
  }

  lemma ReleaseKeepsClosed(h: Hal, i: nat, id: i32)
    requires i < |h.slots| && FirstSlot(h.slots, h.slots[i].deviceId) == i
    ensures var h' := h.(slots := h.slots[i := h.slots[i].(acting := NO_STREAM)],
                         open := h.open - {StreamKey(h.slots[i].deviceId, h.slots[i].acting)});
            RecordsClosed(h', id) <==> RecordsClosed(h, id) && id != h.slots[i].deviceId
  {
    FirstSlotAfterUpdate(h.slots, i, NO_STREAM, id);
  }

  /** A hot-plug event ends the record of its own device, and leaves that of every other one as it was. */
  lemma NotifyKeepsClosed(h: Hal, e: HotPlug, id: i32)
    requires Ledger(h) && h.up
    ensures RecordsClosed(Notify(h, e), id) <==> RecordsClosed(h, id) && !Releases(e, id)
  {
    var i := FirstSlot(h.slots, e.deviceId);
    if e.inputType == TunerInput {
      match e.kind
      case DeviceAvailable => AppendKeepsClosed(h, DeviceInfo(e.deviceId, e.inputType, NO_STREAM), id);
      case DeviceUnavailable => if i < |h.slots| { RemovalKeepsClosed(h, i, id); }
      case StreamConfigurationsChanged => if i < |h.slots| { ReleaseKeepsClosed(h, i, id); }
      case OtherEvent =>
    }
  }

  lemma OtherRecordStays(h: Hal, id: i32, a: Answers, other: i32)
    requires h.up && other != id
    ensures RecordsClosed(GetStream(h, id, a).0, other) <==> RecordsClosed(h, other)
  {
    var h', f := GetStream(h, id, a).0, FirstSlot(h.slots, other);
    GetStreamKeepsIds(h, id, a);
    SameFirstSlot(h.slots, h'.slots, other);
    if f < |h.slots| {
      GetStreamIsLocal(h, id, a, StreamKey(other, h.slots[f].acting), f);
    }
  }

  lemma SameFirstSlot(slots: seq<DeviceInfo>, slots': seq<DeviceInfo>, id: i32)
    requires Ids(slots) == Ids(slots')
    ensures FirstSlot(slots', id) == FirstSlot(slots, id) && |slots'| == |slots|
  {
    var i := FirstSlot(slots, id);
    assert |Ids(slots)| == |Ids(slots')|;
    assert forall j :: 0 <= j < |slots| ==> slots[j].deviceId == Ids(slots)[j] == Ids(slots')[j] == slots'[j].deviceId;
    if i < |slots| {
      FirstSlotUnique(slots', id, i);
    }
  }

  /** So does get_stream, unless it strands the device's stream or opens one anew. */
  lemma GetStreamKeepsClosed(h: Hal, id: i32, a: Answers, other: i32)
    requires Ledger(h) && h.up && !OpensUnrecorded(h, id, a)
    ensures RecordsClosed(GetStream(h, id, a).0, other) <==>
            if other != id then RecordsClosed(h, other)
            else ClosesThenFails(h, id, a) || (RecordsClosed(h, id) && !OpensAnew(h, id, a))
  {
    if other != id {
      OtherRecordStays(h, id, a, other);
    } else {
      var i := FirstSlot(h.slots, id);
      if Requested(a).Some? && i < |h.slots| {
        FirstSlotAfterUpdate(h.slots, i, Requested(a).value, id);
      }
    }
  }

  /** A granted stream is open afterwards unless it was on record, and closed. */
  lemma GrantedIsOpenIff(h: Hal, id: i32, a: Answers)
    requires h.up && Grants(h, id, a)
    ensures var x := Requested(a).value;
            StreamKey(id, x) in GetStream(h, id, a).0.open <==> !(AlreadyActing(h, id, x) && RecordsClosed(h, id))
  {
  }

  // ---------- the table as a history of announcements ----------

  /** The hot-plug events that change the table. */
  datatype TableOp = Announced(id: i32) | Removed(id: i32)

  function Effect(h: Hal, e: HotPlug): seq<TableOp> {
    if e.inputType != TunerInput then []
    else if e.kind == DeviceAvailable && |h.slots| < MAX_DEVICE_NUM then [Announced(e.deviceId)]
    else if e.kind == DeviceUnavailable && Listed(h.slots, e.deviceId) && h.up then [Removed(e.deviceId)]
    else []
  }

  ghost function Count(log: seq<TableOp>, op: TableOp): nat {
    multiset(log)[op]
  }

  /** An announcement survives when fewer removals of its id happened than announcements before it. */
  ghost predicate Survives(log: seq<TableOp>, i: nat)
    requires i < |log|
  {
    log[i].Announced? && Count(log[..i], log[i]) >= Count(log, Removed(log[i].id))
  }

  /** The surviving announcements among the first n entries of the log, in arrival order. */
  ghost function SurvivorsOf(log: seq<TableOp>, n: nat): seq<i32>
    requires n <= |log|
  {
    if n == 0 then [] else
      SurvivorsOf(log, n - 1) + if Survives(log, n - 1) then [log[n - 1].id] else []
  }

  function Ids(slots: seq<DeviceInfo>): (ids: seq<i32>)
    ensures |ids| == |slots| && forall i :: 0 <= i < |slots| ==> ids[i] == slots[i].deviceId
  {
    seq(|slots|, i requires 0 <= i < |slots| => slots[i].deviceId)
  }

  /** The live prefix is the accepted announcements, less the oldest of each id for each removal of it. */
  ghost predicate TableIsHistory(slots: seq<DeviceInfo>, log: seq<TableOp>) {
    && Ids(slots) == SurvivorsOf(log, |log|)
    && forall id: i32 :: Count(log, Removed(id)) <= Count(log, Announced(id))
  }

  lemma CountSnoc(log: seq<TableOp>, last: TableOp, op: TableOp)
    ensures Count(log + [last], op) == Count(log, op) + if op == last then 1 else 0
  {
  }

  lemma {:induction false} AnnouncementAdds(log: seq<TableOp>, id: i32, n: nat)
    requires n <= |log|
    ensures SurvivorsOf(log + [Announced(id)], n) == SurvivorsOf(log, n)
  {
    if n == 0 {
    } else {
      AnnouncementAdds(log, id, n - 1);
      var log' := log + [Announced(id)];
      assert log'[..n - 1] == log[..n - 1];
      CountSnoc(log, Announced(id), Removed(log[n - 1].id));
    }
  }

  /** after is before without its first id, or before itself when id is not there. */
  ghost predicate FirstTaken(before: seq<i32>, after: seq<i32>, id: i32, there: bool) {
    if there then exists i :: 0 <= i < |before| && before[i] == id && id !in before[..i] && after == Without(before, i)
    else id !in before && after == before
  }

  lemma FirstTakenThenAppend(before: seq<i32>, after: seq<i32>, id: i32, more: seq<i32>)
    requires FirstTaken(before, after, id, true)
    ensures FirstTaken(before + more, after + more, id, true)
  {
    var i :| 0 <= i < |before| && before[i] == id && id !in before[..i] && after == Without(before, i);
    assert (before + more)[..i] == before[..i];
    assert Without(before + more, i) == after + more;
  }

  lemma FirstTakenIsLast(before: seq<i32>, id: i32)
    requires id !in before
    ensures FirstTaken(before + [id], before, id, true)
  {
    var i := |before|;
    assert (before + [id])[..i] == before && Without(before + [id], i) == before;
  }

  /** A removal takes the oldest surviving announcement of its id out of the survivors, and nothing else. */
  lemma {:induction false} RemovalTakesOldest(log: seq<TableOp>, id: i32, n: nat)
    requires n <= |log|
    ensures FirstTaken(SurvivorsOf(log, n), SurvivorsOf(log + [Removed(id)], n), id,
                       Count(log[..n], Announced(id)) > Count(log, Removed(id)))
  {
    if n == 0 {
    } else {
      RemovalTakesOldest(log, id, n - 1);
      var log', op := log + [Removed(id)], log[n - 1];
      var before, after := SurvivorsOf(log, n - 1), SurvivorsOf(log', n - 1);
      assert log'[..n - 1] == log[..n - 1];
      assert log[..n] == log[..n - 1] + [op];
      CountSnoc(log[..n - 1], op, Announced(id));
      CountSnoc(log, Removed(id), Removed(op.id));
      var there := Count(log[..n - 1], Announced(id)) > Count(log, Removed(id));
      if there {
        assert Survives(log', n - 1) == Survives(log, n - 1);
        FirstTakenThenAppend(before, after, id, if Survives(log, n - 1) then [op.id] else []);
      } else if op == Announced(id) && Survives(log, n - 1) {
        FirstTakenIsLast(before, id);
      }
    }
  }

  lemma IdsWithout(slots: seq<DeviceInfo>, i: nat)
    requires i < |slots|
    ensures Ids(Without(slots, i)) == Without(Ids(slots), i)
  {
  }

  lemma CountsAfter(log: seq<TableOp>, op: TableOp)
    requires forall id: i32 :: Count(log, Removed(id)) <= Count(log, Announced(id))
    requires op.Removed? ==> Count(log, op) < Count(log, Announced(op.id))
    ensures forall id: i32 :: Count(log + [op], Removed(id)) <= Count(log + [op], Announced(id))
  {
  }

  lemma AnnouncementFollows(slots: seq<DeviceInfo>, d: DeviceInfo, log: seq<TableOp>)
    requires TableIsHistory(slots, log)
    ensures TableIsHistory(slots + [d], log + [Announced(d.deviceId)])
  {
    var op := Announced(d.deviceId);
    var log' := log + [op];
    CountsAfter(log, op);
    CountSnoc(log, op, Removed(d.deviceId));
    AnnouncementAdds(log, d.deviceId, |log|);
    assert log'[..|log|] == log;
    assert Survives(log', |log|);
    assert Ids(slots + [d]) == Ids(slots) + [d.deviceId];
  }

  lemma FirstTakenIs(ids: seq<i32>, after: seq<i32>, id: i32, there: bool, f: nat)
    requires FirstTaken(ids, after, id, there)
    requires f < |ids| && ids[f] == id && forall j :: 0 <= j < f ==> ids[j] != id
    ensures there && after == Without(ids, f)
  {
  }

  lemma RemovalFollows(slots: seq<DeviceInfo>, id: i32, log: seq<TableOp>)
    requires TableIsHistory(slots, log) && Listed(slots, id)
    ensures TableIsHistory(Without(slots, FirstSlot(slots, id)), log + [Removed(id)])
  {
    var log', f, n := log + [Removed(id)], FirstSlot(slots, id), |log|;
    RemovalTakesOldest(log, id, n);
    assert log[..n] == log;
    FirstTakenIs(Ids(slots), SurvivorsOf(log', n), id, Count(log, Announced(id)) > Count(log, Removed(id)), f);
    CountsAfter(log, Removed(id));
    IdsWithout(slots, f);
    assert SurvivorsOf(log', |log'|) == SurvivorsOf(log', n) + [];
  }

  /** Every hot-plug event keeps the table equal to its history. */
  lemma NotifyFollowsHistory(h: Hal, e: HotPlug, log: seq<TableOp>)
    requires TableIsHistory(h.slots, log)
    ensures TableIsHistory(Notify(h, e).slots, log + Effect(h, e))
  {
    var ops := Effect(h, e);
    if ops == [] {
      assert log + ops == log;
      assert Ids(Notify(h, e).slots) == Ids(h.slots);
    } else if ops[0].Announced? {
      AnnouncementFollows(h.slots, DeviceInfo(e.deviceId, e.inputType, NO_STREAM), log);
    } else {
      RemovalFollows(h.slots, e.deviceId, log);
    }
  }

  /** get_stream never changes which devices are listed, nor their order. */
  lemma GetStreamKeepsIds(h: Hal, id: i32, a: Answers)
    ensures Ids(GetStream(h, id, a).0.slots) == Ids(h.slots)
  {
  }

  // ---------- counting and listing by type ----------

  /** The ids of the slots of one type, in table order. */
  function IdsOfType(slots: seq<DeviceInfo>, t: InputType): (ids: seq<i32>)
    ensures |ids| <= |slots|
  {
    if slots == [] then [] else
      IdsOfType(slots[..|slots| - 1], t)
      + if slots[|slots| - 1].kind == t then [slots[|slots| - 1].deviceId] else []
  }

  /** In a table of tuners, every slot is listed. */
  lemma {:induction false} AllTuners(slots: seq<DeviceInfo>)
    requires forall i :: 0 <= i < |slots| ==> slots[i].kind == TunerInput
    ensures IdsOfType(slots, TunerInput) == Ids(slots)
  {
    if slots == [] {
    } else {
      AllTuners(slots[..|slots| - 1]);
    }
  }
}
