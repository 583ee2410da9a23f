/** src/tv_hal.c: the fixed array of device slots, updated in place. */
module TvHal {
  import opened Base
  import opened DeviceTable

  class DeviceList {
    const deviceList: array<DeviceInfo>
    var deviceNum: nat               // uint8_t, at most MAX_DEVICE_NUM
    var up: bool                     // device != NULL
    ghost var hooked: bool           // a driver has our callback
    var fault: bool                  // a NULL device was called, or a slot behind the array written
    ghost var open: set<StreamKey>   // the streams open in the driver

    ghost predicate Valid()
      reads this, deviceList
    {
      deviceList.Length == MAX_DEVICE_NUM && deviceNum <= MAX_DEVICE_NUM
    }

    ghost function View(): Hal
      requires Valid()
      reads this, deviceList
    {
      Hal(up, hooked, fault, deviceList[..deviceNum], open)
    }

    constructor ()
      ensures Valid() && fresh(deviceList)
      ensures View() == Hal(false, false, false, [], {})
    {
      deviceList := new DeviceInfo[MAX_DEVICE_NUM](_ => DeviceInfo(0, OtherInput(0), 0));
      deviceNum, up, hooked, fault, open := 0, false, false, false, {};
    }

    /** Any call through `device`: false when it is NULL, and the process is gone. */
    method CallDevice() returns (there: bool)
      modifies `fault
      ensures there == up && fault == (old(fault) || !up)
    {
      fault := fault || !up;
      return up;
    }

    /** device->close_stream; a result other than 0 leaves the stream as it was. */
    method CloseStream(deviceId: i32, stream: i32, result: int) returns (there: bool)
      requires Valid()
      modifies `open, `fault
      ensures there == up && fault == (old(fault) || !up)
      ensures open == if up && result == 0 then old(open) - {StreamKey(deviceId, stream)} else old(open)
    {
      there := CallDevice();
      if there && result == 0 {
        open := open - {StreamKey(deviceId, stream)};
      }
    }

    method OpenStream(deviceId: i32, stream: i32, result: int)
      requires Valid() && up
      modifies `open
      ensures open == if result == 0 then old(open) + {StreamKey(deviceId, stream)} else old(open)
    {
      if result == 0 {
        open := open + {StreamKey(deviceId, stream)};
      }
    }

    method RemoveDeviceByIdx(target: nat)
      requires Valid() && target < deviceNum
      modifies `deviceNum, deviceList
      ensures Valid() && View() == old(View()).(slots := Without(old(View()).slots, target))
    {
      deviceNum := deviceNum - 1;
      for idx := target to deviceNum
        invariant Valid() && deviceNum == old(deviceNum) - 1
        invariant forall j :: 0 <= j < deviceList.Length ==>
          deviceList[j] == if target <= j < idx then old(deviceList[j + 1]) else old(deviceList[j])
      {
        deviceList[idx] := deviceList[idx].(deviceId := deviceList[idx + 1].deviceId);
        deviceList[idx] := deviceList[idx].(kind := deviceList[idx + 1].kind);
        deviceList[idx] := deviceList[idx].(acting := deviceList[idx + 1].acting);
      }
    }

    /** The search loop of device_init_notify and tv_input_hal_get_stream. */
    method Find(deviceId: i32) returns (idx: nat)
      requires Valid()
      ensures idx == FirstSlot(View().slots, deviceId)
    {
      idx := 0;
      while idx < deviceNum
        invariant idx <= deviceNum
        invariant forall j :: 0 <= j < idx ==> deviceList[j].deviceId != deviceId
      {
        if deviceList[idx].deviceId == deviceId {
          FirstSlotUnique(View().slots, deviceId, idx);
          return;
        }
        idx := idx + 1;
      }
    }

    method DeviceInitNotify(event: HotPlug)
      requires Valid()
      modifies `deviceNum, `open, `fault, deviceList
      ensures Valid() && View() == DeviceTable.Notify(old(View()), event)
    {
      if event.kind == DeviceAvailable || event.kind == DeviceUnavailable || event.kind == StreamConfigurationsChanged {
        if event.inputType != TunerInput {
          return;
        }
      }
      match event.kind
      case DeviceAvailable =>
        if deviceNum >= MAX_DEVICE_NUM {
          return;
        }
        deviceList[deviceNum] := deviceList[deviceNum].(deviceId := event.deviceId);
        deviceList[deviceNum] := deviceList[deviceNum].(kind := event.inputType);
        deviceList[deviceNum] := deviceList[deviceNum].(acting := NO_STREAM);
        deviceNum := deviceNum + 1;
        assert deviceList[..deviceNum] == old(deviceList[..deviceNum]) + [deviceList[deviceNum - 1]];
      case DeviceUnavailable =>
        var idx := Find(event.deviceId);
        if idx >= deviceNum {
          return;
        }
        var there := CloseStream(event.deviceId, deviceList[idx].acting, 0);
        if !there {
          return;
        }
        RemoveDeviceByIdx(idx);
      case StreamConfigurationsChanged =>
        var idx := Find(event.deviceId);
        if idx >= deviceNum {
          return;
        }
        var there := CloseStream(event.deviceId, deviceList[idx].acting, 0);
        if !there {
          return;
        }
        deviceList[idx] := deviceList[idx].(acting := NO_STREAM);
      case OtherEvent =>
    }

    /** moduleOk, deviceOk: hw_get_module and the module's open succeed. */
    method TvInputHalInit(moduleOk: bool, deviceOk: bool) returns (status: byte)
      requires Valid()
      modifies `deviceNum, `up, `hooked
      ensures Valid() && View() == DeviceTable.Init(old(View()), moduleOk, deviceOk)
      ensures status == if up then TV_STATUS_SUCCESS else TV_STATUS_FAIL
    {
      up := false;
      deviceNum := 0;
      if !moduleOk {
        return TV_STATUS_FAIL;
      }
      if !deviceOk {
        return TV_STATUS_FAIL;
      }
      up := true;
      hooked := true;  // device->initialize
      return TV_STATUS_SUCCESS;
    }

    method TvInputHalUninit() returns (status: byte)
      requires Valid()
      modifies `open, `fault
      ensures Valid() && View() == DeviceTable.Uninit(old(View()))
      ensures status == TV_STATUS_SUCCESS || (fault && !up)
    {
      for idx := 0 to deviceNum
        invariant open == old(open) - Recorded(deviceList[..idx]) && fault == old(fault)
        invariant !up ==> Recorded(deviceList[..idx]) == {}
      {
        RecordedSnoc(deviceList[..idx], deviceList[idx]);
        assert deviceList[..idx + 1] == deviceList[..idx] + [deviceList[idx]];
        if deviceList[idx].acting != NO_STREAM {
          var there := CloseStream(deviceList[idx].deviceId, deviceList[idx].acting, 0);
          if !there {
            assert StreamKey(deviceList[idx].deviceId, deviceList[idx].acting) in Recorded(deviceList[..deviceNum]);
            return TV_STATUS_FAIL;
          }
        }
      }
      return TV_STATUS_SUCCESS;
    }

    method GetInputNumByType(t: InputType) returns (sum: nat)
      requires Valid()
      ensures sum == |IdsOfType(View().slots, t)|
    {
      sum := 0;
      for idx := 0 to deviceNum
        invariant sum == |IdsOfType(deviceList[..idx], t)|
      {
        assert deviceList[..idx + 1][..idx] == deviceList[..idx];
        if deviceList[idx].kind == t {
          sum := sum + 1;
        }
      }
    }

    /** The caller's array has to have as many elements as tv_input_hal_get_input_num_by_type counts. */
    method GetInputsByType(t: InputType, devices: array<i32>) returns (status: byte)
      requires Valid()
      requires devices.Length >= |IdsOfType(View().slots, t)|
      modifies devices
      ensures status == TV_STATUS_SUCCESS
      ensures devices[..|IdsOfType(View().slots, t)|] == IdsOfType(View().slots, t)
      ensures devices[|IdsOfType(View().slots, t)|..] == old(devices[|IdsOfType(View().slots, t)|..])
    {
      var deviceCnt := 0;
      ghost var slots := View().slots;
      ghost var total := |IdsOfType(slots, t)|;
      for idx := 0 to deviceNum
        invariant slots == View().slots
        invariant deviceCnt == |IdsOfType(slots[..idx], t)| <= total
        invariant devices[..deviceCnt] == IdsOfType(slots[..idx], t)
        invariant devices[total..] == old(devices[total..])
      {
        assert slots[..idx + 1][..idx] == slots[..idx];
        TypePrefix(slots, t, idx + 1);
        if deviceList[idx].kind == t {
          assert |IdsOfType(slots[..idx + 1], t)| == deviceCnt + 1;
          devices[deviceCnt] := deviceList[idx].deviceId;
          deviceCnt := deviceCnt + 1;
          assert devices[..deviceCnt] == devices[..deviceCnt - 1] + [deviceList[idx].deviceId];
        }
      }
      assert slots[..deviceNum] == slots;
      return TV_STATUS_SUCCESS;
    }

    /**
     The result is recorded in the slot where the search loop stopped, which may be the one behind the array.
     filled: open_stream has filled in the caller's stream structure.
     */
    method GetStream(deviceId: i32, a: Answers) returns (status: byte, filled: bool)
      requires Valid()
      modifies `open, `fault, deviceList
      ensures Valid() && (View(), status) == DeviceTable.GetStream(old(View()), deviceId, a)
      ensures up && status == TV_STATUS_SUCCESS ==>
                Requested(a).Some? && (filled <==> !AlreadyActing(old(View()), deviceId, Requested(a).value))
      ensures up && status == TV_STATUS_SUCCESS ==> TakesFirstSource(old(View()), View(), deviceId, a, filled)
    {
      GrantedTakesFirst(View(), deviceId, a);
      var there := CallDevice();
      if !there {
        return TV_STATUS_FAIL, false;
      }
      if a.configs.None? {
        return TV_STATUS_FAIL, false;
      }
      var chosen := FindConfig(a.configs.value);
      if chosen.None? {
        return TV_STATUS_FAIL, false;
      }
      var stream := chosen.value;
      var idx := Find(deviceId);
      if idx < deviceNum {
        if deviceList[idx].acting != NO_STREAM {
          if deviceList[idx].acting != stream {
            there := CloseStream(deviceList[idx].deviceId, deviceList[idx].acting, a.closeResult);
            if a.closeResult != 0 {
              return TV_STATUS_FAIL, false;
            }
          } else {
            return TV_STATUS_SUCCESS, false;
          }
        }
      }
      OpenStream(deviceId, stream, a.openResult);
      if a.openResult != 0 {
        return TV_STATUS_FAIL, false;
      }
      if idx == deviceList.Length {
        fault := true;
        return TV_STATUS_SUCCESS, true;
      }
      deviceList[idx] := deviceList[idx].(acting := stream);
      return TV_STATUS_SUCCESS, true;
    }
  }

  /** The configuration loop of tv_input_hal_get_stream. */
  method FindConfig(configs: seq<StreamConfig>) returns (chosen: Option<i32>)
    ensures chosen == ChosenStream(configs)
    ensures chosen.None? ==> forall j :: 0 <= j < |configs| ==> configs[j].kind != IndependentVideoSource
    ensures chosen.Some? ==> exists i :: FirstSource(configs, i) && configs[i].streamId == chosen.value
  {
    for idx := 0 to |configs|
      invariant ChosenStream(configs) == ChosenStream(configs[idx..])
      invariant forall j :: 0 <= j < idx ==> configs[j].kind != IndependentVideoSource
    {
      if configs[idx].kind == IndependentVideoSource {
        assert FirstSource(configs, idx);
        return Some(configs[idx].streamId);
      }
      assert configs[idx..][1..] == configs[idx + 1..];
    }
    return None;
  }

  lemma RecordedSnoc(slots: seq<DeviceInfo>, d: DeviceInfo)
    ensures Recorded(slots + [d]) ==
            Recorded(slots) + if d.acting != NO_STREAM then {StreamKey(d.deviceId, d.acting)} else {}
  {
    var s := slots + [d];
    assert s[|slots|] == d;
    forall k | k in Recorded(slots)
      ensures k in Recorded(s)
    {
      var i :| 0 <= i < |slots| && slots[i].acting != NO_STREAM && k == StreamKey(slots[i].deviceId, slots[i].acting);
      assert s[i] == slots[i];
    }
  }

  lemma {:induction false} TypePrefix(slots: seq<DeviceInfo>, t: InputType, n: nat)
    requires n <= |slots|
    ensures |IdsOfType(slots[..n], t)| <= |IdsOfType(slots, t)|
  {
    if n < |slots| {
      TypePrefix(slots[..|slots| - 1], t, n);
      assert slots[..|slots| - 1][..n] == slots[..n];
    } else {
      assert slots[..n] == slots;
    }
  }
}
