/** The user-facing host: filtering the backend's device list and opening
    devices. The backend's answers (`get_devices`, `open`) are inputs. */
module Host {

  import opened Wrappers
  import opened Errors
  import opened UsbDevice

  /** The backend devices the selector accepts, in backend order. */
  function Filter(sel: DeviceSelector, devices: seq<DeviceInformation>): (r: seq<DeviceInformation>)
    ensures |r| <= |devices|
    ensures forall d :: d in r ==> d in devices && Matches(sel, d)
    ensures forall d :: d in devices && Matches(sel, d) ==> d in r
  {
    if devices == [] then []
    else (if Matches(sel, devices[0]) then [devices[0]] else []) + Filter(sel, devices[1..])
  }

  /** The first backend device the selector accepts. */
  function FirstMatch(sel: DeviceSelector, devices: seq<DeviceInformation>): (r: Option<DeviceInformation>)
    ensures r.None? <==> forall d :: d in devices ==> !Matches(sel, d)
    ensures r.Some? ==> exists i :: 0 <= i < |devices| && devices[i] == r.value && Matches(sel, r.value) &&
                                    forall j :: 0 <= j < i ==> !Matches(sel, devices[j])
  {
    if devices == [] then None
    else if Matches(sel, devices[0]) then
      Some(devices[0])
    else
      var r := FirstMatch(sel, devices[1..]);
      if r.Some? then
        var i :| 0 <= i < |devices[1..]| && devices[1..][i] == r.value && Matches(sel, r.value) &&
                 forall j :: 0 <= j < i ==> !Matches(sel, devices[1..][j]);
        assert devices[i + 1] == r.value;
        r
      else r
  }

  /** The first element of a non-empty filter result is the first match. */
  lemma {:induction false} FilterHeadIsFirstMatch(sel: DeviceSelector, devices: seq<DeviceInformation>)
    ensures Filter(sel, devices) == [] <==> FirstMatch(sel, devices).None?
    ensures Filter(sel, devices) != [] ==> Filter(sel, devices)[0] == FirstMatch(sel, devices).value
  {
    if devices != [] && !Matches(sel, devices[0]) {
      FilterHeadIsFirstMatch(sel, devices[1..]);
    }
  }

  /** The default selector keeps every device, in order. */
  lemma {:induction false} FilterDefaultIsIdentity(devices: seq<DeviceInformation>)
    ensures Filter(DefaultSelector(), devices) == devices
  {
    if devices != [] {
      FilterDefaultIsIdentity(devices[1..]);
      assert devices == [devices[0]] + devices[1..];
    }
  }

  /** Filtering the concatenation of two lists filters each in turn. */
  lemma {:induction false} FilterAppend(sel: DeviceSelector, a: seq<DeviceInformation>, b: seq<DeviceInformation>)
    ensures Filter(sel, a + b) == Filter(sel, a) + Filter(sel, b)
  {
    if a != [] {
      assert (a + b)[1..] == a[1..] + b;
      FilterAppend(sel, a[1..], b);
    } else {
      assert a + b == b;
    }
  }

  /** `Host::enumerate_devices`: the backend's error unchanged, or the matching
      devices; in single-device mode only the first of them. */
  method EnumerateDevices(sel: DeviceSelector, singleDevice: bool, backend: Result<seq<DeviceInformation>>)
    returns (r: Result<seq<DeviceInformation>>)
    ensures backend.Err? ==> r == Err(backend.error)
    ensures backend.Ok? && !singleDevice ==> r == Ok(Filter(sel, backend.value))
    ensures backend.Ok? && singleDevice ==>
              r.Ok? && |r.value| <= 1 &&
              (r.value == [] <==> FirstMatch(sel, backend.value).None?) &&
              (r.value != [] ==> r.value[0] == FirstMatch(sel, backend.value).value)
  {
    var matchingDevices: seq<DeviceInformation> := [];
    var allDevices :- backend;
    var i := 0;
    while i < |allDevices|
      invariant 0 <= i <= |allDevices|
      invariant Filter(sel, allDevices) == matchingDevices + Filter(sel, allDevices[i..])
      invariant singleDevice ==> matchingDevices == []
    {
      var device := allDevices[i];
      assert allDevices[i..][1..] == allDevices[i + 1..];
      if Matches(sel, device) {
        matchingDevices := matchingDevices + [device];
        if singleDevice {
          FilterHeadIsFirstMatch(sel, allDevices);
          return Ok(matchingDevices);
        }
      }
      i := i + 1;
    }
    assert allDevices[i..] == [];
    assert matchingDevices + [] == matchingDevices;
    FilterHeadIsFirstMatch(sel, allDevices);
    return Ok(matchingDevices);
  }

  /** `Host::device`: the first matching device, or `DeviceNotFound`. */
  method Device(sel: DeviceSelector, backend: Result<seq<DeviceInformation>>)
    returns (r: Result<DeviceInformation>)
    ensures backend.Err? ==> r == Err(backend.error)
    ensures backend.Ok? ==>
              r == (if FirstMatch(sel, backend.value).None? then Err(DeviceNotFound)
                    else Ok(FirstMatch(sel, backend.value).value))
  {
    var candidates :- EnumerateDevices(sel, true, backend);
    if candidates == [] {
      return Err(DeviceNotFound);
    }
    return Ok(candidates[|candidates| - 1]);
  }

  /** `Host::devices`: every matching device. */
  method Devices(sel: DeviceSelector, backend: Result<seq<DeviceInformation>>)
    returns (r: Result<seq<DeviceInformation>>)
    ensures backend.Err? ==> r == Err(backend.error)
    ensures backend.Ok? ==> r == Ok(Filter(sel, backend.value))
  {
    r := EnumerateDevices(sel, false, backend);
  }

  /** `Host::all_devices`: the backend's answer, unfiltered. */
  method AllDevices(backend: Result<seq<DeviceInformation>>) returns (r: Result<seq<DeviceInformation>>)
    ensures r == backend
  {
    r := Devices(DefaultSelector(), backend);
    if backend.Ok? {
      FilterDefaultIsIdentity(backend.value);
    }
  }

  /** An opened device: the backend's per-device resources, owned by the
      device for its lifetime. */
  datatype OpenedDevice<B> = OpenedDevice(backendDevice: B)

  /** `Host::open`: the backend's `open` error unchanged, or its device wrapped. */
  function Open<B>(backendOpen: Result<B>): (r: Result<OpenedDevice<B>>)
    ensures r.Err? <==> backendOpen.Err?
    ensures r.Err? ==> r.error == backendOpen.error
    ensures r.Ok? ==> r.value.backendDevice == backendOpen.value
  {
    var backendDevice :- backendOpen;
    Ok(OpenedDevice(backendDevice))
  }
}
