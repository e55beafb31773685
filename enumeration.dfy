/** Enumeration of USB devices in the macOS backend. The IOKit iterator is
    replaced by the registry entries it yields, in order, each given by the
    answers its property searches return. */
module MacEnumeration {

  import opened Wrappers
  import opened Numeric
  import opened Errors
  import opened UsbDevice
  import opened MacIoKit

  /** The registry properties enumeration reads from one device (`None`
      where the registry search returns a null reference). */
  datatype RegistryEntry = RegistryEntry(
    idVendor: Option<CfNumber>,
    idProduct: Option<CfNumber>,
    serialNumber: Option<CfString>,
    vendorName: Option<CfString>,
    productName: Option<CfString>,
    locationId: Option<CfNumber>)

  /** `get_device_iterator`, given the return code and the iterator handle
      that `IOServiceGetMatchingServices` produced. */
  function GetDeviceIterator(rc: IoReturn, rawIterator: U32): (r: Result<IoObject>)
    ensures rc != IO_RETURN_SUCCESS ==> r == Err(OsError(rc as int))
    ensures rc == IO_RETURN_SUCCESS && rawIterator == 0 ==> r == Err(DeviceNotFound)
    ensures r.Ok? <==> rc == IO_RETURN_SUCCESS && rawIterator != 0
    ensures r.Ok? ==> r.value.Get() == rawIterator && !r.value.IsInvalid()
  {
    if rc != IO_RETURN_SUCCESS then Err(OsError(rc as int))
    else if rawIterator == 0 then Err(DeviceNotFound)
    else Ok(NewIoObject(rawIterator))
  }

  /** The location ID of an entry, when it has a usable one. */
  function LocationId(entry: RegistryEntry): (r: Option<U32>)
    ensures r.Some? <==> GetNumericProperty(entry.locationId, W32).Ok?
    ensures r.Some? ==> r.value as nat == GetNumericProperty(entry.locationId, W32).value
  {
    match GetNumericProperty(entry.locationId, W32)
    case Ok(location) => Some(location as U32)
    case Err(_) => None
  }

  /** `get_device_information`. Unreadable identifiers are errors; a device
      without a location ID is reported as not real. */
  function GetDeviceInformation(entry: RegistryEntry): (r: Result<DeviceInformation>)
    ensures r == Err(DeviceNotReal) <==>
              GetNumericProperty(entry.idVendor, W16).Ok? &&
              GetNumericProperty(entry.idProduct, W16).Ok? &&
              LocationId(entry).None?
    ensures r.Err? && r.error != DeviceNotReal ==>
              r.error == UnspecifiedOsError &&
              (GetNumericProperty(entry.idVendor, W16).Err? || GetNumericProperty(entry.idProduct, W16).Err?)
    ensures r.Ok? ==>
              LocationId(entry).Some? &&
              r.value.backendNumericLocation == Some(LocationId(entry).value as U64) &&
              GetNumericProperty(entry.idVendor, W16).Ok? &&
              r.value.vendorId as nat == GetNumericProperty(entry.idVendor, W16).value &&
              GetNumericProperty(entry.idProduct, W16).Ok? &&
              r.value.productId as nat == GetNumericProperty(entry.idProduct, W16).value &&
              r.value.serial == GetStringProperty(entry.serialNumber).value &&
              r.value.vendor == GetStringProperty(entry.vendorName).value &&
              r.value.product == GetStringProperty(entry.productName).value
  {
    var vendorId :- GetNumericProperty(entry.idVendor, W16);
    var productId :- GetNumericProperty(entry.idProduct, W16);
    // The string getters never fail, so their `?` never returns early.
    var serial := GetStringProperty(entry.serialNumber).value;
    var vendor := GetStringProperty(entry.vendorName).value;
    var product := GetStringProperty(entry.productName).value;
    var locationId := LocationId(entry);
    if locationId.None? then Err(DeviceNotReal)
    else
      Ok(DeviceInformation(vendorId as U16, productId as U16, serial, vendor, product,
                           Some(locationId.value as U64)))
  }

  /** An entry that does not stop enumeration: it is read, or it is not real. */
  predicate Tolerated(entry: RegistryEntry)
  {
    GetDeviceInformation(entry).Ok? || GetDeviceInformation(entry) == Err(DeviceNotReal)
  }

  /** What walking the remaining entries produces: the first error other
      than `DeviceNotReal` stops the walk; not-real devices are skipped. */
  function Collect(entries: seq<RegistryEntry>): (r: Result<seq<DeviceInformation>>)
    ensures r.Ok? <==> forall e :: e in entries ==> Tolerated(e)
    ensures r.Ok? ==> |r.value| <= |entries| &&
                      forall d :: d in r.value ==> d.backendNumericLocation.Some?
    ensures r.Err? ==> r.error != DeviceNotReal &&
                       exists i :: 0 <= i < |entries| && GetDeviceInformation(entries[i]) == Err(r.error) &&
                                   forall j :: 0 <= j < i ==> Tolerated(entries[j])
  {
    if entries == [] then Ok([])
    else
      var rest := Collect(entries[1..]);
      match GetDeviceInformation(entries[0])
      case Ok(info) =>
        if rest.Ok? then Ok([info] + rest.value)
        else
          ExistsShifted(entries, rest.error);
          rest
      case Err(e) =>
        if e != DeviceNotReal then
          assert GetDeviceInformation(entries[0]) == Err(e) && !Tolerated(entries[0]);
          Err(e)
        else if rest.Ok? then rest
        else
          ExistsShifted(entries, rest.error);
          rest
  }

  /** Moves the witness of a stopping entry in `entries[1..]` to `entries`. */
  lemma ExistsShifted(entries: seq<RegistryEntry>, e: Error)
    requires entries != [] && Tolerated(entries[0])
    requires exists i :: 0 <= i < |entries[1..]| && GetDeviceInformation(entries[1..][i]) == Err(e) &&
                         forall j :: 0 <= j < i ==> Tolerated(entries[1..][j])
    ensures exists i :: 0 <= i < |entries| && GetDeviceInformation(entries[i]) == Err(e) &&
                        forall j :: 0 <= j < i ==> Tolerated(entries[j])
  {
  }

  /** The devices of the real entries, in iteration order. */
  function RealDevices(entries: seq<RegistryEntry>): seq<DeviceInformation>
  {
    if entries == [] then []
    else
      (if GetDeviceInformation(entries[0]).Ok? then [GetDeviceInformation(entries[0]).value] else [])
      + RealDevices(entries[1..])
  }

  /** A walk that succeeds lists exactly the real devices, in order. */
  lemma {:induction false} CollectListsRealDevices(entries: seq<RegistryEntry>)
    requires Collect(entries).Ok?
    ensures Collect(entries).value == RealDevices(entries)
  {
    if entries != [] {
      CollectListsRealDevices(entries[1..]);
    }
  }

  /** A walk's result with `prefix` already collected in front of it. */
  function Prepend(prefix: seq<DeviceInformation>, r: Result<seq<DeviceInformation>>): Result<seq<DeviceInformation>>
  {
    if r.Ok? then Ok(prefix + r.value) else r
  }

  /** `enumerate_devices`, given the iterator's creation answers and the
      entries it yields. An iterator that reports `DeviceNotFound` gives an
      empty list, not an error. */
  method EnumerateDevices(iteratorRc: IoReturn, rawIterator: U32, entries: seq<RegistryEntry>)
    returns (r: Result<seq<DeviceInformation>>)
    ensures iteratorRc != IO_RETURN_SUCCESS ==> r == Err(OsError(iteratorRc as int))
    ensures iteratorRc == IO_RETURN_SUCCESS && rawIterator == 0 ==> r == Ok([])
    ensures iteratorRc == IO_RETURN_SUCCESS && rawIterator != 0 ==> r == Collect(entries)
  {
    var devices: seq<DeviceInformation> := [];
    var deviceIterator := GetDeviceIterator(iteratorRc, rawIterator);
    if deviceIterator == Err(DeviceNotFound) {
      return Ok(devices);
    }
    var _ :- deviceIterator;
    var i := 0;
    assert entries[0..] == entries;
    assert Collect(entries).Ok? ==> [] + Collect(entries).value == Collect(entries).value;
    while i < |entries|
      invariant 0 <= i <= |entries|
      invariant Collect(entries) == Prepend(devices, Collect(entries[i..]))
    {
      assert entries[i..][1..] == entries[i + 1..];
      var rest := Collect(entries[i + 1..]);
      var deviceInfo := GetDeviceInformation(entries[i]);
      if deviceInfo.Ok? {
        assert Collect(entries[i..]) == Prepend([deviceInfo.value], rest);
        assert rest.Ok? ==> devices + ([deviceInfo.value] + rest.value) == (devices + [deviceInfo.value]) + rest.value;
        devices := devices + [deviceInfo.value];
      } else if deviceInfo.error != DeviceNotReal {
        // Any error other than "not real" aborts the walk.
        return Err(deviceInfo.error);
      }
      // A device that is not real to the OS is skipped.
      i := i + 1;
    }
    assert entries[i..] == [];
    assert devices + [] == devices;
    return Ok(devices);
  }
}
