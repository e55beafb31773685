/** Wrappers around IOKit handles and the conversion of registry property
    values. Every IOKit or CoreFoundation call is replaced by the answer it
    gave, supplied as an input. */
module MacIoKit {

  import opened Wrappers
  import opened Numeric
  import opened Errors

  /** `IoObject`: an IOKit object handle; 0 is the invalid handle. */
  datatype IoObject = IoObject(raw: U32) {

    /** `IoObject::get`. */
    function Get(): (handle: U32)
      ensures IoObject(handle) == this
    {
      raw
    }

    /** `IoObject::is_invalid`. */
    predicate IsInvalid()
      ensures IsInvalid() <==> Get() == 0
    {
      raw == 0
    }
  }

  /** `IoObject::new`. */
  function NewIoObject(handle: U32): (o: IoObject)
    ensures o.Get() == handle
    ensures o.IsInvalid() <==> handle == 0
  {
    IoObject(handle)
  }

  /** The calls the model can see an `OsDevice` make into IOKit. */
  datatype DeviceCall = UsbDeviceOpen | UsbDeviceClose | Release

  /** `OsDevice`: the IOKit USB device interface and whether it is open. */
  class OsDevice {
    var isOpen: bool
    /** The device-interface calls made so far, oldest first. */
    ghost var calls: seq<DeviceCall>

    /** `OsDevice::new`: wraps a device that is not yet open. */
    constructor ()
      ensures !isOpen && calls == []
    {
      isOpen := false;
      calls := [];
    }

    /** `OsDevice::open`, with IOKit's answer given: on success the device is open. */
    method Open(answer: Result<()>) returns (r: Result<()>)
      modifies this
      ensures r == answer
      ensures isOpen == (old(isOpen) || answer.Ok?)
      ensures calls == old(calls) + [UsbDeviceOpen]
    {
      calls := calls + [UsbDeviceOpen];
      r := answer;
      if answer.Ok? {
        isOpen := true;
      }
    }

    /** `OsDevice::close`: closes an open device; on a closed one it does nothing. */
    method Close()
      modifies this
      ensures !isOpen
      ensures calls == old(calls) + (if old(isOpen) then [UsbDeviceClose] else [])
    {
      if !isOpen {
        return;
      }
      calls := calls + [UsbDeviceClose];
      isOpen := false;
    }

    /** `Drop for OsDevice`: closes the device if it is open, then releases it. */
    method Drop()
      modifies this
      ensures !isOpen
      ensures calls == old(calls) + (if old(isOpen) then [UsbDeviceClose] else []) + [Release]
    {
      Close();
      calls := calls + [Release];
    }
  }

  /** A second `close` finds the device closed and calls nothing. */
  method CloseTwice(device: OsDevice)
    modifies device
    ensures !device.isOpen
    ensures device.calls == old(device.calls) + (if old(device.isOpen) then [UsbDeviceClose] else [])
  {
    device.Close();
    device.Close();
  }

  /** What IOKit reports about one endpoint of an interface. */
  datatype EndpointProperties = EndpointProperties(direction: U8, number: bv8)

  /** What IOKit answers for the queries the backend makes on one interface.
      The interface is opened once per pipe ref, and each of those opens
      gets its own answer: `openAnswer(p)` is the answer to the open made
      while reading pipe `p`. */
  datatype InterfaceAnswers = InterfaceAnswers(
    interfaceNumber: Result<U8>,
    endpointCount: Result<U8>,
    openAnswer: U8 -> Result<()>,
    endpointProperties: U8 -> Result<EndpointProperties>,
    notificationSource: Result<()>)

  /** `OsInterface::new_denying_placeholder`: keeps its index as its number
      and can be subscribed to, but refuses every request with
      `PermissionDenied`. */
  function DenyingPlaceholder(index: U8): (a: InterfaceAnswers)
    ensures a.interfaceNumber == Ok(index) && a.notificationSource.Ok?
    ensures a.endpointCount == Err(PermissionDenied)
    ensures forall pipeRef :: a.openAnswer(pipeRef) == Err(PermissionDenied)
    ensures forall pipeRef :: a.endpointProperties(pipeRef) == Err(PermissionDenied)
  {
    InterfaceAnswers(Ok(index), Err(PermissionDenied), _ => Err(PermissionDenied),
                     _ => Err(PermissionDenied), Ok(()))
  }

  /** An asynchronous-event source of a device or of one of its interfaces. */
  datatype NotificationSource = DeviceNotifications | InterfaceNotifications(interfaceIndex: U8)

  /** `OsInterface`: an IOKit interface object and whether it is open. */
  class OsInterface {
    const answers: InterfaceAnswers
    var isOpen: bool

    constructor (answers: InterfaceAnswers)
      ensures this.answers == answers && !isOpen
    {
      this.answers := answers;
      isOpen := false;
    }

    /** `OsInterface::open`: on success the interface is open. The source's
        `open` takes no argument; `pipeRef` only selects which of IOKit's
        answers this call receives. */
    method Open(pipeRef: U8) returns (r: Result<()>)
      modifies this
      ensures r == answers.openAnswer(pipeRef)
      ensures isOpen == (old(isOpen) || r.Ok?)
    {
      r := answers.openAnswer(pipeRef);
      if r.Ok? {
        isOpen := true;
      }
    }

    /** `OsInterface::close`. */
    method Close()
      modifies this
      ensures !isOpen
    {
      isOpen := false;
    }
  }

  /** The integer types a registry number is narrowed to: `u16` for the
      vendor and product IDs, `u32` for the location ID. */
  datatype Width = W16 | W32 {
    function Bound(): (b: nat)
      ensures 0x1_0000 <= b <= 0x1_0000_0000
    {
      match this
      case W16 => 0x1_0000
      case W32 => 0x1_0000_0000
    }
  }

  /** The narrowing step of `number_from_cf_number` (`try_into` on a `u64`). */
  function Narrow(value: U64, width: Width): (r: Result<nat>)
    ensures r.Ok? <==> (value as int) < width.Bound()
    ensures r.Ok? ==> r.value == value as nat
    ensures r.Err? ==> r.error == UnspecifiedOsError
  {
    if (value as int) < width.Bound() then Ok(value as nat) else Err(UnspecifiedOsError)
  }

  /** Every value of the target type survives widening and narrowing. */
  lemma NarrowWidened(x: nat, width: Width)
    requires x < width.Bound()
    ensures Narrow(x as U64, width) == Ok(x)
  {
  }

  /** A CoreFoundation number; `converted` is what `CFNumberGetValue` read as
      a 64-bit integer, `None` when it reported failure. */
  datatype CfNumber = CfNumber(converted: Option<U64>)

  /** `number_from_cf_number`. */
  function NumberFromCfNumber(number: CfNumber, width: Width): (r: Result<nat>)
    ensures number.converted.None? ==> r == Err(UnspecifiedOsError)
    ensures number.converted.Some? ==> r == Narrow(number.converted.value, width)
  {
    match number.converted
    case None => Err(UnspecifiedOsError)
    case Some(value) => Narrow(value, width)
  }

  /** A CoreFoundation string; `cString` is what `CFStringGetCStringPtr`
      gave, `None` for a null pointer. */
  datatype CfString = CfString(cString: Option<string>)

  /** `string_from_cf_string`. */
  function StringFromCfString(s: CfString): (r: Result<Option<string>>)
    ensures r == Ok(s.cString)
  {
    match s.cString
    case None => Ok(None)
    case Some(text) => Ok(Some(text))
  }

  /** `get_iokit_numeric_device_property`, given what the registry search
      returned (`None` for a null reference). */
  function GetNumericProperty(raw: Option<CfNumber>, width: Width): (r: Result<nat>)
    ensures r.Ok? ==> r.value < width.Bound()
    ensures raw.None? ==> r == Err(UnspecifiedOsError)
    ensures r.Err? ==> r.error == UnspecifiedOsError
    ensures r.Ok? <==> (raw.Some? && raw.value.converted.Some? &&
                         (raw.value.converted.value as int) < width.Bound())
    ensures r.Ok? ==> r.value == raw.value.converted.value as nat
  {
    match raw
    case None => Err(UnspecifiedOsError)
    case Some(number) => NumberFromCfNumber(number, width)
  }

  /** `get_iokit_string_device_property`: a missing property is an absent
      string, not an error. */
  function GetStringProperty(raw: Option<CfString>): (r: Result<Option<string>>)
    ensures r.Ok?
    ensures raw.None? ==> r.value == None
    ensures raw.Some? ==> r.value == raw.value.cString
  {
    match raw
    case None => Ok(None)
    case Some(s) => StringFromCfString(s)
  }
}
