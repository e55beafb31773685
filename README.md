# usrs, modelled in Dafny

This project models the core of `usrs`, a USB host library, and proves
properties of that model. It covers:

- the USB request-type byte (`bmRequestType`), the standard request codes and
  the descriptor type codes (USB 2.0, section 9.3.1 Table 9-2, Table 9-4 and
  Table 9-5);
- endpoint addresses and their direction bit (USB 2.0, section 9.6.6);
- device selectors and the host's filter over the backend's device list;
- the single-completion future that a backend callback completes;
- the macOS backend:
  - IOKit handle and device wrappers and registry-property conversion;
  - device enumeration;
  - opening a device: the bounded plugin retry, the search by location ID,
    the population of interfaces, and the endpoint-address map.

Anything the program asks the operating system enters the model as an input:
a return code, a handle, a registry answer, the outcome of an interface call.
The model records the resulting state and the result.

Files, one module each:

| file | module | models |
|---|---|---|
| `wrappers.dfy` | `Wrappers` | `Option` |
| `numeric.dfy` | `Numeric` | the fixed-width integers, `kIOReturnSuccess`, `kIOReturnNoResources` |
| `error.dfy` | `Errors` | the library's error variants and `UsbResult` |
| `request.dfy` | `Request` | `src/request.rs` |
| `endpoint.dfy` | `MacEndpoint` | `src/backend/macos/endpoint.rs` |
| `device.dfy` | `UsbDevice` | `src/device.rs` |
| `host.dfy` | `Host` | `src/host.rs` |
| `futures.dfy` | `Futures` | `src/futures.rs` |
| `iokit.dfy` | `MacIoKit` | `src/backend/macos/iokit.rs` |
| `enumeration.dfy` | `MacEnumeration` | `src/backend/macos/enumeration.rs` |
| `macdevice.dfy` | `MacDevice` | `src/backend/macos/device.rs` |

Where the library's files disagree, the model follows the code that uses each
type:

- `DeviceInformation` keeps the six fields that the enumeration code sets:
  vendor ID, product ID, the serial, vendor and product strings, and the
  backend's numeric location. The struct literal there fills any further
  fields from `Default::default()`, and those are not modelled. The struct in
  `src/device.rs` lists only three fields.
- `DeviceSelector` has only the vendor ID and the product ID, as in
  `src/device.rs`. It does not select on a serial number.
- The error type has the variants the code builds: `DeviceNotFound`,
  `DeviceNotReal`, `PermissionDenied`, `OsError(code)` and
  `UnspecifiedOsError`. `src/error.rs` declares only the first.

Bytes that are combined with bit operators are `bv8`. Every other value is a
newtype over `int`. This includes interface numbers, pipe refs and interface
indices (`U8`), vendor and product IDs (`U16`), handles and location IDs
(`U32`), and IOKit return codes (`IoReturn`, a signed 32-bit integer). The two
backend maps (interfaces by number, endpoint metadata by address) are keyed by
the byte's integer value.

## Model

| member | source | states |
|---|---|---|
| Request.Direction.Code | src/request.rs:6-9 | the code is at most 1, so it fits bit 7 alone |
| Request.Type.Code | src/request.rs:22-26 | the code is at most 2, so it fits bits 6..5 and is never `11` |
| Request.Recipient.Code | src/request.rs:31-36 | the code is at most 3, so it fits bits 1..0 |
| Request.Encode | src/request.rs:51-59 | bit 7 is set iff the direction is IN; bits 6..5 hold the type code; bits 4..0 hold the recipient code; bits 4..2 are always zero; bits 6..5 are never `11` |
| Request.EncodeIsShiftedSum | src/request.rs:52-58 | the byte is `direction * 128 + type * 32 + recipient` |
| Request.Decode | src/request.rs:51-59 | reads a request type back from a byte; it succeeds iff bits 4..2 are zero and bits 6..5 are not `11` |
| Request.DecodeEncode | src/request.rs:51-59 | decoding an encoded request type returns it |
| Request.EncodeDecode | src/request.rs:51-59 | every byte that decodes is the encoding of what it decodes to |
| Request.EncodeInjective | src/request.rs:54-57 | distinct request types have distinct encodings |
| Request.ConstantEncodings | src/request.rs:72-113 | the six shorthand request types encode to 0x80, 0x00, 0xC0, 0x40, 0x21 and 0xA1 |
| Request.StandardDeviceRequest.Code | src/request.rs:121-136 | a standard request's code is at most 9 and is never 2 or 4 |
| Request.StandardDeviceRequestFromCode | src/request.rs:121-136 | a code names a standard request iff it is one of 0, 1, 3, 5, 6, 7, 8, 9 |
| Request.StandardDeviceRequestCodes | src/request.rs:121-142 | a code reads back to a request iff it is that request's code, so no two requests share one; GET_DESCRIPTOR is 6 |
| Request.DescriptorType.Code | src/request.rs:146-158 | a descriptor type's code is in 1..5 |
| Request.DescriptorTypeFromCode | src/request.rs:146-158 | a code names a descriptor type iff it is in 1..5 |
| Request.DescriptorTypeCodes | src/request.rs:146-164 | a code reads back to a descriptor type iff it is that type's code, so no two types share one; DEVICE is 1 |
| MacEndpoint.AddressForOutEndpoint | src/backend/macos/endpoint.rs:5-7 | the address is the endpoint number |
| MacEndpoint.AddressForInEndpoint | src/backend/macos/endpoint.rs:10-12 | bit 7 is set and bits 6..0 of the number are kept |
| MacEndpoint.NumberForEndpointAddress | src/backend/macos/endpoint.rs:16-18 | the number is below 0x80 and is the address's low seven bits |
| MacEndpoint.EndpointAddressIsIn | src/backend/macos/endpoint.rs:22-24 | an address is IN iff it is at least 0x80 |
| MacEndpoint.InAddressIsIn | src/backend/macos/endpoint.rs:10-12 | every IN address is IN |
| MacEndpoint.OutAddressIsOut | src/backend/macos/endpoint.rs:5-7 | the OUT address of a number below 0x80 is not IN |
| MacEndpoint.NumberRoundTrip | src/backend/macos/endpoint.rs:5-18 | for a number below 0x80, both address forms give that number back |
| MacEndpoint.AddressRoundTrip | src/backend/macos/endpoint.rs:10-24 | an address is rebuilt from its number and its direction bit |
| MacEndpoint.InAddressIdempotent | src/backend/macos/endpoint.rs:10-12 | making an IN address from an IN address changes nothing |
| UsbDevice.DefaultSelector | src/device.rs:17-24 | the default selector leaves both IDs unset |
| UsbDevice.Matches | src/device.rs:27-48 | a selector matches iff every ID it sets equals the device's |
| UsbDevice.EmptySelectorMatchesAll | src/device.rs:34-47 | a selector with no ID set matches every device |
| UsbDevice.VendorMismatch | src/device.rs:34-38 | a set vendor ID that differs from the device's fails the match |
| UsbDevice.ProductMismatch | src/device.rs:41-45 | a set product ID that differs from the device's fails the match |
| UsbDevice.MatchesIgnoresStringsAndLocation | src/device.rs:27-48 | the match does not depend on the serial, the strings or the location |
| Host.Filter | src/host.rs:44-53 | the kept devices are exactly the backend devices that match; there are no more of them than in the backend list |
| Host.FirstMatch | src/host.rs:44-51 | it is absent iff nothing matches; otherwise it is a matching device with no match before it |
| Host.FilterHeadIsFirstMatch | src/host.rs:44-51 | the filter is empty iff there is no first match; otherwise it starts with the first match |
| Host.FilterDefaultIsIdentity | src/host.rs:70-72 | the default selector keeps the whole list, in order |
| Host.FilterAppend | src/host.rs:44-53 | filtering a concatenation filters each part and concatenates the results |
| Host.EnumerateDevices | src/host.rs:33-56 | a backend error is returned unchanged; otherwise the result is the filtered list, or in single-device mode at most the first match |
| Host.Device | src/host.rs:59-62 | a backend error is returned unchanged; then `DeviceNotFound` iff nothing matches, else the first match |
| Host.Devices | src/host.rs:65-67 | a backend error is returned unchanged; otherwise all matching devices in backend order |
| Host.AllDevices | src/host.rs:70-72 | the backend's answer, unchanged |
| Host.Open | src/host.rs:75-84 | a backend `open` error is returned unchanged; otherwise the backend device is wrapped |
| Futures.UsbFutureState.constructor | src/futures.rs:27-33 | a new state is pending, with no result and no waker |
| Futures.UsbFutureState.Complete | src/futures.rs:36-47 | afterwards the state is not pending, holds the result and has no waker; the stored waker, if any, was woken, and no other one was |
| Futures.UsbFuture.constructor | src/futures.rs:58-62 | a new future owns a fresh pending state |
| Futures.UsbFuture.CloneState | src/futures.rs:65-67 | the handle is the shared state itself |
| Futures.UsbFuture.Poll | src/futures.rs:73-94 | while pending it stores the caller's waker, keeps the result and reports `Pending`; otherwise it reports `Ready` with the stored result and empties it; a poll after the result was taken is refused |
| Futures.CompletionScenario | src/futures.rs:36-94 | poll, complete, poll gives `Pending`, wakes exactly the registered waker, then gives `Ready` with the completion's result and leaves no result behind |
| MacIoKit.IoObject.Get | src/backend/macos/iokit.rs:50-52 | the handle is the object's own |
| MacIoKit.IoObject.IsInvalid | src/backend/macos/iokit.rs:54-58 | an object is invalid iff its handle is 0 |
| MacIoKit.NewIoObject | src/backend/macos/iokit.rs:45-58 | `get` returns the handle it was built with; it is invalid iff the handle is 0 |
| MacIoKit.OsDevice.constructor | src/backend/macos/iokit.rs:105-110 | a new device is closed and has made no calls |
| MacIoKit.OsDevice.Open | src/backend/macos/iokit.rs:96-101 | the OS answer is returned; the device is open afterwards iff it was open or the answer succeeded |
| MacIoKit.OsDevice.Close | src/backend/macos/iokit.rs:119-132 | afterwards the device is closed; a close call is made iff it was open |
| MacIoKit.OsDevice.Drop | src/backend/macos/iokit.rs:135-145 | an open device is closed before it is released, and the release is the last call |
| MacIoKit.CloseTwice | src/backend/macos/iokit.rs:119-132 | a second close makes no further call |
| MacIoKit.DenyingPlaceholder | src/backend/macos/device.rs:102-108 | the placeholder keeps its index as its number and can be subscribed to, but refuses the other requests with `PermissionDenied` |
| MacIoKit.OsInterface.constructor | src/backend/macos/device.rs:95-112 | a new interface has the given answers and is closed |
| MacIoKit.OsInterface.Open | src/backend/macos/device.rs:148 | the OS answer for this pipe ref's open is returned; the interface is open iff it was open or the answer succeeded |
| MacIoKit.OsInterface.Close | src/backend/macos/device.rs:150 | afterwards the interface is closed |
| MacIoKit.Width.Bound | src/backend/macos/iokit.rs:162 | the two target integer types used, `u16` and `u32`, hold between 16 and 32 bits |
| MacIoKit.Narrow | src/backend/macos/iokit.rs:181 | a value that fits the target type is kept; one that does not gives `UnspecifiedOsError` |
| MacIoKit.NarrowWidened | src/backend/macos/iokit.rs:181 | every value of the target type narrows back to itself |
| MacIoKit.NumberFromCfNumber | src/backend/macos/iokit.rs:162-183 | a failed conversion gives `UnspecifiedOsError`; otherwise the value is narrowed |
| MacIoKit.StringFromCfString | src/backend/macos/iokit.rs:186-200 | never fails; a null C string is an absent string |
| MacIoKit.GetNumericProperty | src/backend/macos/iokit.rs:204-224 | a missing property gives `UnspecifiedOsError`; it succeeds iff the property exists, converts and fits, and then the result is the converted value, which fits the width |
| MacIoKit.GetStringProperty | src/backend/macos/iokit.rs:228-248 | never fails; a missing property is an absent string, a present one its text |
| MacEnumeration.GetDeviceIterator | src/backend/macos/enumeration.rs:17-38 | a non-success code gives `OsError(code)`; a zero iterator gives `DeviceNotFound`; otherwise a valid handle onto the iterator |
| MacEnumeration.LocationId | src/backend/macos/enumeration.rs:57 | present iff the `locationID` property reads as a 32-bit number, and then it is that number |
| MacEnumeration.GetDeviceInformation | src/backend/macos/enumeration.rs:41-80 | `DeviceNotReal` iff the IDs read but the location does not; any other error is an unreadable ID; on success the IDs, strings and location are those read |
| MacEnumeration.Collect | src/backend/macos/enumeration.rs:95-110 | succeeds iff every entry is read or not real; on failure the error is that of the first other entry, and never `DeviceNotReal` |
| MacEnumeration.CollectListsRealDevices | src/backend/macos/enumeration.rs:99-109 | a successful walk lists exactly the real devices, in iteration order |
| MacEnumeration.EnumerateDevices | src/backend/macos/enumeration.rs:83-114 | an iterator error is returned, except that a zero iterator gives an empty list; otherwise the walk's result |
| MacDevice.EndpointAddress | src/backend/macos/device.rs:154-158 | the address is IN iff the direction is not 0 or the number has bit 7 set, and it keeps the number's low seven bits |
| MacDevice.MetadataFrom | src/backend/macos/device.rs:144-170 | the loop only adds or overwrites entries; an interface that was closed is left open only with an error that a pipe's endpoint-property read returned |
| MacDevice.MetadataSpec | src/backend/macos/device.rs:133-171 | the same for the whole function: entries are only added or overwritten, and a closed interface is left open only after the endpoint count was read and some pipe's property read failed with the returned error |
| MacDevice.MetadataEntriesFrom | src/backend/macos/device.rs:144-167 | each entry the loop writes records the interface's number and a pipe ref in range, and is keyed by that pipe's endpoint address; other entries stay as they were |
| MacDevice.MetadataCompleteFrom | src/backend/macos/device.rs:144-170 | after a successful loop every pipe ref's endpoint address is a key, recorded by that pipe or a later one; the interface is closed unless no pipe was visited |
| MacDevice.MetadataSpecEntries | src/backend/macos/device.rs:140-170 | no entry has pipe ref 0; on success the endpoint count was read and the interface is closed again |
| MacDevice.PropertyErrorLeavesInterfaceOpen | src/backend/macos/device.rs:148-150 | a failed endpoint-property read returns with the interface still open |
| MacDevice.LaterOpenFailureKeepsEarlierEntries | src/backend/macos/device.rs:144-168 | when pipe 1 is read and pipe 2's open fails, that open's error is returned, pipe 1's entry is in the map and the interface is closed |
| MacDevice.PopulationFrom | src/backend/macos/device.rs:89-128 | interface and endpoint entries only accumulate, and the notification sources given are a prefix of those returned |
| MacDevice.PopulationResult | src/backend/macos/device.rs:90-128 | population succeeds iff every service is admitted, so endpoint errors never stop it; otherwise it stops with the first refusal's error; on success there is one notification source per service and each interface's number is a key |
| MacDevice.DeniedInterfaceKept | src/backend/macos/device.rs:106-109 | a permission-denied interface is kept under its index as a closed placeholder that refuses requests |
| MacDevice.StoredInterfaceOpenOnlyAfterFailedRead | src/backend/macos/device.rs:117-122 | a stored interface is left open only if reading one of its endpoints' properties failed |
| MacDevice.PlaceholderSurvives | src/backend/macos/device.rs:121-122 | an interface stays in the map unless a later one has the same number |
| MacDevice.TerminationFlag.constructor | src/backend/macos/device.rs:280 | the flag starts lowered |
| MacDevice.MacOsDevice.constructor | src/backend/macos/device.rs:276-281 | a new device has no interfaces, no endpoint metadata and a lowered flag |
| MacDevice.MacOsDevice.PopulateEndpointMetadata | src/backend/macos/device.rs:133-171 | the result, the new endpoint map and the interface's open state are those of the reference loop |
| MacDevice.MacOsDevice.PopulateInterface | src/backend/macos/device.rs:94-124 | for one interface service: an error leaves the result, endpoint map, notification sources and interfaces (answers and open state) where the reference loop stops; otherwise the rest of the reference loop is unchanged; every interface entry it changes is a fresh object |
| MacDevice.MacOsDevice.PopulateInterfaces | src/backend/macos/device.rs:79-130 | an iterator error changes nothing; otherwise the result, endpoint map, notification sources and interface map, with each interface's answers and open state, are those of the reference loop; new interfaces are fresh objects |
| MacDevice.MacOsDevice.Drop | src/backend/macos/device.rs:188-193 | the termination flag is raised; then the device field is dropped: it is closed if it was open, and the release is its last call |
| MacDevice.PluginFrom | src/backend/macos/device.rs:221-251 | the loop ends within the five attempts, after the attempt it started from unless none was left; a success names the last attempt made |
| MacDevice.PluginOutcome | src/backend/macos/device.rs:221-251 | the whole loop makes one to five attempts |
| MacDevice.CreateDevicePlugin | src/backend/macos/device.rs:221-251 | the result and the attempt count are the reference loop's; at most five attempts; every attempt but the last answered NoResources; `DeviceNotFound` iff all five did; otherwise the last answer decides: `OsError(code)`, `UnspecifiedOsError` for a null plugin, or success on that attempt |
| MacDevice.OpenUsbDeviceFromIoDevice | src/backend/macos/device.rs:196-305 | it succeeds iff the plugin, the device open, the subscription, the interface iterator and the population all succeed; otherwise the first of them to fail gives its error; on success the device is fresh, open, populated as the reference loop says and has a lowered flag |
| MacDevice.FindByLocation | src/backend/macos/device.rs:324-346 | the found entry is the first whose location ID equals the target; none is found iff no entry has it |
| MacDevice.OpenUsbDevice | src/backend/macos/device.rs:308-350 | an iterator error is returned; `DeviceNotFound` when no entry has the location ID; when one has it, the result is that of opening the device: it succeeds iff every opening step does, otherwise the first step to fail gives its error; on success the device is fresh, open and populated as the reference loop says, with a lowered flag |

## Left out

- `src/backend/macos/iokit_c.rs` is not part of this model. It holds data layouts and foreign declarations, with no behaviour of its own.
- `src/backend/macos/interface.rs` is not part of this model. Creating an interface from a service becomes its outcome, an input to `PopulateInterfaces`. The definitions of `OsInterface` and of `OsDevice::open`, `notification_source` and `create_interface_iterator` are not in the modelled files, so their answers are inputs.
- `MacIoKit.DenyingPlaceholder`: the placeholder's constructor is not in the modelled files. Its answers follow the comment at `src/backend/macos/device.rs:102-105`: its number is its index, subscription succeeds, and every other request is refused with `PermissionDenied`.
- `src/backend/macos/callback.rs`, the event-loop thread, `thread::sleep`, the `Mutex` around the future state and the atomic flag's memory ordering are concurrency and timing. The model keeps only the resulting state: the flag's value and the number of attempts.
- Waking a waker is recorded in a ghost log; running the woken task is not modelled.
- Foreign calls (`IOIteratorNext`, `IORegistryEntrySearchCFProperty`, `CFNumberGetValue`, `CFStringGetCStringPtr`, `IOObjectRelease`, the release and close entries of IOKit's function tables) are replaced by their answers. The panics on null pointers and on a zero service handle become facts about those answers.
- Releasing an `IoObject` or a `PluginInterface` when it is dropped is not modelled; only `OsDevice`'s drop ordering is.
- `MacDevice.MacOsDevice.Drop`: after the flag is raised, only the `device` field's drop is modelled. Dropping the stored interfaces and the shared flag is not, because `OsInterface`'s drop is not in the modelled files.
- Resources dropped on an early error return while opening a device (the half-built `MacOsDevice` and its `OsDevice`) are not modelled.
- The by-value `From` conversions in `src/request.rs` are not separate members. Dafny values have no references, so the by-value and by-reference forms are the same function: `Request.Encode` for request types, `Code` for the two enumerations.
- `OpenUsbDevice` runs the search and the opening as two steps, `FindByLocation` and then `OpenUsbDeviceFromIoDevice`. The source opens the device from inside its search loop; the outcome is the same.
- `MacDevice.OpenUsbDevice`: the contract does not say which entry's answers were used. The open answers are given for the device found.
- `MacIoKit.OsInterface.Open`: IOKit's answers to the opens are a function of the pipe ref being read. Two opens for the same pipe ref get the same answer; the model has no call counter.
- `MacDevice.PopulateInterfaces` requires at most 255 interface services. The interface index is a `u8`, so a 256th service would overflow it.
- `Host::new`, `Host::new_from_backend` and the convenience functions at `src/host.rs:89-109` only construct a host. The `Display` of errors is formatting.
- `src/backend.rs` and `src/backend/macos.rs` hold trait declarations and a stub. `src/lib.rs`, `src/convenience.rs` and the examples are glue and printing.
- Control and bulk transfers are not part of this model. No implementing code for them is in the modelled files.
