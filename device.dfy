/** Information about unopened devices, and the selector that filters it. */
module UsbDevice {

  import opened Wrappers
  import opened Numeric

  /** What enumeration knows about a device that has not been opened. The
      backend-private locator used by the macOS backend is the device's
      IOKit location ID. */
  datatype DeviceInformation = DeviceInformation(
    vendorId: U16,
    productId: U16,
    serial: Option<string>,
    vendor: Option<string>,
    product: Option<string>,
    backendNumericLocation: Option<U64>)

  /** Criteria used to find a device; an unset field accepts any value. */
  datatype DeviceSelector = DeviceSelector(vendorId: Option<U16>, productId: Option<U16>)

  /** `DeviceSelector::default()`: nothing set. */
  function DefaultSelector(): (sel: DeviceSelector)
    ensures sel.vendorId.None? && sel.productId.None?
  {
    DeviceSelector(None, None)
  }

  /** `DeviceSelector::matches`: each set field must equal the device's. */
  predicate Matches(sel: DeviceSelector, device: DeviceInformation)
    ensures Matches(sel, device) <==>
              (sel.vendorId.Some? ==> sel.vendorId.value == device.vendorId) &&
              (sel.productId.Some? ==> sel.productId.value == device.productId)
  {
    if sel.vendorId.Some? && sel.vendorId.value != device.vendorId then false
    else if sel.productId.Some? && sel.productId.value != device.productId then false
    else true
  }

  /** A selector with nothing set matches every device. */
  lemma EmptySelectorMatchesAll(sel: DeviceSelector, device: DeviceInformation)
    requires sel.vendorId.None? && sel.productId.None?
    ensures Matches(sel, device)
  {
  }

  lemma VendorMismatch(sel: DeviceSelector, device: DeviceInformation)
    requires sel.vendorId.Some? && sel.vendorId.value != device.vendorId
    ensures !Matches(sel, device)
  {
  }

  lemma ProductMismatch(sel: DeviceSelector, device: DeviceInformation)
    requires sel.productId.Some? && sel.productId.value != device.productId
    ensures !Matches(sel, device)
  {
  }

  /** Only the identifiers are consulted: the strings and the locator are not. */
  lemma MatchesIgnoresStringsAndLocation(sel: DeviceSelector, device: DeviceInformation,
                                         serial: Option<string>, vendor: Option<string>,
                                         product: Option<string>, location: Option<U64>)
    ensures Matches(sel, device) ==
            Matches(sel, device.(serial := serial, vendor := vendor, product := product,
                                 backendNumericLocation := location))
  {
  }
}
