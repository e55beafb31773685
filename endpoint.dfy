/** Endpoint numbers and endpoint addresses in the macOS backend. An address
    (`bEndpointAddress`, section 9.6.6 of the USB 2.0 specification) carries
    the endpoint number in bits 6..0 and the direction in bit 7 (set = IN). */
module MacEndpoint {

  /** `address_for_out_endpoint`: an OUT address is the number itself. */
  function AddressForOutEndpoint(number: bv8): (address: bv8)
    ensures address == number
  {
    number
  }

  /** `address_for_in_endpoint`: sets the direction bit and keeps the number bits. */
  function AddressForInEndpoint(number: bv8): (address: bv8)
    ensures address & 0x80 == 0x80
    ensures address & 0x7F == number & 0x7F
  {
    number | 0x80
  }

  /** `number_for_endpoint_address`: the low seven bits. */
  function NumberForEndpointAddress(address: bv8): (number: bv8)
    ensures number < 0x80
    ensures number == address & 0x7F
  {
    address & 0x7F
  }

  /** `endpoint_address_is_in`: the direction bit. */
  function EndpointAddressIsIn(address: bv8): (isIn: bool)
    ensures isIn <==> address >= 0x80
  {
    (address & 0x80) != 0
  }

  lemma InAddressIsIn(number: bv8)
    ensures EndpointAddressIsIn(AddressForInEndpoint(number))
  {
  }

  lemma OutAddressIsOut(number: bv8)
    requires number < 0x80
    ensures !EndpointAddressIsIn(AddressForOutEndpoint(number))
  {
  }

  /** Either address form of a seven-bit endpoint number gives the number back. */
  lemma NumberRoundTrip(number: bv8)
    requires number < 0x80
    ensures NumberForEndpointAddress(AddressForOutEndpoint(number)) == number
    ensures NumberForEndpointAddress(AddressForInEndpoint(number)) == number
  {
  }

  /** An address is rebuilt from its number and its direction. */
  lemma AddressRoundTrip(address: bv8)
    ensures address == if EndpointAddressIsIn(address)
                       then AddressForInEndpoint(NumberForEndpointAddress(address))
                       else AddressForOutEndpoint(NumberForEndpointAddress(address))
  {
  }

  lemma InAddressIdempotent(number: bv8)
    ensures AddressForInEndpoint(AddressForInEndpoint(number)) == AddressForInEndpoint(number)
  {
  }
}
