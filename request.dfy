/** USB control-request helpers: the `bmRequestType` byte (section 9.3.1 of
    the USB 2.0 specification), the standard request codes and the
    descriptor type codes. */
module Request {

  import opened Wrappers

  /** Direction of the data stage: host-to-device (OUT) or device-to-host (IN). */
  datatype Direction = Out | In {
    /** The enum discriminant (`Out = 0`, `In = 1`). */
    function Code(): (c: bv8)
      ensures c <= 1
    {
      match this
      case Out => 0
      case In => 1
    }
  }

  /** `Direction::HOST_TO_DEVICE` and `Direction::DEVICE_TO_HOST`. */
  const HostToDevice: Direction := Out
  const DeviceToHost: Direction := In

  /** The request type field (standard, class or vendor). */
  datatype Type = Standard | Class | Vendor {
    function Code(): (c: bv8)
      ensures c <= 2
    {
      match this
      case Standard => 0
      case Class => 1
      case Vendor => 2
    }
  }

  /** The recipient of a request. */
  datatype Recipient = Device | Interface | Endpoint | Other {
    function Code(): (c: bv8)
      ensures c <= 3
    {
      match this
      case Device => 0
      case Interface => 1
      case Endpoint => 2
      case Other => 3
    }
  }

  datatype RequestType = RequestType(direction: Direction, requestType: Type, recipient: Recipient)

  /** `From<&RequestType> for u8`: direction in bit 7, type in bits 6..5,
      recipient in bits 4..0. */
  function Encode(rt: RequestType): (b: bv8)
    ensures (b & 0x80 != 0) <==> rt.direction == In
    ensures (b >> 5) & 0x3 == rt.requestType.Code()
    ensures b & 0x1F == rt.recipient.Code()
    ensures b & 0x1C == 0
    ensures b & 0x60 != 0x60
  {
    var direction := rt.direction.Code() << 7;
    var requestType := rt.requestType.Code() << 5;
    var recipient := rt.recipient.Code();
    direction | requestType | recipient
  }

  /** Reads a `bmRequestType` byte back; `None` for the bit patterns no
      `RequestType` produces (a reserved type or recipient). */
  function Decode(b: bv8): (r: Option<RequestType>)
    ensures r.Some? <==> (b & 0x1C == 0 && b & 0x60 != 0x60)
  {
    var direction := if b & 0x80 != 0 then In else Out;
    var typeBits := (b >> 5) & 0x3;
    var recipientBits := b & 0x1F;
    if typeBits == 3 || recipientBits > 3 then None
    else
      var requestType := if typeBits == 0 then Standard else if typeBits == 1 then Class else Vendor;
      var recipient :=
        if recipientBits == 0 then Device
        else if recipientBits == 1 then Interface
        else if recipientBits == 2 then Endpoint
        else Other;
      Some(RequestType(direction, requestType, recipient))
  }

  /** The encoded byte is the arithmetic sum of the three shifted fields, so
      the bit-or of the source never overlaps two fields. */
  lemma EncodeIsShiftedSum(rt: RequestType)
    ensures Encode(rt) as int
         == rt.direction.Code() as int * 128 + rt.requestType.Code() as int * 32 + rt.recipient.Code() as int
  {
  }

  /** Decoding an encoded request type gives it back. */
  lemma DecodeEncode(rt: RequestType)
    ensures Decode(Encode(rt)) == Some(rt)
  {
  }

  /** Encoding a decodable byte gives the byte back. */
  lemma EncodeDecode(b: bv8)
    requires Decode(b).Some?
    ensures Encode(Decode(b).value) == b
  {
  }

  /** Two request types with the same byte are the same request type. */
  lemma EncodeInjective(a: RequestType, b: RequestType)
    requires Encode(a) == Encode(b)
    ensures a == b
  {
    DecodeEncode(a);
    DecodeEncode(b);
  }

  // Helper constants for common request types.
  const StandardInFromDevice: RequestType := RequestType(In, Standard, Device)
  const StandardOutToDevice: RequestType := RequestType(Out, Standard, Device)
  const VendorInFromDevice: RequestType := RequestType(In, Vendor, Device)
  const VendorOutToDevice: RequestType := RequestType(Out, Vendor, Device)
  const ClassOutToInterface: RequestType := RequestType(Out, Class, Interface)
  const ClassInFromInterface: RequestType := RequestType(In, Class, Interface)

  lemma ConstantEncodings()
    ensures Encode(StandardInFromDevice) == 0x80
    ensures Encode(StandardOutToDevice) == 0x00
    ensures Encode(VendorInFromDevice) == 0xC0
    ensures Encode(VendorOutToDevice) == 0x40
    ensures Encode(ClassOutToInterface) == 0x21
    ensures Encode(ClassInFromInterface) == 0xA1
  {
  }

  /** Standard device requests (section 9.4, Table 9-4, of the USB 2.0 specification). */
  datatype StandardDeviceRequest =
    | GetStatus | ClearFeature | SetFeature | SetAddress
    | GetDescriptor | SetDescriptor | GetConfiguration | SetConfiguration
  {
    /** `From<&StandardDeviceRequest> for u8`: the discriminant. */
    function Code(): (c: bv8)
      ensures c <= 9 && c != 2 && c != 4
    {
      match this
      case GetStatus => 0
      case ClearFeature => 1
      case SetFeature => 3
      case SetAddress => 5
      case GetDescriptor => 6
      case SetDescriptor => 7
      case GetConfiguration => 8
      case SetConfiguration => 9
    }
  }

  /** The request whose code is `c`, if there is one. */
  function StandardDeviceRequestFromCode(c: bv8): (r: Option<StandardDeviceRequest>)
    ensures r.Some? <==> (c <= 9 && c != 2 && c != 4)
  {
    match c
    case 0 => Some(GetStatus)
    case 1 => Some(ClearFeature)
    case 3 => Some(SetFeature)
    case 5 => Some(SetAddress)
    case 6 => Some(GetDescriptor)
    case 7 => Some(SetDescriptor)
    case 8 => Some(GetConfiguration)
    case 9 => Some(SetConfiguration)
    case _ => None
  }

  /** The request codes identify the requests: reading a code back gives the
      request, and only its own code reads back to it. */
  lemma StandardDeviceRequestCodes(req: StandardDeviceRequest, c: bv8)
    ensures StandardDeviceRequestFromCode(c) == Some(req) <==> req.Code() == c
    ensures GetDescriptor.Code() == 6
  {
  }

  /** Descriptor types (section 9.4, Table 9-5, of the USB 2.0 specification). */
  datatype DescriptorType = DeviceDescriptor | ConfigurationDescriptor | StringDescriptor
                          | InterfaceDescriptor | EndpointDescriptor
  {
    /** `From<&DescriptorType> for u8`: the discriminant. */
    function Code(): (c: bv8)
      ensures 1 <= c <= 5
    {
      match this
      case DeviceDescriptor => 1
      case ConfigurationDescriptor => 2
      case StringDescriptor => 3
      case InterfaceDescriptor => 4
      case EndpointDescriptor => 5
    }
  }

  function DescriptorTypeFromCode(c: bv8): (r: Option<DescriptorType>)
    ensures r.Some? <==> 1 <= c <= 5
  {
    match c
    case 1 => Some(DeviceDescriptor)
    case 2 => Some(ConfigurationDescriptor)
    case 3 => Some(StringDescriptor)
    case 4 => Some(InterfaceDescriptor)
    case 5 => Some(EndpointDescriptor)
    case _ => None
  }

  lemma DescriptorTypeCodes(d: DescriptorType, c: bv8)
    ensures DescriptorTypeFromCode(c) == Some(d) <==> d.Code() == c
    ensures DeviceDescriptor.Code() == 1
  {
  }
}
