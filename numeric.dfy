/** The fixed-width integers of the source. A `u8` that is combined with bit
    operators is a `bv8`; other values that are only compared, counted, used
    as keys or narrowed are newtypes over `int`. */
module Numeric {

  newtype U8 = x: int | 0 <= x < 0x100
  newtype U16 = x: int | 0 <= x < 0x1_0000
  newtype U32 = x: int | 0 <= x < 0x1_0000_0000
  newtype U64 = x: int | 0 <= x < 0x1_0000_0000_0000_0000

  /** IOKit's `IOReturn` (a C `kern_return_t`, a signed 32-bit integer). */
  newtype IoReturn = x: int | -0x8000_0000 <= x < 0x8000_0000

  /** `kIOReturnSuccess`. */
  const IO_RETURN_SUCCESS: IoReturn := 0

  /** `kIOReturnNoResources`: `iokit_common_err(0x2be)`, the 32-bit pattern
      0xE00002BE read as a signed value. */
  const IO_RETURN_NO_RESOURCES: IoReturn := (0xE000_02BE - 0x1_0000_0000) as IoReturn
}
