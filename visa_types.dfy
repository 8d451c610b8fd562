/** Integer widths and sample element types of the NI-RFSG driver interface.
    Values only: nothing here performs arithmetic on samples. */
module VisaTypes {

  const Int32Max: int := 0x7FFF_FFFF

  /** ViInt32: a signed 32-bit integer (sample counts). */
  newtype ViInt32 = x: int | -0x8000_0000 <= x <= 0x7FFF_FFFF

  /** ViStatus: the signed 32-bit status every driver function returns. */
  type ViStatus = ViInt32

  /** ViSession: the driver's opaque unsigned 32-bit session handle. */
  newtype ViSession = x: int | 0 <= x <= 0xFFFF_FFFF

  /** ViInt16: a signed 16-bit sample component. */
  newtype ViInt16 = x: int | -0x8000 <= x <= 0x7FFF

  /** ViReal32 and ViReal64 are kept as their IEEE 754 bit patterns: the service
      only moves them, so no floating-point operation is ever needed. */
  datatype ViReal32 = ViReal32(bits: bv32)
  datatype ViReal64 = ViReal64(bits: bv64)

  /** A status is safe to use outputs with when it is VI_SUCCESS (0) or a
      warning (positive); negative codes are errors. */
  predicate StatusOk(status: ViStatus)
  {
    status >= 0
  }
}
