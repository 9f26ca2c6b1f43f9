/**
 * The vendor QHYCCD driver library, seen from the application.
 *
 * The library is proprietary and is never modelled itself: every call the
 * application makes is answered by an oracle, a record of total functions of
 * the call's arguments.  A model operation takes the oracle as a parameter, so
 * every proof holds for every driver that answers the same call with the same
 * arguments the same way.
 */
module Sdk {

  /** An unsigned 8-bit value (`quint8`, `uint8_t`). */
  newtype u8 = x: int | 0 <= x < 0x100

  /** An unsigned 32-bit value (`quint32`, `uint32_t`), the type of every result code. */
  newtype u32 = x: int | 0 <= x < 0x1_0000_0000

  /** The driver's success code, `QHYCCD_SUCCESS`. */
  const QhyccdSuccess: u32 := 0

  /** The driver's generic failure code, `QHYCCD_ERROR`. */
  const QhyccdError: u32 := 0xFFFF_FFFF

  /** An opaque camera handle (`qhyccd_handle *`); `NullHandle` plays `nullptr`. */
  type Handle = nat

  const NullHandle: Handle := 0

  /** The control identifiers the application asks about. */
  datatype Control =
    | CamColor
    | ControlOffset
    | ControlGain
    | CamBin1x1Mode
    | CamBin2x2Mode
    | CamBin3x3Mode
    | CamBin4x4Mode
    | ControlSpeed
    | ControlUsbTraffic
    | CamGps
    | ControlTransferBit
    | Cam16Bits
    | ControlCfwPort
    | ControlCfwSlotsNum
    | ControlCooler
    | CamHumidity
    | CamPressure
    | CamMechanicalShutter
    | CamTriggerInterface
    | CamShutterMotorHeatingInterface
    | CamTecOverProtectInterface
    | CamSignalClampInterface
    | CamCalibrateFpnInterface
    | CamChipTemperatureSensorInterface
    | CamUsbReadoutSlowestInterface
    | ControlSensorChamberCyclePump

  /** The result code of a call and the count it wrote through its out-pointer. */
  datatype CountReply = CountReply(status: u32, count: u32)

  /** The result code of a call and the text it wrote into the caller's buffer. */
  datatype NameReply = NameReply(status: u32, name: string)

  /** The result code of a version query and the first four bytes of its buffer. */
  datatype VersionReply = VersionReply(status: u32, b0: u8, b1: u8, b2: u8, b3: u8)

  /** How the driver answers each call the application makes. */
  datatype Sdk = Sdk(
    initResource: u32,                          // InitQHYCCDResource()
    scan: u32,                                  // ScanQHYCCD()
    cameraId: nat -> NameReply,                 // GetQHYCCDId(index, buffer)
    open: string -> Handle,                     // OpenQHYCCD(id)
    close: Handle -> u32,                       // CloseQHYCCD(handle)
    readModeCount: Handle -> CountReply,        // GetQHYCCDNumberOfReadModes(handle, &count)
    readModeName: (Handle, nat) -> NameReply,  // GetQHYCCDReadModeName(handle, index, buffer)
    setReadMode: (Handle, nat) -> u32,          // SetQHYCCDReadMode(handle, index)
    setStreamMode: (Handle, u8) -> u32,         // SetQHYCCDStreamMode(handle, mode)
    initCamera: Handle -> u32,                  // InitQHYCCD(handle)
    firmwareVersion: Handle -> VersionReply,    // GetQHYCCDFWVersion(handle, buffer)
    fpgaVersion: (Handle, nat) -> VersionReply, // GetQHYCCDFPGAVersion(handle, fpga, buffer)
    controlAvailable: (Handle, Control) -> u32, // IsQHYCCDControlAvailable(handle, control)
    param: (Handle, Control) -> real,           // GetQHYCCDParam(handle, control)
    memLength: Handle -> u32                    // GetQHYCCDMemLength(handle)
  )

  /** `IsQHYCCDControlAvailable(handle, c) == QHYCCD_SUCCESS`. */
  predicate Available(sdk: Sdk, h: Handle, c: Control) {
    sdk.controlAvailable(h, c) == QhyccdSuccess
  }

  /**
   * `static_cast<int>(x)` for a 32-bit unsigned `x`: values from 2^31 up wrap
   * to negative numbers.
   */
  function ToInt32(x: u32): (r: int)
    ensures -0x8000_0000 <= r < 0x8000_0000
    ensures (r - x as int) % 0x1_0000_0000 == 0
    ensures x < 0x8000_0000 ==> r == x as int
  {
    if x < 0x8000_0000 then x as int else x as int - 0x1_0000_0000
  }

  /** `static_cast<int>(x)` for a `double`: the fraction is dropped, rounding toward zero. */
  function TruncateToInt(x: real): (r: int)
    ensures x >= 0.0 ==> r as real <= x < r as real + 1.0
    ensures x < 0.0 ==> r as real - 1.0 < x <= r as real
  {
    if x >= 0.0 then x.Floor else -((-x).Floor)
  }
}
