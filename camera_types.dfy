/**
 * The value types a camera declares: its transfer modes, a parameter range,
 * its binning summary, and the record of capabilities read from the driver.
 */
module CameraTypes {
  import opened Sdk
  import opened Wrappers

  /** How frames are delivered: one exposure at a time, or a continuous stream. */
  datatype DataTransferMode = SingleImage | LiveView

  /** The number the driver receives as the stream mode. */
  function StreamModeCode(mode: DataTransferMode): (code: u8)
    ensures code <= 1
    ensures mode == SingleImage ==> code == 0
    ensures mode == LiveView ==> code == 1
  {
    match mode
    case SingleImage => 0
    case LiveView => 1
  }

  /** The mode whose stream-mode number is `code`, if there is one. */
  function StreamModeFromCode(code: u8): (mode: Option<DataTransferMode>)
    ensures mode.Some? <==> code <= 1
    ensures code == 0 ==> mode == Some(SingleImage)
    ensures code == 1 ==> mode == Some(LiveView)
  {
    if code == 0 then Some(SingleImage)
    else if code == 1 then Some(LiveView)
    else None
  }

  /**
   * `SingleImage` is 0 and `LiveView` is 1; every mode has its own number,
   * and the number gives the mode back.
   */
  lemma StreamModeCodeRoundTrip(mode: DataTransferMode, code: u8)
    ensures StreamModeCode(SingleImage) == 0 && StreamModeCode(LiveView) == 1
    ensures StreamModeFromCode(StreamModeCode(mode)) == Some(mode)
    ensures StreamModeFromCode(code).Some? ==> StreamModeCode(StreamModeFromCode(code).value) == code
  {
  }

  /** The minimum, maximum and step of an adjustable parameter. */
  datatype Range = Range(min: real, max: real, step: real)

  /** A range as it starts out: everything zero. */
  const DefaultRange: Range := Range(0.0, 0.0, 0.0)

  /**
   * Which square binnings the camera offers, and the largest factor it offers
   * along each axis.
   */
  datatype Binning = Binning(
    oneByOne: bool,
    twoByTwo: bool,
    threeByThree: bool,
    fourByFour: bool,
    binXMaximum: int,
    binYMaximum: int)

  /** A binning summary as it starts out: no mode known, factor 1 on both axes. */
  const DefaultBinning: Binning := Binning(false, false, false, false, 1, 1)

  /** The binning flag for the `n`-by-`n` mode. */
  function BinFlag(b: Binning, n: nat): bool
    requires 1 <= n <= 4
  {
    match n
    case 1 => b.oneByOne
    case 2 => b.twoByTwo
    case 3 => b.threeByThree
    case 4 => b.fourByFour
  }

  /** The integer and boolean capabilities a camera reports after it is initialised. */
  datatype Capabilities = Capabilities(
    firmwareVersion: string,
    fpga1Version: string,
    fpga2Version: string,
    supportsColor: bool,
    bayerMatrix: int,
    supportsOffset: bool,
    supportsGain: bool,
    supportsBinning: bool,
    binningInfo: Binning,
    supportsHighSpeed: bool,
    supportsUsbTraffic: bool,
    supportsGps: bool,
    supports16Bit: bool,
    filterWheelCapacity: int,
    supportsCooler: bool,
    supportsHumidity: bool,
    supportsPressure: bool,
    supportsMechanicalShutter: bool,
    supportsTrigger: bool,
    supportsShutterMotorHeating: bool,
    supportsTecOverProtection: bool,
    supportsSignalClamp: bool,
    supportsFpnCalibration: bool,
    supportsChipTempSensor: bool,
    supportsUsbSpeedSetting: bool,
    supportsChipChamberCyclePump: bool,
    maxFrameLength: int)

  /** The capabilities of a camera that has not been asked anything yet. */
  const DefaultCapabilities: Capabilities := Capabilities(
    "", "", "",
    false, 0, false, false, false, DefaultBinning,
    false, false, false, false, 0,
    false, false, false, false, false, false, false, false, false, false, false, false,
    0)
}
