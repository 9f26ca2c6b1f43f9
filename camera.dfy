/**
 * The camera object: its fields, updated in place by its methods in the
 * order the C++ class updates them.  Every method is proved to leave the
 * state that the matching function of module CameraSpec computes, so the
 * lemmas proved there hold of the object.
 */
module QhyCamera {
  import opened Sdk
  import opened Text
  import opened CameraTypes
  import opened CameraFormats
  import opened CameraSpec

  class Camera {
    /** The id the camera is opened by (`m_id`). */
    const id: string
    /** The id up to its last dash (`m_model`). */
    const model: string

    var handle: Handle
    var readMode: string
    var readModes: map<string, nat>
    var transferMode: DataTransferMode
    var capabilities: Capabilities
    var bitDepth: int

    /** The fields the operations change, as one value. */
    function State(): CameraState
      reads this
    {
      CameraState(handle, readMode, readModes, transferMode, capabilities, bitDepth)
    }

    /** A camera for the id `name`, not yet connected. */
    constructor (name: string)
      ensures id == name && model == ModelName(name)
      ensures State() == InitialState
    {
      id := name;
      model := ModelName(name);
      handle := NullHandle;
      readMode := "";
      readModes := map[];
      transferMode := SingleImage;
      capabilities := DefaultCapabilities;
      bitDepth := 0;
    }

    /** `isConnected()`. */
    method IsConnected() returns (connected: bool)
      ensures connected <==> Connected(State())
      ensures connected <==> handle != NullHandle
    {
      connected := handle != NullHandle;
    }

    /** `connect()`: the id is passed as a C string, so it is read up to its first NUL. */
    method Connect(sdk: Sdk)
      modifies this
      ensures State() == AfterConnect(sdk, id, old(State()))
    {
      handle := sdk.open(TruncateAtNul(id));
      if handle != NullHandle {
        InitializeReadModes(sdk);
      }
    }

    /** `disconnect()`. */
    method Disconnect(sdk: Sdk)
      modifies this
      ensures State() == AfterDisconnect(sdk, old(State()))
    {
      if handle != NullHandle {
        var result := sdk.close(handle);
        if result == QhyccdSuccess {
          handle := NullHandle;
        }
      }
    }

    /** `initializeReadModes()`: the index loop that fills the read-mode table. */
    method InitializeReadModes(sdk: Sdk)
      modifies this
      ensures State() == AfterInitReadModes(sdk, old(State()))
    {
      var connected := IsConnected();
      if connected && readModes == map[] {
        var reply := sdk.readModeCount(handle);
        if reply.status != QhyccdSuccess {
          Disconnect(sdk);
        } else {
          var count := reply.count as nat;
          ghost var start := handle;
          var index: nat := 0;
          while index < count && handle != NullHandle
            invariant index <= count
            invariant ScanReadModes(sdk, handle, index, count, readModes)
                   == ScanReadModes(sdk, start, 0, count, map[])
            invariant readMode == old(readMode) && transferMode == old(transferMode)
            invariant capabilities == old(capabilities) && bitDepth == old(bitDepth)
            decreases count - index
          {
            var name := sdk.readModeName(handle, index);
            if name.status == QhyccdSuccess {
              readModes := readModes[name.name := index];
            } else {
              Disconnect(sdk);
            }
            index := index + 1;
          }
        }
      }
    }

    /**
     * `setReadAndTransferModes()`, with the deferred call run at once: switch
     * to `newReadMode` and `mode`, reopening first if a read mode was set.
     */
    method SetReadAndTransferModes(sdk: Sdk, newReadMode: string, mode: DataTransferMode := SingleImage)
      modifies this
      ensures State() == AfterSetModes(sdk, id, old(State()), newReadMode, mode)
    {
      var connected := IsConnected();
      if connected && newReadMode != "" && readMode != newReadMode {
        if readMode != "" {
          Disconnect(sdk);
          Connect(sdk);
        }
        ApplyModes(sdk, newReadMode, mode);
      }
    }

    /** The rest of `setReadAndTransferModes()`, after the optional reopening. */
    method ApplyModes(sdk: Sdk, newReadMode: string, mode: DataTransferMode)
      modifies this
      ensures State() == CameraSpec.ApplyModes(sdk, old(State()), newReadMode, mode)
    {
      var connected := IsConnected();
      if connected {
        if sdk.setReadMode(handle, ModeIndex(readModes, newReadMode)) == QhyccdSuccess {
          readMode := newReadMode;
          if sdk.setStreamMode(handle, StreamModeCode(mode)) == QhyccdSuccess {
            if sdk.initCamera(handle) == QhyccdSuccess {
              transferMode := mode;
              ReadCameraDetails(sdk);
            } else {
              Disconnect(sdk);
            }
          } else {
            Disconnect(sdk);
          }
        } else {
          Disconnect(sdk);
        }
      }
    }

    /** `readCameraDetails()`; the chip information it also reads is not modelled. */
    method ReadCameraDetails(sdk: Sdk)
      modifies this
      ensures State() == AfterCameraDetails(sdk, old(State()))
    {
      ReadFirmwareVersion(sdk);
      ReadFpgaVersion(sdk);
      ReadControlValues(sdk);
    }

    /** `readFirmwareVersion()`. */
    method ReadFirmwareVersion(sdk: Sdk)
      modifies this
      ensures State() == AfterFirmwareVersion(sdk, old(State()))
    {
      var connected := IsConnected();
      if connected {
        var reply := sdk.firmwareVersion(handle);
        if reply.status == QhyccdSuccess {
          capabilities := capabilities.(firmwareVersion := FirmwareText(reply.b0, reply.b1));
        }
      }
    }

    /** `readFPGAVersion()`. */
    method ReadFpgaVersion(sdk: Sdk)
      modifies this
      ensures State() == AfterFpgaVersion(sdk, old(State()))
    {
      var connected := IsConnected();
      if connected {
        var reply := sdk.fpgaVersion(handle, 0);
        if reply.status == QhyccdSuccess {
          capabilities := capabilities.(fpga1Version := FpgaText(ReplyVersion(reply)));
          reply := sdk.fpgaVersion(handle, 1);
          if reply.status == QhyccdSuccess {
            capabilities := capabilities.(fpga2Version := FpgaText(ReplyVersion(reply)));
          }
        }
      }
    }

    /** `readControlValues()`, the integer and boolean parts, group after group. */
    method ReadControlValues(sdk: Sdk)
      modifies this
      ensures State() == AfterControlValues(sdk, old(State()))
    {
      ReadColor(sdk);
      ReadOffsetAndGain(sdk);
      ReadBinning(sdk);
      ReadSpeedAndGps(sdk);
      ReadBitDepth(sdk);
      ReadFilterWheel(sdk);
      ReadFeatures(sdk);
      capabilities := capabilities.(maxFrameLength := ToInt32(sdk.memLength(handle)));
    }

    method ReadColor(sdk: Sdk)
      modifies this
      ensures State() == old(State()).(capabilities := ColorStep(sdk, handle, old(capabilities)))
    {
      var color := sdk.controlAvailable(handle, CamColor);
      if color == QhyccdError {
        capabilities := capabilities.(supportsColor := false);
      } else {
        capabilities := capabilities.(supportsColor := true, bayerMatrix := ToInt32(color));
      }
    }

    method ReadOffsetAndGain(sdk: Sdk)
      modifies this
      ensures State() == old(State()).(capabilities := OffsetGainStep(sdk, handle, old(capabilities)))
    {
      capabilities := capabilities.(supportsOffset := Available(sdk, handle, ControlOffset));
      capabilities := capabilities.(supportsGain := Available(sdk, handle, ControlGain));
    }

    method ReadBinning(sdk: Sdk)
      modifies this
      ensures State() == old(State()).(capabilities := BinningStep(sdk, handle, old(capabilities)))
    {
      var binning, supported := AskBinModes(sdk, handle, capabilities.binningInfo, capabilities.supportsBinning);
      capabilities := capabilities.(binningInfo := binning, supportsBinning := supported);
    }

    /**
     * The four binning questions, asked in order, on the binning summary and
     * the binning flag; a later offered mode raises both maxima.
     */
    static method AskBinModes(sdk: Sdk, h: Handle, b: Binning, supported: bool)
      returns (binning: Binning, supportsBinning: bool)
      ensures binning == ProbeBinning(sdk, h, b)
      ensures supportsBinning == (AnyBinMode(sdk, h) || supported)
    {
      binning, supportsBinning := b, supported;
      if Available(sdk, h, CamBin1x1Mode) {
        binning := binning.(binXMaximum := 1, binYMaximum := 1, oneByOne := true);
        supportsBinning := true;
      }
      if Available(sdk, h, CamBin2x2Mode) {
        binning := binning.(binXMaximum := 2, binYMaximum := 2, twoByTwo := true);
        supportsBinning := true;
      }
      if Available(sdk, h, CamBin3x3Mode) {
        binning := binning.(binXMaximum := 3, binYMaximum := 3, threeByThree := true);
        supportsBinning := true;
      }
      if Available(sdk, h, CamBin4x4Mode) {
        binning := binning.(binXMaximum := 4, binYMaximum := 4, fourByFour := true);
        supportsBinning := true;
      }
    }

    method ReadSpeedAndGps(sdk: Sdk)
      modifies this
      ensures State() == old(State()).(capabilities := SpeedStep(sdk, handle, old(capabilities)))
    {
      capabilities := capabilities.(supportsHighSpeed := Available(sdk, handle, ControlSpeed));
      capabilities := capabilities.(supportsUsbTraffic := Available(sdk, handle, ControlUsbTraffic));
      capabilities := capabilities.(supportsGps := Available(sdk, handle, CamGps));
    }

    method ReadBitDepth(sdk: Sdk)
      modifies this
      ensures State() == old(State()).(capabilities := TransferBitStep(sdk, handle, old(capabilities)),
                                       bitDepth := BitDepthStep(sdk, handle, old(bitDepth)))
    {
      if Available(sdk, handle, ControlTransferBit) {
        if Available(sdk, handle, Cam16Bits) {
          capabilities := capabilities.(supports16Bit := true);
          bitDepth := BitDepth16;
        } else {
          capabilities := capabilities.(supports16Bit := false);
          bitDepth := BitDepth8;
        }
      }
    }

    method ReadFilterWheel(sdk: Sdk)
      modifies this
      ensures State() == old(State()).(capabilities := FilterWheelStep(sdk, handle, old(capabilities)))
    {
      if Available(sdk, handle, ControlCfwPort) {
        var filtersSupported := sdk.param(handle, ControlCfwSlotsNum);
        capabilities := capabilities.(filterWheelCapacity := FilterWheelCapacity(filtersSupported));
      }
    }

    method ReadFeatures(sdk: Sdk)
      modifies this
      ensures State() == old(State()).(capabilities := FeatureStep(sdk, handle, old(capabilities)))
    {
      capabilities := capabilities.(
        supportsCooler := Available(sdk, handle, ControlCooler),
        supportsHumidity := Available(sdk, handle, CamHumidity),
        supportsPressure := Available(sdk, handle, CamPressure),
        supportsMechanicalShutter := Available(sdk, handle, CamMechanicalShutter),
        supportsTrigger := Available(sdk, handle, CamTriggerInterface),
        supportsShutterMotorHeating := Available(sdk, handle, CamShutterMotorHeatingInterface),
        supportsTecOverProtection := Available(sdk, handle, CamTecOverProtectInterface),
        supportsSignalClamp := Available(sdk, handle, CamSignalClampInterface),
        supportsFpnCalibration := Available(sdk, handle, CamCalibrateFpnInterface),
        supportsChipTempSensor := Available(sdk, handle, CamChipTemperatureSensorInterface),
        supportsUsbSpeedSetting := Available(sdk, handle, CamUsbReadoutSlowestInterface),
        supportsChipChamberCyclePump := Available(sdk, handle, ControlSensorChamberCyclePump));
    }
  }
}
