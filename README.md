# QHYAstroImager camera core in Dafny

QHYAstroImager is a Qt desktop application that drives QHYCCD astronomy
cameras through the vendor's proprietary driver library. This project models
the part of the application that holds logic of its own:

- the camera object (`QHYCamera`): its connection state, the table of read
  modes it builds in a loop, the guarded sequence that changes the read mode
  and transfer mode, and the capability record it fills from the driver's
  answers. The capability record holds the binning summary, the filter-wheel
  capacity, the bit depth and the firmware and FPGA version texts;
- the driver object (`QHYCCD`): its ready flag and the camera list it builds
  from indexed id queries;
- the main window's reconciliation of its camera tabs with the camera list
  (`MainWindow::updateCameraList`), with the tab widget seen as the sequence
  of its tab texts.

The driver library is never modelled. Every call into it is answered by an
oracle, the datatype `Sdk.Sdk`, which holds one total function per call. Each
operation takes the oracle as a parameter, so every property holds for every
driver that answers the same call with the same arguments the same way.

The modules follow the source files:

| module | file | models |
|---|---|---|
| `Sdk` | `sdk.dfy` | the driver's calls, result codes, handles and control ids; C++ integer casts |
| `Text` | `text.dfy` | the string operations the code uses (`lastIndexOf`, `left`, C-string reads, decimal formatting) and their inverses |
| `CameraTypes` | `camera_types.dfy` | `DataTransferMode`, `Range`, `Binning`, the capability record and their defaults |
| `CameraFormats` | `camera_formats.dfy` | the model name and the firmware and FPGA version texts |
| `CameraSpec` | `camera_spec.dfy` | each camera operation as a function of the old state, and the properties proved about it |
| `QhyCamera` | `camera.dfy` | class `Camera`, whose methods update its fields in place and are proved to follow `CameraSpec` |
| `QhyDriver` | `driver.dfy` | class `Driver` and the camera list |
| `MainWindowTabs` | `tabs.dfy` | class `MainWindow`, the tab search, the add pass and the removal pass |

A C++ null handle is `NullHandle` (0). `QHYCCD_SUCCESS` is 0 and
`QHYCCD_ERROR` is `0xFFFFFFFF`. Apart from what is listed under "Left
out", every effect of these operations on the object's state is modelled.

## Model

| member | source | states |
|---|---|---|
| Sdk.ToInt32 | src/main/cpp/lib/QHYCamera.cpp:342 | `static_cast<int>` of a 32-bit unsigned value is the signed 32-bit number congruent to it modulo 2^32; values below 2^31 are unchanged |
| Sdk.TruncateToInt | src/main/cpp/lib/QHYCamera.cpp:319 | `static_cast<int>` of a double drops the fraction, rounding toward zero for either sign |
| Text.LastIndexOf | src/main/cpp/lib/QHYCamera.cpp:19 | the index of the last occurrence of the character, with no occurrence after it, or -1 exactly when the character is absent |
| Text.Left | src/main/cpp/lib/QHYCamera.cpp:19 | `left(n)` is the first `n` characters, the whole text when `n` is at least its length, and empty when `n` is negative |
| Text.TruncateAtNul | src/main/cpp/lib/QHYCCD.cpp:72 | a buffer read as a C string is its prefix up to the first NUL, holds no NUL, and is the whole buffer when the buffer holds none |
| Text.DecimalRoundTrip | src/main/cpp/lib/QHYCamera.cpp:355-358 | a number's decimal text parses back to the same number |
| Text.SplitJoin | src/main/cpp/lib/QHYCamera.cpp:372-376 | fields joined by a separator that none of them contains split back into the same fields |
| CameraTypes.StreamModeCode | src/main/cpp/lib/QHYCamera.hpp:35-39 | `SingleImage` is passed as stream mode 0 and `LiveView` as 1 |
| CameraTypes.StreamModeFromCode | src/main/cpp/lib/QHYCamera.hpp:35-39 | a number names a transfer mode exactly when it is 0 or 1: 0 names `SingleImage` and 1 names `LiveView` |
| CameraTypes.StreamModeCodeRoundTrip | src/main/cpp/lib/QHYCamera.hpp:35-39 | `SingleImage` is 0 and `LiveView` is 1; each mode's number gives the mode back, and each valid number is the number of its mode |
| CameraFormats.ModelNameBeforeLastDash | src/main/cpp/lib/QHYCamera.cpp:19 | when the id has a dash, the id is the model, a dash, and a rest without dashes; without a dash the model is empty |
| CameraFormats.FirmwareYear | src/main/cpp/lib/QHYCamera.cpp:351-354 | the year digits are the high nibble of byte 0, plus 16 below 10: always 10 to 25, and congruent to the nibble modulo 16 |
| CameraFormats.FirmwareMonth | src/main/cpp/lib/QHYCamera.cpp:357 | the month is the low nibble of byte 0: below 16, and with the high nibble it rebuilds the byte |
| CameraFormats.FirmwareTextFields | src/main/cpp/lib/QHYCamera.cpp:355-358 | the firmware text is "20" followed by exactly three dash-separated fields: year, month and day in decimal |
| CameraFormats.FirmwareTextRoundTrip | src/main/cpp/lib/QHYCamera.cpp:355-358 | the firmware text parses back to the year, month and day taken from the two bytes |
| CameraFormats.FpgaTextRoundTrip | src/main/cpp/lib/QHYCamera.cpp:372-376 | the FPGA text parses back to exactly its four bytes, so different versions get different texts |
| CameraSpec.ClosedHandle | src/main/cpp/lib/QHYCamera.cpp:83-94 | `disconnect()` leaves the handle null or unchanged, and null exactly when it was null or closing succeeded |
| CameraSpec.ConnectOpensThenReadsModes | src/main/cpp/lib/QHYCamera.cpp:74-81 | `connect()` opens the id read up to its first NUL, keeps the handle the driver returns, touches the read-mode table only when that handle is not null and the table was empty, and changes no mode or capability |
| CameraSpec.FirstFailure | src/main/cpp/lib/QHYCamera.cpp:180-189 | the first index whose name query fails, or the count: every index before it succeeds |
| CameraSpec.LastOffer | src/main/cpp/lib/QHYCamera.cpp:184 | the largest index in a range that the driver gives a name to, with no later index in the range giving it that name |
| CameraSpec.LastOfferFrom | src/main/cpp/lib/QHYCamera.cpp:180-190 | the last offer from `lo` is the last offer from `lo + 1` if there is one, and otherwise `lo` itself when `lo` offers the name |
| CameraSpec.ScanReadModesOutcome | src/main/cpp/lib/QHYCamera.cpp:179-191 | the read-mode loop from any index: where it stops, the handle it leaves, and each name mapped to its last offer |
| CameraSpec.ScanReadModesHandle | src/main/cpp/lib/QHYCamera.cpp:180-190 | the read-mode loop leaves the handle it started with, or a null one |
| CameraSpec.InitReadModesHandle | src/main/cpp/lib/QHYCamera.cpp:170-194 | `initializeReadModes()` changes only the handle, which it can only make null, and the table, which it changes only when connected with an empty table |
| CameraSpec.InitReadModesOnce | src/main/cpp/lib/QHYCamera.cpp:172-173 | `initializeReadModes()` does nothing when disconnected or when the table is filled, so a second call changes nothing once the first filled the table or disconnected |
| CameraSpec.InitReadModesCountFailure | src/main/cpp/lib/QHYCamera.cpp:175-176 | when the mode count cannot be read, the only effect is `disconnect()` |
| CameraSpec.InitReadModesTable | src/main/cpp/lib/QHYCamera.cpp:174-191 | every entry is below the count and is an index the driver gave that name; a name is present exactly when some index before the stop offers it, and maps to the last such index; the camera ends disconnected exactly when a name query failed and closing succeeded |
| CameraSpec.FirmwareVersionShowsDate | src/main/cpp/lib/QHYCamera.cpp:345-364 | after a successful read the firmware text shows the year (10 to 25), month and day from the buffer; otherwise nothing changes; nothing but that text ever changes |
| CameraSpec.FpgaVersionFrame | src/main/cpp/lib/QHYCamera.cpp:366-394 | only the two FPGA texts change; nothing changes unless FPGA 0 is read, and the second text changes only when FPGA 1 is read too |
| CameraSpec.FpgaVersionFirstText | src/main/cpp/lib/QHYCamera.cpp:370-377 | after FPGA 0 is read, the first text parses back to exactly its four bytes |
| CameraSpec.FpgaVersionSecondText | src/main/cpp/lib/QHYCamera.cpp:379-386 | after both FPGAs are read, the second text parses back to exactly the four bytes of FPGA 1 |
| CameraSpec.FilterWheelCapacity | src/main/cpp/lib/QHYCamera.cpp:316-320 | the capacity is at most 9, exactly 9 from 9 slots up, and otherwise the slot count truncated toward zero, for negative counts too, so an integral count up to 9 is kept exactly |
| CameraSpec.ProbeBinModeFacts | src/main/cpp/lib/QHYCamera.cpp:261-266 | one binning question sets only its own flag and, when that mode is offered, makes its factor both maxima; otherwise it changes nothing |
| CameraSpec.ProbeBinningSummary | src/main/cpp/lib/QHYCamera.cpp:261-284 | each flag ends set when it was set or its mode is offered; when some mode is offered both maxima equal the largest offered factor; when none is, nothing changes |
| CameraSpec.ProbeBinningFresh | src/main/cpp/lib/QHYCamera.cpp:261-284 | on the default summary each flag is set exactly when its mode is offered, and both maxima are the largest offered factor |
| CameraSpec.BinningStepFresh | src/main/cpp/lib/QHYCamera.cpp:261-284 | on capabilities not yet read, binning is supported exactly when some mode is offered; flags and maxima as above, 1 when nothing is offered; nothing else changes |
| CameraSpec.ControlValuesOnlyCapabilities | src/main/cpp/lib/QHYCamera.cpp:221-343 | `readControlValues()` leaves the handle, the modes and the version texts alone; its binning summary is the four questions asked in order, and binning is supported once any mode is offered |
| CameraSpec.ControlValuesColor | src/main/cpp/lib/QHYCamera.cpp:223-229 | colour is supported exactly when the answer is not the error code, and the Bayer pattern is then that answer cast to `int` |
| CameraSpec.ControlValuesBitDepth | src/main/cpp/lib/QHYCamera.cpp:303-312 | with the transfer bit offered, 16-bit support is the 16-bit answer and the depth is 16 or 8 to match; without it both stay as they were |
| CameraSpec.ControlValuesFilterWheel | src/main/cpp/lib/QHYCamera.cpp:314-321 | the capacity is assigned, from the slot count and at most 9, only when a filter-wheel port is offered |
| CameraSpec.ControlValuesFlags | src/main/cpp/lib/QHYCamera.cpp:231-342 | every other feature flag is exactly the availability of its control, and the frame length is the memory length as a signed 32-bit number |
| CameraSpec.CameraDetailsKeepModes | src/main/cpp/lib/QHYCamera.cpp:196-202 | `readCameraDetails()` leaves the handle, the read mode, the table and the transfer mode as they were |
| CameraSpec.ModeIndex | src/main/cpp/lib/QHYCamera.cpp:139 | the index of a known mode; 0 for a name the table does not hold, as `QMap::value` gives |
| CameraSpec.SetModesNoOp | src/main/cpp/lib/QHYCamera.cpp:132 | nothing happens unless the camera is connected and a non-empty mode different from the current one is asked for |
| CameraSpec.ReopenedOnlyWhenModeSet | src/main/cpp/lib/QHYCamera.cpp:133-137 | the camera is closed and reopened only when a read mode was already set; reopening keeps the filled table and every mode and capability |
| CameraSpec.ApplyModesOutcome | src/main/cpp/lib/QHYCamera.cpp:138-161 | the read mode changes to the requested one exactly when the driver accepts it; the transfer mode changes to the requested one exactly when the stream mode and initialisation succeed too; any failure ends in `disconnect()` and leaves the capabilities and the bit depth as they were; full success keeps the handle and the result is exactly the state after reading the camera details with the new read and transfer modes |
| CameraSpec.SetModesOutcome | src/main/cpp/lib/QHYCamera.cpp:132-163 | the whole change: after the optional reopening a camera that is not connected is left alone; the modes change only to the requested ones, and the transfer mode only together with the read mode on a connected camera |
| QhyCamera.Camera.constructor | src/main/cpp/lib/QHYCamera.cpp:15-57 | a new camera keeps its id, takes the id up to the last dash as its model, and starts disconnected with no read mode, an empty table, single-image transfer, default capabilities and bit depth 0 |
| QhyCamera.Camera.IsConnected | src/main/cpp/lib/QHYCamera.cpp:96-99 | connected exactly when the handle is not null |
| QhyCamera.Camera.Connect | src/main/cpp/lib/QHYCamera.cpp:74-81 | the id is passed as a C string, read up to its first NUL, and the fields end as `AfterConnect` gives |
| QhyCamera.Camera.Disconnect | src/main/cpp/lib/QHYCamera.cpp:83-94 | the fields end as `AfterDisconnect` gives |
| QhyCamera.Camera.InitializeReadModes | src/main/cpp/lib/QHYCamera.cpp:170-194 | the counting loop leaves the fields as `AfterInitReadModes` gives, the function the table lemmas are about |
| QhyCamera.Camera.SetReadAndTransferModes | src/main/cpp/lib/QHYCamera.cpp:129-165 | the body of the deferred call, with `SingleImage` as the default mode, leaves the fields as `AfterSetModes` gives |
| QhyCamera.Camera.ApplyModes | src/main/cpp/lib/QHYCamera.cpp:138-162 | the three driver calls and their failure paths leave the fields as `CameraSpec.ApplyModes` gives |
| QhyCamera.Camera.ReadCameraDetails | src/main/cpp/lib/QHYCamera.cpp:196-202 | firmware, FPGA and control values are read in that order, as `AfterCameraDetails` gives |
| QhyCamera.Camera.ReadFirmwareVersion | src/main/cpp/lib/QHYCamera.cpp:345-364 | the fields end as `AfterFirmwareVersion` gives |
| QhyCamera.Camera.ReadFpgaVersion | src/main/cpp/lib/QHYCamera.cpp:366-394 | the fields end as `AfterFpgaVersion` gives |
| QhyCamera.Camera.ReadControlValues | src/main/cpp/lib/QHYCamera.cpp:221-343 | the statements in order leave the fields as `AfterControlValues` gives |
| QhyCamera.Camera.ReadColor | src/main/cpp/lib/QHYCamera.cpp:223-229 | only the colour flag and, for a colour answer, the Bayer pattern change |
| QhyCamera.Camera.ReadOffsetAndGain | src/main/cpp/lib/QHYCamera.cpp:231-259 | only the offset and gain flags change |
| QhyCamera.Camera.ReadBinning | src/main/cpp/lib/QHYCamera.cpp:261-284 | only the binning summary and the binning flag change |
| QhyCamera.Camera.AskBinModes | src/main/cpp/lib/QHYCamera.cpp:261-284 | the four questions in order give `ProbeBinning`, and the binning flag ends set when it was set or any mode is offered |
| QhyCamera.Camera.ReadSpeedAndGps | src/main/cpp/lib/QHYCamera.cpp:286-301 | only the speed, USB-traffic and GPS flags change |
| QhyCamera.Camera.ReadBitDepth | src/main/cpp/lib/QHYCamera.cpp:303-312 | only 16-bit support and the bit depth change |
| QhyCamera.Camera.ReadFilterWheel | src/main/cpp/lib/QHYCamera.cpp:314-321 | only the filter-wheel capacity changes |
| QhyCamera.Camera.ReadFeatures | src/main/cpp/lib/QHYCamera.cpp:323-340 | only the twelve feature flags change |
| QhyDriver.OkIndices | src/main/cpp/lib/QHYCCD.cpp:69-71 | the indices below the count whose id query succeeds: all of them, only them, in strictly increasing order |
| QhyDriver.CameraIdsFromOkIndices | src/main/cpp/lib/QHYCCD.cpp:63-78 | the list holds one id per successful index, in index order, each read from the buffer up to its NUL; it is never longer than the count |
| QhyDriver.CameraIdsMembership | src/main/cpp/lib/QHYCCD.cpp:69-74 | an id is listed exactly when some index below the count is queried successfully and reads as that id |
| QhyDriver.Driver.constructor | src/main/cpp/lib/QHYCCD.cpp:18-21 | a new driver lists no cameras and is not ready |
| QhyDriver.Driver.Cameras | src/main/cpp/lib/QHYCCD.cpp:28-31 | the stored list, unchanged |
| QhyDriver.Driver.IsReady | src/main/cpp/lib/QHYCCD.cpp:53-56 | the ready flag |
| QhyDriver.Driver.CameraNamed | src/main/cpp/lib/QHYCCD.cpp:33-37 | a fresh, non-null, not yet connected camera for any name, listed or not; its id is the name up to its first NUL, which is the whole of a listed name |
| QhyDriver.Driver.Initialize | src/main/cpp/lib/QHYCCD.cpp:39-51 | the result is the ready flag, which is set exactly when the driver's resources came up; only then is the list rebuilt |
| QhyDriver.Driver.PopulateCameraList | src/main/cpp/lib/QHYCCD.cpp:61-80 | the old list is dropped and the counting loop leaves `CameraIds` of the scanned count |
| MainWindowTabs.AddPassShape | src/main/cpp/gui/ui/MainWindow.cpp:104-115 | the add pass keeps the old tabs in place and gives every listed name a tab; each appended tab is a listed name that had none, in the order the names first occur |
| MainWindowTabs.AddPassNoDuplicates | src/main/cpp/gui/ui/MainWindow.cpp:104-109 | the add pass never creates a duplicate tab, even when a name is listed twice |
| MainWindowTabs.RemovePassKeepsListed | src/main/cpp/gui/ui/MainWindow.cpp:118-126 | the removal pass as written only removes tabs: a listed text keeps every tab it had |
| MainWindowTabs.RemovePassWithoutAdjacentStale | src/main/cpp/gui/ui/MainWindow.cpp:118-126 | the removal pass as written removes all unlisted tabs only when no two of them are neighbours |
| MainWindowTabs.RemovePassSkipsNeighbour | src/main/cpp/gui/ui/MainWindow.cpp:118-126 | with two unlisted tabs side by side, the second survives the pass as written |
| MainWindowTabs.RemoveStaleKeepsExactlyListed | src/main/cpp/gui/ui/MainWindow.cpp:117-126 | the intended removal keeps exactly the listed tabs, each as often as before |
| MainWindowTabs.RemoveStaleNoDuplicates | src/main/cpp/gui/ui/MainWindow.cpp:117-126 | removing tabs cannot create a duplicate |
| MainWindowTabs.UpdateKeepsEveryListedName | src/main/cpp/gui/ui/MainWindow.cpp:102-127 | after the update as written every listed name has a tab, and every tab was a tab or a listed name before |
| MainWindowTabs.MainWindow.constructor | src/main/cpp/gui/ui/MainWindow.cpp:18-32 | the window creates a fresh driver and initialises it; when the driver comes up, its camera list is the scanned ids and the tabs are the result of `updateCameraList()` on that list, which the list's change signal runs; otherwise there are no tabs |
| MainWindowTabs.MainWindow.CameraTabExists | src/main/cpp/gui/ui/MainWindow.cpp:52-62 | the search with early exit finds a tab exactly when some tab's text is the name |
| MainWindowTabs.MainWindow.AddCameraTabs | src/main/cpp/gui/ui/MainWindow.cpp:104-115 | the first loop leaves the tabs as `AddPass` gives, the function `AddPassShape` is about |
| MainWindowTabs.MainWindow.UpdateCameraList | src/main/cpp/gui/ui/MainWindow.cpp:102-127 | the update as written: the add pass, then the removal pass that advances past a removed slot |
| MainWindowTabs.MainWindow.RemoveStaleTabs | src/main/cpp/gui/ui/MainWindow.cpp:118-126 | the removal loop as intended, which stays on an index after a removal, leaves `RemoveStale` of the tabs |
| MainWindowTabs.MainWindow.UpdateCameraListCorrected | src/main/cpp/gui/ui/MainWindow.cpp:102-127 | the update as intended: a tab's text is listed exactly when it is a listed name, and duplicate-free tabs stay duplicate-free |

## Left out

- The driver library itself: its calls are an oracle. The oracle answers the same call with the same arguments the same way, so a driver whose answers change between two identical calls is not modelled.
- Signals (`connectedChanged`, `readModeChanged`, `transferModeChanged`, `readyChanged`, `camerasChanged`), logging and translated messages: they carry no state.
- The `QTimer::singleShot` deferral in `setReadAndTransferModes()`: the body is modelled as if it ran at once. No other operation runs between the request and the body.
- Double-valued data: the offset and gain values, the offset, gain and USB-traffic ranges and their zeroing on error, all chip information (`readChipInfo()` and its raw casts), and the `SetQHYCCDParam` call that sets the transfer bit. The driver's answers do set some of these, such as `offset` and `gain` from `GetQHYCCDParam`, but none of them feeds a modelled field.
- CameraSpec.FilterWheelCapacity: a slot count of NaN or an infinity cannot be written as a Dafny `real`, so those cases are not modelled. A count whose truncation is below -2^31 makes `static_cast<int>` undefined; the model still truncates it toward zero, giving a number outside the `int` range.
- Text encodings: camera ids and read-mode names are sequences of characters. The Latin-1 and UTF-8 decoding Qt applies is not modelled. For a read-mode name, whether Qt stops at the first NUL depends on the Qt version; the model takes the name as the driver's answer gives it.
- `QHYCamera::readModes()` (the keys of the table), `id()`, `model()`, `readMode()`, `transferMode()`, `capabilities()` and `operator QString()`: these are plain getters, and the model reads the fields directly.
- The destructor of `QHYCamera`, which disconnects an open camera, and the destructors of the other classes.
- The header `QHYCamera.hpp` declares fields (`id`, `model`, `m_name` and loose capability fields) that the source file does not use. The model follows the source file: `m_id`, `m_model` and the capability record `m_capabilities`.
- `BitDepth8` and `BitDepth16` are taken to be 8 and 16; the header that defines them is not part of this model.
- CameraTypes.DefaultCapabilities is an assumption: `QHYCamera.hpp` as it stands declares no capability record, so the defaults (all flags false, numbers 0, texts empty, default binning) are chosen as the value-initialised record, not read off a declaration.
- `QHYCCD::m_ready` has no initial value in the C++ constructor; the model's constructor starts it at false.
- The tab widget is modelled as the sequence of its tab texts. That it starts without tabs is an assumption: the widget comes from the window's `.ui` file, which is not part of this model. The `CameraWidget` each tab holds, its deletion and the status-bar message are not modelled. The camera created for a new tab is not kept. The `nullptr` branch after `cameraNamed()` cannot be taken, because `cameraNamed()` always returns a new camera.
- MainWindowTabs.MainWindow.constructor: the signal connection is modelled by its effect. `updateCameraList()` is called directly, once, for the list `initialize()` built. The UI setup, settings, menus and status-bar messages are not modelled.
- GUI-only files (camera widget, camera information dialog, about box, `main.cpp`) and the window's menu and settings code.

## Findings

| source | as written | input that shows it | evidently intended | confidence | as-written member | corrected member |
|---|---|---|---|---|---|---|
| src/main/cpp/gui/ui/MainWindow.cpp:118-126 | after `removeTab(tabIndex)` the loop still increments `tabIndex`, so the tab that moved into the freed slot is never examined | tabs `["a", "b"]` and an empty camera list: tab `"a"` is removed, then index 1 is past the end, and `"b"` stays | every tab whose text is not in the camera list is removed (stay on the same index after a removal) | high, not executed | MainWindowTabs.RemovePassSkipsNeighbour | MainWindowTabs.MainWindow.UpdateCameraListCorrected |
