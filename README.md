# LeddarSDK: the M16 sensor and the LJR record reader, in Dafny

This project models two parts of the LeddarSDK and proves properties of them.

The first part is the **M16 sensor** (`LdSensorM16`). It covers:
- how the sensor turns the constants the device reports into property limits, scales and enumerations (`UpdateConstants`, `GetConstants`, `GetIntensityMappings`);
- how it cleans a property category after a configuration, calibration or constant exchange;
- how it writes properties with retries (`SetProperties`);
- how it sends, lists and removes licenses;
- how the data channel fills and publishes the double-buffered echo store (`GetData`, `ProcessStates`, `ProcessEchoes`);
- which resets it accepts;
- how a firmware update picks its image and cuts it into blocks;
- how it checks the firmware's element listing.

The second part is the **LJR record reader** (`LdLjrRecordReader`). It replays a recorded session line by line into a sensor. It covers:
- the header checks;
- the full properties line, read twice around `UpdateConstants`;
- the sizing of the echo buffers;
- the frame lines with their `states`, `echoes_prop` and `echoes` sections;
- the line cursor behind `ReadNext`, `MoveTo`, `ReadPrevious` and `GetCurrentPosition`.

## How the model is built

Values are datatypes:
- a property is a `Property`;
- a property table is a `PropMap`;
- a JSON document is a `JsonValue`;
- a record line is a `Line`, its text plus its parse.

Every C++ exception becomes an `Error` value carried by a `Result` or an `Outcome`. That includes `std::runtime_error`, `std::out_of_range`, `std::logic_error`, `std::length_error`, `std::invalid_argument` and `LtComException` with its disconnect flag.

Objects the source updates in place are classes:
- `Properties.PropertiesContainer`;
- `Results.ResultEchoes`, whose two echo buffers are `array`s;
- `Results.ResultStates`;
- `SensorM16.Sensor`;
- `LjrReader.LjrRecordReader`.

Each method of these classes is proved against a specification function of the old state, and the properties of that function are proved as lemmas:
- `M16Constants.UpdateConstants`;
- `M16Startup.ConstantsGot`;
- `M16Data.StatesProcessed`;
- `FrameDecode.DecodeFrame`;
- `LjrRecord.NextRead`, `LjrRecord.MovedTo` and `LjrRecord.SensorCreated`.

The loops of the source are loops in these methods:
- the property-array loops;
- the echo loop of `ReadFrame`;
- the license-key conversion loop;
- the intensity loops;
- the firmware block loop;
- the skipping loop of `MoveTo`.

`UpdateConstants` is modelled twice:
- `M16Constants.UpdateConstants` reads every input first, then writes;
- `M16ConstantsInOrder.UpdateConstantsInOrder` follows the source's statement order.

`M16ConstantsInOrder.InOrderIsUpdateConstants` proves that the two give the same properties, and the same first error.

What a call receives from the device is a parameter of the method:
- answers, element maps, the USB identification, LED powers and the data-channel message;
- how the read of each modelled configuration-channel answer went, since `ReadAnswer` throws `LtComException` when the transport fails. It is an `Outcome` beside the reply, or a `Result` holding either the reply or the error. This covers:
  - GetConfig, GetCalib and SetConfig;
  - the listing, device, constants and LED-power requests of GetConstants (`M16Startup.Replies`);
  - the license read-back and GetLicenses;
  - the firmware update (`M16Firmware.UpdateAnswers`);
  - the CPU-load request and the data mask;
- for SetProperties, the outcome of each `ReadAnswer` attempt, as a function `(device index, attempt) -> Outcome`;
- the cancel flag, as a function of the block index.

The record file is its sequence of lines.

## Model

| member | source | states |
|---|---|---|
| PropertyDecode.DecodeElement | src/Leddar/LdLjrRecordReader.cpp:445-631 | An element read with its property type's accessor holds a value of that type. Written back, it gives the same JSON, except that an integer read into a float property becomes that real. An enum element is accepted exactly when its value is registered; otherwise the call fails with ENUM_VALUE_ERROR. |
| PropertyDecode.ElementRoundTrip | src/Leddar/LdLjrRecordReader.cpp:445-631 | Every value a property can hold survives being written into a record line and read back. For an enum this means a registered value. |
| PropertyDecode.DecodedEnumsRegistered | src/Leddar/LdLjrRecordReader.cpp:483-511 | Every value an enum property holds after a properties entry is decoded is one of its registered values. |
| PropertyDecode.DecodeEach | src/Leddar/LdLjrRecordReader.cpp:450-453 | An array `val` decodes exactly when every element does. Element j is element j's decoding. |
| PropertyDecode.DecodeValues | src/Leddar/LdLjrRecordReader.cpp:446-458 | A scalar `val` gives one element and an array one element per entry. The decode fails exactly when some entry fails. |
| PropertyDecode.SignedMismatch | src/Leddar/LdLjrRecordReader.cpp:539-544 | Reports a mismatch only for an integer property whose entry has a "signed" flag that disagrees with the property. |
| PropertyDecode.DeclareEnum | src/Leddar/LdLjrRecordReader.cpp:485-493 | The "enum" members are registered as (value, name) pairs. The property's values and kind are unchanged. |
| PropertyDecode.DecodeLimits | src/Leddar/LdLjrRecordReader.cpp:515-573 | Limits come only from a "limits" array of at least two elements. A float property gets real limits. An integer property gets its first two integers. |
| PropertyDecode.Declare | src/Leddar/LdLjrRecordReader.cpp:483-573 | Enum pairs and limits change neither the kind, the values nor the modified flag. |
| PropertyDecode.DecodeProperty | src/Leddar/LdLjrRecordReader.cpp:441-635 | An applied entry keeps the property's kind. An unsupported type is "Unsupported property type". An integer entry whose "signed" flag disagrees with the property is "Signed / unsigned property mismatch", and no entry with such a mismatch is applied. |
| PropertyDecode.DecodeEntry | src/Leddar/LdLjrRecordReader.cpp:436-441 | One entry changes only the property it addresses and keeps the map's shape. |
| PropertyDecode.DecodeEntries | src/Leddar/LdLjrRecordReader.cpp:436-637 | The whole array keeps the map's shape. |
| PropertyDecode.DecodePropertiesLine | src/Leddar/LdLjrRecordReader.cpp:386-432 | An unparsable line is "Error parsing properties". A line without a "prop" array is "Record line is not a properties line.". The result keeps the shape. |
| PropertyDecode.DecodeStatesSection | src/Leddar/LdLjrRecordReader.cpp:399-408 | A frame without a "states" array is "Could not read states properties.". The result keeps the shape. |
| PropertyDecode.DecodeEchoPropertiesSection | src/Leddar/LdLjrRecordReader.cpp:652-828 | A frame without an "echoes_prop" array is "Could not read echoes properties.". The result keeps the shape. |
| PropertyDecode.EntriesFailureSticks | src/Leddar/LdLjrRecordReader.cpp:436-637 | Once a prefix of the array fails, the whole array fails with that error. |
| PropertyDecode.EachFailureSticks | src/Leddar/LdLjrRecordReader.cpp:450-453 | Once a prefix of a `val` array fails, the whole array fails with that error. |
| PropertyDecode.EnumFailureSticks | src/Leddar/LdLjrRecordReader.cpp:489-492 | Once a prefix of the "enum" members fails, registering all of them fails with that error. |
| PropertyDecode.SkippedEntriesChangeNothing | src/Leddar/LdLjrRecordReader.cpp:438-441 | Entries lacking "id" or "val", or naming an unknown id, leave the map exactly as it was. |
| PropertyDecode.EntriesFrame | src/Leddar/LdLjrRecordReader.cpp:436-637 | A property no entry addresses keeps everything it had. |
| PropertyDecode.DecodedProperty | src/Leddar/LdLjrRecordReader.cpp:446-631 | The addressed property ends with the values `val` gives: one per array element, or one for a scalar. A full decode leaves it clean. |
| PropertyDecode.EntryValuesDetermined | src/Leddar/LdLjrRecordReader.cpp:446-631 | An entry decides the values of its property whatever the property held before. |
| PropertyDecode.LineValuesWin | src/Leddar/LdLjrRecordReader.cpp:436-637 | Two maps run through the same array agree on the values of every property it addresses. |
| PropertyDecode.FullDecodeEndsClean | src/Leddar/LdLjrRecordReader.cpp:461-630 | A full decode leaves every addressed property clean. |
| FrameDecode.Trunc | src/Leddar/LdLjrRecordReader.cpp:894-895 | `static_cast` of a double truncates toward zero, for both signs. |
| FrameDecode.DecodeEcho | src/Leddar/LdLjrRecordReader.cpp:890-901 | A decoded echo comes from an array of at least 8 elements. Its base is 0, its flag fits 16 bits and its channel fits 32 bits. |
| FrameDecode.EchoRoundTrip | src/Leddar/LdLjrRecordReader.cpp:892-901 | Every echo the buffer can hold is read back exactly from what a recorder writes for it. |
| FrameDecode.ScaledBack | src/Leddar/LdLjrRecordReader.cpp:894-895 | A quantity divided by its scale is re-quantised to itself. |
| FrameDecode.DecodeEchoes | src/Leddar/LdLjrRecordReader.cpp:890-902 | The "echoes" array decodes exactly when every element does, element by element. |
| FrameDecode.EchoesFailureSticks | src/Leddar/LdLjrRecordReader.cpp:890-902 | The first bad echo's error is the array's error. |
| FrameDecode.WrittenAll | src/Leddar/LdLjrRecordReader.cpp:901 | The first slots of the side being filled hold exactly the decoded echoes. The buffer length is unchanged. |
| FrameDecode.DecodeFrame | src/Leddar/LdLjrRecordReader.cpp:840-861 | A parsed line without a "frame" object is "Record line is not a frame.". |
| FrameDecode.FrameSections | src/Leddar/LdLjrRecordReader.cpp:862-908 | Without an "echoes" member the echo store is unchanged. |
| FrameDecode.PropertySections | src/Leddar/LdLjrRecordReader.cpp:862-873 | The "states" and "echoes_prop" sections never touch the echo store. |
| FrameDecode.EchoesSection | src/Leddar/LdLjrRecordReader.cpp:875-908 | After "echoes", readers see exactly the decoded echoes, stamped with the frame's timestamp when it has one. The side they saw before is filled next. One completion is signalled. |
| FrameDecode.NoEchoesNoSwap | src/Leddar/LdLjrRecordReader.cpp:875 | A frame without "echoes" neither swaps nor signals the echo store. |
| Results.Swapped | src/Leddar/LdLjrRecordReader.cpp:906 | Swap exchanges the side readers see with the side being filled. |
| Results.SwapInvolution | src/Leddar/LdLjrRecordReader.cpp:906 | Swapping twice restores the roles. |
| Results.Counted | src/Leddar/LdLjrRecordReader.cpp:884 | An echo count is accepted exactly when it fits the buffer (the refusal is assumed, see Left out). The slots are unchanged. |
| Results.Initialised | src/Leddar/LdLjrRecordReader.cpp:309 | Init gives both sides the requested capacity and an echo count of 0. |
| Results.ResultEchoes.Init | src/Leddar/LdSensorM16.cpp:419 | Init leaves the store as Initialised says, with two fresh buffers. |
| Results.ResultEchoes.Swap | src/Leddar/LdLjrRecordReader.cpp:906 | The store afterwards is Swapped of the old store. |
| Results.ResultEchoes.SetEchoCount | src/Leddar/LdLjrRecordReader.cpp:884 | The count changes exactly when Counted accepts it. Otherwise the store is unchanged and the call fails (an assumed refusal, see Left out). |
| Results.ResultEchoes.WriteEcho | src/Leddar/LdLjrRecordReader.cpp:901 | Only slot i of the side being filled changes. |
| Results.Zeroes | src/Leddar/LdLjrRecordReader.cpp:309 | A new buffer of n echoes holds only zero echoes. |
| Results.ResultEchoes.SetTimestamp | src/Leddar/LdLjrRecordReader.cpp:877-878 | The store afterwards is Stamped with the timestamp. |
| Results.ResultEchoes.UpdateFinished | src/Leddar/LdLjrRecordReader.cpp:907 | The store afterwards has one more completion signalled. |
| Results.ResultStates.SetTimestamp | src/Leddar/LdSensorM16.cpp:908-911 | Only the state timestamp changes. |
| Results.ResultStates.UpdateFinished | src/Leddar/LdSensorM16.cpp:924 | Only the completion count grows, by one. |
| Results.ResultStates.Init | src/Leddar/LdLjrRecordReader.cpp:333 | Only the temperature and CPU-load scales change. |
| M16Layout.SensorTableLayout | src/Leddar/LdSensorM16.cpp:92-330 | The table the M16 sensor starts from holds every property the modelled code looks up. |
| M16Layout.TablesIndexed | src/Leddar/LdSensorM16.cpp:92-330 | Both tables are keyed by their ids, and their device-id lookups point at the property with that device id. |
| M16Layout.LayoutShape | src/Leddar/LdSensorM16.cpp:92-330 | Whether a map has the sensor layout depends only on its keys. |
| M16Constants.SegmentMask | src/Leddar/LdSensorM16.cpp:691 | The segment-enable limit has one bit per pair of horizontal segments. |
| M16Constants.HSegments | src/Leddar/LdSensorM16.cpp:683-689 | A device that reports no horizontal count gets one value, 16. A reported count is kept. |
| M16Constants.LimitPair | src/Leddar/LdSensorM16.cpp:697-709 | A limits property with two integers gives them. One with any other count gives the defaults. Two values that are not both integers cannot be read. |
| M16Constants.RealLimitPair | src/Leddar/LdSensorM16.cpp:748-760 | The same rule for a float limits property and real defaults. |
| M16Constants.ExponentPairs | src/Leddar/LdSensorM16.cpp:724-727 | The exponent loop changes only the enumeration pairs of the property. |
| M16Constants.UpdateConstants | src/Leddar/LdSensorM16.cpp:673-829 | Passes exactly when every value it reads can be read. The result keeps the keys, kinds and sensor layout. |
| M16Constants.ReadAgain | src/Leddar/LdSensorM16.cpp:673-829 | UpdateConstants' own result can be read again and yields the same inputs. |
| M16Constants.ThresholdReadError | src/Leddar/LdSensorM16.cpp:678-680 | An unreadable filtered-amplitude scale makes UpdateConstants fail with that read's error. |
| M16Constants.SegmentsReadError | src/Leddar/LdSensorM16.cpp:683-693 | An unreadable horizontal count fails with its read error. A vertical-segment property without elements fails with out_of_range. |
| M16Constants.AcquisitionReadError | src/Leddar/LdSensorM16.cpp:697-745 | The first unreadable limits pair among base point count, accumulation and oversampling gives the error. |
| M16Constants.DelaysReadError | src/Leddar/LdSensorM16.cpp:748-779 | The first unreadable pair among threshold and change-delay limits gives the error, then an unreadable CAN limit. |
| M16Constants.DistanceReadError | src/Leddar/LdSensorM16.cpp:821-828 | An unreadable distance scale gives its read error. |
| M16Constants.StagedEchoCount | src/Leddar/LdSensorM16.cpp:675-676 | Pinning the echo count, then marking it clean, is the first stage of UpdateConstants. |
| M16Constants.StagedThreshold | src/Leddar/LdSensorM16.cpp:678-680 | Scaling the threshold offset and its limits by the filtered-amplitude scale is the next stage. |
| M16Constants.StagedSegments | src/Leddar/LdSensorM16.cpp:683-693 | Defaulting the horizontal count, limiting the segment mask and pinning one vertical segment are the next stages. |
| M16Constants.StagedBasePointCount | src/Leddar/LdSensorM16.cpp:697-709 | Limiting the base point count by its limits pair is the next stage. |
| M16Constants.StagedAccumulation | src/Leddar/LdSensorM16.cpp:712-727 | Registering the accumulation exponents, read as `size_t`, is the next stage. |
| M16Constants.StagedOversampling | src/Leddar/LdSensorM16.cpp:730-745 | Registering the oversampling exponents, read as `size_t`, is the next stage. |
| M16Constants.StagedThresholdLimits | src/Leddar/LdSensorM16.cpp:748-760 | Limiting the threshold offset by the real limits pair is the next stage. |
| M16Constants.StagedChangeDelay | src/Leddar/LdSensorM16.cpp:763-775 | Limiting the change delay is the next stage. |
| M16Constants.StagedCanLimit | src/Leddar/LdSensorM16.cpp:777-779 | Limiting the CAN echo count, only when the device reports a limit, is the next stage. |
| M16Constants.StagedDetectionLength | src/Leddar/LdSensorM16.cpp:821-823 | Scaling the detection length by the distance scale as `uint32_t` is the next stage. |
| M16Constants.StagedThresholdDistances | src/Leddar/LdSensorM16.cpp:825 | Scaling the static threshold distances is the next stage. |
| M16Constants.StagedThresholdAmplitudes | src/Leddar/LdSensorM16.cpp:826-828 | Scaling the static threshold amplitudes is the last stage. |
| M16Constants.ExponentPairsContent | src/Leddar/LdSensorM16.cpp:724-727 | After the exponent loop, every exponent of the range is registered. Existing pairs stay. A new exponent i is labelled with 2^i in decimal. |
| M16Constants.ExponentPairsSaturated | src/Leddar/LdSensorM16.cpp:742-745 | Running the loop over an already registered range changes nothing. |
| M16Constants.UpdateConstantsNeedsEchoCount | src/Leddar/LdSensorM16.cpp:675-676 | Without an echo-count element, the first ForceValue fails with out_of_range. |
| M16Constants.UpdateConstantsSegments | src/Leddar/LdSensorM16.cpp:675-693 | The echo count is pinned to the M16 maximum and left clean. A device without a horizontal count gets 16. The segment mask is `(1 << (h/2)) - 1`. There is one vertical segment. |
| M16Constants.UpdateConstantsLimits | src/Leddar/LdSensorM16.cpp:697-775 | The base point count and change delay limits come from the device's two-value limits property. Otherwise they are 2..64 and 0..32767. |
| M16Constants.UpdateConstantsThresholdAndCanLimits | src/Leddar/LdSensorM16.cpp:748-779 | The threshold offset limits come from SENSIVITY_LIMITS, or are -5..100. The CAN echo count is limited to [0, device limit] when the device reports one, and is left alone otherwise. |
| M16Constants.UpdateConstantsExponents | src/Leddar/LdSensorM16.cpp:712-745 | The accumulation and oversampling enumerations gain every exponent of their limits, read as `size_t`, each labelled with its power of two. |
| M16Constants.UpdateConstantsAmplitudeScales | src/Leddar/LdSensorM16.cpp:678-680 | The threshold offset, its limits and the static threshold amplitudes take the filtered-amplitude scale as `uint32_t`. |
| M16Constants.UpdateConstantsDistanceScales | src/Leddar/LdSensorM16.cpp:821-825 | The detection length and the static threshold distances take the distance scale as `uint32_t`. |
| M16Constants.UpdateConstantsFrame | src/Leddar/LdSensorM16.cpp:673-829 | No property outside those UpdateConstants names changes. Only three of them change their values. |
| M16Constants.UpdateConstantsIdempotent | src/Leddar/LdSensorM16.cpp:673-829 | Applying UpdateConstants to its own result changes nothing, which is why the replay may call it again. |
| M16Constants.IdentificationNotConstant | src/Leddar/LdSensorM16.cpp:673-829 | The identification and start-trace properties are not among those UpdateConstants writes. |
| M16ConstantsInOrder.InOrderIsUpdateConstants | src/Leddar/LdSensorM16.cpp:673-829 | The statements in source order compute the read-first specification: the same properties, or the same first error. |
| M16ConstantsInOrder.PinEchoCount | src/Leddar/LdSensorM16.cpp:675-676 | The first statements keep the sensor layout. |
| M16ConstantsInOrder.ScaleThreshold | src/Leddar/LdSensorM16.cpp:678-680 | Scaling the threshold keeps the sensor layout. |
| M16ConstantsInOrder.SetSegments | src/Leddar/LdSensorM16.cpp:683-693 | The segment statements keep the sensor layout. |
| M16ConstantsInOrder.SetAcquisitionLimits | src/Leddar/LdSensorM16.cpp:697-745 | The acquisition statements keep the sensor layout. |
| M16ConstantsInOrder.SetDelayLimits | src/Leddar/LdSensorM16.cpp:748-779 | The threshold, delay and CAN limits keep the sensor layout. |
| M16ConstantsInOrder.SetDistanceScales | src/Leddar/LdSensorM16.cpp:821-828 | The distance scales keep the sensor layout. |
| M16ConstantsInOrder.EchoCountInOrder | src/Leddar/LdSensorM16.cpp:675-676 | With an echo-count element, the first statements always pass, leave the later reads intact, and reach stage 1. |
| M16ConstantsInOrder.ThresholdInOrder | src/Leddar/LdSensorM16.cpp:678-680 | The threshold statements pass exactly when their read does. Their failure is UpdateConstants' error. Otherwise they reach stage 3. |
| M16ConstantsInOrder.SegmentsInOrder | src/Leddar/LdSensorM16.cpp:683-693 | The segment statements pass exactly when their reads do. Their failure is UpdateConstants' error. Otherwise they reach stage 6. |
| M16ConstantsInOrder.AcquisitionInOrder | src/Leddar/LdSensorM16.cpp:697-745 | The acquisition statements pass exactly when their reads do. Their failure is UpdateConstants' error. Otherwise they reach stage 9. |
| M16ConstantsInOrder.DelaysInOrder | src/Leddar/LdSensorM16.cpp:748-779 | The limits statements pass exactly when their reads do. Their failure is UpdateConstants' error. Otherwise they reach stage 12. |
| M16ConstantsInOrder.DistanceInOrder | src/Leddar/LdSensorM16.cpp:821-828 | The last statements end with UpdateConstants' result. |
| SensorM16.Sensor.UpdateConstants | src/Leddar/LdSensorM16.cpp:673-829 | It passes exactly when every read succeeds. It then leaves the properties UpdateConstants computes. Otherwise it fails with the first failing read's error. |
| SensorM16.Sensor.PinEchoCount | src/Leddar/LdSensorM16.cpp:675-676 | The properties follow the in-order step PinEchoCount. |
| SensorM16.Sensor.ScaleThreshold | src/Leddar/LdSensorM16.cpp:678-680 | The properties follow the in-order step ScaleThreshold. |
| SensorM16.Sensor.SetSegments | src/Leddar/LdSensorM16.cpp:683-693 | The properties follow the in-order step SetSegments. |
| SensorM16.Sensor.DefaultHSegment | src/Leddar/LdSensorM16.cpp:685-689 | Only the horizontal count changes, into HSegments of it. |
| SensorM16.Sensor.SetAcquisitionLimits | src/Leddar/LdSensorM16.cpp:697-745 | The properties follow the in-order step SetAcquisitionLimits. |
| SensorM16.Sensor.SetDelayLimits | src/Leddar/LdSensorM16.cpp:748-779 | The properties follow the in-order step SetDelayLimits. |
| SensorM16.Sensor.SetDistanceScales | src/Leddar/LdSensorM16.cpp:821-828 | The properties follow the in-order step SetDistanceScales. |
| SensorM16.Sensor.AddExponentPairs | src/Leddar/LdSensorM16.cpp:724-727 | The loop leaves exactly ExponentPairs of the property; the rest is unchanged. |
| SensorM16.Sensor.CleanCategory | src/Leddar/LdSensorM16.cpp:426-444 | The loop leaves exactly the Cleaned map. |
| Properties.CleanedChangesModifiedOnly | src/Leddar/LdSensorM16.cpp:426-444 | Cleaning a category changes exactly its modified properties, only in their flag, and leaves none modified. Cleaning again changes nothing. |
| Properties.Answered | src/Leddar/LdSensorM16.cpp:371 | After ReadElementToProperties, the properties the answer carries take its values and all others are unchanged. |
| Properties.WithEnumPair | src/Leddar/LdSensorM16.cpp:726 | Adding a pair keeps the values. A new value is appended with its text. A value already registered leaves the property unchanged. |
| Properties.WithValue | src/Leddar/LdSensorM16.cpp:675 | ForceValue sets element j, marks the property modified and leaves the other elements. |
| Properties.WithCount | src/Leddar/LdSensorM16.cpp:687 | SetCount gives the property n elements and keeps its kind and flag. |
| Properties.IntAt | src/Leddar/LdSensorM16.cpp:691 | Element j can be read as an integer exactly when it exists and is one. |
| Properties.RealAt | src/Leddar/LdLjrRecordReader.cpp:515-517 | Element j can be read as a real exactly when it exists and is one. |
| Properties.TextAt | src/Leddar/LdSensorM16.cpp:1480 | Element j can be read as text exactly when it exists and is text. |
| Properties.Cleaned | src/Leddar/LdSensorM16.cpp:426-444 | Cleaning keeps the keys. |
| SensorM16.Sensor.GetConfig | src/Leddar/LdSensorM16.cpp:455-471 | A failed answer changes nothing. Otherwise the reply is kept with the configuration category clean. |
| SensorM16.Sensor.GetCalib | src/Leddar/LdSensorM16.cpp:548-565 | The same, for the calibration category. |
| SensorM16.Sensor.SetConfig | src/Leddar/LdSensorM16.cpp:481-507 | The request holds exactly the modified configuration properties. Once answered, they are clean. A failed answer leaves them modified. |
| SensorM16.Sensor.GetListing | src/Leddar/LdSensorM16.cpp:576-609 | A failed read of the answer is its error. Otherwise it passes exactly when the listing holds the data-level element, and fails with the incompatible-firmware error when it does not. |
| M16Intensity.PowerOf | src/Leddar/LdSensorM16.cpp:634-647 | The power kept for a setting fits in a `uint8_t`. |
| M16Intensity.IntensityPairs | src/Leddar/LdSensorM16.cpp:651-662 | The downward loop only appends enum pairs. Values and kind are unchanged. |
| M16Intensity.IntensityPairsAdded | src/Leddar/LdSensorM16.cpp:651-662 | Setting i gets an entry exactly when its power differs from the setting above it (the top one is compared with the starting value 110, so it gets an entry exactly when its power is not 110). A new entry's text is its power in decimal. |
| SensorM16.Sensor.GetIntensityMappings | src/Leddar/LdSensorM16.cpp:619-663 | When the answer for some setting cannot be read, the first such error is returned and the properties are unchanged. Otherwise only the LED intensity enum changes, into IntensityPairs of the gathered powers. |
| SensorM16.Sensor.GatherPowers | src/Leddar/LdSensorM16.cpp:622-648 | The first loop fails exactly when PowersRead does, with the same error. Otherwise it yields the power of every setting. |
| M16Intensity.PowersRead | src/Leddar/LdSensorM16.cpp:626-634 | Succeeds exactly when every setting's answer was read, and then gives each answer's elements in order. Otherwise the error is that of a failed answer all of whose predecessors were read. |
| M16Intensity.Mapping | src/Leddar/LdSensorM16.cpp:626-648 | One power per intensity setting, each PowerOf its answer. |
| SensorM16.Sensor.AddIntensityPairs | src/Leddar/LdSensorM16.cpp:651-662 | Only the LED intensity enum changes, into IntensityPairs of the mapping. |
| M16Startup.Identified | src/Leddar/LdSensorM16.cpp:357-364 | Passes exactly when the serial number and device type both have an element. Element 0 of each then holds the USB value. Every other property is unchanged. |
| M16Startup.Prepared | src/Leddar/LdSensorM16.cpp:366-417 | A failed read of the device answer, and then of the constants answer, is the error. Passes exactly when both answers were read, both scales can be read once the answers are applied, and every LED-power answer was read. The scales then fit in `uint32_t`. The serial number and start-trace limits are the answered ones. The layout is kept. |
| M16Startup.Settled | src/Leddar/LdSensorM16.cpp:418-444 | After UpdateConstants, the start-trace limits and the cleaning, no constant or information property is modified. The start-trace limits are the first two values of START_TRACE_LIMITS. The serial number keeps its values. |
| M16Startup.CleanedBoth | src/Leddar/LdSensorM16.cpp:426-444 | Cleaning constants, then information, leaves neither category modified. Every value and every limit is unchanged. |
| M16Startup.ConstantsGotPromises | src/Leddar/LdSensorM16.cpp:354-445 | Once the USB values are in, a failed read of the listing is its error, and a firmware that does not list the data level is refused. On success, every request was answered and no constant or information property is modified. The start-trace limits are the two answered values. The serial number is the constants answer's, else the device answer's, else the USB one. |
| M16Startup.TemperatureScaled | src/Leddar/LdSensorM16.cpp:404-406 | The system temperature takes the distance scale and the predicted temperature takes 65536. Nothing else changes. |
| M16Startup.ScalesOf | src/Leddar/LdSensorM16.cpp:401-402 | Both scales are read exactly when both are integers, and fit in `uint32_t`. |
| M16Startup.DetectionScaled | src/Leddar/LdSensorM16.cpp:410-415 | Scaling the detection length keeps the keys and the layout. |
| M16Startup.WithIntensities | src/Leddar/LdSensorM16.cpp:417 | Filling the intensity enum keeps the keys and the layout. |
| M16Startup.StartTraceLimited | src/Leddar/LdSensorM16.cpp:421-424 | Passes exactly when START_TRACE_LIMITS has two integers. START_TRACE is then limited by them and no value changes. |
| M16Startup.RepliedValues | src/Leddar/LdSensorM16.cpp:368-399 | A property's values after both answers: the constants answer's when it carried the property, else the device answer's, else its own. |
| M16Startup.Replied | src/Leddar/LdSensorM16.cpp:368-399 | Reading the device answer and then the constants answer keeps the table's shape. |
| M16Startup.Started | src/Leddar/LdSensorM16.cpp:366-444 | Once the USB values are in, a failed read of the listing is its error, and an unlisted data level is refused. On success, both answers were read, constants and information are clean, the start trace is limited by the answered limits, and the serial number keeps the answered value. |
| M16Startup.ConstantsGotStages | src/Leddar/LdSensorM16.cpp:354-445 | GetConstants fails with Identified's error, or is Started on its result. |
| M16Startup.StartedStages | src/Leddar/LdSensorM16.cpp:366-444 | Started fails with Prepared's error, or settles Prepared's result. |
| M16Startup.SettledStages | src/Leddar/LdSensorM16.cpp:418-444 | Settled is UpdateConstants, then the start-trace limits, then both cleanings. The first failure wins. |
| M16Startup.SettledFrame | src/Leddar/LdSensorM16.cpp:418-444 | Whatever UpdateConstants leaves of the properties it does not write, the settled table keeps the start-trace and serial facts. |
| SensorM16.Sensor.GetConstants | src/Leddar/LdSensorM16.cpp:354-445 | Passes exactly when ConstantsGot succeeds, leaving its properties, the temperature scales, and an echo store sized for every echo of every channel. Otherwise it fails with ConstantsGot's error. |
| SensorM16.Sensor.Identify | src/Leddar/LdSensorM16.cpp:357-364 | The properties follow Identified. |
| SensorM16.Sensor.Prepare | src/Leddar/LdSensorM16.cpp:366-417 | Passes exactly when Prepared does, leaving its properties and scales. A failed read of the device answer leaves the properties unchanged. A failed read of the constants answer leaves only the device answer applied. |
| SensorM16.Sensor.SetScales | src/Leddar/LdSensorM16.cpp:404-406 | The state properties take TemperatureScaled. The echo store is Initialised for every echo of every channel. |
| SensorM16.Sensor.LimitStartTrace | src/Leddar/LdSensorM16.cpp:421-424 | The properties follow StartTraceLimited. |
| SensorM16.Sensor.Finish | src/Leddar/LdSensorM16.cpp:421-444 | Passes exactly when StartTraceLimited does. It then leaves both categories cleaned. |
| SensorM16.Sensor.ReadConstants | src/Leddar/LdSensorM16.cpp:354-444 | Passes exactly when ConstantsGot does, leaving its properties and scales. |
| M16Requests.ResetAccepted | src/Leddar/LdSensorM16.cpp:1000-1038 | A configuration reset always goes through. A soft reset goes through only with the main or factory option, and restarts into that firmware. Any other option is "Reset option not valid: 0.". A hard reset is "Reset type: 1 not implemented.". |
| M16Requests.ReadAnswerRetried | src/Leddar/LdSensorM16.cpp:1090-1107 | The do-while makes between 1 and retries+1 attempts. Every attempt before the last was a retryable failure. It stops early only on a non-retryable outcome. |
| M16Requests.RetryBounds | src/Leddar/LdSensorM16.cpp:1090-1107 | A disconnection ends the attempts at once. The write passes exactly when some attempt within the retries passed after only retryable failures. |
| M16Requests.PropertiesSent | src/Leddar/LdSensorM16.cpp:1076-1110 | Only ids the container has a property for are requested. |
| M16Requests.AllSentWhenAnswered | src/Leddar/LdSensorM16.cpp:1078-1108 | When every answer passes, requests go out for exactly the known ids, in order. |
| SensorM16.Sensor.SetProperties | src/Leddar/LdSensorM16.cpp:1076-1110 | The outcome and the ids requested are PropertiesSent's. |
| SensorM16.Sensor.ReadAnswer | src/Leddar/LdSensorM16.cpp:1090-1107 | The loop's last outcome is ReadAnswerRetried's. |
| M16License.PairValue | src/Leddar/LdSensorM16.cpp:1427 | Two hexadecimal digits give 16*d1 + d2, in either case. Two characters that are not digits give 0. |
| M16License.HexDigit | src/Leddar/LdSensorM16.cpp:1427 | A digit has a value exactly when it is a hexadecimal digit in either case, and that value is below 16. |
| M16License.KeyOfText | src/Leddar/LdSensorM16.cpp:1425-1428 | A full text gives 16 bytes. Byte k comes from characters 2k and 2k+1. |
| M16License.KeyBufferAsWritten | src/Leddar/LdSensorM16.cpp:1417-1431 | The text is accepted at 32 characters or 0. The buffer is 16 bytes, of which only those the loop writes are determined. |
| M16License.EmptyTextSendsUnsetBytes | src/Leddar/LdSensorM16.cpp:1419-1430 | For the empty text, no byte of the buffer sent is determined. |
| M16License.KeyAgreesWithBuffer | src/Leddar/LdSensorM16.cpp:1417-1431 | Wherever the code as written sets a byte, the corrected key has the same byte. |
| M16License.EmptyKey | src/Leddar/LdSensorM16.cpp:1346-1347 | The key sent to remove a license is 16 zero bytes. |
| M16License.TextOfKey | src/Leddar/LdSensorM16.cpp:1480 | A key is written back as two upper-case hexadecimal digits per byte. |
| M16License.HexChar | src/Leddar/LdSensorM16.cpp:1480 | The digit written for a value below 16 reads back as that value. |
| M16License.LicenseKey | src/Leddar/LdSensorM16.cpp:1417-1431 | A text of any length other than 32 or 0 is "Invalid license length.". The empty text gives the all-zero key. Key byte k comes from characters 2k and 2k+1. |
| M16License.KeyTextRoundTrip | src/Leddar/LdSensorM16.cpp:1417-1431 | A key written as text is read back as the same key. |
| M16License.KeyTextIgnoresCase | src/Leddar/LdSensorM16.cpp:1338-1344 | A key's text matches the same text typed in lower case. |
| M16License.SameLicenseCharwise | src/Leddar/LdSensorM16.cpp:1338-1344 | RemoveLicense's comparison holds exactly when the texts agree character by character up to the case of ASCII letters. |
| M16License.UpperChar | src/Leddar/LdSensorM16.cpp:1338-1344 | `toupper` moves only ASCII lower-case letters, by 32. |
| M16License.Upper | src/Leddar/LdSensorM16.cpp:1338-1344 | Upper-casing keeps the length and upper-cases each character. |
| M16License.DecodeLicense | src/Leddar/LdSensorM16.cpp:1480-1482 | The type is the low 16 bits of the information word and the subtype the byte above. |
| M16License.LicenseInfoRoundTrip | src/Leddar/LdSensorM16.cpp:1480-1482 | Decoding recovers the type and subtype the word was made from. |
| M16License.LicenseOfReply | src/Leddar/LdSensorM16.cpp:1479-1490 | A license is returned exactly when the key text and the information word can be read and the type is nonzero. |
| M16License.ReplyDecoded | src/Leddar/LdSensorM16.cpp:1479-1490 | An accepted key comes back with its type and subtype. Type 0 is "Invalid license.". |
| M16License.SendLicenseTouchesOnlyItsPair | src/Leddar/LdSensorM16.cpp:1449-1491 | Whatever the device answers, only the key and information properties change, and the key ends clean. |
| M16License.SendLicenseWrongCodeKeepsReply | src/Leddar/LdSensorM16.cpp:1470-1476 | A wrong answer code on the read-back is the error, yet both properties already hold the reply; the key stays clean and the information keeps its flag. |
| M16License.SendLicenseReadFailureKeepsKey | src/Leddar/LdSensorM16.cpp:1470-1473 | When the read-back's answer cannot be read, its error is the outcome. The key is stored, but neither property takes a reply. |
| M16License.SendLicenseReadBackClean | src/Leddar/LdSensorM16.cpp:1471-1483 | Once the license was read back, accepted or refused, both properties hold the reply and are clean. |
| M16License.SendLicenseReadsBack | src/Leddar/LdSensorM16.cpp:1460-1490 | After a good write and good answer codes, the result is the decoded read-back. "Invalid license." means exactly a type of 0. |
| M16License.KeyStored | src/Leddar/LdSensorM16.cpp:1452-1458 | The stored key property keeps its kind. Element 0 is the key's text, and it is clean. |
| M16License.ReadBackState | src/Leddar/LdSensorM16.cpp:1471-1483 | The read-back keeps the property table's keys. |
| M16License.SendLicenseState | src/Leddar/LdSensorM16.cpp:1449-1491 | SendLicense keeps the property table's keys. |
| SensorM16.Sensor.StoreKey | src/Leddar/LdSensorM16.cpp:1452-1458 | Only the key property changes, into KeyStored. |
| SensorM16.Sensor.ReadLicenseBack | src/Leddar/LdSensorM16.cpp:1470-1490 | A failed read of the answer is its error, and the properties are unchanged. Otherwise the reply reaches the properties whatever its answer code, as ReadBackState says. A wrong code is then the error; otherwise the result is LicenseOfReply of the reply. |
| SensorM16.Sensor.SendLicenseKey | src/Leddar/LdSensorM16.cpp:1449-1491 | The result and the properties are those of SendLicenseOutcome and SendLicenseState. |
| SensorM16.Sensor.ParseKey | src/Leddar/LdSensorM16.cpp:1423-1428 | The conversion loop yields LicenseKey of the text. |
| SensorM16.Sensor.SendLicense | src/Leddar/LdSensorM16.cpp:1417-1431 | A text of the wrong length is refused before anything changes. Otherwise the call is SendLicenseKey on LicenseKey's bytes. |
| M16License.RemoveLicenseOutcome | src/Leddar/LdSensorM16.cpp:1336-1360 | "Invalid license." is never reported. A text that does not match the stored license passes without sending. Any failure is the stored key's read error or the send's own error. |
| M16License.RemoveMatchingLicense | src/Leddar/LdSensorM16.cpp:1344-1358 | Removing the matching license succeeds whenever the device takes the empty key and answers readably. |
| SensorM16.Sensor.RemoveLicense | src/Leddar/LdSensorM16.cpp:1336-1360 | The result is RemoveLicenseOutcome's. A text that does not match changes no property. |
| M16License.LicensesListed | src/Leddar/LdSensorM16.cpp:1523-1531 | The list is read whole exactly when every key element is text with an integer information word beside it. Entry i then decodes element i. |
| M16License.LicensesFrom | src/Leddar/LdSensorM16.cpp:1523-1531 | A list read whole has one license per key element. |
| M16License.LicensesAppliedTouchesOnlyLicenses | src/Leddar/LdSensorM16.cpp:1503-1515 | After a wrong answer code only the four license properties change, each holding its reply with its flag kept. |
| M16License.LicensesReadTouchesOnlyLicenses | src/Leddar/LdSensorM16.cpp:1511-1521 | Only the four license properties change. Each holds its reply. The permanent pair is clean. |
| SensorM16.Sensor.GetLicenses | src/Leddar/LdSensorM16.cpp:1503-1534 | A failed read of the answer is its error, and the properties are unchanged. Otherwise the four license properties take the reply whatever the answer code. A wrong code gives the empty list and the properties LicensesApplied says. A good code gives LicensesReadState's properties and LicensesFrom's list. |
| SensorM16.Sensor.ListLicenses | src/Leddar/LdSensorM16.cpp:1523-1531 | The loop's list is LicensesFrom's. |
| M16Firmware.FindImage | src/Leddar/LdSensorM16.cpp:1135-1140 | `find_if` finds an image exactly when the file has one with that id, and it is the first one. |
| M16Firmware.SelectionRules | src/Leddar/LdSensorM16.cpp:1124-1161 | An update goes ahead exactly when the file is for this device and holds a DSP image or both FPGA images. A DSP image always wins. A foreign file is "Provided file is not for this device". |
| M16Firmware.TransferCoversImage | src/Leddar/LdSensorM16.cpp:1214-1233 | Without a cancel or a failed answer, the blocks follow each other without gap or overlap and cover the image exactly once. |
| M16Firmware.TransferProgress | src/Leddar/LdSensorM16.cpp:1227-1230 | Every reported percentage is below 100, and they never decrease. |
| M16Firmware.TransferCancelled | src/Leddar/LdSensorM16.cpp:1217 | A cancel seen before block k stops the transfer before that block. |
| M16Firmware.SendBlocks | src/Leddar/LdSensorM16.cpp:1214-1233 | The block loop sends exactly Transfer's blocks. It fails with the last block's answer when that answer could not be read. A block length of 0 on a non-empty image is refused. When every answer is read, that refusal is the only failure. |
| M16Firmware.TransferStopsAtFailure | src/Leddar/LdSensorM16.cpp:1217-1233 | Every block sent except the last had its answer read: a failed answer ends the transfer on its own block. |
| M16Firmware.FileSize | src/Leddar/LdSensorM16.cpp:1193 | The size told to the device is at most the image length and fits in `uint32_t`. |
| M16Firmware.OffsetAsWritten | src/Leddar/LdSensorM16.cpp:1232 | The offset as written always fits in `uint32_t`. |
| M16Firmware.ZeroBlockNeverEnds | src/Leddar/LdSensorM16.cpp:1217-1232 | With a block length of 0, the offset stays 0, below any non-empty image, after any number of blocks. |
| M16Firmware.OffsetWraps | src/Leddar/LdSensorM16.cpp:1217-1232 | A 0xFFFFFFFF-byte image sent in 0x80000000-byte blocks is back at offset 0 after two blocks. |
| M16Firmware.PercentOverflows | src/Leddar/LdSensorM16.cpp:1229 | 45 000 000 bytes into a 50 000 000-byte image, the percentage as written is 4 where the share is 90. |
| M16Firmware.PercentAgreesOnSmallImages | src/Leddar/LdSensorM16.cpp:1229 | While 100 times the size fits in 32 bits, the percentage as written is the true share. |
| M16Firmware.UpdateFirmware | src/Leddar/LdSensorM16.cpp:1176-1322 | A DSP image resets into the factory firmware and sends to the main processor; a factory image does the opposite. A failed read of the reset's answer, or of the answer that opens the session, ends the update before any block is sent. Then the blocks and the outcome are SendBlocks'. An FPGA update fails with a failed read of the answer that opens or closes the session. Otherwise it succeeds exactly when the programmer returns 2. Any other type is refused. |
| M16Data.MaskFor | src/Leddar/LdSensorM16.cpp:864-868 | The mask always streams the states. A mask with them is kept, and any other becomes every kind. |
| M16Data.MaskForIdempotent | src/Leddar/LdSensorM16.cpp:864-868 | Defaulting twice changes nothing more. |
| M16Data.WithField | src/Leddar/LdSensorM16.cpp:952-981 | An element sets only its own field of an echo, and the field ends within its width: 32 unsigned bits for the channel, amplitude and base, a signed 32-bit distance, a 16-bit flag. An unknown element changes nothing. |
| M16Data.Int32Of | src/Leddar/LdSensorM16.cpp:960-963 | The conversion to `int32_t` gives a value in the signed 32-bit range that equals the input modulo 2^32. |
| M16Data.WithFieldKeepsInRange | src/Leddar/LdSensorM16.cpp:952-981 | A value already within its field's width is stored unchanged. |
| M16Data.FieldWrittenSlots | src/Leddar/LdSensorM16.cpp:956-979 | After PushElementDataToBuffer, slot j below the count holds value j narrowed to the field's width, and every other slot is untouched. |
| M16Data.ElementsRead | src/Leddar/LdSensorM16.cpp:950-982 | The element loop never touches what readers see, the timestamp or the scales. |
| M16Data.ElementsReadPublishesNothing | src/Leddar/LdSensorM16.cpp:950-984 | The count left is the last recognised element's. Elements that fit are never refused. An element too long for the buffer is refused. |
| M16Data.StateTimestamp | src/Leddar/LdSensorM16.cpp:908-911 | The timestamp changes only when the answer carries one, read as `uint32_t`. |
| M16Data.Published | src/Leddar/LdSensorM16.cpp:914-920 | Readers get the filled side with the new timestamp, and one completion is signalled. |
| M16Data.StatesProcessed | src/Leddar/LdSensorM16.cpp:906-929 | The state properties keep their shape. |
| SensorM16.Sensor.NewStates | src/Leddar/LdSensorM16.cpp:914-926 | With new states, the echoes are Published only when the mask holds echoes. The timestamp is stored. A failed CPU-load request is the result; otherwise the CPU load takes its answer and one completion is signalled. |
| SensorM16.Sensor.PublishEchoes | src/Leddar/LdSensorM16.cpp:914-920 | The echo store afterwards is Published of the old one. |
| M16Data.NewStatesPublish | src/Leddar/LdSensorM16.cpp:906-929 | New states are reported exactly when the timestamp changed and the CPU-load request went through. Only a new timestamp, with echoes in the mask, publishes the filled side stamped with it. Otherwise readers see what they saw. |
| M16Data.EchoesThenStates | src/Leddar/LdSensorM16.cpp:883-929 | An echoes message followed by states with a new timestamp shows readers exactly the echoes the message wrote, with the states' timestamp. |
| SensorM16.Sensor.GetData | src/Leddar/LdSensorM16.cpp:862-894 | The mask afterwards is MaskFor's, and a failed mask write is the result. An echoes message reports no frame. A states message reports what ProcessStates does. A timeout or other request reports no frame. A timeout, another request or a failed mask write leaves the echo store, the states and their properties as they were. An echoes message leaves the states and their properties as they were. |
| SensorM16.Sensor.ProcessStates | src/Leddar/LdSensorM16.cpp:906-929 | The stores and the result are StatesProcessed's. |
| SensorM16.Sensor.ProcessEchoes | src/Leddar/LdSensorM16.cpp:939-985 | The echo store afterwards is EchoesProcessed's; an empty message only sets the count to 0. |
| SensorM16.Sensor.ProcessElement | src/Leddar/LdSensorM16.cpp:952-981 | One element moves the element loop one step as ElementsRead does; a count beyond the buffer is its failure. |
| SensorM16.Sensor.PushField | src/Leddar/LdSensorM16.cpp:956-979 | The echo store afterwards is FieldWritten's. |
| LjrRecord.CheckedHeader | src/Leddar/LdLjrRecordReader.cpp:348-366 | Passes exactly when the line parses, has a "header", and that header's "prot_version" is the supported one. An unparsable line is "Error parsing header". A line without "header" is "First line of the file is not the header". An unsigned "prot_version" other than the supported one is "Invalid ljr protocol version". |
| LjrRecord.HeaderOf | src/Leddar/LdLjrRecordReader.cpp:348-371 | A header read only after the checks pass has a 32-bit device type and protocol. |
| LjrRecord.DeviceTypeFromHeader | src/Leddar/LdLjrRecordReader.cpp:101-135 | An empty file is "Cannot read first line of the file". |
| LjrRecord.HeaderAgreement | src/Leddar/LdLjrRecordReader.cpp:101-135 | DeviceTypeFromHeader gives the device type of any header ReadHeader accepts. A header the shared checks refuse is refused by both with the same error. |
| LjrRecord.RecordOpened | src/Leddar/LdLjrRecordReader.cpp:41-71 | A record shorter than its header lines is "Record is too short.". Otherwise the record size is the line count minus the header lines. |
| LjrRecord.IsFrameLine | src/Leddar/LdLjrRecordReader.cpp:159 | `compare(2, 5, "frame")` throws exactly on a line shorter than 2 characters. |
| LjrRecord.RecorderLinesClassified | src/Leddar/LdLjrRecordReader.cpp:159 | A `{"frame"` line is a frame. A `{"prop"` line is not. |
| LjrRecord.NextRead | src/Leddar/LdLjrRecordReader.cpp:147-167 | ReadNext consumes at least one line and never goes past the end. |
| LjrRecord.NextReadStopsAfterFrame | src/Leddar/LdLjrRecordReader.cpp:147-167 | Past the last line it is "End of file reached". Otherwise it stops right after the first frame line, and every line it passed over was a property line. |
| LjrRecord.NextReadFrame | src/Leddar/LdLjrRecordReader.cpp:159-166 | Property lines leave the buffers alone: they hold what the frame line decodes to. |
| LjrRecord.MovedTo | src/Leddar/LdLjrRecordReader.cpp:191-211 | A frame past the record size is "Requested frame larger than record size". |
| LjrRecord.MoveToLandsOnFrame | src/Leddar/LdLjrRecordReader.cpp:191-211 | When frame k's line is a frame, MoveTo(k) lands on it: GetCurrentPosition is then k and the buffers hold that frame. |
| LjrRecord.MoveToZero | src/Leddar/LdLjrRecordReader.cpp:191-211 | MoveTo(0) reads the full properties line again, then stops at position 1 on the first frame. |
| LjrRecord.PreviousTarget | src/Leddar/LdLjrRecordReader.cpp:177 | The target is the current position minus one. Before the first frame it wraps to near 2^32 and MoveTo refuses it. |
| LjrRecord.PreviousFrame | src/Leddar/LdLjrRecordReader.cpp:177 | From frame k+1, ReadPrevious lands on frame k when its line is a frame. |
| LjrRecord.CountOr | src/Leddar/LdLjrRecordReader.cpp:269-287 | A missing or empty property gives the default. Any other result fits the cast's width. |
| LjrRecord.ValueOr | src/Leddar/LdLjrRecordReader.cpp:292-307 | A missing property gives the default. A present but empty one throws out_of_range. |
| LjrRecord.BufferSizing | src/Leddar/LdLjrRecordReader.cpp:269-333 | The capacity and distance scale fit in `uint32_t`. |
| LjrRecord.SizingDefaults | src/Leddar/LdLjrRecordReader.cpp:269-333 | Without the sizing properties: one segment, 8 echoes, unit scales, no state scales. |
| LjrRecord.M16Sizing | src/Leddar/LdLjrRecordReader.cpp:269-330 | An M16 replay gets the echo capacity a live M16 gets, and its temperature scale is the distance scale. |
| LjrRecord.PropertiesInitialised | src/Leddar/LdLjrRecordReader.cpp:258-310 | Reading the line twice around UpdateConstants keeps the table's shape and layout. |
| LjrRecord.PropertiesRead | src/Leddar/LdLjrRecordReader.cpp:264-266 | Reading the properties line keeps the table's shape and layout. |
| LjrRecord.ConstantsRead | src/Leddar/LdLjrRecordReader.cpp:264-266 | Reading the line, then UpdateConstants, keeps the shape and layout. |
| LjrRecord.SecondPassWins | src/Leddar/LdLjrRecordReader.cpp:264-266 | Every property the line addresses ends with the line's values, clean, whatever UpdateConstants made of it. |
| LjrRecord.LineWins | src/Leddar/LdLjrRecordReader.cpp:264-266 | Two tables of the same shape agree, after the line, on every property it addresses. |
| LjrRecord.SecondPassKeepsConstants | src/Leddar/LdLjrRecordReader.cpp:264-266 | A property the line does not address keeps what UpdateConstants derived for it. |
| LjrRecord.LineAt | src/Leddar/LdLjrRecordReader.cpp:260-262 | Past the end of the file, getline gives an empty line, which does not parse. |
| LjrRecord.SensorCreated | src/Leddar/LdLjrRecordReader.cpp:226-233 | CreateSensor consumes the properties line and at least one more line. |
| LjrRecord.CreatedInSteps | src/Leddar/LdLjrRecordReader.cpp:226-233 | InitProperties' failure is CreateSensor's. Otherwise ReadNext runs from the state InitProperties leaves. |
| LjrRecord.CreatedOnFirstFrame | src/Leddar/LdLjrRecordReader.cpp:226-233 | On a fresh reader whose line 2 is a frame, CreateSensor stops at position 1, holding that frame decoded into the new buffers. |
| LjrReader.ForceValues | src/Leddar/LdLjrRecordReader.cpp:446-458 | The property ends with exactly DecodeValues' elements, or the first bad element's error. |
| LjrReader.ReadEntries | src/Leddar/LdLjrRecordReader.cpp:436-637 | The container ends as DecodeEntries says, or fails with its error. |
| LjrReader.ReadEntry | src/Leddar/LdLjrRecordReader.cpp:436-637 | One entry leaves the container as DecodeEntry says, or fails with its error. |
| LjrReader.ReadProperty | src/Leddar/LdLjrRecordReader.cpp:441-635 | The addressed property becomes DecodeProperty's, or the call fails with its error. |
| LjrReader.StoreEntry | src/Leddar/LdLjrRecordReader.cpp:443-631 | The property becomes EntryApplied's, or the call fails with its error. |
| LjrReader.StoreValues | src/Leddar/LdLjrRecordReader.cpp:446-458 | The property stores DecodeValues' elements, or the call fails with its error. |
| LjrReader.DeclareProperty | src/Leddar/LdLjrRecordReader.cpp:483-573 | The property becomes Declare's, or the call fails with its error. |
| LjrReader.DeclareEnumPairs | src/Leddar/LdLjrRecordReader.cpp:485-493 | The property becomes DeclareEnum's, or the call fails with its error. |
| LjrReader.ForceElements | src/Leddar/LdLjrRecordReader.cpp:450-453 | The element loop stores exactly DecodeEach's values, or fails with the first bad element. |
| LjrReader.ForceScalar | src/Leddar/LdLjrRecordReader.cpp:455-458 | A scalar value leaves the property holding exactly that one decoded element, marked modified, or fails with its decoding error. |
| LjrReader.ReadStatesSection | src/Leddar/LdLjrRecordReader.cpp:399-408 | The state properties end as DecodeStatesSection says, or the call fails with its error. |
| LjrReader.ReadPropertiesLine | src/Leddar/LdLjrRecordReader.cpp:386-432 | The container ends as DecodePropertiesLine says, or fails with its error. |
| LjrReader.ReadEchoProperties | src/Leddar/LdLjrRecordReader.cpp:652-828 | The echo properties end as DecodeEchoPropertiesSection says, or it fails with its error. |
| LjrReader.FillEchoes | src/Leddar/LdLjrRecordReader.cpp:890-902 | The loop writes exactly DecodeEchoes' echoes into the first slots, or fails with the first bad echo. |
| LjrReader.ReadEchoes | src/Leddar/LdLjrRecordReader.cpp:875-908 | The echo store ends as EchoesApplied says, or the call fails with its error. |
| LjrReader.ReadPropertiesInto | src/Leddar/LdLjrRecordReader.cpp:264-266 | The sensor's properties end as PropertiesRead says. |
| LjrReader.ReadConstantsInto | src/Leddar/LdLjrRecordReader.cpp:264-266 | The sensor's properties end as ConstantsRead says, or the call fails with its error. |
| LjrReader.InitialiseSensor | src/Leddar/LdLjrRecordReader.cpp:264-333 | Properties read as PropertiesRead says, then the buffers sized as BufferSizing says; each failure surfaces with its error and stops the sizing. |
| LjrReader.SizeFromProperties | src/Leddar/LdLjrRecordReader.cpp:269-333 | Passes exactly when BufferSizing succeeds on the current properties, then leaves the echo store and state scales as SizeBuffers does. |
| LjrReader.SizeBuffers | src/Leddar/LdLjrRecordReader.cpp:309-333 | The echo store is Initialised and swapped with fresh buffers, and the state scales are set. |
| LjrReader.LjrRecordReader.Open | src/Leddar/LdLjrRecordReader.cpp:41-71 | Opening succeeds exactly when RecordOpened does, with its size and header. One line is consumed. |
| LjrReader.LjrRecordReader.ReadHeader | src/Leddar/LdLjrRecordReader.cpp:348-371 | Passes exactly when HeaderOf succeeds, and stores its fields. |
| LjrReader.LjrRecordReader.CurrentPosition | src/Leddar/LdLjrRecordReader.cpp:245 | The lines consumed past the header, as a `uint32_t` difference. |
| LjrReader.LjrRecordReader.ReadFrame | src/Leddar/LdLjrRecordReader.cpp:840-909 | The buffers end as DecodeFrame says, or the call fails with its error. The sensor properties are untouched. |
| LjrReader.LjrRecordReader.ReadSections | src/Leddar/LdLjrRecordReader.cpp:862-908 | The replayed frame ends as FrameSections says, or the call fails with its error. |
| LjrReader.LjrRecordReader.ReadPropertySections | src/Leddar/LdLjrRecordReader.cpp:862-873 | The replayed frame ends as PropertySections says, or the call fails with its error. |
| LjrReader.LjrRecordReader.ReadStates | src/Leddar/LdLjrRecordReader.cpp:862-868 | The replayed frame ends as ApplyStates says, or the call fails with its error. |
| LjrReader.LjrRecordReader.ReadEchoPropertiesOf | src/Leddar/LdLjrRecordReader.cpp:870-873 | Only the echo properties change, as DecodeEchoPropertiesSection says, or the call fails with its error. |
| LjrReader.LjrRecordReader.ReadEchoesOf | src/Leddar/LdLjrRecordReader.cpp:875-908 | The replayed frame ends as ApplyEchoes says, or the call fails with its error. |
| LjrReader.LjrRecordReader.ReadNext | src/Leddar/LdLjrRecordReader.cpp:147-167 | The cursor and the replayed state are NextRead's, or the call fails with its error. |
| LjrReader.LjrRecordReader.MoveTo | src/Leddar/LdLjrRecordReader.cpp:191-211 | The cursor and the replayed state are MovedTo's, or the call fails with its error. |
| LjrReader.LjrRecordReader.SkipLines | src/Leddar/LdLjrRecordReader.cpp:199-208 | The cursor ends at n. |
| LjrReader.LjrRecordReader.ReadPrevious | src/Leddar/LdLjrRecordReader.cpp:177 | It behaves as MovedTo of PreviousTarget. |
| LjrReader.LjrRecordReader.InitProperties | src/Leddar/LdLjrRecordReader.cpp:258-334 | One line is consumed. The properties and buffers are PropertiesInitialised's, or the call fails with its error. |
| LjrReader.LjrRecordReader.CreateSensor | src/Leddar/LdLjrRecordReader.cpp:226-233 | A fresh M16 sensor, then the cursor and replayed state of SensorCreated, or its error. |
| LjrReader.LjrRecordReader.InitAndRead | src/Leddar/LdLjrRecordReader.cpp:229-231 | On a fresh sensor, InitProperties then ReadNext leave the cursor and the replayed state of SensorCreated. |
| LjrReader.LjrRecordReader.InitCreated | src/Leddar/LdLjrRecordReader.cpp:229-230 | On a fresh sensor, InitProperties leaves CreatedState of PropertiesInitialised. |

## Left out

- Opening the file: the record is given as its lines, so "Could not open file" is not modelled. The destructor is left out. The line count is `|lines|`.
- The device factory always hands out the M16 sensor; the recorded device type and protocol are stored but not used to choose it.
- rapidjson's parse-error description (`GetParseError_En`) is not appended to the messages.
- Accessors applied to a JSON value of the wrong kind assert or are undefined in rapidjson; the model reports them as a `Malformed` error.
- `GetFloat`/`GetDouble` are modelled as exact reals. Single-precision rounding is not modelled.
- The partial state left after an exception in the middle of a line is unspecified: methods only state the error and that the containers keep their shape.
- ReadNext stays recursive as in the source. Stack depth is not modelled.
- `ComputeCartesianCoordinates` is left out: the echo coordinates are kept as decoded or received.
- The locks around the echo store are left out: the model is single-threaded.
- PropertyDecode.DecodeElement: the refusal of an unregistered enum value follows `LdEnumProperty::ForceValue`, which is not part of this model; its error and the message "Invalid enum value." are assumed.
- M16Data.WithField: the widths the echo fields are narrowed to follow the casts the record reader applies to the same fields (LdLjrRecordReader.cpp:893-896); the `LdEcho` declaration and `PushElementDataToBuffer` are not part of this model, so the base's 32-bit width is assumed.
- FrameDecode.DecodeEcho: the distance and amplitude are converted from `double` by `static_cast`, which is undefined outside the target range; the model keeps them unbounded.
- Results.Counted: the refusal of a count above the buffer, and its message, are assumed. LdResultEchoes::SetEchoCount is not part of this model, and the visible callers (LdLjrRecordReader.cpp:884, LdSensorM16.cpp:955) pass the count without a check of their own.
- M16Constants.UpdateConstants: the horizontal field of view (lines 781-817) and the PRECISION limits (line 819) are not modelled. They depend on option masks and tables of LtComM16, and on float constants.
- SensorM16.Sensor.GetConstants: the result-state scales and the echo store are set only once every property step has passed. The source sets them partway (lines 405-406 and 419), so after a late failure the two differ.
- SensorM16.Sensor.Identify: only the serial number and device type are forced from the USB information. Part numbers, versions and CRC (lines 359-363) are text and numbers no modelled property reads.
- Properties.PropertiesContainer: the order of a request's elements, unit sizes, strides and the raw fixed-point storage behind `SetScale` are not modelled. `AddEnumPair` keeps the first text of a value already registered. `SetEnumSize` (line 652) only reserves room and is left out.
- SensorM16.Sensor.GetData: `SetDataMask` is modelled only by its outcome. The conversion to the device's mask is not modelled.
- `ReadRequest` on the data channel: only a timeout is caught; any other error of the transport is not modelled.
- M16Firmware.UpdateFirmware: the CRC, the waits, `Connect`/`Disconnect`, the FPGA programmer (`SSPIEm_preset`, `SSPIEm`), the light-source frequency request and `gPercentageDone` are left out. The programmer's result is a parameter, and so is the block length the device answers. The light-source request catches its own failures and its value is unused (lines 1250-1276).
- M16Requests.ResetRequestFor: only the request a reset sends is modelled. The read of its answer (lines 1006 and 1028), the wait and the disconnection are not; within UpdateFirmware that answer is `UpdateAnswers.restart`.
- M16Constants.Pow2: powers of two are unbounded integers. The exponent enum texts come from `1 << i` on an `int` (lines 726 and 744), which is undefined from i = 31.
- M16Constants.ExponentPairs: the texts are Pow2 of each exponent, so exponent limits of 31 or more give texts the source cannot produce.
- M16Constants.SegmentMask: `uint64_t(1) << (HSEGMENT / 2)` (line 691) is undefined once HSEGMENT / 2 reaches 64. The model goes on doubling.
- FrameDecode.DecodeFrame: the source reads the "ts" member (LdLjrRecordReader.cpp:846-849) before it checks for a parse error and for the "data" member. The model reads it after both checks. The two differ only on lines where rapidjson's accessor asserts.
- LjrRecord.IsFrameLine and the other string-length checks count characters of a `seq<char>`, whereas the source counts the bytes of its UTF-8 text. The two agree on ASCII lines.
- `ValueT<uint32_t>` and `ValueT<size_t>` are modelled as the stored integer taken modulo the width of the cast: 2^32 for `uint32_t`, 2^64 for `size_t`. LdIntegerProperty is not part of this model, so this reading of the cast is assumed. It affects LjrRecord.CountOr, LjrRecord.ValueOr, M16Startup.ScalesOf, M16Constants.UpdateConstants (through ConstantsFor) and M16License.DecodeLicense.
- M16License.TextOfKey: the key is assumed to be rendered as upper-case hexadecimal, two digits per byte. That rendering comes from `LdBufferProperty::GetStringValue`, and LdBufferProperty is not part of this model.
- `RemoveAllLicenses`, `WriteConfig`, `RestoreConfig`, `PointCountToRange`, `ReadDefaultStaticThresholdTable` and `GetStartTraceDistance` are outside the modelled part of the sensor.
- The `BUILD_M16 && BUILD_USB` branch of InitProperties (lines 326-331) is modelled as compiled in.
- LjrReader.LjrRecordReader.ReadPrevious: the cursor `mCurrentLine` is a `uint32_t` in the source. The model requires it below 2^32 rather than wrapping it, and computes the target with the source's wrap-around.
- Constant values not visible in the modelled files are stand-ins whose distinctness alone matters: the property and device ids, `LT_COMM_ANSWER_OK`, the software types, the image ids, `LJR_PROT_VERSION`, `M16_ID_DATA_LEVEL`, `M16_LED_INTENSITY_MAX`, `M16_MAX_ECHOES_BY_CHANNEL`, `LT_COMM_LICENSE_KEY_LENGTH` and `LJR_HEADER_LINES`. `LJR_HEADER_LINES` = 2 follows from the constructor reading the header and InitProperties reading line 2.

## Findings

| source | as written | input that shows it | evidently intended | confidence | as-written member | corrected member |
|---|---|---|---|---|---|---|
| src/Leddar/LdSensorM16.cpp:1204-1232 | The block length starts at 0 and stays 0 when the answer carries no BLOCK_LENGTH element. `lCount += lBlockSize` then never moves. | Any non-empty image with an answer lacking BLOCK_LENGTH: the offset stays 0 below the file size, and the loop goes on until it is cancelled or ReadAnswer throws. | Refuse a zero block length before the loop. | medium, not executed | M16Firmware.ZeroBlockNeverEnds | M16Firmware.SendBlocks |
| src/Leddar/LdSensorM16.cpp:1217-1232 | The offset `lCount` is a `uint32_t` and wraps after the last block of a large image. | A 0xFFFFFFFF-byte image with 0x80000000-byte blocks: after two blocks the offset is 0 again, and the transfer starts over. | Stop once the whole image is sent. | low, not executed | M16Firmware.OffsetWraps | M16Firmware.TransferCoversImage |
| src/Leddar/LdSensorM16.cpp:1229 | `100 * lCount` is computed in 32 unsigned bits and wraps once the offset passes about 42.9 MB. | 45 000 000 bytes into a 50 000 000-byte image reports 4 % instead of 90 %. | The share of the image sent, below 100 and never decreasing. | medium, not executed | M16Firmware.PercentOverflows | M16Firmware.TransferProgress |
| src/Leddar/LdSensorM16.cpp:1419-1430 | The empty license text is accepted, but the key buffer is never initialised, so indeterminate bytes are sent. | `SendLicense("", false)`: no byte of `lBuffer` is written before it is sent. | Send the all-zero key, as RemoveLicense does. | medium, not executed | M16License.EmptyTextSendsUnsetBytes | M16License.LicenseKey |
