/** A record ("LJR") file seen as its lines: the header checks, which lines
    are frames, where the line cursor lands, and how the replayed sensor's
    buffers are sized from the full properties line (LdLjrRecordReader).
    The specification the reader class is proved against. */
module LjrRecord {
  import opened Wrappers
  import opened Exceptions
  import opened Json
  import opened Properties
  import opened PropertyDecode
  import opened Results
  import opened FrameDecode
  import opened M16Layout
  import M16Constants

  /** Lines before the first frame: the header and the full properties line. */
  const LJR_HEADER_LINES: nat := 2
  /** The record format version this reader accepts (stand-in value). */
  const LJR_PROT_VERSION: nat := 2

  datatype Header = Header(deviceType: nat, protocol: nat, timestamp: nat)

  /** `v[name]` where the member may be missing, which the JSON library does not allow. */
  function Required(v: JsonValue, name: string): (r: Result<JsonValue, Error>)
    ensures r.Success? <==> HasMember(v, name)
    ensures r.Success? ==> r.value == Get(v, name)
  {
    if HasMember(v, name) then Success(Get(v, name)) else Failure(Malformed("missing member"))
  }

  /** The checks ReadHeader and DeviceTypeFromHeader share: the line parses,
      has a "header" member, and its "prot_version" is this reader's version. */
  function CheckedHeader(line: Line): (r: Result<JsonValue, Error>)
    ensures r.Success? <==> line.dom.Some? && HasMember(line.dom.value, "header")
                            && HasMember(Get(line.dom.value, "header"), "prot_version")
                            && Get(Get(line.dom.value, "header"), "prot_version") == JInt(LJR_PROT_VERSION)
    ensures r.Success? ==> r.value == Get(line.dom.value, "header")
    ensures line.dom.None? ==> r == Failure(RuntimeError("Error parsing header"))
    ensures line.dom.Some? && !HasMember(line.dom.value, "header") ==>
              r == Failure(RuntimeError("First line of the file is not the header"))
    ensures line.dom.Some? && HasMember(line.dom.value, "header") && HasMember(Get(line.dom.value, "header"), "prot_version")
            && AsUint(Get(Get(line.dom.value, "header"), "prot_version")).Success?
            && AsUint(Get(Get(line.dom.value, "header"), "prot_version")).value != LJR_PROT_VERSION ==>
              r == Failure(RuntimeError("Invalid ljr protocol version"))
  {
    if line.dom.None? then Failure(RuntimeError("Error parsing header"))
    else if !HasMember(line.dom.value, "header") then Failure(RuntimeError("First line of the file is not the header"))
    else
      var header := Get(line.dom.value, "header");
      var pv :- Required(header, "prot_version");
      var version :- AsUint(pv);
      if version != LJR_PROT_VERSION then Failure(RuntimeError("Invalid ljr protocol version"))
      else Success(header)
  }

  /** ReadHeader: the header's device type, communication protocol and record timestamp. */
  function HeaderOf(line: Line): (r: Result<Header, Error>)
    ensures r.Success? ==> CheckedHeader(line).Success?
    ensures r.Success? ==> r.value.deviceType < UINT32_LIMIT && r.value.protocol < UINT32_LIMIT
                           && r.value.timestamp < UINT64_LIMIT
  {
    var header :- CheckedHeader(line);
    var d :- Required(header, "devicetype");
    var deviceType :- AsUint(d);
    var p :- Required(header, "protocol");
    var protocol :- AsUint(p);
    var t :- Required(header, "timestamp");
    var timestamp :- AsUint64(t);
    Success(Header(deviceType, protocol, timestamp))
  }

  /** DeviceTypeFromHeader: the device type named by the first line of a record file. */
  function DeviceTypeFromHeader(lines: seq<Line>): (r: Result<nat, Error>)
    ensures lines == [] ==> r == Failure(RuntimeError("Cannot read first line of the file"))
  {
    if lines == [] then Failure(RuntimeError("Cannot read first line of the file"))
    else
      var header :- CheckedHeader(lines[0]);
      var d :- Required(header, "devicetype");
      AsUint(d)
  }

  /** Both go through the same checks: a header ReadHeader accepts gives
      DeviceTypeFromHeader its device type, and a header the checks reject is
      rejected by both with the same exception. */
  lemma HeaderAgreement(lines: seq<Line>)
    requires lines != []
    ensures HeaderOf(lines[0]).Success? ==> DeviceTypeFromHeader(lines) == Success(HeaderOf(lines[0]).value.deviceType)
    ensures CheckedHeader(lines[0]).Failure? ==>
              HeaderOf(lines[0]) == Failure(CheckedHeader(lines[0]).error)
              && DeviceTypeFromHeader(lines) == Failure(CheckedHeader(lines[0]).error)
  {
  }

  /** What opening a record gives: its size in lines after the header lines
      and the header, or why it is refused. */
  function RecordOpened(lines: seq<Line>): (r: Result<(nat, Header), Error>)
    ensures |lines| < LJR_HEADER_LINES ==> r == Failure(LogicError("Record is too short."))
    ensures |lines| >= LJR_HEADER_LINES ==>
              (r.Success? <==> HeaderOf(lines[0]).Success?)
              && (r.Success? ==> r.value == (|lines| - LJR_HEADER_LINES, HeaderOf(lines[0]).value))
  {
    if |lines| < LJR_HEADER_LINES then Failure(LogicError("Record is too short."))
    else
      var header :- HeaderOf(lines[0]);
      Success((|lines| - LJR_HEADER_LINES, header))
  }

  /** `line.compare(2, 5, "frame") == 0`: characters 2 to 6 spell "frame";
      compare throws on a line shorter than 2 characters. */
  function IsFrameLine(text: string): (r: Result<bool, Error>)
    ensures r.Failure? <==> |text| < 2
  {
    if |text| < 2 then Failure(OutOfRange("basic_string::compare"))
    else Success(|text| >= 7 && text[2..7] == "frame")
  }

  /** The lines a recorder writes are told apart by their first member:
      `{"frame": ...` is a frame, `{"prop": ...` a property update. */
  lemma RecorderLinesClassified(rest: string)
    ensures IsFrameLine("{\"frame\"" + rest) == Success(true)
    ensures IsFrameLine("{\"prop\"" + rest) == Success(false)
  {
    assert ("{\"frame\"" + rest)[2..7] == "frame";
    assert ("{\"prop\"" + rest)[2..7] != "frame" by {
      assert ("{\"prop\"" + rest)[6] == '"';
    }
  }

  /** What replaying a line can change: the sensor properties and the
      buffers a frame fills. */
  datatype Replay = Replay(sensorProps: PropMap, frame: FrameView)

  /** ReadNext with `pos` lines consumed: property lines are applied and
      passed over until a frame line is decoded; the lines consumed after it,
      and the replayed state. */
  function NextRead(lines: seq<Line>, pos: nat, s: Replay): (r: Result<(nat, Replay), Error>)
    requires ViewValid(s.frame.echoes)
    ensures r.Success? ==> pos < r.value.0 <= |lines|
    decreases |lines| - pos
  {
    if pos >= |lines| then Failure(OutOfRange("End of file reached"))
    else
      var frame :- IsFrameLine(lines[pos].text);
      if frame then
        var f :- DecodeFrame(lines[pos], s.frame);
        Success((pos + 1, s.(frame := f)))
      else
        var props :- DecodePropertiesLine(s.sensorProps, lines[pos]);
        NextRead(lines, pos + 1, s.(sensorProps := props))
  }

  /** ReadNext consumes lines one at a time and stops right after the first
      frame line: every line it passed over was a property line; past the
      last line it throws. */
  lemma NextReadStopsAfterFrame(lines: seq<Line>, pos: nat, s: Replay)
    requires ViewValid(s.frame.echoes)
    ensures pos >= |lines| ==> NextRead(lines, pos, s) == Failure(OutOfRange("End of file reached"))
    ensures var r := NextRead(lines, pos, s);
            r.Success? ==>
              IsFrameLine(lines[r.value.0 - 1].text) == Success(true)
              && forall j :: pos <= j < r.value.0 - 1 ==> IsFrameLine(lines[j].text) == Success(false)
  {
    NextReadEndsOnFrame(lines, pos, s);
    NextReadPassesProperties(lines, pos, s);
  }

  /** One line of ReadNext that went through: a frame line ends it, a
      property line hands on to the next line. */
  lemma NextReadStep(lines: seq<Line>, pos: nat, s: Replay)
    requires ViewValid(s.frame.echoes) && NextRead(lines, pos, s).Success?
    ensures pos < |lines| && IsFrameLine(lines[pos].text).Success?
    ensures IsFrameLine(lines[pos].text).value ==>
              DecodeFrame(lines[pos], s.frame).Success?
              && NextRead(lines, pos, s) == Success((pos + 1, s.(frame := DecodeFrame(lines[pos], s.frame).value)))
    ensures !IsFrameLine(lines[pos].text).value ==>
              DecodePropertiesLine(s.sensorProps, lines[pos]).Success?
              && NextRead(lines, pos, s) == NextRead(lines, pos + 1, s.(sensorProps := DecodePropertiesLine(s.sensorProps, lines[pos]).value))
  {
  }

  lemma {:induction false} NextReadEndsOnFrame(lines: seq<Line>, pos: nat, s: Replay)
    requires ViewValid(s.frame.echoes)
    ensures var r := NextRead(lines, pos, s);
            r.Success? ==> IsFrameLine(lines[r.value.0 - 1].text) == Success(true)
    decreases |lines| - pos
  {
    var r := NextRead(lines, pos, s);
    if r.Success? {
      NextReadStep(lines, pos, s);
      var frame := IsFrameLine(lines[pos].text);
      if frame.value {
        assert frame == Success(true) && r.value.0 - 1 == pos;
      } else {
        NextReadEndsOnFrame(lines, pos + 1, s.(sensorProps := DecodePropertiesLine(s.sensorProps, lines[pos]).value));
      }
    }
  }

  lemma {:induction false} NextReadPassesProperties(lines: seq<Line>, pos: nat, s: Replay)
    requires ViewValid(s.frame.echoes)
    ensures var r := NextRead(lines, pos, s);
            r.Success? ==> forall j :: pos <= j < r.value.0 - 1 ==> IsFrameLine(lines[j].text) == Success(false)
    decreases |lines| - pos
  {
    var r := NextRead(lines, pos, s);
    if r.Success? {
      NextReadStep(lines, pos, s);
      if !IsFrameLine(lines[pos].text).value {
        NextReadPassesProperties(lines, pos + 1, s.(sensorProps := DecodePropertiesLine(s.sensorProps, lines[pos]).value));
        forall j | pos <= j < r.value.0 - 1 ensures IsFrameLine(lines[j].text) == Success(false) {
        }
      }
    }
  }

  /** Property lines leave the buffers alone: after ReadNext they hold what
      the frame line it stopped at decodes to from where they were. */
  lemma {:induction false} NextReadFrame(lines: seq<Line>, pos: nat, s: Replay, k: nat, t: Replay)
    requires ViewValid(s.frame.echoes) && NextRead(lines, pos, s) == Success((k, t))
    ensures 0 < k <= |lines| && DecodeFrame(lines[k - 1], s.frame) == Success(t.frame)
    decreases |lines| - pos
  {
    NextReadStep(lines, pos, s);
    if IsFrameLine(lines[pos].text).value {
      assert k - 1 == pos;
    } else {
      var s' := s.(sensorProps := DecodePropertiesLine(s.sensorProps, lines[pos]).value);
      NextReadFrame(lines, pos + 1, s', k, t);
    }
  }

  /** The frame position GetCurrentPosition reports for the lines consumed (a `uint32_t` difference). */
  function Position(consumed: nat): nat {
    (consumed - LJR_HEADER_LINES) % UINT32_LIMIT
  }

  /** MoveTo(k): k larger than the record size is refused; otherwise the
      cursor is put after the line before frame k's, and ReadNext follows. */
  function MovedTo(lines: seq<Line>, k: nat, s: Replay): (r: Result<(nat, Replay), Error>)
    requires |lines| >= LJR_HEADER_LINES && ViewValid(s.frame.echoes)
    ensures k > |lines| - LJR_HEADER_LINES ==> r == Failure(OutOfRange("Requested frame larger than record size"))
  {
    if k > |lines| - LJR_HEADER_LINES then Failure(OutOfRange("Requested frame larger than record size"))
    else NextRead(lines, k + LJR_HEADER_LINES - 1, s)
  }

  /** When frame k's line is a frame line, MoveTo(k) lands on it: the
      position afterwards is k. */
  lemma MoveToLandsOnFrame(lines: seq<Line>, k: nat, s: Replay)
    requires |lines| >= LJR_HEADER_LINES && ViewValid(s.frame.echoes) && k < UINT32_LIMIT
    requires k <= |lines| - LJR_HEADER_LINES && IsFrameLine(lines[k + LJR_HEADER_LINES - 1].text) == Success(true)
    requires MovedTo(lines, k, s).Success?
    ensures Position(MovedTo(lines, k, s).value.0) == k
    ensures DecodeFrame(lines[k + LJR_HEADER_LINES - 1], s.frame) == Success(MovedTo(lines, k, s).value.1.frame)
  {
    var pos := k + LJR_HEADER_LINES - 1;
    var f := DecodeFrame(lines[pos], s.frame);
    assert MovedTo(lines, k, s) == NextRead(lines, pos, s) == Success((pos + 1, s.(frame := f.value)));
  }

  /** MoveTo(0) reads the full properties line again, then the first frame:
      the first frame of a record is at position 1. */
  lemma MoveToZero(lines: seq<Line>, s: Replay)
    requires |lines| > LJR_HEADER_LINES && ViewValid(s.frame.echoes)
    requires IsFrameLine(lines[1].text) == Success(false) && IsFrameLine(lines[2].text) == Success(true)
    requires MovedTo(lines, 0, s).Success?
    ensures DecodePropertiesLine(s.sensorProps, lines[1]).Success?
    ensures Position(MovedTo(lines, 0, s).value.0) == 1
    ensures DecodeFrame(lines[2], s.frame) == Success(MovedTo(lines, 0, s).value.1.frame)
  {
    var r := NextRead(lines, 1, s);
    assert MovedTo(lines, 0, s) == r;
    var props := DecodePropertiesLine(s.sensorProps, lines[1]);
    assert props.Success?;
    var s' := s.(sensorProps := props.value);
    assert r == NextRead(lines, 2, s');
    NextReadFrame(lines, 2, s', r.value.0, r.value.1);
  }

  /** ReadPrevious: MoveTo(mCurrentLine - 1 - LJR_HEADER_LINES) in `uint32_t`. */
  function PreviousTarget(consumed: nat): (k: nat)
    requires consumed < UINT32_LIMIT
    ensures k < UINT32_LIMIT
    ensures consumed > LJR_HEADER_LINES ==> k == Position(consumed) - 1
    ensures consumed <= LJR_HEADER_LINES ==> k >= UINT32_LIMIT - 1 - LJR_HEADER_LINES
  {
    (consumed + UINT32_LIMIT - 1 - LJR_HEADER_LINES) % UINT32_LIMIT
  }

  /** What InitProperties derives from the properties: the echo capacity
      and scales, and the state scales. */
  datatype Sizing = Sizing(capacity: nat, distanceScale: nat, amplitudeScale: nat,
                           temperatureScale: nat, cpuLoadScale: nat)

  /** Element 0 of an integer property present with at least one element, as
      an unsigned integer of `limit` values; `absent` otherwise. */
  function CountOr(m: PropMap, id: PropId, limit: nat, absent: nat): (r: Result<nat, Error>)
    requires limit > 0
    ensures r.Success? ==> r.value == absent || r.value < limit
    ensures (id !in m || |m[id].values| == 0) ==> r == Success(absent)
  {
    if id in m && |m[id].values| > 0 then
      var v :- IntAt(m[id], 0);
      Success(v % limit)
    else Success(absent)
  }

  /** Element 0 of a property that is present, as an unsigned integer of
      `limit` values (out of range when it has no element); `absent` otherwise. */
  function ValueOr(m: PropMap, id: PropId, limit: nat, absent: nat): (r: Result<nat, Error>)
    requires limit > 0
    ensures id !in m ==> r == Success(absent)
    ensures id in m && |m[id].values| == 0 ==> r == Failure(INDEX_ERROR)
  {
    if id in m then
      var v :- IntAt(m[id], 0);
      Success(v % limit)
    else Success(absent)
  }

  /** The sizes InitProperties reads once the properties are final: segments
      (vertical, horizontal, reference) times echoes per channel (8 when the
      sensor has no such property), each scale 1 when absent; the temperature
      scale falls back on the distance scale. */
  function BufferSizing(m: PropMap): (r: Result<Sizing, Error>)
    requires ID_HSEGMENT in m
    ensures r.Success? ==> r.value.capacity < UINT32_LIMIT && r.value.distanceScale < UINT32_LIMIT
  {
    var v :- CountOr(m, ID_VSEGMENT, 0x1_0000, 1);
    var ref :- CountOr(m, ID_RSEGMENT, 0x1_0000, 0);
    var h :- CountOr(m, ID_HSEGMENT, 0x1_0000, 1);
    var total := (v * h + ref) % UINT32_LIMIT;
    var perChannel :- ValueOr(m, ID_MAX_ECHOES_PER_CHANNEL, 0x100, 8);
    var distanceScale :- ValueOr(m, ID_DISTANCE_SCALE, UINT32_LIMIT, 1);
    var amplitudeScale :- ValueOr(m, ID_FILTERED_AMP_SCALE, UINT32_LIMIT, 1);
    var cpuLoad :- CountOr(m, ID_CPU_LOAD_SCALE, UINT32_LIMIT, 0);
    var temperature :-
      if ID_TEMPERATURE_SCALE in m && |m[ID_TEMPERATURE_SCALE].values| > 0 then CountOr(m, ID_TEMPERATURE_SCALE, UINT32_LIMIT, 0)
      else ValueOr(m, ID_DISTANCE_SCALE, UINT32_LIMIT, 0);
    Success(Sizing((total * perChannel) % UINT32_LIMIT, distanceScale, amplitudeScale, temperature, cpuLoad))
  }

  /** A sensor with none of the sizing properties but an empty horizontal
      segment count gets the defaults: one segment, 8 echoes, unit scales,
      no state scales. */
  lemma SizingDefaults(m: PropMap)
    requires ID_HSEGMENT in m && |m[ID_HSEGMENT].values| == 0
    requires ID_VSEGMENT !in m && ID_RSEGMENT !in m && ID_MAX_ECHOES_PER_CHANNEL !in m
    requires ID_DISTANCE_SCALE !in m && ID_FILTERED_AMP_SCALE !in m
    requires ID_CPU_LOAD_SCALE !in m && ID_TEMPERATURE_SCALE !in m
    ensures BufferSizing(m) == Success(Sizing(8, 1, 1, 0, 0))
  {
  }

  /** An M16 replay whose properties say one vertical segment, 16 channels
      and 6 echoes per channel gets the echo capacity a live M16 sensor gets,
      and takes its temperature scale from the distance scale. */
  lemma M16Sizing(m: PropMap, distanceScale: nat)
    requires SensorLayout(m) && ID_RSEGMENT !in m && ID_CPU_LOAD_SCALE !in m && ID_TEMPERATURE_SCALE !in m
    requires m[ID_VSEGMENT].values == [IntV(1)] && m[ID_HSEGMENT].values == [IntV(M16_NUMBER_CHANNELS as int)]
    requires m[ID_MAX_ECHOES_PER_CHANNEL].values == [IntV(M16_MAX_ECHOES_BY_CHANNEL as int)]
    requires m[ID_DISTANCE_SCALE].values == [IntV(distanceScale)] && distanceScale < UINT32_LIMIT
    requires |m[ID_FILTERED_AMP_SCALE].values| > 0 && m[ID_FILTERED_AMP_SCALE].values[0].IntV?
    ensures BufferSizing(m).Success?
    ensures BufferSizing(m).value.capacity == M16_MAX_ECHOES
    ensures BufferSizing(m).value.distanceScale == distanceScale == BufferSizing(m).value.temperatureScale
  {
  }

  /** InitProperties: the full properties line decoded, the constants derived
      from it, the same line decoded again; then the buffer sizes. */
  function PropertiesInitialised(m: PropMap, line: Line): (r: Result<(PropMap, Sizing), Error>)
    requires SensorLayout(m)
    ensures r.Success? ==> SameShape(m, r.value.0) && SensorLayout(r.value.0)
  {
    var second :- PropertiesRead(m, line);
    var sizing :- BufferSizing(second);
    Success((second, sizing))
  }

  /** The property part of InitProperties: the line decoded, the constants
      derived, the line decoded again. */
  function PropertiesRead(m: PropMap, line: Line): (r: Result<PropMap, Error>)
    requires SensorLayout(m)
    ensures r.Success? ==> SameShape(m, r.value) && SensorLayout(r.value)
  {
    var updated :- ConstantsRead(m, line);
    var second :- DecodePropertiesLine(updated, line);
    SameShapeTrans(m, updated, second);
    LayoutShape(m, second);
    Success(second)
  }

  /** The first pass of InitProperties: the line decoded, then the constants derived. */
  function ConstantsRead(m: PropMap, line: Line): (r: Result<PropMap, Error>)
    requires SensorLayout(m)
    ensures r.Success? ==> SameShape(m, r.value) && SensorLayout(r.value)
  {
    var first :- DecodePropertiesLine(m, line);
    LayoutShape(m, first);
    var updated :- M16Constants.UpdateConstants(first);
    SameShapeTrans(m, first, updated);
    LayoutShape(m, updated);
    Success(updated)
  }

  /** The second pass is why the line is read twice: every property the line
      addresses ends with the values the line gives it, clean, whatever
      UpdateConstants made of it. */
  lemma SecondPassWins(m: PropMap, line: Line, id: PropId)
    requires SensorLayout(m) && PropertiesInitialised(m, line).Success? && id in m
    requires id in Targets(LineEntries(line))
    ensures var first := DecodePropertiesLine(m, line).value;
            var final := PropertiesInitialised(m, line).value.0;
            final[id].values == first[id].values && !final[id].modified
  {
    var first := DecodePropertiesLine(m, line).value;
    LayoutShape(m, first);
    var updated := M16Constants.UpdateConstants(first).value;
    SameShapeTrans(updated, first, m);
    LineWins(updated, m, line, id);
  }

  /** Two maps holding the same properties agree, after the same properties
      line, on the values of every property it addresses. */
  lemma LineWins(m1: PropMap, m2: PropMap, line: Line, id: PropId)
    requires SameShape(m1, m2) && id in m1 && id in Targets(LineEntries(line))
    requires DecodePropertiesLine(m1, line).Success? && DecodePropertiesLine(m2, line).Success?
    ensures DecodePropertiesLine(m1, line).value[id].values == DecodePropertiesLine(m2, line).value[id].values
    ensures !DecodePropertiesLine(m1, line).value[id].modified
  {
    var entries := LineEntries(line);
    assert DecodePropertiesLine(m1, line) == DecodeEntries(m1, entries, FullDecode);
    assert DecodePropertiesLine(m2, line) == DecodeEntries(m2, entries, FullDecode);
    LineValuesWin(m1, m2, entries, FullDecode, id);
  }

  /** A property the line does not address keeps what UpdateConstants derived for it. */
  lemma SecondPassKeepsConstants(m: PropMap, line: Line, id: PropId)
    requires SensorLayout(m) && PropertiesInitialised(m, line).Success? && id in m
    requires id !in Targets(LineEntries(line))
    ensures var first := DecodePropertiesLine(m, line).value;
            PropertiesInitialised(m, line).value.0[id] == M16Constants.UpdateConstants(first).value[id]
  {
    var first := DecodePropertiesLine(m, line).value;
    LayoutShape(m, first);
    var updated := M16Constants.UpdateConstants(first).value;
    var entries := LineEntries(line);
    assert DecodePropertiesLine(updated, line) == DecodeEntries(updated, entries, FullDecode);
    EntriesFrame(updated, entries, FullDecode, id);
  }

  /** ReadPrevious from frame k + 1 lands on frame k when frame k's line is a frame line. */
  lemma PreviousFrame(lines: seq<Line>, consumed: nat, s: Replay)
    requires |lines| >= LJR_HEADER_LINES && ViewValid(s.frame.echoes)
    requires LJR_HEADER_LINES < consumed <= |lines| && consumed < UINT32_LIMIT
    requires IsFrameLine(lines[consumed - LJR_HEADER_LINES].text) == Success(true)
    requires MovedTo(lines, PreviousTarget(consumed), s).Success?
    ensures Position(MovedTo(lines, PreviousTarget(consumed), s).value.0) == Position(consumed) - 1
  {
    var k := PreviousTarget(consumed);
    assert k == consumed - LJR_HEADER_LINES - 1;
    MoveToLandsOnFrame(lines, k, s);
  }

  /** The line `getline` hands InitProperties after `consumed` lines; once
      the file is exhausted, the empty line, which does not parse. */
  function LineAt(lines: seq<Line>, consumed: nat): (l: Line)
    ensures consumed >= |lines| ==> l.dom.None?
  {
    if consumed < |lines| then lines[consumed] else Line("", None)
  }

  /** What a sensor created for a record holds once InitProperties sized it:
      the decoded properties, the state table with the state scales, no echo
      properties, the echo store resized and swapped. */
  function CreatedState(props: PropMap, sz: Sizing): Replay {
    Replay(props, FrameView(StatesTable(), StatesView(0, 0, sz.temperatureScale, sz.cpuLoadScale), map[],
                            Swapped(Initialised(EMPTY_ECHOES, sz.distanceScale, sz.amplitudeScale, sz.capacity))))
  }

  /** CreateSensor after `consumed` lines: a new M16 sensor, InitProperties
      on the next line, then ReadNext. */
  function SensorCreated(lines: seq<Line>, consumed: nat): (r: Result<(nat, Replay), Error>)
    ensures r.Success? ==> consumed + 1 < r.value.0 <= |lines|
  {
    SensorTableLayout();
    var init :- PropertiesInitialised(SensorTable(), LineAt(lines, consumed));
    NextRead(lines, consumed + 1, CreatedState(init.0, init.1))
  }

  /** CreateSensor in two steps: InitProperties' failure is its failure;
      otherwise ReadNext from the state InitProperties leaves. */
  lemma CreatedInSteps(lines: seq<Line>, consumed: nat)
    ensures SensorLayout(SensorTable())
    ensures var init := PropertiesInitialised(SensorTable(), LineAt(lines, consumed));
            && (init.Failure? ==> SensorCreated(lines, consumed) == Failure(init.error))
            && (init.Success? ==> SensorCreated(lines, consumed) == NextRead(lines, consumed + 1, CreatedState(init.value.0, init.value.1)))
  {
    SensorTableLayout();
  }

  /** On a record whose line 2 is a frame, CreateSensor on a reader just
      opened reads the properties line and stops at position 1, holding that
      frame decoded into the freshly sized buffers. */
  lemma CreatedOnFirstFrame(lines: seq<Line>)
    requires |lines| > LJR_HEADER_LINES && IsFrameLine(lines[2].text) == Success(true)
    requires SensorCreated(lines, 1).Success?
    ensures SensorLayout(SensorTable())
    ensures var init := PropertiesInitialised(SensorTable(), lines[1]);
            init.Success?
            && Position(SensorCreated(lines, 1).value.0) == 1
            && DecodeFrame(lines[2], CreatedState(init.value.0, init.value.1).frame) == Success(SensorCreated(lines, 1).value.1.frame)
  {
    SensorTableLayout();
    var init := PropertiesInitialised(SensorTable(), lines[1]);
    assert init.Success?;
    var s := CreatedState(init.value.0, init.value.1);
    var r := NextRead(lines, 2, s);
    assert SensorCreated(lines, 1) == r;
    NextReadFrame(lines, 2, s, r.value.0, r.value.1);
  }
}
