/** What one frame line of a record does to the result buffers
    (LdLjrRecordReader::ReadFrame): the specification the reader's
    ReadFrame method is proved against. */
module FrameDecode {
  import opened Wrappers
  import opened Exceptions
  import opened Json
  import opened Properties
  import opened PropertyDecode
  import opened Results

  /** Truncation toward zero, as `static_cast` of a double to an integer performs it. */
  function Trunc(x: real): (t: int)
    ensures x >= 0.0 ==> t as real <= x < t as real + 1.0
    ensures x < 0.0 ==> t as real - 1.0 < x <= t as real
  {
    if x >= 0.0 then x.Floor else -((-x).Floor)
  }

  /** The buffers a frame line touches. */
  datatype FrameView = FrameView(stateProps: PropMap, states: StatesView, echoProps: PropMap, echoes: EchoesView)

  /** One element of "echoes": the positional tuple (channel, distance, amplitude, flag, x, y, z, ts),
      distance and amplitude re-quantised with the buffer's scales. */
  function DecodeEcho(item: JsonValue, distanceScale: nat, amplitudeScale: nat): (r: Result<Echo, Error>)
    ensures r.Success? ==> item.JArray? && |item.items| >= 8
    ensures r.Success? ==> r.value.base == 0 && 0 <= r.value.flag < 0x1_0000 && 0 <= r.value.channelIndex < UINT32_LIMIT
  {
    var v0 :- Index(item, 0);
    var channel :- AsUint(v0);
    var v1 :- Index(item, 1);
    var distance :- AsDouble(v1);
    var v2 :- Index(item, 2);
    var amplitude :- AsDouble(v2);
    var v3 :- Index(item, 3);
    var flag :- AsUint(v3);
    var v4 :- Index(item, 4);
    var x :- AsDouble(v4);
    var v5 :- Index(item, 5);
    var y :- AsDouble(v5);
    var v6 :- Index(item, 6);
    var z :- AsDouble(v6);
    var v7 :- Index(item, 7);
    var ts :- AsUint64(v7);
    Success(Echo(channel, Trunc(distance * distanceScale as real), Trunc(amplitude * amplitudeScale as real),
                 0, flag % 0x1_0000, x, y, z, ts))
  }

  /** How a recorder writes an echo: distance and amplitude divided back by their scales. */
  function EncodeEcho(e: Echo, distanceScale: nat, amplitudeScale: nat): JsonValue
    requires distanceScale > 0 && amplitudeScale > 0
  {
    JArray([JInt(e.channelIndex), JReal(e.distance as real / distanceScale as real),
            JReal(e.amplitude as real / amplitudeScale as real), JInt(e.flag),
            JReal(e.x), JReal(e.y), JReal(e.z), JInt(e.timestamp)])
  }

  /** Every echo the buffer can hold is read back exactly from what a recorder writes. */
  lemma EchoRoundTrip(e: Echo, distanceScale: nat, amplitudeScale: nat)
    requires distanceScale > 0 && amplitudeScale > 0
    requires e.base == 0 && 0 <= e.flag < 0x1_0000 && 0 <= e.channelIndex < UINT32_LIMIT
    requires 0 <= e.timestamp < UINT64_LIMIT
    ensures DecodeEcho(EncodeEcho(e, distanceScale, amplitudeScale), distanceScale, amplitudeScale) == Success(e)
  {
    ScaledBack(e.distance, distanceScale);
    ScaledBack(e.amplitude, amplitudeScale);
    var item := EncodeEcho(e, distanceScale, amplitudeScale);
    var r := DecodeEcho(item, distanceScale, amplitudeScale);
    assert r.Success?;
    assert r.value.distance == Trunc((e.distance as real / distanceScale as real) * distanceScale as real);
    assert r.value.amplitude == Trunc((e.amplitude as real / amplitudeScale as real) * amplitudeScale as real);
  }

  /** A quantity written divided by its scale is re-quantised to itself. */
  lemma ScaledBack(n: int, scale: nat)
    requires scale > 0
    ensures Trunc((n as real / scale as real) * scale as real) == n
  {
    var s := scale as real;
    var q := n as real / s;
    assert q * s == n as real;
  }

  /** The "echoes" array, in order; the first bad element is the error. */
  function DecodeEchoes(items: seq<JsonValue>, distanceScale: nat, amplitudeScale: nat): (r: Result<seq<Echo>, Error>)
    ensures r.Success? <==> forall j :: 0 <= j < |items| ==> DecodeEcho(items[j], distanceScale, amplitudeScale).Success?
    ensures r.Success? ==> |r.value| == |items|
    ensures r.Success? ==> forall j :: 0 <= j < |items| ==> DecodeEcho(items[j], distanceScale, amplitudeScale) == Success(r.value[j])
    decreases |items|
  {
    if items == [] then Success([])
    else
      var init :- DecodeEchoes(items[..|items| - 1], distanceScale, amplitudeScale);
      var last :- DecodeEcho(items[|items| - 1], distanceScale, amplitudeScale);
      Success(init + [last])
  }

  lemma {:induction false} EchoesFailureSticks(items: seq<JsonValue>, ds: nat, as_: nat, k: nat)
    requires k <= |items| && DecodeEchoes(items[..k], ds, as_).Failure?
    ensures DecodeEchoes(items, ds, as_) == DecodeEchoes(items[..k], ds, as_)
    decreases |items|
  {
    if k < |items| {
      var init := items[..|items| - 1];
      assert init[..k] == items[..k];
      EchoesFailureSticks(init, ds, as_, k);
    } else {
      assert items[..k] == items;
    }
  }

  /** The first slots of the side being filled replaced by `echoes`. */
  function WrittenAll(v: EchoesView, echoes: seq<Echo>): (w: EchoesView)
    requires |echoes| <= Capacity(v)
    ensures |w.setSide.slots| == |v.setSide.slots| && w.setSide.slots[..|echoes|] == echoes
  {
    v.(setSide := v.setSide.(slots := echoes + v.setSide.slots[|echoes|..]))
  }

  /** The optional "ts" of the frame, 0 when absent. */
  function FrameTimestamp(dom: JsonValue): Result<nat, Error> {
    if HasMember(dom, "frame") && HasMember(Get(dom, "frame"), "ts") then AsUint(Get(Get(dom, "frame"), "ts"))
    else Success(0)
  }

  /** The "states" section: stamped first when the frame carries a timestamp. */
  function ApplyStates(v: FrameView, frame: JsonValue, ts: nat): Result<FrameView, Error> {
    var states := if ts != 0 then v.states.(timestamp := ts) else v.states;
    var props :- DecodeStatesSection(v.stateProps, frame);
    Success(v.(states := states, stateProps := props))
  }

  /** The "echoes" section on the echo store: stamp, count, fill the set side, swap, signal. */
  function EchoesApplied(v: EchoesView, echoes: JsonValue, ts: nat): (r: Result<EchoesView, Error>)
    requires ViewValid(v)
  {
    var stamped := if ts != 0 then Stamped(v, ts) else v;
    var items :- AsArray(echoes);
    var counted :- Counted(stamped, |items|);
    var decoded :- DecodeEchoes(items, counted.distanceScale, counted.amplitudeScale);
    Success(Finished(Swapped(WrittenAll(counted, decoded))))
  }

  /** The "echoes" section applied to the buffers a frame touches. */
  function ApplyEchoes(v: FrameView, echoes: JsonValue, ts: nat): (r: Result<FrameView, Error>)
    requires ViewValid(v.echoes)
  {
    var e :- EchoesApplied(v.echoes, echoes, ts);
    Success(v.(echoes := e))
  }

  /** A whole frame line: parsed, checked to be a frame, its timestamp read, then its sections. */
  function DecodeFrame(line: Line, v: FrameView): (r: Result<FrameView, Error>)
    requires ViewValid(v.echoes)
    ensures line.dom.Some? && !(HasMember(line.dom.value, "frame") && Get(line.dom.value, "frame").JObject?)
            ==> r == Failure(RuntimeError("Record line is not a frame."))
  {
    if line.dom.None? then Failure(RuntimeError("Error parsing frame"))
    else
      var dom := line.dom.value;
      if !HasMember(dom, "frame") || !Get(dom, "frame").JObject? then Failure(RuntimeError("Record line is not a frame."))
      else
        var ts :- FrameTimestamp(dom);
        FrameSections(v, Get(dom, "frame"), ts)
  }

  /** The sections of a frame, applied in the order states, echoes_prop, echoes. */
  function FrameSections(v: FrameView, frame: JsonValue, ts: nat): (r: Result<FrameView, Error>)
    requires ViewValid(v.echoes)
    ensures !HasMember(frame, "echoes") && r.Success? ==> r.value.echoes == v.echoes
  {
    var v2 :- PropertySections(v, frame, ts);
    if HasMember(frame, "echoes") then ApplyEchoes(v2, Get(frame, "echoes"), ts) else Success(v2)
  }

  /** The "states" and "echoes_prop" sections of a frame; the echo store is not touched. */
  function PropertySections(v: FrameView, frame: JsonValue, ts: nat): (r: Result<FrameView, Error>)
    ensures r.Success? ==> r.value.echoes == v.echoes
  {
    var v1 :- if HasMember(frame, "states") then ApplyStates(v, frame, ts) else Success(v);
    if HasMember(frame, "echoes_prop") then
      var ep :- DecodeEchoPropertiesSection(v1.echoProps, frame);
      Success(v1.(echoProps := ep))
    else Success(v1)
  }

  /** After an "echoes" section the readers' side holds exactly the decoded
      echoes, stamped with the frame's timestamp when it has one; the side
      they saw before is the one filled next; completion is signalled once. */
  lemma EchoesSection(v: FrameView, echoes: JsonValue, ts: nat)
    requires ViewValid(v.echoes) && ApplyEchoes(v, echoes, ts).Success?
    ensures var w := ApplyEchoes(v, echoes, ts).value.echoes;
            var decoded := DecodeEchoes(echoes.items, v.echoes.distanceScale, v.echoes.amplitudeScale);
            echoes.JArray? && decoded.Success?
            && w.getSide.count == |echoes.items| <= |w.getSide.slots|
            && InUse(w.getSide) == decoded.value
            && w.getSide.timestamp == (if ts != 0 then ts else v.echoes.setSide.timestamp)
            && w.setSide == v.echoes.getSide
            && w.updates == v.echoes.updates + 1
            && w.distanceScale == v.echoes.distanceScale && w.amplitudeScale == v.echoes.amplitudeScale
  {
  }

  /** A frame without an "echoes" member neither swaps nor signals the echo store. */
  lemma NoEchoesNoSwap(line: Line, v: FrameView)
    requires ViewValid(v.echoes) && DecodeFrame(line, v).Success?
    requires !HasMember(Get(line.dom.value, "frame"), "echoes")
    ensures DecodeFrame(line, v).value.echoes == v.echoes
  {
  }
}
