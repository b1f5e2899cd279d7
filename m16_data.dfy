/** The data channel of the M16 sensor (LdSensorM16::GetData, ProcessStates,
    ProcessEchoes): an echoes message fills the side of the echo store being
    written; only a states message with a new timestamp publishes it, stamped,
    to readers. */
module M16Data {
  import opened Wrappers
  import opened Exceptions
  import opened Properties
  import opened Results
  import opened M16Layout

  /** The kinds of data the sensor is asked to stream (DM_STATES, DM_ECHOES, ...). */
  datatype DataKind = DataStates | DataEchoes | DataTraces

  const DM_ALL: set<DataKind> := {DataStates, DataEchoes, DataTraces}

  /** The mask GetData works with: states carry the timestamp, so a mask that
      is empty or leaves them out is replaced by every kind. */
  function MaskFor(mask: set<DataKind>): (m: set<DataKind>)
    ensures DataStates in m
    ensures DataStates in mask ==> m == mask
    ensures DataStates !in mask ==> m == DM_ALL
  {
    if mask == {} || DataStates !in mask then DM_ALL else mask
  }

  /** Defaulting the mask twice changes nothing more. */
  lemma MaskForIdempotent(mask: set<DataKind>)
    ensures MaskFor(MaskFor(mask)) == MaskFor(mask)
  {
  }

  /** What ReadRequest on the data channel brought: nothing before the
      timeout, an echoes message (its size and elements), a states message
      (its elements, and what the CPU-load request that follows brings back),
      or a request with another code. */
  datatype DataMessage =
    | TimedOut
    | EchoesMessage(size: nat, echoElements: seq<EchoElement>)
    | StatesMessage(stateElements: map<PropId, seq<Value>>, cpuAnswer: Result<seq<Value>, Error>)
    | OtherMessage(code: nat)

  /** The echo fields an echoes message carries, by element id; any other element is skipped. */
  datatype EchoField = AmplitudeField | DistanceField | BaseField | ChannelField | FlagField | OtherField

  /** One element of an echoes message: which field, and one value per echo. */
  datatype EchoElement = EchoElement(field: EchoField, values: seq<int>)

  /** `static_cast<int32_t>` of an integer: its two's-complement residue. */
  function Int32Of(v: int): (r: int)
    ensures -0x8000_0000 <= r < 0x8000_0000 && (r - v) % UINT32_LIMIT == 0
  {
    var u := v % UINT32_LIMIT;
    if u < 0x8000_0000 then u else u - UINT32_LIMIT
  }

  /** One echo with one field replaced by the element value, narrowed to the
      field's width in LdEcho: the channel index, amplitude and base are
      `uint32_t`, the distance `int32_t`, the flag `uint16_t`. */
  function WithField(e: Echo, f: EchoField, v: int): (r: Echo)
    ensures f == OtherField ==> r == e
    ensures r.x == e.x && r.y == e.y && r.z == e.z && r.timestamp == e.timestamp
    ensures f == AmplitudeField ==> 0 <= r.amplitude < UINT32_LIMIT
    ensures f == DistanceField ==> -0x8000_0000 <= r.distance < 0x8000_0000
    ensures f == BaseField ==> 0 <= r.base < UINT32_LIMIT
    ensures f == ChannelField ==> 0 <= r.channelIndex < UINT32_LIMIT
    ensures f == FlagField ==> 0 <= r.flag < 0x1_0000
    ensures f != AmplitudeField ==> r.amplitude == e.amplitude
    ensures f != DistanceField ==> r.distance == e.distance
    ensures f != BaseField ==> r.base == e.base
    ensures f != ChannelField ==> r.channelIndex == e.channelIndex
    ensures f != FlagField ==> r.flag == e.flag
  {
    match f
    case AmplitudeField => e.(amplitude := v % UINT32_LIMIT)
    case DistanceField => e.(distance := Int32Of(v))
    case BaseField => e.(base := v % UINT32_LIMIT)
    case ChannelField => e.(channelIndex := v % UINT32_LIMIT)
    case FlagField => e.(flag := v % 0x1_0000)
    case OtherField => e
  }

  /** A value the field can hold is stored as it is. */
  lemma WithFieldKeepsInRange(e: Echo, f: EchoField, v: int)
    requires f == AmplitudeField || f == BaseField || f == ChannelField ==> 0 <= v < UINT32_LIMIT
    requires f == DistanceField ==> -0x8000_0000 <= v < 0x8000_0000
    requires f == FlagField ==> 0 <= v < 0x1_0000
    ensures f == AmplitudeField ==> WithField(e, f, v).amplitude == v
    ensures f == DistanceField ==> WithField(e, f, v).distance == v
    ensures f == BaseField ==> WithField(e, f, v).base == v
    ensures f == ChannelField ==> WithField(e, f, v).channelIndex == v
    ensures f == FlagField ==> WithField(e, f, v).flag == v
  {
  }

  /** PushElementDataToBuffer: the first i values of the element written into
      field f of the first i slots of the side being filled. */
  function FieldWritten(v: EchoesView, f: EchoField, values: seq<int>, i: nat): (w: EchoesView)
    requires ViewValid(v) && i <= |values| <= Capacity(v)
    ensures ViewValid(w) && Capacity(w) == Capacity(v)
    ensures w.getSide == v.getSide && w.updates == v.updates
    ensures w.setSide.count == v.setSide.count && w.setSide.timestamp == v.setSide.timestamp
    ensures w.distanceScale == v.distanceScale && w.amplitudeScale == v.amplitudeScale
    decreases i
  {
    if i == 0 then v
    else
      var u := FieldWritten(v, f, values, i - 1);
      Written(u, i - 1, WithField(u.setSide.slots[i - 1], f, values[i - 1]))
  }

  /** What the write leaves in each slot: slot j below i holds value j in
      field f, every other slot is untouched. */
  lemma {:induction false} FieldWrittenSlots(v: EchoesView, f: EchoField, values: seq<int>, i: nat)
    requires ViewValid(v) && i <= |values| <= Capacity(v)
    ensures forall j :: 0 <= j < Capacity(v) ==>
              FieldWritten(v, f, values, i).setSide.slots[j] ==
                if j < i then WithField(v.setSide.slots[j], f, values[j]) else v.setSide.slots[j]
    decreases i
  {
    if i > 0 {
      FieldWrittenSlots(v, f, values, i - 1);
    }
  }

  /** The element loop of ProcessEchoes from element k: each recognised
      element sets the echo count to its value count, then writes its field. */
  function ElementsRead(v: EchoesView, elements: seq<EchoElement>, k: nat): (r: Result<EchoesView, Error>)
    requires ViewValid(v) && k <= |elements|
    ensures r.Success? ==> ViewValid(r.value) && Capacity(r.value) == Capacity(v)
    ensures r.Success? ==> r.value.getSide == v.getSide && r.value.updates == v.updates
    ensures r.Success? ==> r.value.setSide.timestamp == v.setSide.timestamp
    ensures r.Success? ==> r.value.distanceScale == v.distanceScale && r.value.amplitudeScale == v.amplitudeScale
    decreases |elements| - k
  {
    if k == |elements| then Success(v)
    else if elements[k].field == OtherField then ElementsRead(v, elements, k + 1)
    else
      var counted :- Counted(v, |elements[k].values|);
      ElementsRead(FieldWritten(counted, elements[k].field, elements[k].values, |elements[k].values|), elements, k + 1)
  }

  /** ProcessEchoes: an empty message only sets the echo count to 0. */
  function EchoesProcessed(v: EchoesView, messageSize: nat, elements: seq<EchoElement>): (r: Result<EchoesView, Error>)
    requires ViewValid(v)
  {
    if messageSize == 0 then Counted(v, 0) else ElementsRead(v, elements, 0)
  }

  /** The echo count the element loop leaves from element k: the value count
      of the last recognised element, the current count when there is none. */
  function LastCount(count: nat, elements: seq<EchoElement>, k: nat): nat
    requires k <= |elements|
    decreases |elements| - k
  {
    if k == |elements| then count
    else if elements[k].field == OtherField then LastCount(count, elements, k + 1)
    else LastCount(|elements[k].values|, elements, k + 1)
  }

  /** ProcessEchoes neither swaps the buffers nor signals readers nor stamps:
      what readers see is unchanged; an element with more values than the
      buffer holds is refused; the count left is the last recognised element's. */
  lemma {:induction false} ElementsReadPublishesNothing(v: EchoesView, elements: seq<EchoElement>, k: nat)
    requires ViewValid(v) && k <= |elements|
    ensures ElementsRead(v, elements, k).Success? ==>
              ElementsRead(v, elements, k).value.setSide.count == LastCount(v.setSide.count, elements, k)
    ensures (forall j :: k <= j < |elements| ==> |elements[j].values| <= Capacity(v)) ==> ElementsRead(v, elements, k).Success?
    ensures (exists j :: k <= j < |elements| && elements[j].field != OtherField && |elements[j].values| > Capacity(v)) ==>
              ElementsRead(v, elements, k) == Failure(OutOfRange("Echo count larger than the echo buffer."))
    decreases |elements| - k
  {
    if k < |elements| {
      if elements[k].field == OtherField {
        ElementsReadPublishesNothing(v, elements, k + 1);
      } else if |elements[k].values| <= Capacity(v) {
        var counted := Counted(v, |elements[k].values|).value;
        var w := FieldWritten(counted, elements[k].field, elements[k].values, |elements[k].values|);
        ElementsReadPublishesNothing(w, elements, k + 1);
      }
    }
  }

  /** The timestamp the state answer leaves: its timestamp element read as
      `uint32_t`, the previous one when it carries none. */
  function StateTimestamp(previous: nat, elements: map<PropId, seq<Value>>): (ts: nat)
    ensures ts != previous ==> ID_RS_TIMESTAMP in elements && ts < UINT32_LIMIT
  {
    if ID_RS_TIMESTAMP in elements && |elements[ID_RS_TIMESTAMP]| > 0 && elements[ID_RS_TIMESTAMP][0].IntV?
    then elements[ID_RS_TIMESTAMP][0].i % UINT32_LIMIT
    else previous
  }

  /** The echoes published for a new timestamp: the filled side stamped,
      swapped to the readers' side, and completion signalled. */
  function Published(v: EchoesView, ts: nat): (w: EchoesView)
    ensures w.getSide == v.setSide.(timestamp := ts) && w.setSide == v.getSide
    ensures w.updates == v.updates + 1
    ensures w.distanceScale == v.distanceScale && w.amplitudeScale == v.amplitudeScale
  {
    Finished(Swapped(Stamped(v, ts)))
  }

  /** What ProcessStates leaves: whether the states were new, the echo store,
      the state store, its properties; or the failure of the CPU-load request,
      with the state already changed. */
  datatype StatesStep = StatesStep(outcome: Result<bool, Error>, echoes: EchoesView, states: StatesView, props: PropMap)

  /** ProcessStates. `elements` is what the state answer carried and
      `cpuAnswer` the values the CPU-load request brought back, or its error. */
  function StatesProcessed(echoes: EchoesView, states: StatesView, props: PropMap, mask: set<DataKind>,
                           elements: map<PropId, seq<Value>>, cpuAnswer: Result<seq<Value>, Error>): (s: StatesStep)
    requires ID_RS_CPU_LOAD in props
    ensures s.props.Keys == props.Keys
  {
    var answered := Answered(props, elements);
    var ts := StateTimestamp(states.timestamp, elements);
    if ts == states.timestamp then StatesStep(Success(false), echoes, states, answered)
    else
      var published := if DataEchoes in mask then Published(echoes, ts) else echoes;
      var stamped := states.(timestamp := ts);
      if cpuAnswer.Failure? then StatesStep(Failure(cpuAnswer.error), published, stamped, answered)
      else
        StatesStep(Success(true), published, stamped.(updates := stamped.updates + 1),
                   answered[ID_RS_CPU_LOAD := answered[ID_RS_CPU_LOAD].(values := cpuAnswer.value)])
  }

  /** ProcessStates reports new states exactly when the timestamp changed and
      the CPU-load request went through; only a new timestamp, with echoes in
      the mask, publishes the filled echo side, stamped with that timestamp;
      otherwise what readers see and the completion count stay as they were. */
  lemma NewStatesPublish(echoes: EchoesView, states: StatesView, props: PropMap, mask: set<DataKind>,
                         elements: map<PropId, seq<Value>>, cpuAnswer: Result<seq<Value>, Error>)
    requires ID_RS_CPU_LOAD in props
    ensures var s := StatesProcessed(echoes, states, props, mask, elements, cpuAnswer);
            var ts := StateTimestamp(states.timestamp, elements);
            (s.outcome == Success(true) <==> ts != states.timestamp && cpuAnswer.Success?)
            && (s.outcome == Success(false) <==> ts == states.timestamp)
            && (ts != states.timestamp && DataEchoes in mask ==>
                  s.echoes.getSide == echoes.setSide.(timestamp := ts) && s.echoes.updates == echoes.updates + 1)
            && (ts == states.timestamp || DataEchoes !in mask ==> s.echoes == echoes)
            && s.states.timestamp == ts
  {
  }

  /** An echoes message followed by states with a new timestamp: readers see
      exactly the echoes the message wrote, with the states' timestamp. */
  lemma EchoesThenStates(v: EchoesView, messageSize: nat, echoElements: seq<EchoElement>,
                         states: StatesView, props: PropMap, mask: set<DataKind>,
                         elements: map<PropId, seq<Value>>, cpuAnswer: Result<seq<Value>, Error>)
    requires ViewValid(v) && ID_RS_CPU_LOAD in props && DataEchoes in mask
    requires EchoesProcessed(v, messageSize, echoElements).Success?
    requires StateTimestamp(states.timestamp, elements) != states.timestamp
    ensures var filled := EchoesProcessed(v, messageSize, echoElements).value;
            var s := StatesProcessed(filled, states, props, mask, elements, cpuAnswer);
            InUse(s.echoes.getSide) == InUse(filled.setSide)
            && s.echoes.getSide.timestamp == StateTimestamp(states.timestamp, elements)
  {
  }
}
