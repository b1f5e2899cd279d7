/** The M16 sensor facade (LdSensorM16) as far as it keeps its property
    containers and result buffers consistent. Every exchange with the device
    is an input: what an answer wrote into the properties, the answer code,
    the outcome of each ReadAnswer. */
module SensorM16 {
  import opened Wrappers
  import opened Exceptions
  import opened Properties
  import opened Results
  import opened M16Layout
  import opened M16Constants
  import M16ConstantsInOrder
  import opened M16Requests
  import opened M16License
  import opened M16Intensity
  import opened M16Startup
  import opened M16Data

  class Sensor {
    const props: PropertiesContainer
    const states: ResultStates
    const echoes: ResultEchoes
    var dataMask: set<DataKind>

    ghost predicate Valid()
      reads this, props, states, states.props, echoes, echoes.props
    {
      props.Valid() && states.Valid() && echoes.Valid() && SensorLayout(props.props) && StatesLayout(states.props.props)
      && props != states.props && props != echoes.props && states.props != echoes.props
    }

    /** A sensor as the device factory hands it out: the M16 property table,
        the state table, an echo store with no room yet, no data requested. */
    constructor ()
      ensures Valid() && fresh(props) && fresh(states) && fresh(states.props) && fresh(echoes) && fresh(echoes.props)
      ensures fresh(echoes.bufA) && fresh(echoes.bufB)
      ensures props.props == SensorTable() && states.props.props == StatesTable()
      ensures echoes.View() == EMPTY_ECHOES && echoes.props.props == map[] && states.View() == StatesView(0, 0, 0, 0)
      ensures dataMask == {}
    {
      TablesIndexed();
      SensorTableLayout();
      var echoProps := new PropertiesContainer(map[], map[]);
      echoes := new ResultEchoes(echoProps);
      var stateProps := new PropertiesContainer(StatesTable(), StatesIndex());
      states := new ResultStates(stateProps);
      props := new PropertiesContainer(SensorTable(), SensorIndex());
      dataMask := {};
    }

    /** The exponent loop: AddEnumPair(i, 2^i) for i from lo up to hi. */
    method AddExponentPairs(id: PropId, lo: nat, hi: int)
      requires props.Valid() && SensorLayout(props.props) && id in props.props
      modifies props
      ensures props.Valid() && SensorLayout(props.props) && props.props == old(props.props)[id := ExponentPairs(old(props.props)[id], lo, hi)]
    {
      ghost var m0 := props.props;
      var i := lo;
      while i <= hi
        invariant lo <= i && (i <= hi + 1 || i == lo)
        invariant props.Valid() && SensorLayout(props.props) && props.props == m0[id := ExponentPairs(m0[id], lo, i - 1)]
        decreases hi - i
      {
        props.AddEnumPair(id, i, Decimal(Pow2(i)));
        assert props.props == m0[id := ExponentPairs(m0[id], lo, i)];
        i := i + 1;
      }
    }

    /** LdSensorM16::UpdateConstants, in the source's order. Each read checks what
        the accessor would throw on; on success the properties are the ones the
        UpdateConstants function computes, on failure the error is the first failing read's. */
    method UpdateConstants() returns (r: Outcome<Error>)
      requires props.Valid() && SensorLayout(props.props)
      modifies props
      ensures props.Valid() && SensorLayout(props.props)
      ensures r.Pass? <==> ConstantsReadable(old(props.props))
      ensures r.Pass? ==> props.props == M16Constants.UpdateConstants(old(props.props)).value
      ensures r.Fail? ==> r.error == ConstantsReadError(old(props.props))
    {
      ghost var m0 := props.props;
      M16ConstantsInOrder.InOrderIsUpdateConstants(m0);
      r := PinEchoCount();
      if r.Fail? { return; }
      r := ScaleThreshold();
      if r.Fail? { return; }
      r := SetSegments();
      if r.Fail? { return; }
      r := SetAcquisitionLimits();
      if r.Fail? { return; }
      r := SetDelayLimits();
      if r.Fail? { return; }
      r := SetDistanceScales();
    }

    /** Statement 1: the echo count forced to the M16 maximum, then marked clean. */
    method PinEchoCount() returns (r: Outcome<Error>)
      requires props.Valid() && SensorLayout(props.props)
      modifies props
      ensures props.Valid() && SensorLayout(props.props)
      ensures M16ConstantsInOrder.Follows(r, props.props, M16ConstantsInOrder.PinEchoCount(old(props.props)))
    {
      if |props.props[ID_MAX_ECHOES_PER_CHANNEL].values| == 0 {
        return Fail(INDEX_ERROR);
      }
      props.ForceValue(ID_MAX_ECHOES_PER_CHANNEL, 0, IntV(M16_MAX_ECHOES_BY_CHANNEL));
      props.SetClean(ID_MAX_ECHOES_PER_CHANNEL);
      r := Pass;
    }

    /** Statements 2 and 3: the threshold offset and its limits take the amplitude scale. */
    method ScaleThreshold() returns (r: Outcome<Error>)
      requires props.Valid() && SensorLayout(props.props)
      modifies props
      ensures props.Valid() && SensorLayout(props.props)
      ensures M16ConstantsInOrder.Follows(r, props.props, M16ConstantsInOrder.ScaleThreshold(old(props.props)))
    {
      var amp := IntAt(props.props[ID_FILTERED_AMP_SCALE], 0);
      if amp.Failure? {
        return Fail(amp.error);
      }
      props.SetScale(ID_SENSIVITY_OLD, amp.value % UINT32_LIMIT);
      props.SetScale(ID_SENSIVITY_LIMITS, props.props[ID_SENSIVITY_OLD].scale);
      r := Pass;
    }

    /** Statements 4 to 6: the horizontal segment default, the segment-enable mask, one vertical segment. */
    method SetSegments() returns (r: Outcome<Error>)
      requires props.Valid() && SensorLayout(props.props)
      modifies props
      ensures props.Valid() && SensorLayout(props.props)
      ensures M16ConstantsInOrder.Follows(r, props.props, M16ConstantsInOrder.SetSegments(old(props.props)))
    {
      DefaultHSegment();
      var h := IntAt(props.props[ID_HSEGMENT], 0);
      if h.Failure? {
        return Fail(h.error);
      }
      props.SetLimits(ID_SEGMENT_ENABLE, MaskLimit(SegmentMask(h.value)));
      if |props.props[ID_VSEGMENT].values| == 0 {
        return Fail(INDEX_ERROR);
      }
      props.ForceValue(ID_VSEGMENT, 0, IntV(1));
      r := Pass;
    }

    /** A horizontal segment count the device did not send defaults to one segment per channel. */
    method DefaultHSegment()
      requires props.Valid() && SensorLayout(props.props)
      modifies props
      ensures props.Valid() && SensorLayout(props.props)
      ensures props.props == old(props.props)[ID_HSEGMENT := HSegments(old(props.props)[ID_HSEGMENT])]
    {
      if |props.props[ID_HSEGMENT].values| == 0 {
        props.SetCount(ID_HSEGMENT, 1);
        props.ForceValue(ID_HSEGMENT, 0, IntV(M16_NUMBER_CHANNELS));
      } else {
        assert props.props == props.props[ID_HSEGMENT := props.props[ID_HSEGMENT]];
      }
    }

    /** Statements 7 to 9: the base point count limits, the accumulation and oversampling exponents. */
    method SetAcquisitionLimits() returns (r: Outcome<Error>)
      requires props.Valid() && SensorLayout(props.props)
      modifies props
      ensures props.Valid() && SensorLayout(props.props)
      ensures M16ConstantsInOrder.Follows(r, props.props, M16ConstantsInOrder.SetAcquisitionLimits(old(props.props)))
    {
      var bp := LimitPair(props.props[ID_BASE_POINT_COUNT_LIMITS], 2, 64);
      if bp.Failure? {
        return Fail(bp.error);
      }
      props.SetLimits(ID_BASE_POINT_COUNT, IntLimits(bp.value.0, bp.value.1));
      var acc := LimitPair(props.props[ID_ACCUMULATION_LIMITS], 0, 10);
      if acc.Failure? {
        return Fail(acc.error);
      }
      AddExponentPairs(ID_ACCUMULATION_EXP, acc.value.0 % SIZE_T_LIMIT, acc.value.1 % SIZE_T_LIMIT);
      var ovs := LimitPair(props.props[ID_OVERSAMPLING_LIMITS], 0, 3);
      if ovs.Failure? {
        return Fail(ovs.error);
      }
      AddExponentPairs(ID_OVERSAMPLING_EXP, ovs.value.0 % SIZE_T_LIMIT, ovs.value.1 % SIZE_T_LIMIT);
      r := Pass;
    }

    /** Statements 10 to 12: the threshold offset limits, the change delay limits, the CAN-port echo limit. */
    method SetDelayLimits() returns (r: Outcome<Error>)
      requires props.Valid() && SensorLayout(props.props)
      modifies props
      ensures props.Valid() && SensorLayout(props.props)
      ensures M16ConstantsInOrder.Follows(r, props.props, M16ConstantsInOrder.SetDelayLimits(old(props.props)))
    {
      var th := RealLimitPair(props.props[ID_SENSIVITY_LIMITS], -5.0, 100.0);
      if th.Failure? {
        return Fail(th.error);
      }
      props.SetLimits(ID_SENSIVITY_OLD, RealLimits(th.value.0, th.value.1));
      var cd := LimitPair(props.props[ID_CHANGE_DELAY_LIMITS], 0, 32767);
      if cd.Failure? {
        return Fail(cd.error);
      }
      props.SetLimits(ID_CHANGE_DELAY, IntLimits(cd.value.0, cd.value.1));
      if |props.props[ID_COM_CAN_PORT_MAX_ECHOES_LIMIT].values| > 0 {
        var can := IntAt(props.props[ID_COM_CAN_PORT_MAX_ECHOES_LIMIT], 0);
        if can.Failure? {
          return Fail(can.error);
        }
        props.SetLimits(ID_COM_CAN_PORT_MAX_ECHOES, IntLimits(0, can.value));
      }
      r := Pass;
    }

    /** Statements 13 to 15: the detection length and threshold tables take the distance and amplitude scales. */
    method SetDistanceScales() returns (r: Outcome<Error>)
      requires props.Valid() && SensorLayout(props.props)
      modifies props
      ensures props.Valid() && SensorLayout(props.props)
      ensures M16ConstantsInOrder.Follows(r, props.props, M16ConstantsInOrder.SetDistanceScales(old(props.props)))
    {
      var dist := IntAt(props.props[ID_DISTANCE_SCALE], 0);
      if dist.Failure? {
        return Fail(dist.error);
      }
      props.SetScale(ID_DETECTION_LENGTH, dist.value % UINT32_LIMIT);
      props.SetScale(ID_STATIC_THRESHOLD_DISTANCES, dist.value % UINT32_LIMIT);
      var amp := IntAt(props.props[ID_FILTERED_AMP_SCALE], 0);
      if amp.Failure? {
        return Fail(amp.error);
      }
      props.SetScale(ID_STATIC_THRESHOLD_AMPLITUDES, amp.value % UINT32_LIMIT);
      r := Pass;
    }
  
    /** The loop `if (Modified()) SetClean()` over the properties of one category. */
    method CleanCategory(cat: Category)
      requires props.Valid()
      modifies props
      ensures props.Valid() && props.props == Cleaned(old(props.props), cat)
    {
      ghost var m0 := props.props;
      var left := props.ByCategory(cat);
      assert CleanedExcept(m0, cat, left) == m0;
      while left != {}
        invariant props.Valid() && left <= m0.Keys
        invariant forall id :: id in left ==> m0[id].category == cat
        invariant props.props == CleanedExcept(m0, cat, left)
        decreases left
      {
        var id :| id in left;
        CleanStep(m0, cat, left, id);
        if props.props[id].modified {
          props.SetClean(id);
        }
        left := left - {id};
      }
      assert CleanedExcept(m0, cat, {}) == Cleaned(m0, cat);
    }

    /** GetConfig: `answer` is how the read of the answer went, `reply` the
        properties as the answer left them; then the configuration is cleaned. */
    method GetConfig(answer: Outcome<Error>, reply: PropMap) returns (r: Outcome<Error>)
      requires props.Valid() && SameShape(props.props, reply)
      modifies props
      ensures props.Valid() && r == answer
      ensures r.Pass? ==> props.props == Cleaned(reply, CatConfiguration)
      ensures r.Fail? ==> props.props == old(props.props)
    {
      r := answer;
      if r.Fail? {
        return;
      }
      WellIndexedShape(props.props, reply, props.byDevice);
      props.Refresh(reply);
      CleanCategory(CatConfiguration);
    }

    /** GetCalib: as GetConfig, for the calibration properties. */
    method GetCalib(answer: Outcome<Error>, reply: PropMap) returns (r: Outcome<Error>)
      requires props.Valid() && SameShape(props.props, reply)
      modifies props
      ensures props.Valid() && r == answer
      ensures r.Pass? ==> props.props == Cleaned(reply, CatCalibration)
      ensures r.Fail? ==> props.props == old(props.props)
    {
      r := answer;
      if r.Fail? {
        return;
      }
      WellIndexedShape(props.props, reply, props.byDevice);
      props.Refresh(reply);
      CleanCategory(CatCalibration);
    }

    /** SetConfig: the request holds exactly the modified configuration
        properties; once the device has answered they are marked clean. */
    method SetConfig(answer: Outcome<Error>) returns (r: Outcome<Error>, request: set<PropId>)
      requires props.Valid()
      modifies props
      ensures props.Valid() && r == answer
      ensures request == ModifiedIn(old(props.props), CatConfiguration)
      ensures r.Pass? ==> props.props == Cleaned(old(props.props), CatConfiguration)
      ensures r.Fail? ==> props.props == old(props.props)
    {
      var ids := props.ByCategory(CatConfiguration);
      var left := ids;
      request := {};
      while left != {}
        invariant left <= ids
        invariant request == set id | id in ids - left && props.props[id].modified
        decreases left
      {
        var id :| id in left;
        if props.props[id].modified {
          request := request + {id};
        }
        left := left - {id};
      }
      r := answer;
      if r.Fail? {
        return;
      }
      CleanCategory(CatConfiguration);
    }

    /** GetListing: `reply` is the listing of element ids the answer carried,
        or the error its read threw. The firmware is supported only when the
        listing holds the data-level element. */
    method GetListing(reply: Result<seq<nat>, Error>) returns (r: Outcome<Error>)
      ensures reply.Failure? ==> r == Fail(reply.error)
      ensures reply.Success? ==> (r.Pass? <==> M16_ID_DATA_LEVEL in reply.value)
      ensures reply.Success? && r.Fail? ==> r.error == RuntimeError("Your firmware is incompatible with the SDK, please update your firmware.")
    {
      if reply.Failure? {
        return Fail(reply.error);
      }
      var listing := reply.value;
      var valid := false;
      var i := 0;
      while i < |listing|
        invariant 0 <= i <= |listing|
        invariant valid <==> M16_ID_DATA_LEVEL in listing[..i]
      {
        if listing[i] == M16_ID_DATA_LEVEL {
          valid := true;
        }
        i := i + 1;
      }
      assert listing[..i] == listing;
      if !valid {
        return Fail(RuntimeError("Your firmware is incompatible with the SDK, please update your firmware."));
      }
      r := Pass;
    }

    /** GetIntensityMappings: `powers[i]` holds the LED_POWER elements the
        device answered for setting i, or the error the read of that answer
        threw, which ends the call with the properties untouched. Otherwise
        the powers are gathered, then the enum gets a pair for each setting
        whose power differs from the one above it. */
    method GetIntensityMappings(powers: seq<Result<seq<int>, Error>>) returns (r: Outcome<Error>)
      requires props.Valid() && SensorLayout(props.props) && |powers| == M16_LED_INTENSITY_MAX + 1
      modifies props
      ensures props.Valid() && SensorLayout(props.props)
      ensures var read := PowersRead(powers);
              (r.Pass? <==> read.Success?) && (r.Fail? ==> r.error == read.error && props.props == old(props.props))
      ensures r.Pass? ==> props.props == old(props.props)[ID_LED_INTENSITY :=
                IntensityPairs(old(props.props)[ID_LED_INTENSITY], Mapping(PowersRead(powers).value), M16_LED_INTENSITY_MAX, POWER_ABOVE_ALL)]
    {
      var mapping;
      r, mapping := GatherPowers(powers);
      if r.Fail? {
        return;
      }
      AddIntensityPairs(mapping);
    }

    /** The first loop of GetIntensityMappings: one request per setting, and
        the power of each setting in a mapping whose elements start at 0; the
        first answer that cannot be read ends the loop with its error. */
    static method GatherPowers(powers: seq<Result<seq<int>, Error>>) returns (r: Outcome<Error>, mapping: seq<nat>)
      ensures var read := PowersRead(powers);
              (r.Pass? <==> read.Success?) && (r.Fail? ==> r.error == read.error)
              && (r.Pass? ==> mapping == Mapping(read.value))
    {
      var a := new nat[|powers|](_ => 0);
      var i := 0;
      while i < |powers|
        invariant 0 <= i <= |powers|
        invariant forall j :: 0 <= j < i ==> powers[j].Success? && a[j] == PowerOf(powers[j].value)
        invariant forall j :: i <= j < |powers| ==> a[j] == 0
      {
        if powers[i].Failure? {
          return Fail(powers[i].error), [];
        }
        var answer := powers[i].value;
        var e := 0;
        while e < |answer|
          invariant 0 <= e <= |answer|
          invariant a[i] == if e == 0 then 0 else answer[e - 1] % 256
          invariant forall j :: 0 <= j < i ==> a[j] == PowerOf(powers[j].value)
          invariant forall j :: i < j < |powers| ==> a[j] == 0
        {
          a[i] := answer[e] % 256;
          e := e + 1;
        }
        i := i + 1;
      }
      mapping := a[..];
      r := Pass;
    }

    /** The second loop of GetIntensityMappings, from the top setting down. */
    method AddIntensityPairs(mapping: seq<nat>)
      requires props.Valid() && SensorLayout(props.props) && |mapping| == M16_LED_INTENSITY_MAX + 1
      modifies props
      ensures props.Valid() && SensorLayout(props.props)
      ensures props.props == old(props.props)[ID_LED_INTENSITY :=
                IntensityPairs(old(props.props)[ID_LED_INTENSITY], mapping, M16_LED_INTENSITY_MAX, POWER_ABOVE_ALL)]
    {
      ghost var m0 := props.props;
      assert ID_LED_INTENSITY in m0;
      var last: nat := POWER_ABOVE_ALL;
      var k: int := M16_LED_INTENSITY_MAX;
      while k >= 0
        invariant -1 <= k <= M16_LED_INTENSITY_MAX && ID_LED_INTENSITY in m0 && SensorLayout(m0)
        invariant props.Valid() && ID_LED_INTENSITY in props.props
        invariant props.props == m0[ID_LED_INTENSITY := props.props[ID_LED_INTENSITY]]
        invariant IntensityPairs(props.props[ID_LED_INTENSITY], mapping, k, last)
                  == IntensityPairs(m0[ID_LED_INTENSITY], mapping, M16_LED_INTENSITY_MAX, POWER_ABOVE_ALL)
        decreases k + 1
      {
        if mapping[k] != last {
          last := mapping[k];
          props.AddEnumPair(ID_LED_INTENSITY, k, Decimal(last));
        }
        k := k - 1;
      }
    }

    /** SetProperties: for each device id with a property in `c`, one request,
        whose answer is read until it passes, fails for good, or the retries run
        out; the first failure ends the call. `sent` lists the ids requested. */
    method SetProperties(c: PropertiesContainer, ids: seq<nat>, retries: nat, answers: Answers) returns (r: Outcome<Error>, sent: seq<nat>)
      requires c.Valid()
      ensures (r, sent) == PropertiesSent(c.byDevice.Keys, ids, retries, answers, 0)
    {
      ghost var devices := c.byDevice.Keys;
      sent := [];
      var i := 0;
      while i < |ids|
        invariant 0 <= i <= |ids|
        invariant PropertiesSent(devices, ids, retries, answers, 0).0 == PropertiesSent(devices, ids, retries, answers, i).0
        invariant PropertiesSent(devices, ids, retries, answers, 0).1 == sent + PropertiesSent(devices, ids, retries, answers, i).1
      {
        var found := c.FindDeviceProperty(ids[i]);
        if found.Some? {
          var a := ReadAnswer(answers, i, retries);
          assert ids[i] in devices;
          sent := sent + [ids[i]];
          if a.Fail? {
            assert PropertiesSent(devices, ids, retries, answers, i) == (a, [ids[i]]);
            return a, sent;
          }
          assert PropertiesSent(devices, ids, retries, answers, i).1 == [ids[i]] + PropertiesSent(devices, ids, retries, answers, i + 1).1;
        } else {
          assert PropertiesSent(devices, ids, retries, answers, i) == PropertiesSent(devices, ids, retries, answers, i + 1);
        }
        i := i + 1;
      }
      assert sent + [] == sent;
      r := Pass;
    }

    /** The do-while of SetProperties: the answer is read again while it is a
        communication error other than a disconnection and retries are left. */
    static method ReadAnswer(answers: Answers, i: nat, retries: nat) returns (a: Outcome<Error>)
      ensures a == ReadAnswerRetried(answers, i, 0, retries).1
    {
      var k: nat := 0;
      var left := retries;
      a := answers(i, 0);
      while Retryable(a) && left != 0
        invariant k + left == retries && a == answers(i, k)
        invariant ReadAnswerRetried(answers, i, k, left) == ReadAnswerRetried(answers, i, 0, retries)
        decreases left
      {
        k := k + 1;
        left := left - 1;
        a := answers(i, k);
      }
      assert ReadAnswerRetried(answers, i, k, left) == (k + 1, a);
    }
 
    /** SendLicense(const uint8_t *, bool): the key goes into element 0 of the
        license property, marked clean, and is written; then come the answer
        code of the write, the read-back of key and information with its answer
        code, and the license the device describes, type 0 meaning "Invalid license.". */
    method SendLicenseKey(key: seq<Byte>, isVolatile: bool, x: LicenseExchange) returns (r: Result<License, Error>)
      requires props.Valid() && LicenseLayout(props.props)
      modifies props
      ensures props.Valid() && props.props.Keys == old(props.props).Keys && props.byDevice == old(props.byDevice)
      ensures r == SendLicenseOutcome(old(props.props), old(props.byDevice).Keys, isVolatile, x)
      ensures props.props == SendLicenseState(old(props.props), old(props.byDevice).Keys, key, isVolatile, x)
    {
      StoreKey(KeyId(isVolatile), key);
      var sent, _ := SetProperties(props, [DeviceOf(KeyId(isVolatile))], x.retries, x.answers);
      if sent.Fail? {
        return Failure(sent.error);
      }
      if x.setCode != LT_COMM_ANSWER_OK {
        return Failure(AnswerCodeError(x.setCode));
      }
      assert ReadRequested(props.byDevice.Keys, isVolatile, x);
      r := ReadLicenseBack(isVolatile, x);
    }

    /** The key stored in element 0 of its property (one element made if there
        is none) and marked clean. */
    method StoreKey(keyId: PropId, key: seq<Byte>)
      requires props.Valid() && keyId in props.props
      modifies props
      ensures props.Valid() && props.byDevice == old(props.byDevice)
      ensures props.props == old(props.props)[keyId := KeyStored(old(props.props)[keyId], key)]
    {
      ghost var m0 := props.props;
      EnsureElement(keyId);
      props.ForceValue(keyId, 0, TextV(TextOfKey(key)));
      props.SetClean(keyId);
      assert props.props[keyId] == KeyStored(m0[keyId], key);
    }

    /** `if (Count() == 0) SetCount(1)`: the property gets one element when it had none. */
    method EnsureElement(id: PropId)
      requires props.Valid() && id in props.props
      modifies props
      ensures props.Valid() && props.byDevice == old(props.byDevice)
      ensures props.props == old(props.props)[id := if |old(props.props)[id].values| == 0 then WithCount(old(props.props)[id], 1) else old(props.props)[id]]
    {
      if |props.props[id].values| == 0 {
        props.SetCount(id, 1);
      } else {
        assert props.props == props.props[id := props.props[id]];
      }
    }

    /** The read-back of SendLicense once the write's answer code was good: a
        failed read of its answer is the error, with the properties untouched;
        otherwise the reply reaches the properties before its answer code is checked. */
    method ReadLicenseBack(isVolatile: bool, x: LicenseExchange) returns (r: Result<License, Error>)
      requires props.Valid() && LicenseLayout(props.props) && !props.props[KeyId(isVolatile)].modified
      modifies props
      ensures props.Valid() && props.byDevice == old(props.byDevice)
      ensures x.infoAnswer.Fail? ==> r == Failure(x.infoAnswer.error)
      ensures x.infoAnswer.Pass? && x.infoCode != LT_COMM_ANSWER_OK ==> r == Failure(AnswerCodeError(x.infoCode))
      ensures x.infoAnswer.Pass? && x.infoCode == LT_COMM_ANSWER_OK ==>
                r == LicenseOfReply(old(props.props)[KeyId(isVolatile)].(values := x.keyReply),
                                    old(props.props)[InfoId(isVolatile)].(values := x.infoReply))
      ensures props.props == ReadBackState(old(props.props), isVolatile, x)
    {
      if x.infoAnswer.Fail? {
        return Failure(x.infoAnswer.error);
      }
      var keyId, infoId := KeyId(isVolatile), InfoId(isVolatile);
      props.ReadValues(keyId, x.keyReply);
      props.ReadValues(infoId, x.infoReply);
      if x.infoCode != LT_COMM_ANSWER_OK {
        return Failure(AnswerCodeError(x.infoCode));
      }
      var text := TextAt(props.props[keyId], 0);
      var info := IntAt(props.props[infoId], 0);
      if text.Failure? {
        return Failure(text.error);
      }
      if info.Failure? {
        return Failure(info.error);
      }
      var license := DecodeLicense(text.value, info.value);
      props.SetClean(infoId);
      if license.ltype == 0 {
        return Failure(INVALID_LICENSE);
      }
      r := Success(license);
    }

    /** SendLicense(const std::string &, bool): a text of the wrong length is
        refused before anything is sent; otherwise each pair of characters
        becomes one key byte, in a buffer that starts at zero. */
    method SendLicense(text: string, isVolatile: bool, x: LicenseExchange) returns (r: Result<License, Error>)
      requires props.Valid() && LicenseLayout(props.props)
      modifies props
      ensures props.Valid() && props.props.Keys == old(props.props).Keys
      ensures LicenseKey(text).Failure? ==> r == Failure(LENGTH_ERROR) && props.props == old(props.props)
      ensures LicenseKey(text).Success? ==>
                r == SendLicenseOutcome(old(props.props), old(props.byDevice).Keys, isVolatile, x)
                && props.props == SendLicenseState(old(props.props), old(props.byDevice).Keys, LicenseKey(text).value, isVolatile, x)
    {
      if |text| != LICENSE_TEXT_LENGTH && |text| != 0 {
        return Failure(LENGTH_ERROR);
      }
      var key := ParseKey(text);
      r := SendLicenseKey(key, isVolatile, x);
    }

    /** The conversion loop of SendLicense: byte i/2 from characters i and i + 1. */
    static method ParseKey(text: string) returns (key: seq<Byte>)
      requires |text| == LICENSE_TEXT_LENGTH || |text| == 0
      ensures LicenseKey(text) == Success(key)
    {
      var buffer := new Byte[LT_COMM_LICENSE_KEY_LENGTH](_ => 0);
      var i := 0;
      while i < |text|
        invariant 0 <= i <= |text| && i % 2 == 0
        invariant forall k :: 0 <= k < i / 2 ==> buffer[k] == PairValue(text[2 * k], text[2 * k + 1])
        invariant forall k :: i / 2 <= k < LT_COMM_LICENSE_KEY_LENGTH ==> buffer[k] == 0
      {
        buffer[i / 2] := PairValue(text[i], text[i + 1]);
        i := i + 2;
      }
      key := buffer[..];
      if |text| == 0 {
        assert key == EmptyKey();
      } else {
        assert key == KeyOfText(text);
      }
    }

    /** RemoveLicense: when the text names the stored permanent license
        (ignoring case), the all-zero key is sent and the refusal it draws is
        swallowed; any other text changes nothing. */
    method RemoveLicense(text: string, x: LicenseExchange) returns (r: Outcome<Error>)
      requires props.Valid() && LicenseLayout(props.props)
      modifies props
      ensures props.Valid() && props.props.Keys == old(props.props).Keys
      ensures r == RemoveLicenseOutcome(old(props.props), old(props.byDevice).Keys, text, x)
      ensures var current := TextAt(old(props.props)[ID_LICENSE], 0);
              props.props == if current.Success? && SameLicense(text, current.value)
                             then SendLicenseState(old(props.props), old(props.byDevice).Keys, EmptyKey(), false, x)
                             else old(props.props)
    {
      var current := TextAt(props.props[ID_LICENSE], 0);
      if current.Failure? {
        return Fail(current.error);
      }
      if SameLicense(text, current.value) {
        var sent := SendLicenseKey(EmptyKey(), false, x);
        if sent.Failure? && sent.error != INVALID_LICENSE {
          return Fail(sent.error);
        }
      }
      r := Pass;
    }

    /** GetLicenses: `answer` is how the read of the answer went; when it
        fails that error is thrown and no property changes. Otherwise the four
        license properties take the reply whatever the answer code; with a
        wrong code the list is empty, otherwise the permanent pair is marked
        clean and one license is listed per key element. */
    method GetLicenses(answer: Outcome<Error>, code: nat, keyReply: seq<Value>, infoReply: seq<Value>,
                       volatileKeyReply: seq<Value>, volatileInfoReply: seq<Value>) returns (r: Result<seq<License>, Error>)
      requires props.Valid() && LicenseLayout(props.props)
      modifies props
      ensures props.Valid() && props.props.Keys == old(props.props).Keys
      ensures answer.Fail? ==> r == Failure(answer.error) && props.props == old(props.props)
      ensures answer.Pass? && code != LT_COMM_ANSWER_OK ==>
                r == Success([]) && props.props == LicensesApplied(old(props.props), keyReply, infoReply, volatileKeyReply, volatileInfoReply)
      ensures answer.Pass? && code == LT_COMM_ANSWER_OK ==>
                r == LicensesFrom(old(props.props)[ID_LICENSE].(values := keyReply), old(props.props)[ID_LICENSE_INFO].(values := infoReply), 0)
      ensures answer.Pass? && code == LT_COMM_ANSWER_OK ==>
                props.props == LicensesReadState(old(props.props), keyReply, infoReply, volatileKeyReply, volatileInfoReply)
    {
      if answer.Fail? {
        return Failure(answer.error);
      }
      var keyProp, infoProp := props.props[ID_LICENSE].(values := keyReply), props.props[ID_LICENSE_INFO].(values := infoReply);
      props.ReadValues(ID_LICENSE, keyReply);
      props.ReadValues(ID_LICENSE_INFO, infoReply);
      props.ReadValues(ID_VOLATILE_LICENSE, volatileKeyReply);
      props.ReadValues(ID_VOLATILE_LICENSE_INFO, volatileInfoReply);
      if code != LT_COMM_ANSWER_OK {
        return Success([]);
      }
      props.SetClean(ID_LICENSE_INFO);
      props.SetClean(ID_LICENSE);
      r := ListLicenses(keyProp, infoProp);
    }

    /** The loop of GetLicenses over the key elements. */
    static method ListLicenses(keyProp: Property, infoProp: Property) returns (r: Result<seq<License>, Error>)
      ensures r == LicensesFrom(keyProp, infoProp, 0)
    {
      var licenses: seq<License> := [];
      var i := 0;
      while i < |keyProp.values|
        invariant 0 <= i <= |keyProp.values|
        invariant LicensesFrom(keyProp, infoProp, 0) == Join(licenses, LicensesFrom(keyProp, infoProp, i))
      {
        var text := TextAt(keyProp, i);
        if text.Failure? {
          return Failure(text.error);
        }
        var info := IntAt(infoProp, i);
        if info.Failure? {
          return Failure(info.error);
        }
        var rest := LicensesFrom(keyProp, infoProp, i + 1);
        if rest.Success? {
          assert licenses + ([DecodeLicense(text.value, info.value)] + rest.value)
              == (licenses + [DecodeLicense(text.value, info.value)]) + rest.value;
        }
        licenses := licenses + [DecodeLicense(text.value, info.value)];
        i := i + 1;
      }
      r := Success(licenses);
      assert licenses + [] == licenses;
    }
  
    /** GetConstants. `usb` is what the USB identify package reported and
        `replies` what the device answered to the listing, device, constants
        and LED-power requests, or the error each read threw. On success
        the properties are the ones ConstantsGot computes, the temperature
        scales of the result states are set and the echo store is sized for
        every echo of every channel; otherwise the error is ConstantsGot's. */
    method GetConstants(usb: UsbInfo, replies: Replies)
      returns (r: Outcome<Error>)
      requires Valid() && |replies.powers| == M16_LED_INTENSITY_MAX + 1
      modifies props, states.props, echoes
      ensures Valid()
      ensures var got := ConstantsGot(old(props.props), usb, replies);
              (r.Pass? <==> got.Success?) && (r.Fail? ==> r.error == got.error)
      ensures r.Pass? ==> props.props == ConstantsGot(old(props.props), usb, replies).value.0
      ensures r.Pass? ==>
                var got := ConstantsGot(old(props.props), usb, replies).value;
                states.props.props == TemperatureScaled(old(states.props.props), got.1)
                && echoes.View() == Initialised(old(echoes.View()), got.1, got.2, M16_MAX_ECHOES)
    {
      var distanceScale, filteredScale;
      r, distanceScale, filteredScale := ReadConstants(usb, replies);
      if r.Fail? {
        return;
      }
      ghost var read := props.props;
      SetScales(distanceScale, filteredScale);
      assert props.props == read;
    }

    /** The temperature scales of the result states (the system temperature
        shares the distance scale) and the echo store sized for every echo of
        every channel. */
    method SetScales(distanceScale: nat, filteredScale: nat)
      requires Valid()
      modifies states.props, echoes
      ensures Valid()
      ensures states.props.props == TemperatureScaled(old(states.props.props), distanceScale)
      ensures echoes.View() == Initialised(old(echoes.View()), distanceScale, filteredScale, M16_MAX_ECHOES)
    {
      states.props.SetScale(ID_RS_SYSTEM_TEMP, distanceScale);
      states.props.SetScale(ID_RS_PREDICT_TEMP, PREDICT_TEMP_SCALE);
      echoes.Init(distanceScale, filteredScale, M16_MAX_ECHOES);
    }

    /** The part of GetConstants that works on the sensor properties. */
    method ReadConstants(usb: UsbInfo, replies: Replies)
      returns (r: Outcome<Error>, distanceScale: nat, filteredScale: nat)
      requires props.Valid() && SensorLayout(props.props) && |replies.powers| == M16_LED_INTENSITY_MAX + 1
      modifies props
      ensures props.Valid() && SensorLayout(props.props)
      ensures var got := ConstantsGot(old(props.props), usb, replies);
              (r.Pass? <==> got.Success?) && (r.Fail? ==> r.error == got.error)
              && (r.Pass? ==> props.props == got.value.0 && distanceScale == got.value.1 && filteredScale == got.value.2)
    {
      ghost var m0 := props.props;
      ConstantsGotStages(m0, usb, replies);
      r := Identify(usb);
      if r.Fail? {
        return r, 0, 0;
      }
      ghost var identified := props.props;
      r := GetListing(replies.listing);
      if r.Fail? {
        return r, 0, 0;
      }
      StartedStages(identified, replies);
      r, distanceScale, filteredScale := Prepare(replies);
      if r.Fail? {
        return;
      }
      ghost var prepared := props.props;
      SettledStages(prepared);
      r := UpdateConstants();
      if r.Fail? {
        return;
      }
      r := Finish();
    }

    /** The identification forced from the USB information. */
    method Identify(usb: UsbInfo) returns (r: Outcome<Error>)
      requires props.Valid() && SensorLayout(props.props)
      modifies props
      ensures props.Valid() && SensorLayout(props.props)
      ensures M16ConstantsInOrder.Follows(r, props.props, Identified(old(props.props), usb))
    {
      if |props.props[ID_SERIAL_NUMBER].values| == 0 {
        return Fail(INDEX_ERROR);
      }
      props.ForceValue(ID_SERIAL_NUMBER, 0, TextV(usb.serialNumber));
      if |props.props[ID_DEVICE_TYPE].values| == 0 {
        return Fail(INDEX_ERROR);
      }
      props.ForceValue(ID_DEVICE_TYPE, 0, IntV(usb.deviceType));
      r := Pass;
    }

    /** The device and constants answers read, the scales read as `uint32_t`,
        the detection length scaled and the intensity enum filled. A failed
        read of an answer leaves the properties as the answers before it left them. */
    method Prepare(replies: Replies)
      returns (r: Outcome<Error>, distanceScale: nat, filteredScale: nat)
      requires props.Valid() && SensorLayout(props.props) && |replies.powers| == M16_LED_INTENSITY_MAX + 1
      modifies props
      ensures props.Valid() && SensorLayout(props.props)
      ensures var p := Prepared(old(props.props), replies);
              (r.Pass? <==> p.Success?) && (r.Fail? ==> r.error == p.error)
              && (r.Pass? ==> (props.props, distanceScale, filteredScale) == p.value)
      ensures replies.device.Failure? ==> props.props == old(props.props)
      ensures replies.device.Success? && replies.constants.Failure? ==> props.props == Answered(old(props.props), replies.device.value)
    {
      ghost var m0 := props.props;
      if replies.device.Failure? {
        return Fail(replies.device.error), 0, 0;
      }
      props.ReadElements(replies.device.value);
      if replies.constants.Failure? {
        return Fail(replies.constants.error), 0, 0;
      }
      props.ReadElements(replies.constants.value);
      LayoutShape(m0, props.props);
      var dist := IntAt(props.props[ID_DISTANCE_SCALE], 0);
      if dist.Failure? {
        return Fail(dist.error), 0, 0;
      }
      var filtered := IntAt(props.props[ID_FILTERED_AMP_SCALE], 0);
      if filtered.Failure? {
        return Fail(filtered.error), 0, 0;
      }
      distanceScale, filteredScale := dist.value % UINT32_LIMIT, filtered.value % UINT32_LIMIT;
      if |props.props[ID_DETECTION_LENGTH].values| > 0 {
        props.SetScale(ID_DETECTION_LENGTH, distanceScale);
      }
      assert props.props == DetectionScaled(Replied(m0, replies), distanceScale);
      r := GetIntensityMappings(replies.powers);
    }

    /** The start-trace limits, then the constant and information properties
        marked clean. */
    method Finish() returns (r: Outcome<Error>)
      requires props.Valid() && SensorLayout(props.props)
      modifies props
      ensures props.Valid() && SensorLayout(props.props)
      ensures r.Pass? <==> StartTraceLimited(old(props.props)).Success?
      ensures r.Pass? ==> props.props == Cleaned(Cleaned(StartTraceLimited(old(props.props)).value, CatConstant), CatInfo)
      ensures r.Fail? ==> r.error == StartTraceLimited(old(props.props)).error
    {
      r := LimitStartTrace();
      if r.Fail? {
        return;
      }
      CleanCategory(CatConstant);
      CleanCategory(CatInfo);
      LayoutShape(old(props.props), props.props);
    }

    /** The start-trace limits marked clean, then its first two elements made
        the bounds of the start-trace index. */
    method LimitStartTrace() returns (r: Outcome<Error>)
      requires props.Valid() && SensorLayout(props.props)
      modifies props
      ensures props.Valid() && SensorLayout(props.props)
      ensures M16ConstantsInOrder.Follows(r, props.props, StartTraceLimited(old(props.props)))
    {
      props.SetClean(ID_START_TRACE_LIMITS);
      var lo := IntAt(props.props[ID_START_TRACE_LIMITS], 0);
      if lo.Failure? {
        return Fail(lo.error);
      }
      var hi := IntAt(props.props[ID_START_TRACE_LIMITS], 1);
      if hi.Failure? {
        return Fail(hi.error);
      }
      props.SetLimits(ID_START_TRACE, IntLimits(lo.value, hi.value));
      r := Pass;
    }

    /** GetData: the data mask defaulted (and sent, `maskAnswer` being the
        device's answer) when it leaves out the states; then an echoes message
        is processed and reports no new frame, a states message reports what
        ProcessStates does, a timeout or another request reports no new frame. */
    method GetData(maskAnswer: Outcome<Error>, message: DataMessage) returns (r: Result<bool, Error>)
      requires Valid()
      modifies this`dataMask, states`timestamp, states`updates, states.props
      modifies echoes`countA, echoes`countB, echoes`timestampA, echoes`timestampB, echoes`setIndex, echoes`updates
      modifies echoes.bufA, echoes.bufB
      ensures Valid() && dataMask == MaskFor(old(dataMask))
      ensures DataStates !in old(dataMask) && maskAnswer.Fail? ==> r == Failure(maskAnswer.error)
      ensures DataStates in old(dataMask) || maskAnswer.Pass? ==>
                match message
                case TimedOut => r == Success(false)
                case OtherMessage(_) => r == Success(false)
                case EchoesMessage(size, els) =>
                  var p := EchoesProcessed(old(echoes.View()), size, els);
                  (r == Success(false) <==> p.Success?) && (p.Success? ==> echoes.View() == p.value)
                  && (p.Failure? ==> r == Failure(p.error))
                case StatesMessage(els, cpu) =>
                  var s := StatesProcessed(old(echoes.View()), old(states.View()), old(states.props.props), dataMask, els, cpu);
                  r == s.outcome && echoes.View() == s.echoes && states.View() == s.states && states.props.props == s.props
      ensures message.TimedOut? || message.OtherMessage? || (DataStates !in old(dataMask) && maskAnswer.Fail?) ==>
                echoes.View() == old(echoes.View()) && states.View() == old(states.View()) && states.props.props == old(states.props.props)
      ensures (DataStates in old(dataMask) || maskAnswer.Pass?) && message.EchoesMessage? ==>
                states.View() == old(states.View()) && states.props.props == old(states.props.props)
    {
      if dataMask == {} || DataStates !in dataMask {
        dataMask := DM_ALL;
        if maskAnswer.Fail? {
          return Failure(maskAnswer.error);
        }
      }
      match message
      case TimedOut =>
        r := Success(false);
      case OtherMessage(_) =>
        r := Success(false);
      case EchoesMessage(size, els) =>
        var o := ProcessEchoes(size, els);
        r := if o.Pass? then Success(false) else Failure(o.error);
      case StatesMessage(els, cpu) =>
        r := ProcessStates(els, cpu);
    }

    /** ProcessStates: the state answer read into the state properties; a new
        timestamp publishes the filled echo side when echoes are streamed,
        then the CPU load is requested and the states are signalled. */
    method ProcessStates(elements: map<PropId, seq<Value>>, cpuAnswer: Result<seq<Value>, Error>) returns (r: Result<bool, Error>)
      requires Valid()
      modifies states`timestamp, states`updates, states.props
      modifies echoes`timestampA, echoes`timestampB, echoes`setIndex, echoes`updates
      ensures Valid()
      ensures var s := StatesProcessed(old(echoes.View()), old(states.View()), old(states.props.props), dataMask, elements, cpuAnswer);
              r == s.outcome && echoes.View() == s.echoes && states.View() == s.states && states.props.props == s.props
    {
      var previous := states.timestamp;
      states.props.ReadElements(elements);
      var ts := StateTimestamp(previous, elements);
      if ts == previous {
        return Success(false);
      }
      r := NewStates(ts, cpuAnswer);
    }

    /** A new timestamp: the states stamped, the echoes published when they
        are streamed, then the CPU load read and the states signalled. */
    method NewStates(ts: nat, cpuAnswer: Result<seq<Value>, Error>) returns (r: Result<bool, Error>)
      requires Valid()
      modifies states`timestamp, states`updates, states.props
      modifies echoes`timestampA, echoes`timestampB, echoes`setIndex, echoes`updates
      ensures Valid()
      ensures echoes.View() == if DataEchoes in dataMask then Published(old(echoes.View()), ts) else old(echoes.View())
      ensures r == if cpuAnswer.Failure? then Failure(cpuAnswer.error) else Success(true)
      ensures cpuAnswer.Failure? ==> states.View() == old(states.View()).(timestamp := ts) && states.props.props == old(states.props.props)
      ensures cpuAnswer.Success? ==>
                states.View() == old(states.View()).(timestamp := ts, updates := old(states.View()).updates + 1)
                && states.props.props == old(states.props.props)[ID_RS_CPU_LOAD := old(states.props.props)[ID_RS_CPU_LOAD].(values := cpuAnswer.value)]
    {
      states.SetTimestamp(ts);
      if DataEchoes in dataMask {
        PublishEchoes(ts);
      }
      if cpuAnswer.Failure? {
        return Failure(cpuAnswer.error);
      }
      states.props.ReadValues(ID_RS_CPU_LOAD, cpuAnswer.value);
      states.UpdateFinished();
      r := Success(true);
    }

    /** The filled echo side stamped, swapped to the readers, and signalled. */
    method PublishEchoes(ts: nat)
      requires echoes.Valid()
      modifies echoes`timestampA, echoes`timestampB, echoes`setIndex, echoes`updates
      ensures echoes.Valid() && echoes.View() == Published(old(echoes.View()), ts)
    {
      echoes.SetTimestamp(ts);
      echoes.Swap();
      echoes.UpdateFinished();
    }

    /** ProcessEchoes: the echoes message written into the side being filled,
        as EchoesProcessed computes; an empty message only clears the count. */
    method ProcessEchoes(messageSize: nat, elements: seq<EchoElement>) returns (r: Outcome<Error>)
      requires echoes.Valid()
      modifies echoes`countA, echoes`countB, echoes.bufA, echoes.bufB
      ensures echoes.Valid() && ViewValid(old(echoes.View()))
      ensures var p := EchoesProcessed(old(echoes.View()), messageSize, elements);
              (r.Pass? <==> p.Success?) && (r.Pass? ==> echoes.View() == p.value) && (r.Fail? ==> r.error == p.error)
    {
      echoes.ViewIsValid();
      if messageSize == 0 {
        r := echoes.SetEchoCount(0);
        return;
      }
      var k := 0;
      while k < |elements|
        invariant 0 <= k <= |elements|
        invariant echoes.Valid() && echoes.bufA == old(echoes.bufA) && echoes.bufB == old(echoes.bufB)
        invariant ViewValid(echoes.View())
        invariant ElementsRead(echoes.View(), elements, k) == ElementsRead(old(echoes.View()), elements, 0)
      {
        r := ProcessElement(elements, k);
        if r.Fail? {
          return;
        }
        k := k + 1;
      }
      r := Pass;
    }

    /** One turn of the element loop of ProcessEchoes: the element at k
        counted and written when its field is recognised. */
    method ProcessElement(elements: seq<EchoElement>, k: nat) returns (r: Outcome<Error>)
      requires echoes.Valid() && k < |elements|
      modifies echoes`countA, echoes`countB, echoes.bufA, echoes.bufB
      ensures echoes.Valid() && echoes.bufA == old(echoes.bufA) && echoes.bufB == old(echoes.bufB)
      ensures ViewValid(old(echoes.View())) && ViewValid(echoes.View())
      ensures r.Pass? ==> ElementsRead(old(echoes.View()), elements, k) == ElementsRead(echoes.View(), elements, k + 1)
      ensures r.Fail? ==> ElementsRead(old(echoes.View()), elements, k) == Failure(r.error)
    {
      echoes.ViewIsValid();
      r := Pass;
      if elements[k].field != OtherField {
        r := echoes.SetEchoCount(|elements[k].values|);
        if r.Fail? {
          return;
        }
        PushField(elements[k].field, elements[k].values);
      }
      echoes.ViewIsValid();
    }

    /** PushElementDataToBuffer: value j of the element into field f of slot j
        of the side being filled. */
    method PushField(f: EchoField, values: seq<int>)
      requires echoes.Valid() && |values| <= echoes.bufA.Length
      modifies echoes.bufA, echoes.bufB
      ensures echoes.Valid() && ViewValid(old(echoes.View()))
      ensures echoes.View() == FieldWritten(old(echoes.View()), f, values, |values|)
    {
      echoes.ViewIsValid();
      var j := 0;
      while j < |values|
        invariant 0 <= j <= |values|
        invariant echoes.Valid() && echoes.View() == FieldWritten(old(echoes.View()), f, values, j)
      {
        var e := echoes.SetEchoAt(j);
        echoes.WriteEcho(j, WithField(e, f, values[j]));
        j := j + 1;
      }
    }
}
}
