/** LdSensorM16::UpdateConstants statement by statement, in the source's
    order: each group of statements is a step from one property map to the
    next, failing where the source's accessor would throw. The chained steps
    compute exactly the read-first UpdateConstants of M16Constants. */
module M16ConstantsInOrder {
  import opened Wrappers
  import opened Exceptions
  import opened Properties
  import opened M16Layout
  import opened M16Constants

  /** Statement 1: ForceValue(0, M16_MAX_ECHOES_BY_CHANNEL), then SetClean. */
  function PinEchoCount(m: PropMap): (r: Result<PropMap, Error>)
    requires SensorLayout(m)
    ensures r.Success? ==> SensorLayout(r.value)
  {
    if |m[ID_MAX_ECHOES_PER_CHANNEL].values| == 0 then Failure(INDEX_ERROR)
    else
      var m1 := m[ID_MAX_ECHOES_PER_CHANNEL := WithValue(m[ID_MAX_ECHOES_PER_CHANNEL], 0, IntV(M16_MAX_ECHOES_BY_CHANNEL))];
      Success(m1[ID_MAX_ECHOES_PER_CHANNEL := m1[ID_MAX_ECHOES_PER_CHANNEL].(modified := false)])
  }

  /** Statements 2 and 3: the threshold offset takes the amplitude scale as
      `uint32_t`, and the threshold limits take the offset's scale. */
  function ScaleThreshold(m: PropMap): (r: Result<PropMap, Error>)
    requires SensorLayout(m)
    ensures r.Success? ==> SensorLayout(r.value)
  {
    var amp :- IntAt(m[ID_FILTERED_AMP_SCALE], 0);
    var m1 := m[ID_SENSIVITY_OLD := m[ID_SENSIVITY_OLD].(scale := amp % UINT32_LIMIT)];
    Success(m1[ID_SENSIVITY_LIMITS := m1[ID_SENSIVITY_LIMITS].(scale := m1[ID_SENSIVITY_OLD].scale)])
  }

  /** Statements 4 to 6: the horizontal segment default, the segment-enable
      mask from the horizontal count, one vertical segment. */
  function SetSegments(m: PropMap): (r: Result<PropMap, Error>)
    requires SensorLayout(m)
    ensures r.Success? ==> SensorLayout(r.value)
  {
    var m1 := m[ID_HSEGMENT := HSegments(m[ID_HSEGMENT])];
    var h :- IntAt(m1[ID_HSEGMENT], 0);
    var m2 := m1[ID_SEGMENT_ENABLE := m1[ID_SEGMENT_ENABLE].(limits := MaskLimit(SegmentMask(h)))];
    if |m2[ID_VSEGMENT].values| == 0 then Failure(INDEX_ERROR)
    else Success(m2[ID_VSEGMENT := WithValue(m2[ID_VSEGMENT], 0, IntV(1))])
  }

  /** Statements 7 to 9: the base point count limits, then the accumulation
      and oversampling exponents over their limits read as `size_t`. */
  function SetAcquisitionLimits(m: PropMap): (r: Result<PropMap, Error>)
    requires SensorLayout(m)
    ensures r.Success? ==> SensorLayout(r.value)
  {
    var bp :- LimitPair(m[ID_BASE_POINT_COUNT_LIMITS], 2, 64);
    var m1 := m[ID_BASE_POINT_COUNT := m[ID_BASE_POINT_COUNT].(limits := IntLimits(bp.0, bp.1))];
    var acc :- LimitPair(m1[ID_ACCUMULATION_LIMITS], 0, 10);
    var m2 := m1[ID_ACCUMULATION_EXP := ExponentPairs(m1[ID_ACCUMULATION_EXP], acc.0 % SIZE_T_LIMIT, acc.1 % SIZE_T_LIMIT)];
    var ovs :- LimitPair(m2[ID_OVERSAMPLING_LIMITS], 0, 3);
    Success(m2[ID_OVERSAMPLING_EXP := ExponentPairs(m2[ID_OVERSAMPLING_EXP], ovs.0 % SIZE_T_LIMIT, ovs.1 % SIZE_T_LIMIT)])
  }

  /** Statements 10 to 12: the threshold offset limits, the change delay
      limits, and the CAN-port echo limit when the device reports one. */
  function SetDelayLimits(m: PropMap): (r: Result<PropMap, Error>)
    requires SensorLayout(m)
    ensures r.Success? ==> SensorLayout(r.value)
  {
    var th :- RealLimitPair(m[ID_SENSIVITY_LIMITS], -5.0, 100.0);
    var m1 := m[ID_SENSIVITY_OLD := m[ID_SENSIVITY_OLD].(limits := RealLimits(th.0, th.1))];
    var cd :- LimitPair(m1[ID_CHANGE_DELAY_LIMITS], 0, 32767);
    var m2 := m1[ID_CHANGE_DELAY := m1[ID_CHANGE_DELAY].(limits := IntLimits(cd.0, cd.1))];
    if |m2[ID_COM_CAN_PORT_MAX_ECHOES_LIMIT].values| == 0 then Success(m2)
    else
      var can :- IntAt(m2[ID_COM_CAN_PORT_MAX_ECHOES_LIMIT], 0);
      Success(m2[ID_COM_CAN_PORT_MAX_ECHOES := m2[ID_COM_CAN_PORT_MAX_ECHOES].(limits := IntLimits(0, can))])
  }

  /** Statements 13 to 15: the detection length and static threshold
      distances take the distance scale, the static threshold amplitudes the
      amplitude scale, read a second time. */
  function SetDistanceScales(m: PropMap): (r: Result<PropMap, Error>)
    requires SensorLayout(m)
    ensures r.Success? ==> SensorLayout(r.value)
  {
    var dist :- IntAt(m[ID_DISTANCE_SCALE], 0);
    var m1 := m[ID_DETECTION_LENGTH := m[ID_DETECTION_LENGTH].(scale := dist % UINT32_LIMIT)];
    var m2 := m1[ID_STATIC_THRESHOLD_DISTANCES := m1[ID_STATIC_THRESHOLD_DISTANCES].(scale := dist % UINT32_LIMIT)];
    var amp :- IntAt(m2[ID_FILTERED_AMP_SCALE], 0);
    Success(m2[ID_STATIC_THRESHOLD_AMPLITUDES := m2[ID_STATIC_THRESHOLD_AMPLITUDES].(scale := amp % UINT32_LIMIT)])
  }

  /** A statement run in place ended as its step says: it passed leaving the
      step's properties, or failed with the step's error. */
  predicate Follows(r: Outcome<Error>, after: PropMap, step: Result<PropMap, Error>) {
    (r.Pass? <==> step.Success?) && (r.Pass? ==> after == step.value) && (r.Fail? ==> r.error == step.error)
  }

  /** The statements chained; the first failing one ends the call. */
  function UpdateConstantsInOrder(m: PropMap): (r: Result<PropMap, Error>)
    requires SensorLayout(m)
  {
    var m1 :- PinEchoCount(m);
    var m2 :- ScaleThreshold(m1);
    var m3 :- SetSegments(m2);
    var m4 :- SetAcquisitionLimits(m3);
    var m5 :- SetDelayLimits(m4);
    SetDistanceScales(m5)
  }

  /** The source-order statements compute the read-first UpdateConstants:
      the same properties when every read succeeds, the same first error otherwise. */
  lemma InOrderIsUpdateConstants(m: PropMap)
    requires SensorLayout(m)
    ensures UpdateConstantsInOrder(m) == UpdateConstants(m)
  {
    if |m[ID_MAX_ECHOES_PER_CHANNEL].values| == 0 {
      UpdateConstantsNeedsEchoCount(m);
      return;
    }
    var m1 := PinEchoCount(m).value;
    EchoCountInOrder(m);
    ThresholdInOrder(m, m1);
    if ScaleThreshold(m1).Failure? {
      return;
    }
    var m2 := ScaleThreshold(m1).value;
    SegmentsInOrder(m, m2);
    if SetSegments(m2).Failure? {
      return;
    }
    var m3 := SetSegments(m2).value;
    AcquisitionInOrder(m, m3);
    if SetAcquisitionLimits(m3).Failure? {
      return;
    }
    var m4 := SetAcquisitionLimits(m3).value;
    DelaysInOrder(m, m4);
    if SetDelayLimits(m4).Failure? {
      return;
    }
    var m5 := SetDelayLimits(m4).value;
    DistanceInOrder(m, m5);
  }

  lemma EchoCountInOrder(m: PropMap)
    requires SensorLayout(m) && |m[ID_MAX_ECHOES_PER_CHANNEL].values| > 0
    ensures PinEchoCount(m).Success?
    ensures ReadsIntact(PinEchoCount(m).value, m)
    ensures PinEchoCount(m).value[ID_HSEGMENT] == m[ID_HSEGMENT] && PinEchoCount(m).value[ID_VSEGMENT] == m[ID_VSEGMENT]
    ensures ConstantsReadable(m) ==> PinEchoCount(m).value == Stage(m, ReadConstants(m), 1)
  {
    var m1 := m[ID_MAX_ECHOES_PER_CHANNEL := WithValue(m[ID_MAX_ECHOES_PER_CHANNEL], 0, IntV(M16_MAX_ECHOES_BY_CHANNEL))];
    if ConstantsReadable(m) {
      StagedEchoCount(m, m1, PinEchoCount(m).value);
    }
  }

  lemma ThresholdInOrder(m: PropMap, cur: PropMap)
    requires SensorLayout(m) && SensorLayout(cur) && |m[ID_MAX_ECHOES_PER_CHANNEL].values| > 0 && ReadsIntact(cur, m)
    requires cur[ID_HSEGMENT] == m[ID_HSEGMENT] && cur[ID_VSEGMENT] == m[ID_VSEGMENT]
    requires ConstantsReadable(m) ==> cur == Stage(m, ReadConstants(m), 1)
    ensures ScaleThreshold(cur).Success? <==> ThresholdReadable(m)
    ensures ScaleThreshold(cur).Failure? ==> !ConstantsReadable(m) && ScaleThreshold(cur).error == ConstantsReadError(m)
    ensures ScaleThreshold(cur).Success? ==>
              ReadsIntact(ScaleThreshold(cur).value, m)
              && ScaleThreshold(cur).value[ID_HSEGMENT] == m[ID_HSEGMENT] && ScaleThreshold(cur).value[ID_VSEGMENT] == m[ID_VSEGMENT]
              && (ConstantsReadable(m) ==> ScaleThreshold(cur).value == Stage(m, ReadConstants(m), 3))
  {
    assert cur[ID_FILTERED_AMP_SCALE] == m[ID_FILTERED_AMP_SCALE];
    if IntAt(m[ID_FILTERED_AMP_SCALE], 0).Failure? {
      ThresholdReadError(m);
    } else if ConstantsReadable(m) {
      var amp := m[ID_FILTERED_AMP_SCALE].values[0].i;
      var m1 := cur[ID_SENSIVITY_OLD := cur[ID_SENSIVITY_OLD].(scale := amp % UINT32_LIMIT)];
      StagedThreshold(m, cur, m1, ScaleThreshold(cur).value);
    }
  }

  lemma SegmentsInOrder(m: PropMap, cur: PropMap)
    requires SensorLayout(m) && SensorLayout(cur) && ThresholdReadable(m) && ReadsIntact(cur, m)
    requires cur[ID_HSEGMENT] == m[ID_HSEGMENT] && cur[ID_VSEGMENT] == m[ID_VSEGMENT]
    requires ConstantsReadable(m) ==> cur == Stage(m, ReadConstants(m), 3)
    ensures SetSegments(cur).Success? <==> SegmentsReadable(m)
    ensures SetSegments(cur).Failure? ==> !ConstantsReadable(m) && SetSegments(cur).error == ConstantsReadError(m)
    ensures SetSegments(cur).Success? ==>
              ReadsIntact(SetSegments(cur).value, m)
              && (ConstantsReadable(m) ==> SetSegments(cur).value == Stage(m, ReadConstants(m), 6))
  {
    SegmentsReadError(m);
    if SegmentsReadable(m) && ConstantsReadable(m) {
      var m1 := cur[ID_HSEGMENT := HSegments(m[ID_HSEGMENT])];
      var h := m1[ID_HSEGMENT].values[0].i;
      var m2 := m1[ID_SEGMENT_ENABLE := m1[ID_SEGMENT_ENABLE].(limits := MaskLimit(SegmentMask(h)))];
      StagedSegments(m, cur, m1, m2, SetSegments(cur).value);
    }
  }

  lemma AcquisitionInOrder(m: PropMap, cur: PropMap)
    requires SensorLayout(m) && SensorLayout(cur) && SegmentsReadable(m) && ReadsIntact(cur, m)
    requires ConstantsReadable(m) ==> cur == Stage(m, ReadConstants(m), 6)
    ensures SetAcquisitionLimits(cur).Success? <==> AcquisitionReadable(m)
    ensures SetAcquisitionLimits(cur).Failure? ==>
              !ConstantsReadable(m) && SetAcquisitionLimits(cur).error == ConstantsReadError(m)
    ensures SetAcquisitionLimits(cur).Success? ==>
              ReadsIntact(SetAcquisitionLimits(cur).value, m)
              && (ConstantsReadable(m) ==> SetAcquisitionLimits(cur).value == Stage(m, ReadConstants(m), 9))
  {
    AcquisitionReadError(m);
    assert cur[ID_BASE_POINT_COUNT_LIMITS] == m[ID_BASE_POINT_COUNT_LIMITS];
    assert cur[ID_ACCUMULATION_LIMITS] == m[ID_ACCUMULATION_LIMITS];
    assert cur[ID_OVERSAMPLING_LIMITS] == m[ID_OVERSAMPLING_LIMITS];
    if AcquisitionReadable(m) {
      AcquisitionWrites(m, cur);
    }
  }

  lemma AcquisitionWrites(m: PropMap, cur: PropMap)
    requires SensorLayout(m) && SensorLayout(cur) && AcquisitionReadable(m) && ReadsIntact(cur, m)
    requires ConstantsReadable(m) ==> cur == Stage(m, ReadConstants(m), 6)
    ensures SetAcquisitionLimits(cur).Success?
    ensures ReadsIntact(SetAcquisitionLimits(cur).value, m)
    ensures ConstantsReadable(m) ==> SetAcquisitionLimits(cur).value == Stage(m, ReadConstants(m), 9)
  {
    var m1, m2, m3 := AcquisitionValue(m, cur);
    if ConstantsReadable(m) {
      AcquisitionStaged(m, cur);
    }
  }

  /** The three writes, spelled out, keep the properties the later statements read. */
  lemma AcquisitionValue(m: PropMap, cur: PropMap) returns (m1: PropMap, m2: PropMap, m3: PropMap)
    requires SensorLayout(m) && SensorLayout(cur) && AcquisitionReadable(m) && ReadsIntact(cur, m)
    ensures SetAcquisitionLimits(cur) == Success(m3) && ReadsIntact(m3, m)
    ensures m1 == cur[ID_BASE_POINT_COUNT := cur[ID_BASE_POINT_COUNT].(limits := IntLimits(
              LimitPair(m[ID_BASE_POINT_COUNT_LIMITS], 2, 64).value.0, LimitPair(m[ID_BASE_POINT_COUNT_LIMITS], 2, 64).value.1))]
    ensures m2 == m1[ID_ACCUMULATION_EXP := ExponentPairs(m1[ID_ACCUMULATION_EXP],
              LimitPair(m[ID_ACCUMULATION_LIMITS], 0, 10).value.0 % SIZE_T_LIMIT, LimitPair(m[ID_ACCUMULATION_LIMITS], 0, 10).value.1 % SIZE_T_LIMIT)]
    ensures m3 == m2[ID_OVERSAMPLING_EXP := ExponentPairs(m2[ID_OVERSAMPLING_EXP],
              LimitPair(m[ID_OVERSAMPLING_LIMITS], 0, 3).value.0 % SIZE_T_LIMIT, LimitPair(m[ID_OVERSAMPLING_LIMITS], 0, 3).value.1 % SIZE_T_LIMIT)]
  {
    var bp := LimitPair(m[ID_BASE_POINT_COUNT_LIMITS], 2, 64).value;
    var acc := LimitPair(m[ID_ACCUMULATION_LIMITS], 0, 10).value;
    var ovs := LimitPair(m[ID_OVERSAMPLING_LIMITS], 0, 3).value;
    m1 := cur[ID_BASE_POINT_COUNT := cur[ID_BASE_POINT_COUNT].(limits := IntLimits(bp.0, bp.1))];
    m2 := m1[ID_ACCUMULATION_EXP := ExponentPairs(m1[ID_ACCUMULATION_EXP], acc.0 % SIZE_T_LIMIT, acc.1 % SIZE_T_LIMIT)];
    m3 := m2[ID_OVERSAMPLING_EXP := ExponentPairs(m2[ID_OVERSAMPLING_EXP], ovs.0 % SIZE_T_LIMIT, ovs.1 % SIZE_T_LIMIT)];
  }

  lemma AcquisitionStaged(m: PropMap, cur: PropMap)
    requires SensorLayout(m) && SensorLayout(cur) && ConstantsReadable(m) && AcquisitionReadable(m) && ReadsIntact(cur, m)
    requires cur == Stage(m, ReadConstants(m), 6)
    ensures SetAcquisitionLimits(cur).Success? && SetAcquisitionLimits(cur).value == Stage(m, ReadConstants(m), 9)
  {
    var m1, m2, m3 := AcquisitionValue(m, cur);
    StagedBasePointCount(m, cur, m1);
    StagedAccumulation(m, m1, m2);
    StagedOversampling(m, m2, m3);
  }

  lemma DelaysInOrder(m: PropMap, cur: PropMap)
    requires SensorLayout(m) && SensorLayout(cur) && AcquisitionReadable(m) && ReadsIntact(cur, m)
    requires ConstantsReadable(m) ==> cur == Stage(m, ReadConstants(m), 9)
    ensures SetDelayLimits(cur).Success? <==> DelaysReadable(m)
    ensures SetDelayLimits(cur).Failure? ==> !ConstantsReadable(m) && SetDelayLimits(cur).error == ConstantsReadError(m)
    ensures SetDelayLimits(cur).Success? ==>
              ReadsIntact(SetDelayLimits(cur).value, m)
              && (ConstantsReadable(m) ==> SetDelayLimits(cur).value == Stage(m, ReadConstants(m), 12))
  {
    DelaysReadError(m);
    assert cur[ID_CHANGE_DELAY_LIMITS] == m[ID_CHANGE_DELAY_LIMITS];
    assert cur[ID_COM_CAN_PORT_MAX_ECHOES_LIMIT] == m[ID_COM_CAN_PORT_MAX_ECHOES_LIMIT];
    if DelaysReadable(m) {
      var m1, m2, m3 := DelaysValue(m, cur);
      if ConstantsReadable(m) {
        StagedThresholdLimits(m, cur, m1);
        StagedChangeDelay(m, m1, m2);
        StagedCanLimit(m, m2, m3);
      }
    }
  }

  /** The three writes, spelled out, keep the properties the later statements read. */
  lemma DelaysValue(m: PropMap, cur: PropMap) returns (m1: PropMap, m2: PropMap, m3: PropMap)
    requires SensorLayout(m) && SensorLayout(cur) && DelaysReadable(m) && ReadsIntact(cur, m)
    ensures SetDelayLimits(cur) == Success(m3) && ReadsIntact(m3, m)
    ensures m1 == cur[ID_SENSIVITY_OLD := cur[ID_SENSIVITY_OLD].(limits :=
              RealLimits(RealLimitPair(m[ID_SENSIVITY_LIMITS], -5.0, 100.0).value.0, RealLimitPair(m[ID_SENSIVITY_LIMITS], -5.0, 100.0).value.1))]
    ensures m2 == m1[ID_CHANGE_DELAY := m1[ID_CHANGE_DELAY].(limits :=
              IntLimits(LimitPair(m[ID_CHANGE_DELAY_LIMITS], 0, 32767).value.0, LimitPair(m[ID_CHANGE_DELAY_LIMITS], 0, 32767).value.1))]
    ensures m3 == if |m[ID_COM_CAN_PORT_MAX_ECHOES_LIMIT].values| > 0
              then m2[ID_COM_CAN_PORT_MAX_ECHOES := m2[ID_COM_CAN_PORT_MAX_ECHOES].(limits :=
                     IntLimits(0, m[ID_COM_CAN_PORT_MAX_ECHOES_LIMIT].values[0].i))]
              else m2
  {
    var th := RealLimitPair(m[ID_SENSIVITY_LIMITS], -5.0, 100.0).value;
    var cd := LimitPair(m[ID_CHANGE_DELAY_LIMITS], 0, 32767).value;
    m1 := cur[ID_SENSIVITY_OLD := cur[ID_SENSIVITY_OLD].(limits := RealLimits(th.0, th.1))];
    m2 := m1[ID_CHANGE_DELAY := m1[ID_CHANGE_DELAY].(limits := IntLimits(cd.0, cd.1))];
    assert m2[ID_COM_CAN_PORT_MAX_ECHOES_LIMIT] == m[ID_COM_CAN_PORT_MAX_ECHOES_LIMIT];
    m3 := SetDelayLimits(cur).value;
  }

  lemma DistanceInOrder(m: PropMap, cur: PropMap)
    requires SensorLayout(m) && SensorLayout(cur) && DelaysReadable(m) && ReadsIntact(cur, m)
    requires ConstantsReadable(m) ==> cur == Stage(m, ReadConstants(m), 12)
    ensures SetDistanceScales(cur) == UpdateConstants(m)
  {
    ReadableGroups(m);
    assert cur[ID_DISTANCE_SCALE] == m[ID_DISTANCE_SCALE];
    assert cur[ID_FILTERED_AMP_SCALE] == m[ID_FILTERED_AMP_SCALE];
    if IntAt(m[ID_DISTANCE_SCALE], 0).Failure? {
      DistanceReadError(m);
    } else {
      var dist := m[ID_DISTANCE_SCALE].values[0].i;
      var m1 := cur[ID_DETECTION_LENGTH := cur[ID_DETECTION_LENGTH].(scale := dist % UINT32_LIMIT)];
      var m2 := m1[ID_STATIC_THRESHOLD_DISTANCES := m1[ID_STATIC_THRESHOLD_DISTANCES].(scale := dist % UINT32_LIMIT)];
      StagedDetectionLength(m, cur, m1);
      StagedThresholdDistances(m, m1, m2);
      StagedThresholdAmplitudes(m, m2, SetDistanceScales(cur).value);
      StageAll(m, ReadConstants(m));
    }
  }
}
