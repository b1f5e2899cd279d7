/** LdSensorM16::UpdateConstants as a function of the property map. Every
    value it reads comes from a property it never writes, except the
    horizontal segment count (read after its default is applied) and the
    threshold-limit scale (copied from the threshold offset just set), so the
    function reads first, in the order the source would throw, and then
    applies all the writes. */
module M16Constants {
  import opened Wrappers
  import opened Exceptions
  import opened Properties
  import opened M16Layout

  function Pow2(n: nat): (r: nat)
    ensures r >= 1
  {
    if n == 0 then 1 else 2 * Pow2(n - 1)
  }

  /** One property replaced by another of the same kind. */
  function Put(m: PropMap, id: PropId, q: Property): (r: PropMap)
    requires id in m && Kind(q) == Kind(m[id])
    ensures SameShape(m, r) && r == m[id := q]
  {
    m[id := q]
  }

  /** ForceValue(j, v) on one property of a map; out_of_range past the count. */
  function Forced(m: PropMap, id: PropId, j: nat, v: Value): (r: Result<PropMap, Error>)
    requires id in m
    ensures r.Success? <==> j < |m[id].values|
    ensures r.Success? ==> r.value == m[id := WithValue(m[id], j, v)] && SameShape(m, r.value)
    ensures r.Failure? ==> r.error == INDEX_ERROR
  {
    if j < |m[id].values| then Success(Put(m, id, WithValue(m[id], j, v)))
    else Failure(INDEX_ERROR)
  }

  /** The SEGMENT_ENABLE limit: one bit per pair of horizontal segments,
      `(1 << (count / 2)) - 1` with C++'s truncating division. A negative
      count would be a negative shift; the model gives it no bits. */
  function SegmentMask(h: int): (mask: int)
    ensures mask >= 0
    ensures h >= 0 ==> mask + 1 == Pow2(h / 2)
  {
    if h < 0 then 0 else Pow2(h / 2) - 1
  }

  /** Element 0 reads as an integer. */
  predicate IntReadable(p: Property) {
    |p.values| > 0 && p.values[0].IntV?
  }

  /** A `*_LIMITS` property either does not hold two values or holds two integers. */
  predicate IntPairReadable(p: Property) {
    |p.values| != 2 || (p.values[0].IntV? && p.values[1].IntV?)
  }

  predicate RealPairReadable(p: Property) {
    |p.values| != 2 || (p.values[0].RealV? && p.values[1].RealV?)
  }

  /** The limits a `*_LIMITS` property supplies when it holds exactly two
      values, otherwise the defaults. */
  function LimitPair(p: Property, dlo: int, dhi: int): (r: Result<(int, int), Error>)
    ensures |p.values| != 2 ==> r == Success((dlo, dhi))
    ensures |p.values| == 2 && p.values[0].IntV? && p.values[1].IntV? ==> r == Success((p.values[0].i, p.values[1].i))
    ensures r.Success? <==> IntPairReadable(p)
  {
    if |p.values| != 2 then Success((dlo, dhi))
    else if p.values[0].IntV? && p.values[1].IntV? then Success((p.values[0].i, p.values[1].i))
    else Failure(Malformed("not an integer property"))
  }

  function RealLimitPair(p: Property, dlo: real, dhi: real): (r: Result<(real, real), Error>)
    ensures |p.values| != 2 ==> r == Success((dlo, dhi))
    ensures |p.values| == 2 && p.values[0].RealV? && p.values[1].RealV? ==> r == Success((p.values[0].r, p.values[1].r))
    ensures r.Success? <==> RealPairReadable(p)
  {
    if |p.values| != 2 then Success((dlo, dhi))
    else if p.values[0].RealV? && p.values[1].RealV? then Success((p.values[0].r, p.values[1].r))
    else Failure(Malformed("not a float property"))
  }

  /** The exponent enumeration loop: for i from lo up to hi, the pair (i, "2^i"). */
  function ExponentPairs(p: Property, lo: nat, hi: int): (q: Property)
    decreases hi - lo
    ensures q == p.(enumPairs := q.enumPairs)
  {
    if hi < lo then p else WithEnumPair(ExponentPairs(p, lo, hi - 1), hi, Decimal(Pow2(hi)))
  }

  /** After the loop every exponent of the range is registered, the pairs that
      were there stay, and an exponent that was new carries its power of two. */
  lemma {:induction false} ExponentPairsContent(p: Property, lo: nat, hi: int)
    ensures forall i :: lo <= i <= hi ==> i in EnumValues(ExponentPairs(p, lo, hi))
    ensures forall v :: v in EnumValues(ExponentPairs(p, lo, hi)) ==> v in EnumValues(p) || lo <= v <= hi
    ensures p.enumPairs <= ExponentPairs(p, lo, hi).enumPairs
    ensures forall i :: lo <= i <= hi && i !in EnumValues(p) ==> EnumPair(i, Decimal(Pow2(i))) in ExponentPairs(p, lo, hi).enumPairs
    decreases hi - lo
  {
    if hi >= lo {
      var q := ExponentPairs(p, lo, hi - 1);
      ExponentPairsContent(p, lo, hi - 1);
      if hi !in EnumValues(q) {
        assert EnumPair(hi, Decimal(Pow2(hi))) == WithEnumPair(q, hi, Decimal(Pow2(hi))).enumPairs[|q.enumPairs|];
      }
    }
  }

  /** Running the loop over a range that is already registered changes nothing. */
  lemma {:induction false} ExponentPairsSaturated(p: Property, lo: nat, hi: int)
    requires forall i :: lo <= i <= hi ==> i in EnumValues(p)
    ensures ExponentPairs(p, lo, hi) == p
    decreases hi - lo
  {
    if hi >= lo {
      ExponentPairsSaturated(p, lo, hi - 1);
    }
  }

  /** What UpdateConstants reads. `h` is the horizontal segment count after
      the default, `can` the CAN-port echo limit when the device reports one. */
  datatype ConstantsInputs = ConstantsInputs(
    amp: int, h: int, bp: (int, int), acc: (int, int), ovs: (int, int),
    th: (real, real), cd: (int, int), can: Option<int>, dist: int)

  /** The horizontal segment count property after the default for older devices. */
  function HSegments(p: Property): (q: Property)
    ensures |p.values| == 0 ==> q.values == [IntV(M16_NUMBER_CHANNELS)]
    ensures |p.values| > 0 ==> q == p
  {
    if |p.values| == 0 then WithValue(WithCount(p, 1), 0, IntV(M16_NUMBER_CHANNELS)) else p
  }

  /** What UpdateConstants reads is there, with the type it reads it as. */
  predicate ConstantsReadable(m: PropMap)
    requires SensorLayout(m)
  {
    |m[ID_MAX_ECHOES_PER_CHANNEL].values| > 0
    && IntReadable(m[ID_FILTERED_AMP_SCALE])
    && (|m[ID_HSEGMENT].values| == 0 || m[ID_HSEGMENT].values[0].IntV?)
    && |m[ID_VSEGMENT].values| > 0
    && IntPairReadable(m[ID_BASE_POINT_COUNT_LIMITS])
    && IntPairReadable(m[ID_ACCUMULATION_LIMITS])
    && IntPairReadable(m[ID_OVERSAMPLING_LIMITS])
    && RealPairReadable(m[ID_SENSIVITY_LIMITS])
    && IntPairReadable(m[ID_CHANGE_DELAY_LIMITS])
    && (|m[ID_COM_CAN_PORT_MAX_ECHOES_LIMIT].values| == 0 || m[ID_COM_CAN_PORT_MAX_ECHOES_LIMIT].values[0].IntV?)
    && IntReadable(m[ID_DISTANCE_SCALE])
  }

  /** The error of the first read that fails, in the order the source reads:
      the first ForceValue on the echo count, the amplitude scale, the
      horizontal count, the vertical ForceValue, each limit pair, the CAN
      limit, the distance scale. */
  function ConstantsReadError(m: PropMap): Error
    requires SensorLayout(m) && !ConstantsReadable(m)
  {
    var oob := INDEX_ERROR;
    if |m[ID_MAX_ECHOES_PER_CHANNEL].values| == 0 then oob
    else if IntAt(m[ID_FILTERED_AMP_SCALE], 0).Failure? then IntAt(m[ID_FILTERED_AMP_SCALE], 0).error
    else if IntAt(HSegments(m[ID_HSEGMENT]), 0).Failure? then IntAt(HSegments(m[ID_HSEGMENT]), 0).error
    else if |m[ID_VSEGMENT].values| == 0 then oob
    else if LimitPair(m[ID_BASE_POINT_COUNT_LIMITS], 2, 64).Failure? then LimitPair(m[ID_BASE_POINT_COUNT_LIMITS], 2, 64).error
    else if LimitPair(m[ID_ACCUMULATION_LIMITS], 0, 10).Failure? then LimitPair(m[ID_ACCUMULATION_LIMITS], 0, 10).error
    else if LimitPair(m[ID_OVERSAMPLING_LIMITS], 0, 3).Failure? then LimitPair(m[ID_OVERSAMPLING_LIMITS], 0, 3).error
    else if RealLimitPair(m[ID_SENSIVITY_LIMITS], -5.0, 100.0).Failure? then RealLimitPair(m[ID_SENSIVITY_LIMITS], -5.0, 100.0).error
    else if LimitPair(m[ID_CHANGE_DELAY_LIMITS], 0, 32767).Failure? then LimitPair(m[ID_CHANGE_DELAY_LIMITS], 0, 32767).error
    else if |m[ID_COM_CAN_PORT_MAX_ECHOES_LIMIT].values| > 0 && IntAt(m[ID_COM_CAN_PORT_MAX_ECHOES_LIMIT], 0).Failure?
    then IntAt(m[ID_COM_CAN_PORT_MAX_ECHOES_LIMIT], 0).error
    else IntAt(m[ID_DISTANCE_SCALE], 0).error
  }

  /** The values read, once they are all readable. */
  function ReadConstants(m: PropMap): ConstantsInputs
    requires SensorLayout(m) && ConstantsReadable(m)
  {
    var canLimit := m[ID_COM_CAN_PORT_MAX_ECHOES_LIMIT];
    ConstantsInputs(
      m[ID_FILTERED_AMP_SCALE].values[0].i,
      HSegments(m[ID_HSEGMENT]).values[0].i,
      LimitPair(m[ID_BASE_POINT_COUNT_LIMITS], 2, 64).value,
      LimitPair(m[ID_ACCUMULATION_LIMITS], 0, 10).value,
      LimitPair(m[ID_OVERSAMPLING_LIMITS], 0, 3).value,
      RealLimitPair(m[ID_SENSIVITY_LIMITS], -5.0, 100.0).value,
      LimitPair(m[ID_CHANGE_DELAY_LIMITS], 0, 32767).value,
      if |canLimit.values| > 0 then Some(canLimit.values[0].i) else None,
      m[ID_DISTANCE_SCALE].values[0].i)
  }

  /** The writes, property by property. The exponent loops run over `size_t`,
      so both limits are taken modulo 2^64; scales are taken as `uint32_t`. */
  function ConstantsFor(m: PropMap, input: ConstantsInputs, id: PropId): (q: Property)
    requires SensorLayout(m) && id in m
    requires |m[ID_MAX_ECHOES_PER_CHANNEL].values| > 0 && |m[ID_VSEGMENT].values| > 0
    ensures Kind(q) == Kind(m[id])
  {
    var p := m[id];
    var amp := input.amp % UINT32_LIMIT;
    var dist := input.dist % UINT32_LIMIT;
    if id == ID_MAX_ECHOES_PER_CHANNEL then WithValue(p, 0, IntV(M16_MAX_ECHOES_BY_CHANNEL)).(modified := false)
    else if id == ID_SENSIVITY_OLD then p.(scale := amp, limits := RealLimits(input.th.0, input.th.1))
    else if id == ID_SENSIVITY_LIMITS then p.(scale := amp)
    else if id == ID_HSEGMENT then HSegments(p)
    else if id == ID_SEGMENT_ENABLE then p.(limits := MaskLimit(SegmentMask(input.h)))
    else if id == ID_VSEGMENT then WithValue(p, 0, IntV(1))
    else if id == ID_BASE_POINT_COUNT then p.(limits := IntLimits(input.bp.0, input.bp.1))
    else if id == ID_ACCUMULATION_EXP then ExponentPairs(p, input.acc.0 % SIZE_T_LIMIT, input.acc.1 % SIZE_T_LIMIT)
    else if id == ID_OVERSAMPLING_EXP then ExponentPairs(p, input.ovs.0 % SIZE_T_LIMIT, input.ovs.1 % SIZE_T_LIMIT)
    else if id == ID_CHANGE_DELAY then p.(limits := IntLimits(input.cd.0, input.cd.1))
    else if id == ID_COM_CAN_PORT_MAX_ECHOES then
      (if input.can.Some? then p.(limits := IntLimits(0, input.can.value)) else p)
    else if id == ID_DETECTION_LENGTH || id == ID_STATIC_THRESHOLD_DISTANCES then p.(scale := dist)
    else if id == ID_STATIC_THRESHOLD_AMPLITUDES then p.(scale := amp)
    else p
  }

  function ApplyConstants(m: PropMap, input: ConstantsInputs): (r: PropMap)
    requires SensorLayout(m) && |m[ID_MAX_ECHOES_PER_CHANNEL].values| > 0 && |m[ID_VSEGMENT].values| > 0
    ensures SameShape(m, r)
  {
    map id | id in m :: ConstantsFor(m, input, id)
  }

  function UpdateConstants(m: PropMap): (r: Result<PropMap, Error>)
    requires SensorLayout(m)
    ensures r.Success? <==> ConstantsReadable(m)
    ensures r.Success? ==> SameShape(m, r.value) && SensorLayout(r.value)
  {
    if ConstantsReadable(m) then Success(ApplyConstants(m, ReadConstants(m)))
    else Failure(ConstantsReadError(m))
  }

  /** The properties UpdateConstants writes. */
  const CONSTANTS_IDS: set<PropId> := {
    ID_MAX_ECHOES_PER_CHANNEL, ID_SENSIVITY_OLD, ID_SENSIVITY_LIMITS, ID_HSEGMENT, ID_SEGMENT_ENABLE,
    ID_VSEGMENT, ID_BASE_POINT_COUNT, ID_ACCUMULATION_EXP, ID_OVERSAMPLING_EXP, ID_CHANGE_DELAY,
    ID_COM_CAN_PORT_MAX_ECHOES, ID_DETECTION_LENGTH, ID_STATIC_THRESHOLD_DISTANCES,
    ID_STATIC_THRESHOLD_AMPLITUDES
  }

  /** The statement of the imperative UpdateConstants, in source order, that
      last writes a property: 1 the echo count, 2 the threshold offset's
      scale (written again at 10 with its limits), 3 the threshold limits'
      scale, 4 to 6 the segments, 7 to 9 the acquisition limits, 10 to 12 the
      delay limits, 13 to 15 the distance and amplitude scales; 0 for a
      property it does not write. */
  function WriteStep(id: PropId): (k: nat)
    ensures k <= LAST_STEP
  {
    if id == ID_MAX_ECHOES_PER_CHANNEL then 1
    else if id == ID_SENSIVITY_LIMITS then 3
    else if id == ID_HSEGMENT then 4
    else if id == ID_SEGMENT_ENABLE then 5
    else if id == ID_VSEGMENT then 6
    else if id == ID_BASE_POINT_COUNT then 7
    else if id == ID_ACCUMULATION_EXP then 8
    else if id == ID_OVERSAMPLING_EXP then 9
    else if id == ID_SENSIVITY_OLD then 10
    else if id == ID_CHANGE_DELAY then 11
    else if id == ID_COM_CAN_PORT_MAX_ECHOES then 12
    else if id == ID_DETECTION_LENGTH then 13
    else if id == ID_STATIC_THRESHOLD_DISTANCES then 14
    else if id == ID_STATIC_THRESHOLD_AMPLITUDES then 15
    else 0
  }

  const SCALE_STEP: nat := 2
  const LAST_STEP: nat := 15

  /** The properties some statement writes are UpdateConstants'. */
  lemma WrittenConstants(id: PropId)
    ensures WriteStep(id) > 0 <==> id in CONSTANTS_IDS
  {
  }

  /** No two properties are finally written by the same statement, and none by statement 2. */
  lemma WriteStepInjective(a: PropId, b: PropId)
    requires a != b && WriteStep(b) > 0
    ensures WriteStep(a) != WriteStep(b) && WriteStep(b) != SCALE_STEP
  {
  }

  /** One property after the first k statements of the imperative
      UpdateConstants: written as ApplyConstants leaves it, the threshold
      offset carrying its new scale from statement 2 on, or as it was. */
  function StagedProp(m: PropMap, input: ConstantsInputs, k: nat, id: PropId): (p: Property)
    requires SensorLayout(m) && |m[ID_MAX_ECHOES_PER_CHANNEL].values| > 0 && |m[ID_VSEGMENT].values| > 0
    requires id in m
  {
    if 0 < WriteStep(id) <= k then ConstantsFor(m, input, id)
    else if id == ID_SENSIVITY_OLD && k >= SCALE_STEP then m[id].(scale := input.amp % UINT32_LIMIT)
    else m[id]
  }

  /** The properties after the first k statements. */
  function Stage(m: PropMap, input: ConstantsInputs, k: nat): (r: PropMap)
    requires SensorLayout(m) && |m[ID_MAX_ECHOES_PER_CHANNEL].values| > 0 && |m[ID_VSEGMENT].values| > 0
    ensures r.Keys == m.Keys
  {
    map id | id in m :: StagedProp(m, input, k, id)
  }

  lemma StageNone(m: PropMap, input: ConstantsInputs)
    requires SensorLayout(m) && |m[ID_MAX_ECHOES_PER_CHANNEL].values| > 0 && |m[ID_VSEGMENT].values| > 0
    ensures Stage(m, input, 0) == m
  {
    assert forall id :: id in m ==> Stage(m, input, 0)[id] == m[id];
  }

  /** Statement k + 1 writes the one property it finally writes. */
  lemma StageStep(m: PropMap, input: ConstantsInputs, k: nat, id: PropId)
    requires SensorLayout(m) && |m[ID_MAX_ECHOES_PER_CHANNEL].values| > 0 && |m[ID_VSEGMENT].values| > 0
    requires id in m && WriteStep(id) == k + 1
    ensures Stage(m, input, k)[id := ConstantsFor(m, input, id)] == Stage(m, input, k + 1)
  {
    var a := Stage(m, input, k)[id := ConstantsFor(m, input, id)];
    var b := Stage(m, input, k + 1);
    forall j | j in a ensures a[j] == b[j] {
      if j != id {
        StageStepElsewhere(m, input, k, id, j);
      }
    }
  }

  lemma StageStepElsewhere(m: PropMap, input: ConstantsInputs, k: nat, id: PropId, j: PropId)
    requires SensorLayout(m) && |m[ID_MAX_ECHOES_PER_CHANNEL].values| > 0 && |m[ID_VSEGMENT].values| > 0
    requires id in m && WriteStep(id) == k + 1 && j in m && j != id
    ensures StagedProp(m, input, k, j) == StagedProp(m, input, k + 1, j)
  {
    WriteStepInjective(j, id);
  }

  /** Statement 2 sets the threshold offset's scale ahead of its limits. */
  lemma StageScaled(m: PropMap, input: ConstantsInputs)
    requires SensorLayout(m) && |m[ID_MAX_ECHOES_PER_CHANNEL].values| > 0 && |m[ID_VSEGMENT].values| > 0
    ensures Stage(m, input, 1)[ID_SENSIVITY_OLD := m[ID_SENSIVITY_OLD].(scale := input.amp % UINT32_LIMIT)]
            == Stage(m, input, SCALE_STEP)
  {
    var a := Stage(m, input, 1)[ID_SENSIVITY_OLD := m[ID_SENSIVITY_OLD].(scale := input.amp % UINT32_LIMIT)];
    var b := Stage(m, input, SCALE_STEP);
    forall j | j in a ensures a[j] == b[j] {
      if j != ID_SENSIVITY_OLD && WriteStep(j) > 0 {
        WriteStepInjective(ID_SENSIVITY_OLD, j);
      }
    }
  }

  /** After the last statement the properties are ApplyConstants'. */
  lemma StageAll(m: PropMap, input: ConstantsInputs)
    requires SensorLayout(m) && |m[ID_MAX_ECHOES_PER_CHANNEL].values| > 0 && |m[ID_VSEGMENT].values| > 0
    ensures Stage(m, input, LAST_STEP) == ApplyConstants(m, input)
  {
    ApplyFrame(m, input);
    var a := Stage(m, input, LAST_STEP);
    var b := ApplyConstants(m, input);
    forall j | j in a ensures a[j] == b[j] {
      if WriteStep(j) == 0 {
        WrittenConstants(j);
      }
    }
  }

  /** A property statement k has not written yet is still the one read. */
  lemma StageUntouched(m: PropMap, input: ConstantsInputs, k: nat, id: PropId)
    requires SensorLayout(m) && |m[ID_MAX_ECHOES_PER_CHANNEL].values| > 0 && |m[ID_VSEGMENT].values| > 0
    requires id in m && k < WriteStep(id) && (id != ID_SENSIVITY_OLD || k < SCALE_STEP)
    ensures Stage(m, input, k)[id] == m[id]
  {
  }

  /** The properties UpdateConstants reads and never writes (the distance and
      amplitude scales and the five limit properties, ids 4 to 10) still hold
      what they held, and so do the threshold limits' values. */
  predicate ReadsIntact(cur: PropMap, m: PropMap)
    requires SensorLayout(cur) && SensorLayout(m)
  {
    (forall id: PropId :: ID_DISTANCE_SCALE <= id <= ID_COM_CAN_PORT_MAX_ECHOES_LIMIT ==> cur[id] == m[id])
    && cur[ID_SENSIVITY_LIMITS].values == m[ID_SENSIVITY_LIMITS].values
  }


  /** The reads of the successive groups succeed. */
  predicate ThresholdReadable(m: PropMap)
    requires SensorLayout(m)
  {
    |m[ID_MAX_ECHOES_PER_CHANNEL].values| > 0 && IntReadable(m[ID_FILTERED_AMP_SCALE])
  }

  predicate SegmentsReadable(m: PropMap)
    requires SensorLayout(m)
  {
    ThresholdReadable(m) && IntAt(HSegments(m[ID_HSEGMENT]), 0).Success? && |m[ID_VSEGMENT].values| > 0
  }

  predicate AcquisitionReadable(m: PropMap)
    requires SensorLayout(m)
  {
    SegmentsReadable(m) && IntPairReadable(m[ID_BASE_POINT_COUNT_LIMITS])
    && IntPairReadable(m[ID_ACCUMULATION_LIMITS]) && IntPairReadable(m[ID_OVERSAMPLING_LIMITS])
  }

  predicate DelaysReadable(m: PropMap)
    requires SensorLayout(m)
  {
    AcquisitionReadable(m) && RealPairReadable(m[ID_SENSIVITY_LIMITS]) && IntPairReadable(m[ID_CHANGE_DELAY_LIMITS])
    && (|m[ID_COM_CAN_PORT_MAX_ECHOES_LIMIT].values| == 0 || m[ID_COM_CAN_PORT_MAX_ECHOES_LIMIT].values[0].IntV?)
  }

  lemma ReadableGroups(m: PropMap)
    requires SensorLayout(m)
    ensures ConstantsReadable(m) <==> DelaysReadable(m) && IntReadable(m[ID_DISTANCE_SCALE])
  {
  }

  /** The error of a failing read, once the reads before it succeeded. */
  lemma ThresholdReadError(m: PropMap)
    requires SensorLayout(m) && |m[ID_MAX_ECHOES_PER_CHANNEL].values| > 0 && IntAt(m[ID_FILTERED_AMP_SCALE], 0).Failure?
    ensures !ConstantsReadable(m) && ConstantsReadError(m) == IntAt(m[ID_FILTERED_AMP_SCALE], 0).error
  {
  }

  lemma SegmentsReadError(m: PropMap)
    requires SensorLayout(m) && ThresholdReadable(m)
    ensures IntAt(HSegments(m[ID_HSEGMENT]), 0).Failure? ==>
              !ConstantsReadable(m) && ConstantsReadError(m) == IntAt(HSegments(m[ID_HSEGMENT]), 0).error
    ensures IntAt(HSegments(m[ID_HSEGMENT]), 0).Success? && |m[ID_VSEGMENT].values| == 0 ==>
              !ConstantsReadable(m) && ConstantsReadError(m) == INDEX_ERROR
  {
  }

  lemma AcquisitionReadError(m: PropMap)
    requires SensorLayout(m) && SegmentsReadable(m)
    ensures LimitPair(m[ID_BASE_POINT_COUNT_LIMITS], 2, 64).Failure? ==>
              !ConstantsReadable(m) && ConstantsReadError(m) == LimitPair(m[ID_BASE_POINT_COUNT_LIMITS], 2, 64).error
    ensures LimitPair(m[ID_BASE_POINT_COUNT_LIMITS], 2, 64).Success? && LimitPair(m[ID_ACCUMULATION_LIMITS], 0, 10).Failure? ==>
              !ConstantsReadable(m) && ConstantsReadError(m) == LimitPair(m[ID_ACCUMULATION_LIMITS], 0, 10).error
    ensures LimitPair(m[ID_BASE_POINT_COUNT_LIMITS], 2, 64).Success? && LimitPair(m[ID_ACCUMULATION_LIMITS], 0, 10).Success?
            && LimitPair(m[ID_OVERSAMPLING_LIMITS], 0, 3).Failure? ==>
              !ConstantsReadable(m) && ConstantsReadError(m) == LimitPair(m[ID_OVERSAMPLING_LIMITS], 0, 3).error
  {
  }

  lemma DelaysReadError(m: PropMap)
    requires SensorLayout(m) && AcquisitionReadable(m)
    ensures RealLimitPair(m[ID_SENSIVITY_LIMITS], -5.0, 100.0).Failure? ==>
              !ConstantsReadable(m) && ConstantsReadError(m) == RealLimitPair(m[ID_SENSIVITY_LIMITS], -5.0, 100.0).error
    ensures RealLimitPair(m[ID_SENSIVITY_LIMITS], -5.0, 100.0).Success? && LimitPair(m[ID_CHANGE_DELAY_LIMITS], 0, 32767).Failure? ==>
              !ConstantsReadable(m) && ConstantsReadError(m) == LimitPair(m[ID_CHANGE_DELAY_LIMITS], 0, 32767).error
    ensures RealLimitPair(m[ID_SENSIVITY_LIMITS], -5.0, 100.0).Success? && LimitPair(m[ID_CHANGE_DELAY_LIMITS], 0, 32767).Success?
            && |m[ID_COM_CAN_PORT_MAX_ECHOES_LIMIT].values| > 0 && IntAt(m[ID_COM_CAN_PORT_MAX_ECHOES_LIMIT], 0).Failure? ==>
              !ConstantsReadable(m) && ConstantsReadError(m) == IntAt(m[ID_COM_CAN_PORT_MAX_ECHOES_LIMIT], 0).error
  {
  }

  lemma DistanceReadError(m: PropMap)
    requires SensorLayout(m) && DelaysReadable(m) && IntAt(m[ID_DISTANCE_SCALE], 0).Failure?
    ensures !ConstantsReadable(m) && ConstantsReadError(m) == IntAt(m[ID_DISTANCE_SCALE], 0).error
  {
  }

  /** The echo count pinned to the M16's and left clean. */
  lemma StagedEchoCount(m: PropMap, s1: PropMap, s2: PropMap)
    requires SensorLayout(m) && ConstantsReadable(m)
    requires s1 == m[ID_MAX_ECHOES_PER_CHANNEL := WithValue(m[ID_MAX_ECHOES_PER_CHANNEL], 0, IntV(M16_MAX_ECHOES_BY_CHANNEL))]
    requires s2 == s1[ID_MAX_ECHOES_PER_CHANNEL := s1[ID_MAX_ECHOES_PER_CHANNEL].(modified := false)]
    ensures s2 == Stage(m, ReadConstants(m), 1)
  {
    var input := ReadConstants(m);
    StageNone(m, input);
    StageStep(m, input, 0, ID_MAX_ECHOES_PER_CHANNEL);
    assert s2 == m[ID_MAX_ECHOES_PER_CHANNEL := ConstantsFor(m, input, ID_MAX_ECHOES_PER_CHANNEL)];
  }

  /** The threshold offset and its limits scaled by the amplitude scale. */
  lemma StagedThreshold(m: PropMap, s0: PropMap, s1: PropMap, s2: PropMap)
    requires SensorLayout(m) && ConstantsReadable(m)
    requires s0 == Stage(m, ReadConstants(m), 1)
    requires s1 == s0[ID_SENSIVITY_OLD := s0[ID_SENSIVITY_OLD].(scale := m[ID_FILTERED_AMP_SCALE].values[0].i % UINT32_LIMIT)]
    requires s2 == s1[ID_SENSIVITY_LIMITS := s1[ID_SENSIVITY_LIMITS].(scale := s1[ID_SENSIVITY_OLD].scale)]
    ensures s2 == Stage(m, ReadConstants(m), 3)
  {
    var input := ReadConstants(m);
    StageUntouched(m, input, 1, ID_SENSIVITY_OLD);
    StageScaled(m, input);
    StageUntouched(m, input, 2, ID_SENSIVITY_LIMITS);
    StageStep(m, input, 2, ID_SENSIVITY_LIMITS);
  }

  /** The horizontal segment default, the segment mask, one vertical segment. */
  lemma StagedSegments(m: PropMap, s0: PropMap, s1: PropMap, s2: PropMap, s3: PropMap)
    requires SensorLayout(m) && ConstantsReadable(m)
    requires s0 == Stage(m, ReadConstants(m), 3)
    requires s1 == s0[ID_HSEGMENT := HSegments(m[ID_HSEGMENT])]
    requires s2 == s1[ID_SEGMENT_ENABLE := s1[ID_SEGMENT_ENABLE].(limits := MaskLimit(SegmentMask(HSegments(m[ID_HSEGMENT]).values[0].i)))]
    requires s3 == s2[ID_VSEGMENT := WithValue(s2[ID_VSEGMENT], 0, IntV(1))]
    ensures s3 == Stage(m, ReadConstants(m), 6)
  {
    StagedHSegment(m, s0, s1);
    StagedSegmentMask(m, s1, s2);
    StagedVSegment(m, s2, s3);
  }

  lemma StagedHSegment(m: PropMap, s0: PropMap, s1: PropMap)
    requires SensorLayout(m) && ConstantsReadable(m)
    requires s0 == Stage(m, ReadConstants(m), 3)
    requires s1 == s0[ID_HSEGMENT := HSegments(m[ID_HSEGMENT])]
    ensures s1 == Stage(m, ReadConstants(m), 4)
  {
    StageStep(m, ReadConstants(m), 3, ID_HSEGMENT);
  }

  lemma StagedSegmentMask(m: PropMap, s1: PropMap, s2: PropMap)
    requires SensorLayout(m) && ConstantsReadable(m)
    requires s1 == Stage(m, ReadConstants(m), 4)
    requires s2 == s1[ID_SEGMENT_ENABLE := s1[ID_SEGMENT_ENABLE].(limits := MaskLimit(SegmentMask(HSegments(m[ID_HSEGMENT]).values[0].i)))]
    ensures s2 == Stage(m, ReadConstants(m), 5)
  {
    var input := ReadConstants(m);
    StageUntouched(m, input, 4, ID_SEGMENT_ENABLE);
    StageStep(m, input, 4, ID_SEGMENT_ENABLE);
  }

  lemma StagedVSegment(m: PropMap, s2: PropMap, s3: PropMap)
    requires SensorLayout(m) && ConstantsReadable(m)
    requires s2 == Stage(m, ReadConstants(m), 5)
    requires s3 == s2[ID_VSEGMENT := WithValue(s2[ID_VSEGMENT], 0, IntV(1))]
    ensures s3 == Stage(m, ReadConstants(m), 6)
  {
    var input := ReadConstants(m);
    StageUntouched(m, input, 5, ID_VSEGMENT);
    StageStep(m, input, 5, ID_VSEGMENT);
  }

  /** Statement 7: the base point count limits. */
  lemma StagedBasePointCount(m: PropMap, s0: PropMap, s1: PropMap)
    requires SensorLayout(m) && ConstantsReadable(m)
    requires s0 == Stage(m, ReadConstants(m), 6)
    requires s1 == s0[ID_BASE_POINT_COUNT := s0[ID_BASE_POINT_COUNT].(limits :=
                IntLimits(LimitPair(m[ID_BASE_POINT_COUNT_LIMITS], 2, 64).value.0, LimitPair(m[ID_BASE_POINT_COUNT_LIMITS], 2, 64).value.1))]
    ensures s1 == Stage(m, ReadConstants(m), 7)
  {
    var input := ReadConstants(m);
    StageUntouched(m, input, 6, ID_BASE_POINT_COUNT);
    StageStep(m, input, 6, ID_BASE_POINT_COUNT);
  }

  /** Statement 8: the accumulation exponents. */
  lemma StagedAccumulation(m: PropMap, s0: PropMap, s1: PropMap)
    requires SensorLayout(m) && ConstantsReadable(m)
    requires s0 == Stage(m, ReadConstants(m), 7)
    requires s1 == s0[ID_ACCUMULATION_EXP := ExponentPairs(s0[ID_ACCUMULATION_EXP],
                LimitPair(m[ID_ACCUMULATION_LIMITS], 0, 10).value.0 % SIZE_T_LIMIT, LimitPair(m[ID_ACCUMULATION_LIMITS], 0, 10).value.1 % SIZE_T_LIMIT)]
    ensures s1 == Stage(m, ReadConstants(m), 8)
  {
    var input := ReadConstants(m);
    StageUntouched(m, input, 7, ID_ACCUMULATION_EXP);
    StageStep(m, input, 7, ID_ACCUMULATION_EXP);
  }

  /** Statement 9: the oversampling exponents. */
  lemma StagedOversampling(m: PropMap, s0: PropMap, s1: PropMap)
    requires SensorLayout(m) && ConstantsReadable(m)
    requires s0 == Stage(m, ReadConstants(m), 8)
    requires s1 == s0[ID_OVERSAMPLING_EXP := ExponentPairs(s0[ID_OVERSAMPLING_EXP],
                LimitPair(m[ID_OVERSAMPLING_LIMITS], 0, 3).value.0 % SIZE_T_LIMIT, LimitPair(m[ID_OVERSAMPLING_LIMITS], 0, 3).value.1 % SIZE_T_LIMIT)]
    ensures s1 == Stage(m, ReadConstants(m), 9)
  {
    var input := ReadConstants(m);
    StageUntouched(m, input, 8, ID_OVERSAMPLING_EXP);
    StageStep(m, input, 8, ID_OVERSAMPLING_EXP);
  }

  /** Statement 10: the threshold offset's limits, its scale already set. */
  lemma StagedThresholdLimits(m: PropMap, s0: PropMap, s1: PropMap)
    requires SensorLayout(m) && ConstantsReadable(m)
    requires s0 == Stage(m, ReadConstants(m), 9)
    requires s1 == s0[ID_SENSIVITY_OLD := s0[ID_SENSIVITY_OLD].(limits :=
                RealLimits(RealLimitPair(m[ID_SENSIVITY_LIMITS], -5.0, 100.0).value.0, RealLimitPair(m[ID_SENSIVITY_LIMITS], -5.0, 100.0).value.1))]
    ensures s1 == Stage(m, ReadConstants(m), 10)
  {
    var input := ReadConstants(m);
    StageStep(m, input, 9, ID_SENSIVITY_OLD);
  }

  /** Statement 11: the change delay limits. */
  lemma StagedChangeDelay(m: PropMap, s0: PropMap, s1: PropMap)
    requires SensorLayout(m) && ConstantsReadable(m)
    requires s0 == Stage(m, ReadConstants(m), 10)
    requires s1 == s0[ID_CHANGE_DELAY := s0[ID_CHANGE_DELAY].(limits :=
                IntLimits(LimitPair(m[ID_CHANGE_DELAY_LIMITS], 0, 32767).value.0, LimitPair(m[ID_CHANGE_DELAY_LIMITS], 0, 32767).value.1))]
    ensures s1 == Stage(m, ReadConstants(m), 11)
  {
    var input := ReadConstants(m);
    StageUntouched(m, input, 10, ID_CHANGE_DELAY);
    StageStep(m, input, 10, ID_CHANGE_DELAY);
  }

  /** Statement 12: the CAN-port echo limit, when the device reports one. */
  lemma StagedCanLimit(m: PropMap, s0: PropMap, s1: PropMap)
    requires SensorLayout(m) && ConstantsReadable(m)
    requires s0 == Stage(m, ReadConstants(m), 11)
    requires s1 == if |m[ID_COM_CAN_PORT_MAX_ECHOES_LIMIT].values| > 0
                then s0[ID_COM_CAN_PORT_MAX_ECHOES := s0[ID_COM_CAN_PORT_MAX_ECHOES].(limits :=
                       IntLimits(0, m[ID_COM_CAN_PORT_MAX_ECHOES_LIMIT].values[0].i))]
                else s0
    ensures s1 == Stage(m, ReadConstants(m), 12)
  {
    var input := ReadConstants(m);
    StageUntouched(m, input, 11, ID_COM_CAN_PORT_MAX_ECHOES);
    StageStep(m, input, 11, ID_COM_CAN_PORT_MAX_ECHOES);
    if |m[ID_COM_CAN_PORT_MAX_ECHOES_LIMIT].values| == 0 {
      assert s0 == s0[ID_COM_CAN_PORT_MAX_ECHOES := ConstantsFor(m, input, ID_COM_CAN_PORT_MAX_ECHOES)];
    }
  }

  /** Statement 13: the detection length takes the distance scale. */
  lemma StagedDetectionLength(m: PropMap, s0: PropMap, s1: PropMap)
    requires SensorLayout(m) && ConstantsReadable(m)
    requires s0 == Stage(m, ReadConstants(m), 12)
    requires s1 == s0[ID_DETECTION_LENGTH := s0[ID_DETECTION_LENGTH].(scale := m[ID_DISTANCE_SCALE].values[0].i % UINT32_LIMIT)]
    ensures s1 == Stage(m, ReadConstants(m), 13)
  {
    var input := ReadConstants(m);
    StageUntouched(m, input, 12, ID_DETECTION_LENGTH);
    StageStep(m, input, 12, ID_DETECTION_LENGTH);
  }

  /** Statement 14: the static threshold distances take the distance scale. */
  lemma StagedThresholdDistances(m: PropMap, s0: PropMap, s1: PropMap)
    requires SensorLayout(m) && ConstantsReadable(m)
    requires s0 == Stage(m, ReadConstants(m), 13)
    requires s1 == s0[ID_STATIC_THRESHOLD_DISTANCES := s0[ID_STATIC_THRESHOLD_DISTANCES].(scale := m[ID_DISTANCE_SCALE].values[0].i % UINT32_LIMIT)]
    ensures s1 == Stage(m, ReadConstants(m), 14)
  {
    var input := ReadConstants(m);
    StageUntouched(m, input, 13, ID_STATIC_THRESHOLD_DISTANCES);
    StageStep(m, input, 13, ID_STATIC_THRESHOLD_DISTANCES);
  }

  /** Statement 15: the static threshold amplitudes take the amplitude scale. */
  lemma StagedThresholdAmplitudes(m: PropMap, s0: PropMap, s1: PropMap)
    requires SensorLayout(m) && ConstantsReadable(m)
    requires s0 == Stage(m, ReadConstants(m), 14)
    requires s1 == s0[ID_STATIC_THRESHOLD_AMPLITUDES := s0[ID_STATIC_THRESHOLD_AMPLITUDES].(scale := m[ID_FILTERED_AMP_SCALE].values[0].i % UINT32_LIMIT)]
    ensures s1 == Stage(m, ReadConstants(m), 15)
  {
    var input := ReadConstants(m);
    StageUntouched(m, input, 14, ID_STATIC_THRESHOLD_AMPLITUDES);
    StageStep(m, input, 14, ID_STATIC_THRESHOLD_AMPLITUDES);
  }

  /** One property of UpdateConstants' result. */
  lemma ConstantsAt(m: PropMap, id: PropId)
    requires SensorLayout(m) && UpdateConstants(m).Success? && id in m
    ensures |m[ID_MAX_ECHOES_PER_CHANNEL].values| > 0 && |m[ID_VSEGMENT].values| > 0
    ensures UpdateConstants(m).value[id] == ConstantsFor(m, ReadConstants(m), id)
  {
  }

  /** Without a per-channel echo value the first ForceValue is out of range. */
  lemma UpdateConstantsNeedsEchoCount(m: PropMap)
    requires SensorLayout(m) && |m[ID_MAX_ECHOES_PER_CHANNEL].values| == 0
    ensures UpdateConstants(m) == Failure(INDEX_ERROR)
  {
  }

  /** The echo count per channel is pinned to the M16's and left clean; a
      device that reports no horizontal segment count gets 16; the segment
      mask has one bit per two horizontal segments; one vertical segment. */
  lemma UpdateConstantsSegments(m: PropMap)
    requires SensorLayout(m) && UpdateConstants(m).Success?
    ensures |m[ID_MAX_ECHOES_PER_CHANNEL].values| > 0 && |m[ID_VSEGMENT].values| > 0
    ensures UpdateConstants(m).value[ID_MAX_ECHOES_PER_CHANNEL].values == m[ID_MAX_ECHOES_PER_CHANNEL].values[0 := IntV(M16_MAX_ECHOES_BY_CHANNEL)]
    ensures !UpdateConstants(m).value[ID_MAX_ECHOES_PER_CHANNEL].modified
    ensures UpdateConstants(m).value[ID_HSEGMENT].values == (if |m[ID_HSEGMENT].values| == 0 then [IntV(M16_NUMBER_CHANNELS)] else m[ID_HSEGMENT].values)
    ensures UpdateConstants(m).value[ID_HSEGMENT].values[0].IntV?
    ensures UpdateConstants(m).value[ID_SEGMENT_ENABLE].limits == MaskLimit(SegmentMask(UpdateConstants(m).value[ID_HSEGMENT].values[0].i))
    ensures UpdateConstants(m).value[ID_VSEGMENT].values == m[ID_VSEGMENT].values[0 := IntV(1)]
    ensures UpdateConstants(m).value[ID_VSEGMENT].modified
  {
    ConstantsAt(m, ID_MAX_ECHOES_PER_CHANNEL);
    ConstantsAt(m, ID_HSEGMENT);
    ConstantsAt(m, ID_SEGMENT_ENABLE);
    ConstantsAt(m, ID_VSEGMENT);
  }

  /** The base point count and change delay limits: from the device's
      `*_LIMITS` property when it holds two values, 2 to 64 and 0 to 32767 otherwise. */
  lemma UpdateConstantsLimits(m: PropMap)
    requires SensorLayout(m) && UpdateConstants(m).Success?
    ensures LimitPair(m[ID_BASE_POINT_COUNT_LIMITS], 2, 64).Success?
    ensures LimitPair(m[ID_CHANGE_DELAY_LIMITS], 0, 32767).Success?
    ensures UpdateConstants(m).value[ID_BASE_POINT_COUNT].limits ==
              IntLimits(LimitPair(m[ID_BASE_POINT_COUNT_LIMITS], 2, 64).value.0, LimitPair(m[ID_BASE_POINT_COUNT_LIMITS], 2, 64).value.1)
    ensures UpdateConstants(m).value[ID_CHANGE_DELAY].limits ==
              IntLimits(LimitPair(m[ID_CHANGE_DELAY_LIMITS], 0, 32767).value.0, LimitPair(m[ID_CHANGE_DELAY_LIMITS], 0, 32767).value.1)
  {
    ConstantsAt(m, ID_BASE_POINT_COUNT);
    ConstantsAt(m, ID_CHANGE_DELAY);
  }

  /** The threshold offset's limits: from SENSIVITY_LIMITS when it holds two
      values, -5 to 100 otherwise; the CAN-port echo count is limited to
      [0, the device's limit] when the device reports one, and left as it was otherwise. */
  lemma UpdateConstantsThresholdAndCanLimits(m: PropMap)
    requires SensorLayout(m) && UpdateConstants(m).Success?
    ensures RealLimitPair(m[ID_SENSIVITY_LIMITS], -5.0, 100.0).Success?
    ensures UpdateConstants(m).value[ID_SENSIVITY_OLD].limits ==
              RealLimits(RealLimitPair(m[ID_SENSIVITY_LIMITS], -5.0, 100.0).value.0, RealLimitPair(m[ID_SENSIVITY_LIMITS], -5.0, 100.0).value.1)
    ensures UpdateConstants(m).value[ID_COM_CAN_PORT_MAX_ECHOES].limits ==
              (if |m[ID_COM_CAN_PORT_MAX_ECHOES_LIMIT].values| > 0
               then IntLimits(0, m[ID_COM_CAN_PORT_MAX_ECHOES_LIMIT].values[0].i)
               else m[ID_COM_CAN_PORT_MAX_ECHOES].limits)
  {
    ConstantsAt(m, ID_SENSIVITY_OLD);
    ConstantsAt(m, ID_COM_CAN_PORT_MAX_ECHOES);
  }

  /** An exponent enumeration after the loop over [lo, hi]. */
  predicate ExponentsRegistered(before: Property, after: Property, lo: nat, hi: int) {
    && before.enumPairs <= after.enumPairs
    && (forall i :: lo <= i <= hi ==> i in EnumValues(after))
    && (forall v :: v in EnumValues(after) ==> v in EnumValues(before) || lo <= v <= hi)
    && (forall i: nat :: lo <= i <= hi && i !in EnumValues(before) ==> EnumPair(i, Decimal(Pow2(i))) in after.enumPairs)
  }

  /** The accumulation and oversampling enumerations gain every exponent of
      their limits (read as `size_t`), each labelled with its power of two. */
  lemma UpdateConstantsExponents(m: PropMap)
    requires SensorLayout(m) && UpdateConstants(m).Success?
    ensures LimitPair(m[ID_ACCUMULATION_LIMITS], 0, 10).Success?
    ensures LimitPair(m[ID_OVERSAMPLING_LIMITS], 0, 3).Success?
    ensures ExponentsRegistered(m[ID_ACCUMULATION_EXP], UpdateConstants(m).value[ID_ACCUMULATION_EXP],
              LimitPair(m[ID_ACCUMULATION_LIMITS], 0, 10).value.0 % SIZE_T_LIMIT,
              LimitPair(m[ID_ACCUMULATION_LIMITS], 0, 10).value.1 % SIZE_T_LIMIT)
    ensures ExponentsRegistered(m[ID_OVERSAMPLING_EXP], UpdateConstants(m).value[ID_OVERSAMPLING_EXP],
              LimitPair(m[ID_OVERSAMPLING_LIMITS], 0, 3).value.0 % SIZE_T_LIMIT,
              LimitPair(m[ID_OVERSAMPLING_LIMITS], 0, 3).value.1 % SIZE_T_LIMIT)
  {
    ConstantsAt(m, ID_ACCUMULATION_EXP);
    ConstantsAt(m, ID_OVERSAMPLING_EXP);
    var acc := LimitPair(m[ID_ACCUMULATION_LIMITS], 0, 10).value;
    var ovs := LimitPair(m[ID_OVERSAMPLING_LIMITS], 0, 3).value;
    ExponentPairsContent(m[ID_ACCUMULATION_EXP], acc.0 % SIZE_T_LIMIT, acc.1 % SIZE_T_LIMIT);
    ExponentPairsContent(m[ID_OVERSAMPLING_EXP], ovs.0 % SIZE_T_LIMIT, ovs.1 % SIZE_T_LIMIT);
  }

  /** The threshold offset, its limits and the static threshold amplitudes
      take the filtered-amplitude scale, as `uint32_t`. */
  lemma UpdateConstantsAmplitudeScales(m: PropMap)
    requires SensorLayout(m) && UpdateConstants(m).Success?
    ensures IntReadable(m[ID_FILTERED_AMP_SCALE])
    ensures UpdateConstants(m).value[ID_SENSIVITY_OLD].scale == m[ID_FILTERED_AMP_SCALE].values[0].i % UINT32_LIMIT
    ensures UpdateConstants(m).value[ID_SENSIVITY_LIMITS].scale == m[ID_FILTERED_AMP_SCALE].values[0].i % UINT32_LIMIT
    ensures UpdateConstants(m).value[ID_STATIC_THRESHOLD_AMPLITUDES].scale == m[ID_FILTERED_AMP_SCALE].values[0].i % UINT32_LIMIT
  {
    ConstantsAt(m, ID_SENSIVITY_OLD);
    ConstantsAt(m, ID_SENSIVITY_LIMITS);
    ConstantsAt(m, ID_STATIC_THRESHOLD_AMPLITUDES);
  }

  /** The detection length and the static threshold distances take the
      distance scale, as `uint32_t`. */
  lemma UpdateConstantsDistanceScales(m: PropMap)
    requires SensorLayout(m) && UpdateConstants(m).Success?
    ensures IntReadable(m[ID_DISTANCE_SCALE])
    ensures UpdateConstants(m).value[ID_DETECTION_LENGTH].scale == m[ID_DISTANCE_SCALE].values[0].i % UINT32_LIMIT
    ensures UpdateConstants(m).value[ID_STATIC_THRESHOLD_DISTANCES].scale == m[ID_DISTANCE_SCALE].values[0].i % UINT32_LIMIT
  {
    ConstantsAt(m, ID_DETECTION_LENGTH);
    ConstantsAt(m, ID_STATIC_THRESHOLD_DISTANCES);
  }

  /** Nothing outside the properties UpdateConstants names changes, and only
      three of those change their values. */
  lemma UpdateConstantsFrame(m: PropMap)
    requires SensorLayout(m) && UpdateConstants(m).Success?
    ensures forall id :: id in m && id !in CONSTANTS_IDS ==> UpdateConstants(m).value[id] == m[id]
    ensures forall id :: id in m && id !in {ID_MAX_ECHOES_PER_CHANNEL, ID_HSEGMENT, ID_VSEGMENT} ==>
              UpdateConstants(m).value[id].values == m[id].values
  {
    forall id | id in m
      ensures id !in CONSTANTS_IDS ==> UpdateConstants(m).value[id] == m[id]
      ensures id !in {ID_MAX_ECHOES_PER_CHANNEL, ID_HSEGMENT, ID_VSEGMENT} ==> UpdateConstants(m).value[id].values == m[id].values
    {
      ConstantsAt(m, id);
      if id !in {ID_MAX_ECHOES_PER_CHANNEL, ID_HSEGMENT, ID_VSEGMENT} {
        ConstantsForValues(m, ReadConstants(m), id);
      }
    }
  }

  /** Only the echo count and the segment counts have their values written. */
  lemma ConstantsForValues(m: PropMap, input: ConstantsInputs, id: PropId)
    requires SensorLayout(m) && |m[ID_MAX_ECHOES_PER_CHANNEL].values| > 0 && |m[ID_VSEGMENT].values| > 0
    requires id in m && id !in {ID_MAX_ECHOES_PER_CHANNEL, ID_HSEGMENT, ID_VSEGMENT}
    ensures ConstantsFor(m, input, id).values == m[id].values
  {
  }

  /** Calling UpdateConstants again changes nothing: its result is a fixed point. */
  lemma UpdateConstantsIdempotent(m: PropMap)
    requires SensorLayout(m) && UpdateConstants(m).Success?
    ensures UpdateConstants(UpdateConstants(m).value) == UpdateConstants(m)
  {
    var input := ReadConstants(m);
    var r := ApplyConstants(m, input);
    assert UpdateConstants(m).value == r;
    ReadAgain(m);
    forall id | id in r
      ensures ApplyConstants(r, input)[id] == r[id]
    {
      ApplyFixedAt(m, input, id);
    }
    assert ApplyConstants(r, input) == r;
  }

  /** ApplyConstants leaves every property it does not write as it was. */
  lemma ApplyFrame(m: PropMap, input: ConstantsInputs)
    requires SensorLayout(m) && |m[ID_MAX_ECHOES_PER_CHANNEL].values| > 0 && |m[ID_VSEGMENT].values| > 0
    ensures forall id :: id in m && id !in CONSTANTS_IDS ==> ApplyConstants(m, input)[id] == m[id]
  {
    forall id | id in m && id !in CONSTANTS_IDS ensures ApplyConstants(m, input)[id] == m[id] {
      WrittenConstants(id);
      ConstantsForFrame(m, input, id);
    }
  }

  lemma ConstantsForFrame(m: PropMap, input: ConstantsInputs, id: PropId)
    requires SensorLayout(m) && |m[ID_MAX_ECHOES_PER_CHANNEL].values| > 0 && |m[ID_VSEGMENT].values| > 0
    requires id in m && WriteStep(id) == 0
    ensures ConstantsFor(m, input, id) == m[id]
  {
  }

  /** The identification and start-trace properties are not among those
      UpdateConstants writes. */
  lemma IdentificationNotConstant()
    ensures ID_SERIAL_NUMBER !in CONSTANTS_IDS && ID_DEVICE_TYPE !in CONSTANTS_IDS
    ensures ID_START_TRACE !in CONSTANTS_IDS && ID_START_TRACE_LIMITS !in CONSTANTS_IDS
  {
  }

  /** Two maps that agree on what UpdateConstants reads, the second holding
      the first's horizontal segment count after its default. */
  predicate SameReads(m: PropMap, r: PropMap)
    requires SensorLayout(m) && SensorLayout(r)
  {
    SameScaleReads(m, r) && SameLimitReads(m, r)
  }

  predicate SameScaleReads(m: PropMap, r: PropMap)
    requires SensorLayout(m) && SensorLayout(r)
  {
    && |r[ID_MAX_ECHOES_PER_CHANNEL].values| > 0 && |r[ID_VSEGMENT].values| > 0
    && r[ID_HSEGMENT] == HSegments(m[ID_HSEGMENT])
    && r[ID_FILTERED_AMP_SCALE] == m[ID_FILTERED_AMP_SCALE]
    && r[ID_DISTANCE_SCALE] == m[ID_DISTANCE_SCALE]
    && r[ID_SENSIVITY_LIMITS].values == m[ID_SENSIVITY_LIMITS].values
  }

  predicate SameLimitReads(m: PropMap, r: PropMap)
    requires SensorLayout(m) && SensorLayout(r)
  {
    && r[ID_BASE_POINT_COUNT_LIMITS] == m[ID_BASE_POINT_COUNT_LIMITS]
    && r[ID_ACCUMULATION_LIMITS] == m[ID_ACCUMULATION_LIMITS]
    && r[ID_OVERSAMPLING_LIMITS] == m[ID_OVERSAMPLING_LIMITS]
    && r[ID_CHANGE_DELAY_LIMITS] == m[ID_CHANGE_DELAY_LIMITS]
    && r[ID_COM_CAN_PORT_MAX_ECHOES_LIMIT] == m[ID_COM_CAN_PORT_MAX_ECHOES_LIMIT]
  }

  lemma SameReadsRead(m: PropMap, r: PropMap)
    requires SensorLayout(m) && SensorLayout(r) && ConstantsReadable(m) && SameReads(m, r)
    ensures ConstantsReadable(r) && ReadConstants(r) == ReadConstants(m)
  {
  }

  /** UpdateConstants' result reads back the same inputs. */
  lemma ReadAgain(m: PropMap)
    requires SensorLayout(m) && UpdateConstants(m).Success?
    ensures ConstantsReadable(UpdateConstants(m).value)
    ensures ReadConstants(UpdateConstants(m).value) == ReadConstants(m)
  {
    var input := ReadConstants(m);
    var r := ApplyConstants(m, input);
    assert UpdateConstants(m).value == r;
    ApplySameReads(m, input);
    SameReadsRead(m, r);
  }

  lemma ApplySameReads(m: PropMap, input: ConstantsInputs)
    requires SensorLayout(m) && |m[ID_MAX_ECHOES_PER_CHANNEL].values| > 0 && |m[ID_VSEGMENT].values| > 0
    ensures SensorLayout(ApplyConstants(m, input)) && SameReads(m, ApplyConstants(m, input))
  {
    LayoutShape(m, ApplyConstants(m, input));
    ApplySameScaleReads(m, input);
    ApplySameLimitReads(m, input);
  }

  lemma ApplySameLimitReads(m: PropMap, input: ConstantsInputs)
    requires SensorLayout(m) && |m[ID_MAX_ECHOES_PER_CHANNEL].values| > 0 && |m[ID_VSEGMENT].values| > 0
    requires SensorLayout(ApplyConstants(m, input))
    ensures SameLimitReads(m, ApplyConstants(m, input))
  {
    ConstantsForFrame(m, input, ID_BASE_POINT_COUNT_LIMITS);
    ConstantsForFrame(m, input, ID_ACCUMULATION_LIMITS);
    ConstantsForFrame(m, input, ID_OVERSAMPLING_LIMITS);
    ConstantsForFrame(m, input, ID_CHANGE_DELAY_LIMITS);
    ConstantsForFrame(m, input, ID_COM_CAN_PORT_MAX_ECHOES_LIMIT);
  }

  lemma ApplySameScaleReads(m: PropMap, input: ConstantsInputs)
    requires SensorLayout(m) && |m[ID_MAX_ECHOES_PER_CHANNEL].values| > 0 && |m[ID_VSEGMENT].values| > 0
    requires SensorLayout(ApplyConstants(m, input))
    ensures SameScaleReads(m, ApplyConstants(m, input))
  {
    ApplySegmentReads(m, input);
    ApplyScaleReads(m, input);
  }

  lemma ApplySegmentReads(m: PropMap, input: ConstantsInputs)
    requires SensorLayout(m) && |m[ID_MAX_ECHOES_PER_CHANNEL].values| > 0 && |m[ID_VSEGMENT].values| > 0
    ensures |ApplyConstants(m, input)[ID_MAX_ECHOES_PER_CHANNEL].values| > 0
    ensures |ApplyConstants(m, input)[ID_VSEGMENT].values| > 0
    ensures ApplyConstants(m, input)[ID_HSEGMENT] == HSegments(m[ID_HSEGMENT])
  {
    var r := ApplyConstants(m, input);
    assert r[ID_MAX_ECHOES_PER_CHANNEL] == ConstantsFor(m, input, ID_MAX_ECHOES_PER_CHANNEL);
    assert r[ID_VSEGMENT] == ConstantsFor(m, input, ID_VSEGMENT);
    assert r[ID_HSEGMENT] == ConstantsFor(m, input, ID_HSEGMENT);
  }

  lemma ApplyScaleReads(m: PropMap, input: ConstantsInputs)
    requires SensorLayout(m) && |m[ID_MAX_ECHOES_PER_CHANNEL].values| > 0 && |m[ID_VSEGMENT].values| > 0
    ensures ApplyConstants(m, input)[ID_FILTERED_AMP_SCALE] == m[ID_FILTERED_AMP_SCALE]
    ensures ApplyConstants(m, input)[ID_DISTANCE_SCALE] == m[ID_DISTANCE_SCALE]
    ensures ApplyConstants(m, input)[ID_SENSIVITY_LIMITS].values == m[ID_SENSIVITY_LIMITS].values
  {
    var r := ApplyConstants(m, input);
    assert r[ID_FILTERED_AMP_SCALE] == ConstantsFor(m, input, ID_FILTERED_AMP_SCALE);
    assert r[ID_DISTANCE_SCALE] == ConstantsFor(m, input, ID_DISTANCE_SCALE);
    assert r[ID_SENSIVITY_LIMITS] == ConstantsFor(m, input, ID_SENSIVITY_LIMITS);
  }

  /** A second application of the same inputs leaves each property as it is. */
  lemma ApplyFixedAt(m: PropMap, input: ConstantsInputs, id: PropId)
    requires SensorLayout(m) && |m[ID_MAX_ECHOES_PER_CHANNEL].values| > 0 && |m[ID_VSEGMENT].values| > 0 && id in m
    ensures ConstantsFor(ApplyConstants(m, input), input, id) == ApplyConstants(m, input)[id]
  {
    var r := ApplyConstants(m, input);
    assert r[id] == ConstantsFor(m, input, id);
    if id == ID_MAX_ECHOES_PER_CHANNEL {
      assert r[id].values[0 := IntV(M16_MAX_ECHOES_BY_CHANNEL)] == r[id].values;
    } else if id == ID_VSEGMENT {
      assert r[id].values[0 := IntV(1)] == r[id].values;
    } else if id == ID_ACCUMULATION_EXP {
      ExponentPairsContent(m[id], input.acc.0 % SIZE_T_LIMIT, input.acc.1 % SIZE_T_LIMIT);
      ExponentPairsSaturated(r[id], input.acc.0 % SIZE_T_LIMIT, input.acc.1 % SIZE_T_LIMIT);
    } else if id == ID_OVERSAMPLING_EXP {
      ExponentPairsContent(m[id], input.ovs.0 % SIZE_T_LIMIT, input.ovs.1 % SIZE_T_LIMIT);
      ExponentPairsSaturated(r[id], input.ovs.0 % SIZE_T_LIMIT, input.ovs.1 % SIZE_T_LIMIT);
    }
  }
}
