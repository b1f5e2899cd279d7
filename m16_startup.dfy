/** What LdSensorM16::GetConstants does to the sensor properties once the
    device is connected: the identification the USB layer reported, the
    listing check, the answers to the device and constant requests, the
    scales, the intensity enum, UpdateConstants, the start-trace limits, and
    finally the constant and information properties marked clean. */
module M16Startup {
  import opened Wrappers
  import opened Exceptions
  import opened Properties
  import opened M16Layout
  import opened M16Intensity
  import M16Constants

  /** What the USB identify package gives that the modelled table holds. */
  datatype UsbInfo = UsbInfo(serialNumber: string, deviceType: int)

  /** What the device answers to the requests of GetConstants, each read by
      ReadAnswer, which throws when the transport fails: the element ids the
      listing carries, the properties the device request and then the
      constants request carry, and the LED_POWER elements answered for each
      intensity setting. A failed read is its error. */
  datatype Replies = Replies(listing: Result<seq<nat>, Error>,
                             device: Result<map<PropId, seq<Value>>, Error>,
                             constants: Result<map<PropId, seq<Value>>, Error>,
                             powers: seq<Result<seq<int>, Error>>)

  /** The properties once the device answer and then the constants answer
      were read into them. */
  function Replied(m: PropMap, replies: Replies): (a: PropMap)
    requires replies.device.Success? && replies.constants.Success?
    ensures SameShape(m, a)
  {
    SameShapeTrans(m, Answered(m, replies.device.value), Answered(Answered(m, replies.device.value), replies.constants.value));
    Answered(Answered(m, replies.device.value), replies.constants.value)
  }

  const INCOMPATIBLE_FIRMWARE: Error := RuntimeError("Your firmware is incompatible with the SDK, please update your firmware.")

  /** The fixed-point scale of the predicted temperature. */
  const PREDICT_TEMP_SCALE: nat := 65536

  /** The result-state temperatures: the system temperature shares the
      distance scale, the predicted temperature is in 16.16 fixed point. */
  function TemperatureScaled(states: PropMap, distanceScale: nat): (r: PropMap)
    requires StatesLayout(states)
    ensures StatesLayout(r) && SameShape(states, r)
    ensures r[ID_RS_SYSTEM_TEMP].scale == distanceScale && r[ID_RS_PREDICT_TEMP].scale == PREDICT_TEMP_SCALE
    ensures forall id :: id in states && id != ID_RS_SYSTEM_TEMP && id != ID_RS_PREDICT_TEMP ==> r[id] == states[id]
  {
    states[ID_RS_SYSTEM_TEMP := states[ID_RS_SYSTEM_TEMP].(scale := distanceScale)]
          [ID_RS_PREDICT_TEMP := states[ID_RS_PREDICT_TEMP].(scale := PREDICT_TEMP_SCALE)]
  }

  /** The first statements: serial number and device type forced from the USB
      information (ForceValue on element 0, which must exist). */
  function Identified(m: PropMap, usb: UsbInfo): (r: Result<PropMap, Error>)
    requires SensorLayout(m)
    ensures r.Success? <==> |m[ID_SERIAL_NUMBER].values| > 0 && |m[ID_DEVICE_TYPE].values| > 0
    ensures r.Success? ==> SameShape(m, r.value) && SensorLayout(r.value)
    ensures r.Success? ==> r.value[ID_SERIAL_NUMBER].values == m[ID_SERIAL_NUMBER].values[0 := TextV(usb.serialNumber)]
    ensures r.Success? ==> r.value[ID_DEVICE_TYPE].values == m[ID_DEVICE_TYPE].values[0 := IntV(usb.deviceType)]
    ensures r.Success? ==> forall id :: id in m && id != ID_SERIAL_NUMBER && id != ID_DEVICE_TYPE ==> r.value[id] == m[id]
  {
    if |m[ID_SERIAL_NUMBER].values| == 0 then Failure(INDEX_ERROR)
    else
      var m1 := m[ID_SERIAL_NUMBER := WithValue(m[ID_SERIAL_NUMBER], 0, TextV(usb.serialNumber))];
      if |m1[ID_DEVICE_TYPE].values| == 0 then Failure(INDEX_ERROR)
      else Success(m1[ID_DEVICE_TYPE := WithValue(m1[ID_DEVICE_TYPE], 0, IntV(usb.deviceType))])
  }

  /** The distance and filtered-amplitude scales, read as `uint32_t`. */
  function ScalesOf(m: PropMap): (r: Result<(nat, nat), Error>)
    requires SensorLayout(m)
    ensures r.Success? <==> IntAt(m[ID_DISTANCE_SCALE], 0).Success? && IntAt(m[ID_FILTERED_AMP_SCALE], 0).Success?
    ensures r.Success? ==> r.value.0 < UINT32_LIMIT && r.value.1 < UINT32_LIMIT
  {
    var distance :- IntAt(m[ID_DISTANCE_SCALE], 0);
    var filtered :- IntAt(m[ID_FILTERED_AMP_SCALE], 0);
    Success((distance % UINT32_LIMIT, filtered % UINT32_LIMIT))
  }

  /** The detection length takes the distance scale only when it has elements. */
  function DetectionScaled(m: PropMap, distanceScale: nat): (r: PropMap)
    requires SensorLayout(m)
    ensures SameShape(m, r) && SensorLayout(r)
  {
    if |m[ID_DETECTION_LENGTH].values| > 0 then m[ID_DETECTION_LENGTH := m[ID_DETECTION_LENGTH].(scale := distanceScale)] else m
  }

  /** GetIntensityMappings applied to the LED intensity property. */
  function WithIntensities(m: PropMap, powers: seq<seq<int>>): (r: PropMap)
    requires SensorLayout(m) && |powers| == M16_LED_INTENSITY_MAX + 1
    ensures SameShape(m, r) && SensorLayout(r)
  {
    m[ID_LED_INTENSITY := IntensityPairs(m[ID_LED_INTENSITY], Mapping(powers), M16_LED_INTENSITY_MAX, POWER_ABOVE_ALL)]
  }

  /** The start-trace limits property is marked clean, then its two first
      elements become the bounds of the start-trace index. */
  function StartTraceLimited(m: PropMap): (r: Result<PropMap, Error>)
    requires ID_START_TRACE_LIMITS in m && ID_START_TRACE in m
    ensures r.Success? <==> IntAt(m[ID_START_TRACE_LIMITS], 0).Success? && IntAt(m[ID_START_TRACE_LIMITS], 1).Success?
    ensures r.Success? ==> SameShape(m, r.value)
    ensures r.Success? ==>
              r.value[ID_START_TRACE].limits == IntLimits(m[ID_START_TRACE_LIMITS].values[0].i, m[ID_START_TRACE_LIMITS].values[1].i)
    ensures r.Success? ==> forall id :: id in m ==> r.value[id].values == m[id].values
  {
    var cleaned := m[ID_START_TRACE_LIMITS := m[ID_START_TRACE_LIMITS].(modified := false)];
    var lo :- IntAt(cleaned[ID_START_TRACE_LIMITS], 0);
    var hi :- IntAt(cleaned[ID_START_TRACE_LIMITS], 1);
    Success(cleaned[ID_START_TRACE := cleaned[ID_START_TRACE].(limits := IntLimits(lo, hi))])
  }

  /** The answers to the device and constants requests read into the
      properties, the two scales read, the detection length scaled and the
      intensity enum filled from the LED-power answers: the properties, the
      distance scale and the filtered-amplitude scale, or the first error. */
  function Prepared(m: PropMap, replies: Replies): (r: Result<(PropMap, nat, nat), Error>)
    requires SensorLayout(m) && |replies.powers| == M16_LED_INTENSITY_MAX + 1
    ensures replies.device.Failure? ==> r == Failure(replies.device.error)
    ensures replies.device.Success? && replies.constants.Failure? ==> r == Failure(replies.constants.error)
    ensures r.Success? <==>
              replies.device.Success? && replies.constants.Success? && ScalesOf(Replied(m, replies)).Success?
              && PowersRead(replies.powers).Success?
    ensures r.Success? ==> SameShape(m, r.value.0) && SensorLayout(r.value.0)
    ensures r.Success? ==> r.value.1 < UINT32_LIMIT && r.value.2 < UINT32_LIMIT
    ensures r.Success? ==> r.value.0[ID_SERIAL_NUMBER] == Replied(m, replies)[ID_SERIAL_NUMBER]
    ensures r.Success? ==> r.value.0[ID_START_TRACE_LIMITS] == Replied(m, replies)[ID_START_TRACE_LIMITS]
  {
    if replies.device.Failure? then Failure(replies.device.error)
    else if replies.constants.Failure? then Failure(replies.constants.error)
    else
      var answered := Replied(m, replies);
      var scales :- ScalesOf(answered);
      var scaled := DetectionScaled(answered, scales.0);
      var powers :- PowersRead(replies.powers);
      var filled := WithIntensities(scaled, powers);
      SameShapeTrans(m, answered, scaled);
      SameShapeTrans(m, scaled, filled);
      ScaledKeeps(answered, scales.0, powers, ID_SERIAL_NUMBER);
      ScaledKeeps(answered, scales.0, powers, ID_START_TRACE_LIMITS);
      Success((filled, scales.0, scales.1))
  }

  /** Scaling the detection length and filling the intensity enum leave
      every other property as it was. */
  lemma ScaledKeeps(m: PropMap, distanceScale: nat, powers: seq<seq<int>>, id: PropId)
    requires SensorLayout(m) && |powers| == M16_LED_INTENSITY_MAX + 1
    requires id in m && id != ID_DETECTION_LENGTH && id != ID_LED_INTENSITY
    ensures WithIntensities(DetectionScaled(m, distanceScale), powers)[id] == m[id]
  {
  }

  /** UpdateConstants, the start-trace limits, and the constant and
      information properties marked clean. What it leaves: no constant or
      information property marked modified, the start-trace index bounded by
      the first two start-trace limits, and every property UpdateConstants
      does not write holding its values. */
  function Settled(m: PropMap): (r: Result<PropMap, Error>)
    requires SensorLayout(m)
    ensures r.Success? ==> SameShape(m, r.value)
    ensures r.Success? ==> ModifiedIn(r.value, CatConstant) == {} && ModifiedIn(r.value, CatInfo) == {}
    ensures r.Success? ==>
              var lim := m[ID_START_TRACE_LIMITS].values;
              |lim| >= 2 && lim[0].IntV? && lim[1].IntV?
              && r.value[ID_START_TRACE].limits == IntLimits(lim[0].i, lim[1].i)
    ensures r.Success? ==> r.value[ID_SERIAL_NUMBER].values == m[ID_SERIAL_NUMBER].values
  {
    var updated :- M16Constants.UpdateConstants(m);
    var limited :- StartTraceLimited(updated);
    var cleaned := Cleaned(limited, CatConstant);
    M16Constants.ApplyFrame(m, M16Constants.ReadConstants(m));
    SettledFrame(m, updated, limited, cleaned);
    Success(Cleaned(cleaned, CatInfo))
  }

  lemma SettledFrame(m: PropMap, updated: PropMap, limited: PropMap, cleaned: PropMap)
    requires ID_START_TRACE_LIMITS in m && ID_START_TRACE in m && ID_SERIAL_NUMBER in m && SameShape(m, updated)
    requires forall id :: id in m && id !in M16Constants.CONSTANTS_IDS ==> updated[id] == m[id]
    requires StartTraceLimited(updated) == Success(limited) && cleaned == Cleaned(limited, CatConstant)
    ensures SameShape(m, Cleaned(cleaned, CatInfo))
    ensures ModifiedIn(Cleaned(cleaned, CatInfo), CatConstant) == {} && ModifiedIn(Cleaned(cleaned, CatInfo), CatInfo) == {}
    ensures var lim := m[ID_START_TRACE_LIMITS].values;
            |lim| >= 2 && lim[0].IntV? && lim[1].IntV?
            && Cleaned(cleaned, CatInfo)[ID_START_TRACE].limits == IntLimits(lim[0].i, lim[1].i)
    ensures Cleaned(cleaned, CatInfo)[ID_SERIAL_NUMBER].values == m[ID_SERIAL_NUMBER].values
  {
    var s := Cleaned(cleaned, CatInfo);
    SameShapeTrans(m, updated, limited);
    CleanedBoth(limited);
    SameShapeTrans(m, limited, s);
    M16Constants.IdentificationNotConstant();
    assert updated[ID_START_TRACE_LIMITS] == m[ID_START_TRACE_LIMITS];
  }

  /** Cleaning the constants and then the information properties leaves
      neither marked modified and changes nothing but the flag. */
  lemma CleanedBoth(m: PropMap)
    ensures SameShape(m, Cleaned(Cleaned(m, CatConstant), CatInfo))
    ensures ModifiedIn(Cleaned(Cleaned(m, CatConstant), CatInfo), CatConstant) == {}
    ensures ModifiedIn(Cleaned(Cleaned(m, CatConstant), CatInfo), CatInfo) == {}
    ensures forall id :: id in m ==> Cleaned(Cleaned(m, CatConstant), CatInfo)[id].values == m[id].values
    ensures forall id :: id in m ==> Cleaned(Cleaned(m, CatConstant), CatInfo)[id].limits == m[id].limits
  {
    var c := Cleaned(m, CatConstant);
    var s := Cleaned(c, CatInfo);
    CleanedChangesModifiedOnly(m, CatConstant);
    CleanedChangesModifiedOnly(c, CatInfo);
    SameShapeTrans(m, c, s);
    assert ModifiedIn(s, CatConstant) == {} by {
      forall id | id in s ensures id !in ModifiedIn(s, CatConstant) {
        assert s[id].modified ==> c[id].modified;
      }
    }
  }

  /** The values of a property once the device answered: the constants
      answer's when it carried the property, else the device answer's when it
      did, the previous ones otherwise. */
  function RepliedValues(m: PropMap, replies: Replies, id: PropId): (v: seq<Value>)
    requires id in m && replies.device.Success? && replies.constants.Success?
    ensures id in replies.constants.value ==> v == replies.constants.value[id]
    ensures id !in replies.constants.value && id in replies.device.value ==> v == replies.device.value[id]
    ensures id !in replies.constants.value && id !in replies.device.value ==> v == m[id].values
  {
    Replied(m, replies)[id].values
  }

  /** GetConstants once the identification is forced: the listing request
      and its check, then the answers, scales, UpdateConstants and cleaning. */
  function Started(m: PropMap, replies: Replies): (r: Result<(PropMap, nat, nat), Error>)
    requires SensorLayout(m) && |replies.powers| == M16_LED_INTENSITY_MAX + 1
    ensures replies.listing.Failure? ==> r == Failure(replies.listing.error)
    ensures replies.listing.Success? && M16_ID_DATA_LEVEL !in replies.listing.value ==> r == Failure(INCOMPATIBLE_FIRMWARE)
    ensures r.Success? ==> replies.device.Success? && replies.constants.Success? && SameShape(m, r.value.0)
    ensures r.Success? ==> ModifiedIn(r.value.0, CatConstant) == {} && ModifiedIn(r.value.0, CatInfo) == {}
    ensures r.Success? ==>
              var lim := RepliedValues(m, replies, ID_START_TRACE_LIMITS);
              |lim| >= 2 && lim[0].IntV? && lim[1].IntV?
              && r.value.0[ID_START_TRACE].limits == IntLimits(lim[0].i, lim[1].i)
    ensures r.Success? ==> r.value.0[ID_SERIAL_NUMBER].values == RepliedValues(m, replies, ID_SERIAL_NUMBER)
  {
    var listing :- replies.listing;
    if M16_ID_DATA_LEVEL !in listing then Failure(INCOMPATIBLE_FIRMWARE)
    else
      var prepared :- Prepared(m, replies);
      var settled :- Settled(prepared.0);
      SameShapeTrans(m, prepared.0, settled);
      Success((settled, prepared.1, prepared.2))
  }

  /** GetConstants on the sensor properties: the properties it leaves, with the
      distance and filtered-amplitude scales it read, or the first error. */
  function ConstantsGot(m: PropMap, usb: UsbInfo, replies: Replies): Result<(PropMap, nat, nat), Error>
    requires SensorLayout(m) && |replies.powers| == M16_LED_INTENSITY_MAX + 1
  {
    var identified :- Identified(m, usb);
    Started(identified, replies)
  }

  /** What GetConstants promises about the properties: a failed read of the
      listing is its error and a firmware that does not list the data-level
      property is refused; on success every request was answered, the table
      keeps its shape, no constant or information property is marked
      modified, the start-trace index is bounded by the two limits the device
      answered, and the serial number is the device's answer when it sent
      one, the USB information otherwise. */
  lemma ConstantsGotPromises(m: PropMap, usb: UsbInfo, replies: Replies)
    requires SensorLayout(m) && |replies.powers| == M16_LED_INTENSITY_MAX + 1
    ensures var r := ConstantsGot(m, usb, replies);
            (Identified(m, usb).Success? && replies.listing.Failure? ==> r == Failure(replies.listing.error))
            && (Identified(m, usb).Success? && replies.listing.Success? && M16_ID_DATA_LEVEL !in replies.listing.value ==>
                  r == Failure(INCOMPATIBLE_FIRMWARE))
            && (r.Success? ==>
                  |m[ID_SERIAL_NUMBER].values| > 0 && replies.listing.Success? && M16_ID_DATA_LEVEL in replies.listing.value
                  && replies.device.Success? && replies.constants.Success? && PowersRead(replies.powers).Success?
                  && SameShape(m, r.value.0))
            && (r.Success? ==> ModifiedIn(r.value.0, CatConstant) == {} && ModifiedIn(r.value.0, CatInfo) == {})
            && (r.Success? ==>
                  var lim := RepliedValues(m, replies, ID_START_TRACE_LIMITS);
                  |lim| >= 2 && lim[0].IntV? && lim[1].IntV?
                  && r.value.0[ID_START_TRACE].limits == IntLimits(lim[0].i, lim[1].i))
            && (r.Success? ==>
                  r.value.0[ID_SERIAL_NUMBER].values ==
                    if ID_SERIAL_NUMBER in replies.constants.value then replies.constants.value[ID_SERIAL_NUMBER]
                    else if ID_SERIAL_NUMBER in replies.device.value then replies.device.value[ID_SERIAL_NUMBER]
                    else m[ID_SERIAL_NUMBER].values[0 := TextV(usb.serialNumber)])
  {
    var identified := Identified(m, usb);
    if identified.Success? {
      var i := identified.value;
      var started := Started(i, replies);
      if started.Success? {
        SameShapeTrans(m, i, started.value.0);
        assert i[ID_START_TRACE_LIMITS] == m[ID_START_TRACE_LIMITS];
        assert RepliedValues(i, replies, ID_START_TRACE_LIMITS) == RepliedValues(m, replies, ID_START_TRACE_LIMITS);
        assert Prepared(i, replies).Success?;
      }
    }
  }

  /** ConstantsGot after its first step. */
  lemma ConstantsGotStages(m: PropMap, usb: UsbInfo, replies: Replies)
    requires SensorLayout(m) && |replies.powers| == M16_LED_INTENSITY_MAX + 1
    ensures Identified(m, usb).Failure? ==> ConstantsGot(m, usb, replies) == Failure(Identified(m, usb).error)
    ensures Identified(m, usb).Success? ==> ConstantsGot(m, usb, replies) == Started(Identified(m, usb).value, replies)
  {
  }

  /** Started after each of its steps. */
  lemma StartedStages(m: PropMap, replies: Replies)
    requires SensorLayout(m) && |replies.powers| == M16_LED_INTENSITY_MAX + 1
    requires replies.listing.Success? && M16_ID_DATA_LEVEL in replies.listing.value
    ensures Prepared(m, replies).Failure? ==> Started(m, replies) == Failure(Prepared(m, replies).error)
    ensures Prepared(m, replies).Success? ==>
              var p := Prepared(m, replies).value;
              Started(m, replies) ==
                if Settled(p.0).Success? then Success((Settled(p.0).value, p.1, p.2)) else Failure(Settled(p.0).error)
  {
  }

  /** Settled after UpdateConstants. */
  lemma SettledStages(m: PropMap)
    requires SensorLayout(m)
    ensures M16Constants.UpdateConstants(m).Failure? ==> Settled(m) == Failure(M16Constants.UpdateConstants(m).error)
    ensures M16Constants.UpdateConstants(m).Success? ==>
              var limited := StartTraceLimited(M16Constants.UpdateConstants(m).value);
              Settled(m) == if limited.Success? then Success(Cleaned(Cleaned(limited.value, CatConstant), CatInfo)) else Failure(limited.error)
  {
  }
}
