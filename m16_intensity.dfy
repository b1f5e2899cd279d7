/** The LED intensity enum of the M16 sensor (LdSensorM16::GetIntensityMappings):
    the device answers, for each intensity setting, the LED power it gives;
    the enum gets one entry per setting where the power changes, walking down
    from the highest setting. */
module M16Intensity {
  import opened Wrappers
  import opened Exceptions
  import opened Properties
  import opened M16Layout

  /** `uint16_t lMax = 110`: the power the top setting is compared with; it
      gets an entry exactly when its power is not 110. */
  const POWER_ABOVE_ALL: nat := 110

  /** The power kept for one setting: the last LED_POWER element of its answer
      as a `uint8_t`, or the 0 that SetCount left when the answer has none. */
  function PowerOf(answer: seq<int>): (v: nat)
    ensures v < 256
  {
    if answer == [] then 0 else answer[|answer| - 1] % 256
  }

  /** The power of every setting. */
  function Mapping(powers: seq<seq<int>>): (mapping: seq<nat>)
    ensures |mapping| == |powers|
    ensures forall i :: 0 <= i < |powers| ==> mapping[i] == PowerOf(powers[i])
  {
    seq(|powers|, i requires 0 <= i < |powers| => PowerOf(powers[i]))
  }

  /** The answers to the LED-power requests, one per setting in request
      order, each the LED_POWER elements it carried or the error ReadAnswer
      threw: the first error, or the elements of every answer. */
  function PowersRead(answers: seq<Result<seq<int>, Error>>): (r: Result<seq<seq<int>>, Error>)
    ensures r.Success? <==> forall i :: 0 <= i < |answers| ==> answers[i].Success?
    ensures r.Success? ==> |r.value| == |answers| && forall i :: 0 <= i < |answers| ==> r.value[i] == answers[i].value
    ensures r.Failure? ==>
              exists i :: 0 <= i < |answers| && answers[i] == Failure(r.error) && forall j :: 0 <= j < i ==> answers[j].Success?
  {
    if answers == [] then Success([])
    else if answers[0].Failure? then
      assert answers[0] == Failure(answers[0].error);
      Failure(answers[0].error)
    else
      var rest := PowersRead(answers[1..]);
      if rest.Failure? then
        var i :| 0 <= i < |answers[1..]| && answers[1..][i] == Failure(rest.error) && forall j :: 0 <= j < i ==> answers[1..][j].Success?;
        assert answers[i + 1] == Failure(rest.error) && forall j :: 0 <= j < i + 1 ==> answers[j].Success?;
        Failure(rest.error)
      else
        assert forall i :: 0 < i < |answers| ==> answers[i] == answers[1..][i - 1];
        Success([answers[0].value] + rest.value)
  }

  /** The power of the setting just above i (the sentinel above the top one). */
  function Above(mapping: seq<nat>, i: nat): nat
    requires i < |mapping|
  {
    if i + 1 == |mapping| then POWER_ABOVE_ALL else mapping[i + 1]
  }

  /** The downward loop from setting i, `last` being the power it compares
      with: a setting whose power differs gets the pair (i, its power in decimal). */
  function IntensityPairs(p: Property, mapping: seq<nat>, i: int, last: nat): (q: Property)
    requires -1 <= i < |mapping|
    ensures Kind(q) == Kind(p) && q.values == p.values
    ensures |q.enumPairs| >= |p.enumPairs| && q.enumPairs[..|p.enumPairs|] == p.enumPairs
    decreases i + 1
  {
    if i < 0 then p
    else if mapping[i] != last then
      var p' := WithEnumPair(p, i, Decimal(mapping[i]));
      var q := IntensityPairs(p', mapping, i - 1, mapping[i]);
      assert q.enumPairs[..|p.enumPairs|] == q.enumPairs[..|p'.enumPairs|][..|p.enumPairs|];
      q
    else IntensityPairs(p, mapping, i - 1, last)
  }

  /** The settings the loop adds from i down, given that `last` is the power above i. */
  function Changes(mapping: seq<nat>, i: int): set<int>
    requires i < |mapping|
  {
    set j | 0 <= j <= i && mapping[j] != Above(mapping, j)
  }

  /** Setting i gets an entry exactly when its power differs from the one
      above it; a setting that had no entry gets its power as text. */
  lemma {:induction false} IntensityPairsAdded(p: Property, mapping: seq<nat>, i: int)
    requires -1 <= i < |mapping|
    ensures EnumValues(IntensityPairs(p, mapping, i, if i + 1 == |mapping| then POWER_ABOVE_ALL else mapping[i + 1])) ==
              EnumValues(p) + Changes(mapping, i)
    ensures forall j :: 0 <= j <= i && mapping[j] != Above(mapping, j) && j !in EnumValues(p) ==>
              EnumPair(j, Decimal(mapping[j])) in IntensityPairs(p, mapping, i, if i + 1 == |mapping| then POWER_ABOVE_ALL else mapping[i + 1]).enumPairs
    decreases i + 1
  {
    if i >= 0 {
      var last := if i + 1 == |mapping| then POWER_ABOVE_ALL else mapping[i + 1];
      assert last == Above(mapping, i);
      var p' := if mapping[i] != last then WithEnumPair(p, i, Decimal(mapping[i])) else p;
      assert IntensityPairs(p, mapping, i, last) == IntensityPairs(p', mapping, i - 1, mapping[i]);
      IntensityPairsAdded(p', mapping, i - 1);
      assert Changes(mapping, i) == Changes(mapping, i - 1) + (if mapping[i] != last then {i} else {});
      if mapping[i] != last && i !in EnumValues(p) {
        var q := IntensityPairs(p', mapping, i - 1, mapping[i]);
        assert q.enumPairs[..|p'.enumPairs|] == p'.enumPairs;
        assert q.enumPairs[|p.enumPairs|] == p'.enumPairs[|p.enumPairs|] == EnumPair(i, Decimal(mapping[i]));
      }
    } else {
      assert Changes(mapping, i) == {};
    }
  }
}
