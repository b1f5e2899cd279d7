/** What a properties array in a record line does to a property map:
    the specification the record reader's decoding loops are proved against
    (LdLjrRecordReader::ReadProperties and ReadEchoProperties). */
module PropertyDecode {
  import opened Wrappers
  import opened Exceptions
  import opened Json
  import opened Properties

  /** ReadProperties (sensor and state containers: enum pairs, limits, ends
      clean) or ReadEchoProperties (values only). */
  datatype DecodeMode = FullDecode | EchoDecode

  /** A value a property of this type can hold; an enum holds only the
      values registered with it (`enums`). */
  predicate Typed(t: PropType, signed: bool, enums: set<int>, v: Value) {
    match t
    case Bitfield => v.IntV? && 0 <= v.i < UINT64_LIMIT
    case Enum => v.IntV? && 0 <= v.i < UINT64_LIMIT && v.i in enums
    case Integer => v.IntV? && (if signed then -INT64_LIMIT <= v.i < INT64_LIMIT else 0 <= v.i < UINT64_LIMIT)
    case Bool => v.BoolV?
    case Float => v.RealV?
    case Text => v.TextV?
    case Buffer => v.TextV?
    case OtherType(_) => false
  }

  /** How a value is written into a record line. */
  function EncodeElement(v: Value): JsonValue {
    match v
    case BoolV(b) => JBool(b)
    case IntV(i) => JInt(i)
    case RealV(x) => JReal(x)
    case TextV(s) => JString(s)
  }

  /** LdEnumProperty::ForceValue refusing a value no pair registers. */
  const ENUM_VALUE_ERROR: Error := OutOfRange("Invalid enum value.")

  /** One element of `val`, read with the accessor the property's type uses;
      an enum element must be one of the registered values `enums`. */
  function DecodeElement(t: PropType, signed: bool, enums: set<int>, v: JsonValue): (r: Result<Value, Error>)
    requires !t.OtherType?
    ensures r.Success? ==> Typed(t, signed, enums, r.value)
    ensures t.Enum? && v.JInt? && 0 <= v.i < UINT64_LIMIT ==>
              (r.Success? <==> v.i in enums) && (r.Failure? ==> r.error == ENUM_VALUE_ERROR)
    ensures r.Success? && !(t.Float? && v.JInt?) ==> EncodeElement(r.value) == v
    ensures t.Float? && v.JInt? ==> r == Success(RealV(v.i as real))
  {
    match t
    case Bitfield => var x :- AsUint64(v); Success(IntV(x))
    case Enum =>
      var x :- AsUint64(v);
      if x in enums then Success(IntV(x)) else Failure(ENUM_VALUE_ERROR)
    case Integer =>
      if signed then (var x :- AsInt64(v); Success(IntV(x)))
      else (var x :- AsUint64(v); Success(IntV(x)))
    case Bool => var b :- AsBool(v); Success(BoolV(b))
    case Float => var x :- AsDouble(v); Success(RealV(x))
    case Text => var s :- AsString(v); Success(TextV(s))
    case Buffer => var s :- AsString(v); Success(TextV(s))
  }

  /** Every value a property can hold survives being written and read back. */
  lemma ElementRoundTrip(t: PropType, signed: bool, enums: set<int>, v: Value)
    requires Typed(t, signed, enums, v)
    ensures DecodeElement(t, signed, enums, EncodeElement(v)) == Success(v)
  {
  }

  /** The elements of an array `val`, in order; the first bad element is the error. */
  function DecodeEach(t: PropType, signed: bool, enums: set<int>, items: seq<JsonValue>): (r: Result<seq<Value>, Error>)
    requires !t.OtherType?
    ensures r.Success? <==> forall j :: 0 <= j < |items| ==> DecodeElement(t, signed, enums, items[j]).Success?
    ensures r.Success? ==> |r.value| == |items|
    ensures r.Success? ==> forall j :: 0 <= j < |items| ==> r.value[j] == DecodeElement(t, signed, enums, items[j]).value
    decreases |items|
  {
    if items == [] then Success([])
    else
      var init :- DecodeEach(t, signed, enums, items[..|items| - 1]);
      var last :- DecodeElement(t, signed, enums, items[|items| - 1]);
      Success(init + [last])
  }

  /** A scalar `val` gives one element, an array `val` one element per entry. */
  function DecodeValues(t: PropType, signed: bool, enums: set<int>, val: JsonValue): (r: Result<seq<Value>, Error>)
    requires !t.OtherType?
    ensures r.Success? && val.JArray? ==>
      (|r.value| == |val.items| &&
       forall j :: 0 <= j < |val.items| ==> DecodeElement(t, signed, enums, val.items[j]) == Success(r.value[j]))
    ensures r.Success? && !val.JArray? ==> exists x :: DecodeElement(t, signed, enums, val) == Success(x) && r.value == [x]
    ensures r.Failure? <==> if val.JArray? then exists j :: 0 <= j < |val.items| && DecodeElement(t, signed, enums, val.items[j]).Failure?
                                           else DecodeElement(t, signed, enums, val).Failure?
  {
    if val.JArray? then DecodeEach(t, signed, enums, val.items)
    else var x :- DecodeElement(t, signed, enums, val); Success([x])
  }

  /** Whether an integer entry's optional "signed" flag disagrees with the property. */
  function SignedMismatch(p: Property, entry: JsonValue): (r: Result<bool, Error>)
    ensures r.Success? && r.value <==> p.ptype.Integer? && HasMember(entry, "signed")
                                        && Get(entry, "signed") == JBool(!p.signed)
  {
    if p.ptype.Integer? && HasMember(entry, "signed") then
      var s :- AsBool(Get(entry, "signed"));
      Success(s != p.signed)
    else Success(false)
  }

  /** The members of an "enum" object, registered in order as (value, name) pairs. */
  function DeclareEnum(p: Property, members: seq<(string, JsonValue)>): (r: Result<Property, Error>)
    ensures r.Success? ==>
      (Kind(r.value) == Kind(p) && r.value.values == p.values &&
       r.value.modified == p.modified && r.value.limits == p.limits && r.value.scale == p.scale)
    decreases |members|
  {
    if members == [] then Success(p)
    else
      var q :- DeclareEnum(p, members[..|members| - 1]);
      var v :- AsUint64(members[|members| - 1].1);
      Success(WithEnumPair(q, v, members[|members| - 1].0))
  }

  /** The limits of a float or integer property, from a two-element "limits" array. */
  function DecodeLimits(p: Property, limits: JsonValue): (r: Result<Limits, Error>)
    requires p.ptype.Float? || p.ptype.Integer?
    ensures r.Success? ==> limits.JArray? && |limits.items| >= 2
    ensures r.Success? && p.ptype.Float? ==> r.value.RealLimits?
    ensures r.Success? && p.ptype.Integer? ==>
      (limits.items[0].JInt? && limits.items[1].JInt? && r.value == IntLimits(limits.items[0].i, limits.items[1].i))
  {
    var lo :- Index(limits, 0);
    var hi :- Index(limits, 1);
    if p.ptype.Float? then
      var a :- AsDouble(lo);
      var b :- AsDouble(hi);
      Success(RealLimits(a, b))
    else if p.signed then
      var a :- AsInt64(lo);
      var b :- AsInt64(hi);
      Success(IntLimits(a, b))
    else
      var a :- AsUint64(lo);
      var b :- AsUint64(hi);
      Success(IntLimits(a, b))
  }

  /** Enum pairs and limits carried by an entry of a full properties line; other types carry none. */
  function Declare(p: Property, entry: JsonValue): (r: Result<Property, Error>)
    ensures r.Success? ==> Kind(r.value) == Kind(p) && r.value.values == p.values && r.value.modified == p.modified
  {
    if p.ptype.Enum? && HasMember(entry, "enum") then
      var members :- AsObject(Get(entry, "enum"));
      DeclareEnum(p, members)
    else if (p.ptype.Float? || p.ptype.Integer?) && HasMember(entry, "limits") then
      var l :- DecodeLimits(p, Get(entry, "limits"));
      Success(p.(limits := l))
    else Success(p)
  }

  /** The property after its values were forced: SetCount then ForceValue on each
      element; a full decode then cleans it, an echo decode leaves the flag as ForceValue left it. */
  function Stored(q: Property, vals: seq<Value>, mode: DecodeMode): Property {
    q.(values := vals, modified := if mode.FullDecode? then false else q.modified || |vals| > 0)
  }

  /** An entry that passed the checks: its declarations (full decode), then its values. */
  function EntryApplied(p: Property, entry: JsonValue, mode: DecodeMode): (r: Result<Property, Error>)
    requires !p.ptype.OtherType? && HasMember(entry, "val")
    ensures r.Success? ==> Kind(r.value) == Kind(p)
  {
    var q :- if mode.FullDecode? then Declare(p, entry) else Success(p);
    var vals :- DecodeValues(q.ptype, q.signed, EnumValues(q), Get(entry, "val"));
    Success(Stored(q, vals, mode))
  }

  /** One entry applied to the property it names. */
  function DecodeProperty(p: Property, entry: JsonValue, mode: DecodeMode): (r: Result<Property, Error>)
    requires HasMember(entry, "val")
    ensures r.Success? ==> Kind(r.value) == Kind(p)
    ensures p.ptype.OtherType? ==> r == Failure(LogicError("Unsupported property type"))
    ensures p.ptype.Integer? && HasMember(entry, "signed") && Get(entry, "signed") == JBool(!p.signed) ==>
              r == Failure(LogicError("Signed / unsigned property mismatch"))
    ensures r.Success? ==> SignedMismatch(p, entry) == Success(false)
  {
    if p.ptype.OtherType? then Failure(LogicError("Unsupported property type"))
    else
      var mismatch :- SignedMismatch(p, entry);
      if mismatch then Failure(LogicError("Signed / unsigned property mismatch"))
      else EntryApplied(p, entry, mode)
  }

  /** The property id an entry addresses: None for an entry skipped before the lookup. */
  function EntryTarget(entry: JsonValue): Option<PropId> {
    if HasMember(entry, "id") && HasMember(entry, "val") && AsUint(Get(entry, "id")).Success?
    then Some(AsUint(Get(entry, "id")).value) else None
  }

  /** One entry of a properties array applied to the map. */
  function DecodeEntry(m: PropMap, entry: JsonValue, mode: DecodeMode): (r: Result<PropMap, Error>)
    ensures r.Success? ==> SameShape(m, r.value)
    ensures r.Success? ==> forall id :: id in m && Some(id) != EntryTarget(entry) ==> r.value[id] == m[id]
  {
    if !HasMember(entry, "id") || !HasMember(entry, "val") then Success(m)
    else
      var id :- AsUint(Get(entry, "id"));
      if id !in m then Success(m)
      else
        var p :- DecodeProperty(m[id], entry, mode);
        Success(m[id := p])
  }

  /** The whole array applied in order; the first failing entry's error stops it. */
  function DecodeEntries(m: PropMap, entries: seq<JsonValue>, mode: DecodeMode): (r: Result<PropMap, Error>)
    ensures r.Success? ==> SameShape(m, r.value)
    decreases |entries|
  {
    if entries == [] then Success(m)
    else
      var m' :- DecodeEntries(m, entries[..|entries| - 1], mode);
      DecodeEntry(m', entries[|entries| - 1], mode)
  }

  /** The ids the entries of an array address. */
  function Targets(entries: seq<JsonValue>): set<PropId> {
    set k | 0 <= k < |entries| && EntryTarget(entries[k]).Some? :: EntryTarget(entries[k]).value
  }

  /** ReadProperties(line, PC_Sensor): a line with a "prop" array. */
  function DecodePropertiesLine(m: PropMap, line: Line): (r: Result<PropMap, Error>)
    ensures line.dom.None? ==> r == Failure(RuntimeError("Error parsing properties"))
    ensures line.dom.Some? && !(HasMember(line.dom.value, "prop") && Get(line.dom.value, "prop").JArray?)
      ==> r == Failure(RuntimeError("Record line is not a properties line."))
    ensures r.Success? ==> SameShape(m, r.value)
  {
    if line.dom.None? then Failure(RuntimeError("Error parsing properties"))
    else
      var dom := line.dom.value;
      if !HasMember(dom, "prop") || !Get(dom, "prop").JArray? then Failure(RuntimeError("Record line is not a properties line."))
      else DecodeEntries(m, Get(dom, "prop").items, FullDecode)
  }

  /** The entries of a properties line (empty for any other line). */
  function LineEntries(line: Line): seq<JsonValue> {
    if line.dom.Some? && HasMember(line.dom.value, "prop") && Get(line.dom.value, "prop").JArray?
    then Get(line.dom.value, "prop").items else []
  }

  /** ReadProperties(line, PC_States) inside a frame that has a "states" member. */
  function DecodeStatesSection(m: PropMap, frame: JsonValue): (r: Result<PropMap, Error>)
    ensures !(HasMember(frame, "states") && Get(frame, "states").JArray?) ==> r == Failure(RuntimeError("Could not read states properties."))
    ensures r.Success? ==> SameShape(m, r.value)
  {
    if !HasMember(frame, "states") || !Get(frame, "states").JArray? then Failure(RuntimeError("Could not read states properties."))
    else DecodeEntries(m, Get(frame, "states").items, FullDecode)
  }

  /** ReadProperties(line, PC_Echoes), which hands the array to ReadEchoProperties. */
  function DecodeEchoPropertiesSection(m: PropMap, frame: JsonValue): (r: Result<PropMap, Error>)
    ensures !(HasMember(frame, "echoes_prop") && Get(frame, "echoes_prop").JArray?) ==> r == Failure(RuntimeError("Could not read echoes properties."))
    ensures r.Success? ==> SameShape(m, r.value)
  {
    if !HasMember(frame, "echoes_prop") || !Get(frame, "echoes_prop").JArray? then Failure(RuntimeError("Could not read echoes properties."))
    else DecodeEntries(m, Get(frame, "echoes_prop").items, EchoDecode)
  }

  // ----- Lemmas -----

  /** Once a prefix of the array fails, the whole array fails with that error
      (the reader's early exit computes the same result as the fold). */
  lemma {:induction false} EntriesFailureSticks(m: PropMap, entries: seq<JsonValue>, k: nat, mode: DecodeMode)
    requires k <= |entries| && DecodeEntries(m, entries[..k], mode).Failure?
    ensures DecodeEntries(m, entries, mode) == DecodeEntries(m, entries[..k], mode)
    decreases |entries|
  {
    if k < |entries| {
      var init := entries[..|entries| - 1];
      assert init[..k] == entries[..k];
      EntriesFailureSticks(m, init, k, mode);
    } else {
      assert entries[..k] == entries;
    }
  }

  /** One more entry of the array: the fold so far, then that entry. */
  lemma EntriesStep(m: PropMap, entries: seq<JsonValue>, i: nat, mode: DecodeMode)
    requires i < |entries| && DecodeEntries(m, entries[..i], mode).Success?
    ensures DecodeEntries(m, entries[..i + 1], mode) == DecodeEntry(DecodeEntries(m, entries[..i], mode).value, entries[i], mode)
  {
    assert entries[..i + 1][..i] == entries[..i];
  }

  lemma {:induction false} EachFailureSticks(t: PropType, signed: bool, enums: set<int>, items: seq<JsonValue>, k: nat)
    requires !t.OtherType?
    requires k <= |items| && DecodeEach(t, signed, enums, items[..k]).Failure?
    ensures DecodeEach(t, signed, enums, items) == DecodeEach(t, signed, enums, items[..k])
    decreases |items|
  {
    if k < |items| {
      var init := items[..|items| - 1];
      assert init[..k] == items[..k];
      EachFailureSticks(t, signed, enums, init, k);
    } else {
      assert items[..k] == items;
    }
  }

  lemma {:induction false} EnumFailureSticks(p: Property, members: seq<(string, JsonValue)>, k: nat)
    requires k <= |members| && DeclareEnum(p, members[..k]).Failure?
    ensures DeclareEnum(p, members) == DeclareEnum(p, members[..k])
    decreases |members|
  {
    if k < |members| {
      var init := members[..|members| - 1];
      assert init[..k] == members[..k];
      EnumFailureSticks(p, init, k);
    } else {
      assert members[..k] == members;
    }
  }

  /** Entries lacking "id" or "val", or naming an id the container does not have, are skipped silently. */
  lemma {:induction false} SkippedEntriesChangeNothing(m: PropMap, entries: seq<JsonValue>, mode: DecodeMode)
    requires forall k :: 0 <= k < |entries| ==>
      !HasMember(entries[k], "id") || !HasMember(entries[k], "val") || (EntryTarget(entries[k]).Some? && EntryTarget(entries[k]).value !in m)
    ensures DecodeEntries(m, entries, mode) == Success(m)
    decreases |entries|
  {
    if entries != [] {
      var init := entries[..|entries| - 1];
      assert forall k :: 0 <= k < |init| ==> init[k] == entries[k];
      SkippedEntriesChangeNothing(m, init, mode);
    }
  }

  /** A property no entry addresses keeps everything it had. */
  lemma {:induction false} EntriesFrame(m: PropMap, entries: seq<JsonValue>, mode: DecodeMode, id: PropId)
    requires DecodeEntries(m, entries, mode).Success? && id in m && id !in Targets(entries)
    ensures DecodeEntries(m, entries, mode).value[id] == m[id]
    decreases |entries|
  {
    if entries != [] {
      var init := entries[..|entries| - 1];
      assert Targets(init) <= Targets(entries) by {
        forall t | t in Targets(init) ensures t in Targets(entries) {
          var k :| 0 <= k < |init| && EntryTarget(init[k]).Some? && EntryTarget(init[k]).value == t;
          assert init[k] == entries[k];
        }
      }
      EntriesFrame(m, init, mode, id);
      var last := entries[|entries| - 1];
      assert EntryTarget(last).Some? ==> EntryTarget(last).value in Targets(entries);
    }
  }

  /** The property an entry addresses ends with the values `val` gives it:
      one per array element, or a single one for a scalar; a full decode leaves it clean. */
  lemma DecodedProperty(m: PropMap, entry: JsonValue, mode: DecodeMode)
    requires DecodeEntry(m, entry, mode).Success? && EntryTarget(entry).Some? && EntryTarget(entry).value in m
    ensures var id := EntryTarget(entry).value;
            var p := DecodeEntry(m, entry, mode).value[id];
            var val := Get(entry, "val");
            !m[id].ptype.OtherType?
            && DecodeValues(m[id].ptype, m[id].signed, EnumValues(p), val) == Success(p.values)
            && |p.values| == (if val.JArray? then |val.items| else 1)
            && (mode.FullDecode? ==> !p.modified)
  {
  }

  /** An enum property never ends holding a value no pair registers: every
      value an entry gives it is one of the values it is declared with,
      including those the same entry's "enum" object adds. */
  lemma DecodedEnumsRegistered(p: Property, entry: JsonValue, mode: DecodeMode)
    requires HasMember(entry, "val") && p.ptype.Enum? && DecodeProperty(p, entry, mode).Success?
    ensures var q := DecodeProperty(p, entry, mode).value;
            forall k :: 0 <= k < |q.values| ==> q.values[k].IntV? && q.values[k].i in EnumValues(q)
  {
    var q0 := if mode.FullDecode? then Declare(p, entry).value else p;
    var val := Get(entry, "val");
    var vals := DecodeValues(p.ptype, p.signed, EnumValues(q0), val).value;
    var q := DecodeProperty(p, entry, mode).value;
    assert q == Stored(q0, vals, mode);
    forall k | 0 <= k < |q.values| ensures q.values[k].IntV? && q.values[k].i in EnumValues(q) {
      if val.JArray? {
        assert DecodeElement(p.ptype, p.signed, EnumValues(q0), val.items[k]) == Success(vals[k]);
      } else {
        var x :| DecodeElement(p.ptype, p.signed, EnumValues(q0), val) == Success(x) && vals == [x];
      }
    }
  }

  /** The registered enum values decide only whether `val` is accepted, never
      what it decodes to. */
  lemma ValuesEnumsAgree(t: PropType, signed: bool, e1: set<int>, e2: set<int>, val: JsonValue)
    requires !t.OtherType?
    requires DecodeValues(t, signed, e1, val).Success? && DecodeValues(t, signed, e2, val).Success?
    ensures DecodeValues(t, signed, e1, val) == DecodeValues(t, signed, e2, val)
  {
    var v1, v2 := DecodeValues(t, signed, e1, val).value, DecodeValues(t, signed, e2, val).value;
    if val.JArray? {
      forall j | 0 <= j < |v1| ensures v1[j] == v2[j] {
        ElementEnumsAgree(t, signed, e1, e2, val.items[j]);
      }
      assert v1 == v2;
    } else {
      ElementEnumsAgree(t, signed, e1, e2, val);
    }
  }

  lemma ElementEnumsAgree(t: PropType, signed: bool, e1: set<int>, e2: set<int>, v: JsonValue)
    requires !t.OtherType?
    requires DecodeElement(t, signed, e1, v).Success? && DecodeElement(t, signed, e2, v).Success?
    ensures DecodeElement(t, signed, e1, v) == DecodeElement(t, signed, e2, v)
  {
  }

  /** The last entry for a property decides its values, whatever the property held before. */
  lemma EntryValuesDetermined(r1: PropMap, r2: PropMap, entry: JsonValue, mode: DecodeMode, id: PropId)
    requires SameShape(r1, r2) && id in r1 && EntryTarget(entry) == Some(id)
    requires DecodeEntry(r1, entry, mode).Success? && DecodeEntry(r2, entry, mode).Success?
    ensures DecodeEntry(r1, entry, mode).value[id].values == DecodeEntry(r2, entry, mode).value[id].values
    ensures mode.FullDecode? ==> !DecodeEntry(r1, entry, mode).value[id].modified && !DecodeEntry(r2, entry, mode).value[id].modified
  {
    assert Kind(r1[id]) == Kind(r2[id]);
    DecodedProperty(r1, entry, mode);
    DecodedProperty(r2, entry, mode);
    var p1, p2 := DecodeEntry(r1, entry, mode).value[id], DecodeEntry(r2, entry, mode).value[id];
    ValuesEnumsAgree(r1[id].ptype, r1[id].signed, EnumValues(p1), EnumValues(p2), Get(entry, "val"));
  }

  /** Two maps holding the same properties, run through the same array,
      agree on the values of every property the array addresses: what
      a properties line says wins over whatever the maps held before. */
  lemma {:induction false} LineValuesWin(m1: PropMap, m2: PropMap, entries: seq<JsonValue>, mode: DecodeMode, id: PropId)
    requires SameShape(m1, m2)
    requires DecodeEntries(m1, entries, mode).Success? && DecodeEntries(m2, entries, mode).Success?
    requires id in m1 && id in Targets(entries)
    ensures DecodeEntries(m1, entries, mode).value[id].values == DecodeEntries(m2, entries, mode).value[id].values
    ensures mode.FullDecode? ==>
      (!DecodeEntries(m1, entries, mode).value[id].modified && !DecodeEntries(m2, entries, mode).value[id].modified)
    decreases |entries|
  {
    var init := entries[..|entries| - 1];
    var last := entries[|entries| - 1];
    var q1 := DecodeEntries(m1, init, mode);
    var q2 := DecodeEntries(m2, init, mode);
    assert q1.Success? && q2.Success?;
    var r1 := q1.value;
    var r2 := q2.value;
    assert DecodeEntries(m1, entries, mode) == DecodeEntry(r1, last, mode);
    assert DecodeEntries(m2, entries, mode) == DecodeEntry(r2, last, mode);
    SameShapeTrans(r1, m1, m2);
    SameShapeTrans(r1, m2, r2);
    if EntryTarget(last) == Some(id) {
      EntryValuesDetermined(r1, r2, last, mode, id);
    } else {
      TargetOfPrefix(entries, id);
      LineValuesWin(m1, m2, init, mode, id);
    }
  }

  lemma TargetOfPrefix(entries: seq<JsonValue>, id: PropId)
    requires id in Targets(entries) && EntryTarget(entries[|entries| - 1]) != Some(id)
    ensures id in Targets(entries[..|entries| - 1])
  {
    var k :| 0 <= k < |entries| && EntryTarget(entries[k]).Some? && EntryTarget(entries[k]).value == id;
    assert entries[..|entries| - 1][k] == entries[k];
  }

  /** A full decode leaves every property the array addresses clean. */
  lemma FullDecodeEndsClean(m: PropMap, entries: seq<JsonValue>, id: PropId)
    requires DecodeEntries(m, entries, FullDecode).Success? && id in m && id in Targets(entries)
    ensures !DecodeEntries(m, entries, FullDecode).value[id].modified
  {
    LineValuesWin(m, m, entries, FullDecode, id);
  }
}
