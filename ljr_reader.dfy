/** LdLjrRecordReader: replays a record file, line by line, into a sensor
    created for it. The file is given as its lines, each with what parsing
    it as JSON gives; every method is proved against the functions of
    LjrRecord, PropertyDecode and FrameDecode. */
module LjrReader {
  import opened Wrappers
  import opened Exceptions
  import opened Json
  import opened Properties
  import opened PropertyDecode
  import opened Results
  import opened FrameDecode
  import opened M16Layout
  import opened LjrRecord
  import SensorM16

  // ----- The switch on the property type -----

  /** A property after SetCount(n) and ForceValue on its first |vals| elements. */
  ghost function Forced(p: Property, vals: seq<Value>, n: nat): Property
    requires |vals| <= n
  {
    p.(values := vals + seq(n - |vals|, _ => DefaultValue(p.ptype)), modified := p.modified || |vals| > 0)
  }

  lemma ForcedStart(p: Property, n: nat)
    ensures Forced(p, [], n) == WithCount(p, n)
  {
    assert [] + seq(n, _ => DefaultValue(p.ptype)) == seq(n, _ => DefaultValue(p.ptype));
  }

  lemma ForcedStep(p: Property, vals: seq<Value>, n: nat, x: Value)
    requires |vals| < n
    ensures WithValue(Forced(p, vals, n), |vals|, x) == Forced(p, vals + [x], n)
  {
    var d := DefaultValue(p.ptype);
    var a := (vals + seq(n - |vals|, _ => d))[|vals| := x];
    var b := (vals + [x]) + seq(n - |vals| - 1, _ => d);
    assert |a| == |b|;
    forall k | 0 <= k < |a| ensures a[k] == b[k] {
      if k < |vals| {
      } else if k == |vals| {
      } else {
        assert b[k] == d;
      }
    }
    assert a == b;
  }

  lemma ForcedEnd(p: Property, vals: seq<Value>)
    ensures Forced(p, vals, |vals|) == p.(values := vals, modified := p.modified || |vals| > 0)
  {
    assert vals + seq(0, _ => DefaultValue(p.ptype)) == vals;
  }

  lemma EachStep(t: PropType, signed: bool, enums: set<int>, items: seq<JsonValue>, j: nat, vals: seq<Value>)
    requires !t.OtherType? && j < |items|
    requires DecodeEach(t, signed, enums, items[..j]) == Success(vals) && DecodeElement(t, signed, enums, items[j]).Success?
    ensures DecodeEach(t, signed, enums, items[..j + 1]) == Success(vals + [DecodeElement(t, signed, enums, items[j]).value])
  {
    assert items[..j + 1][..j] == items[..j];
  }

  lemma EachStopped(t: PropType, signed: bool, enums: set<int>, items: seq<JsonValue>, j: nat)
    requires !t.OtherType? && j < |items|
    requires DecodeEach(t, signed, enums, items[..j]).Success? && DecodeElement(t, signed, enums, items[j]).Failure?
    ensures DecodeEach(t, signed, enums, items) == Failure(DecodeElement(t, signed, enums, items[j]).error)
  {
    assert items[..j + 1][..j] == items[..j];
    EachFailureSticks(t, signed, enums, items, j + 1);
  }

  /** SetCount, then ForceValue on each element of an array `val`, each read
      with the accessor of the property's type. */
  method ForceElements(c: PropertiesContainer, id: PropId, items: seq<JsonValue>) returns (r: Outcome<Error>)
    requires c.Valid() && id in c.props && !c.props[id].ptype.OtherType?
    modifies c`props
    ensures c.Valid() && c.props.Keys == old(c.props).Keys
    ensures var p := old(c.props)[id];
            var d := DecodeEach(p.ptype, p.signed, EnumValues(p), items);
            (r.Pass? <==> d.Success?) && (r.Fail? ==> r.error == d.error)
            && (r.Pass? ==> c.props == old(c.props)[id := p.(values := d.value, modified := p.modified || |d.value| > 0)])
  {
    var p := c.props[id];
    c.SetCount(id, |items|);
    ForcedStart(p, |items|);
    r := ForceEach(c, id, p, items);
    if r.Pass? {
      ForcedEnd(p, DecodeEach(p.ptype, p.signed, EnumValues(p), items).value);
    }
  }

  /** ForceValue on each element in turn, after SetCount. */
  method ForceEach(c: PropertiesContainer, id: PropId, p: Property, items: seq<JsonValue>) returns (r: Outcome<Error>)
    requires c.Valid() && id in c.props && !p.ptype.OtherType? && c.props[id] == Forced(p, [], |items|)
    modifies c`props
    ensures c.Valid() && c.props.Keys == old(c.props).Keys
    ensures var d := DecodeEach(p.ptype, p.signed, EnumValues(p), items);
            (r.Pass? <==> d.Success?) && (r.Fail? ==> r.error == d.error)
            && (r.Pass? ==> c.props == old(c.props)[id := Forced(p, d.value, |items|)])
  {
    ghost var m0 := c.props;
    var j := 0;
    ghost var vals: seq<Value> := [];
    assert items[..0] == [];
    while j < |items|
      invariant j <= |items| && |vals| == j && c.Valid()
      invariant DecodeEach(p.ptype, p.signed, EnumValues(p), items[..j]) == Success(vals)
      invariant c.props == m0[id := Forced(p, vals, |items|)]
    {
      var x := ForceNext(c, id, p, items, j, vals);
      if x.Failure? {
        EachStopped(p.ptype, p.signed, EnumValues(p), items, j);
        return Fail(x.error);
      }
      EachStep(p.ptype, p.signed, EnumValues(p), items, j, vals);
      vals := vals + [x.value];
      j := j + 1;
    }
    assert items[..|items|] == items;
    r := Pass;
  }

  /** One turn of that loop: element j read, and forced when it reads. */
  method ForceNext(c: PropertiesContainer, id: PropId, p: Property, items: seq<JsonValue>, j: nat, ghost vals: seq<Value>)
    returns (x: Result<Value, Error>)
    requires c.Valid() && id in c.props && !p.ptype.OtherType? && j < |items| && |vals| == j
    requires c.props[id] == Forced(p, vals, |items|)
    modifies c`props
    ensures c.Valid() && x == DecodeElement(p.ptype, p.signed, EnumValues(p), items[j])
    ensures x.Failure? ==> c.props == old(c.props)
    ensures x.Success? ==> c.props == old(c.props)[id := Forced(p, vals + [x.value], |items|)]
  {
    x := DecodeElement(p.ptype, p.signed, EnumValues(p), items[j]);
    if x.Success? {
      ForcedStep(p, vals, |items|, x.value);
      c.ForceValue(id, j, x.value);
    }
  }

  /** The values of an entry: an array `val` element by element, a scalar as
      the only element. */
  method ForceValues(c: PropertiesContainer, id: PropId, val: JsonValue) returns (r: Outcome<Error>)
    requires c.Valid() && id in c.props && !c.props[id].ptype.OtherType?
    modifies c`props
    ensures c.Valid() && c.props.Keys == old(c.props).Keys
    ensures var p := old(c.props)[id];
            var d := DecodeValues(p.ptype, p.signed, EnumValues(p), val);
            (r.Pass? <==> d.Success?) && (r.Fail? ==> r.error == d.error)
            && (r.Pass? ==> c.props == old(c.props)[id := p.(values := d.value, modified := p.modified || |d.value| > 0)])
  {
    if val.JArray? {
      r := ForceElements(c, id, val.items);
    } else {
      r := ForceScalar(c, id, val);
    }
  }

  /** A scalar `val`: SetCount(1), then ForceValue on the only element. */
  method ForceScalar(c: PropertiesContainer, id: PropId, val: JsonValue) returns (r: Outcome<Error>)
    requires c.Valid() && id in c.props && !c.props[id].ptype.OtherType?
    modifies c`props
    ensures c.Valid() && c.props.Keys == old(c.props).Keys
    ensures var p := old(c.props)[id];
            var x := DecodeElement(p.ptype, p.signed, EnumValues(p), val);
            (r.Pass? <==> x.Success?) && (r.Fail? ==> r.error == x.error)
            && (r.Pass? ==> c.props == old(c.props)[id := p.(values := [x.value], modified := true)])
  {
    var p := c.props[id];
    var x := DecodeElement(p.ptype, p.signed, EnumValues(p), val);
    if x.Failure? {
      return Fail(x.error);
    }
    c.SetCount(id, 1);
    c.ForceValue(id, 0, x.value);
    assert c.props[id] == p.(values := [x.value], modified := true);
    r := Pass;
  }

  /** The "enum" members registered in order with AddEnumPair. */
  method DeclareEnumPairs(c: PropertiesContainer, id: PropId, members: seq<(string, JsonValue)>) returns (r: Outcome<Error>)
    requires c.Valid() && id in c.props
    modifies c`props
    ensures c.Valid() && c.props.Keys == old(c.props).Keys
    ensures var d := DeclareEnum(old(c.props)[id], members);
            (r.Pass? <==> d.Success?) && (r.Fail? ==> r.error == d.error)
            && (r.Pass? ==> c.props == old(c.props)[id := d.value])
  {
    var p := c.props[id];
    var k := 0;
    while k < |members|
      invariant k <= |members| && id in c.props
      invariant c.Valid() && c.props.Keys == old(c.props).Keys
      invariant DeclareEnum(p, members[..k]) == Success(c.props[id])
      invariant c.props == old(c.props)[id := c.props[id]]
    {
      assert members[..k + 1][..k] == members[..k];
      var v := AsUint64(members[k].1);
      if v.Failure? {
        EnumFailureSticks(p, members, k + 1);
        return Fail(v.error);
      }
      c.AddEnumPair(id, v.value, members[k].0);
      k := k + 1;
    }
    assert members[..|members|] == members;
    r := Pass;
  }

  /** The enum pairs or the limits an entry of a full properties line declares. */
  method DeclareProperty(c: PropertiesContainer, id: PropId, entry: JsonValue) returns (r: Outcome<Error>)
    requires c.Valid() && id in c.props
    modifies c`props
    ensures c.Valid() && c.props.Keys == old(c.props).Keys
    ensures var d := Declare(old(c.props)[id], entry);
            (r.Pass? <==> d.Success?) && (r.Fail? ==> r.error == d.error)
            && (r.Pass? ==> c.props == old(c.props)[id := d.value])
  {
    var p := c.props[id];
    if p.ptype.Enum? && HasMember(entry, "enum") {
      var members := AsObject(Get(entry, "enum"));
      if members.Failure? {
        return Fail(members.error);
      }
      r := DeclareEnumPairs(c, id, members.value);
    } else if (p.ptype.Float? || p.ptype.Integer?) && HasMember(entry, "limits") {
      var l := DecodeLimits(p, Get(entry, "limits"));
      if l.Failure? {
        return Fail(l.error);
      }
      c.SetLimits(id, l.value);
      r := Pass;
    } else {
      r := Pass;
    }
  }

  /** One entry applied to the property it names: the signedness check, then
      the rest. */
  method ReadProperty(c: PropertiesContainer, id: PropId, entry: JsonValue, mode: DecodeMode) returns (r: Outcome<Error>)
    requires c.Valid() && id in c.props && HasMember(entry, "val")
    modifies c`props
    ensures c.Valid() && c.props.Keys == old(c.props).Keys
    ensures var d := DecodeProperty(old(c.props)[id], entry, mode);
            (r.Pass? <==> d.Success?) && (r.Fail? ==> r.error == d.error)
            && (r.Pass? ==> c.props == old(c.props)[id := d.value])
  {
    var p := c.props[id];
    if p.ptype.OtherType? {
      return Fail(LogicError("Unsupported property type"));
    }
    var mismatch := SignedMismatch(p, entry);
    if mismatch.Failure? {
      return Fail(mismatch.error);
    }
    if mismatch.value {
      return Fail(LogicError("Signed / unsigned property mismatch"));
    }
    r := StoreEntry(c, id, entry, mode);
  }

  /** The declarations (full decode), the values, then clean (full decode). */
  method StoreEntry(c: PropertiesContainer, id: PropId, entry: JsonValue, mode: DecodeMode) returns (r: Outcome<Error>)
    requires c.Valid() && id in c.props && !c.props[id].ptype.OtherType? && HasMember(entry, "val")
    modifies c`props
    ensures c.Valid() && c.props.Keys == old(c.props).Keys
    ensures var d := EntryApplied(old(c.props)[id], entry, mode);
            (r.Pass? <==> d.Success?) && (r.Fail? ==> r.error == d.error)
            && (r.Pass? ==> c.props == old(c.props)[id := d.value])
  {
    if mode.FullDecode? {
      r := DeclareProperty(c, id, entry);
      if r.Fail? {
        return;
      }
    }
    r := StoreValues(c, id, Get(entry, "val"), mode);
  }

  /** The values forced in, then, on a full decode, the property cleaned. */
  method StoreValues(c: PropertiesContainer, id: PropId, val: JsonValue, mode: DecodeMode) returns (r: Outcome<Error>)
    requires c.Valid() && id in c.props && !c.props[id].ptype.OtherType?
    modifies c`props
    ensures c.Valid() && c.props.Keys == old(c.props).Keys
    ensures var p := old(c.props)[id];
            var d := DecodeValues(p.ptype, p.signed, EnumValues(p), val);
            (r.Pass? <==> d.Success?) && (r.Fail? ==> r.error == d.error)
            && (r.Pass? ==> c.props == old(c.props)[id := Stored(p, d.value, mode)])
  {
    r := ForceValues(c, id, val);
    if r.Fail? {
      return;
    }
    if mode.FullDecode? {
      c.SetClean(id);
    }
  }

  /** The loop over a properties array: entries without "id" or "val", and
      ids the container lacks, are skipped; the first failure ends it. */
  method ReadEntries(c: PropertiesContainer, entries: seq<JsonValue>, mode: DecodeMode) returns (r: Outcome<Error>)
    requires c.Valid()
    modifies c`props
    ensures c.Valid() && c.props.Keys == old(c.props).Keys
    ensures var d := DecodeEntries(old(c.props), entries, mode);
            (r.Pass? <==> d.Success?) && (r.Fail? ==> r.error == d.error) && (r.Pass? ==> c.props == d.value)
  {
    ghost var m0 := c.props;
    var i := 0;
    while i < |entries|
      invariant i <= |entries| && c.Valid() && c.props.Keys == m0.Keys
      invariant DecodeEntries(m0, entries[..i], mode) == Success(c.props)
    {
      EntriesStep(m0, entries, i, mode);
      r := ReadEntry(c, entries[i], mode);
      if r.Fail? {
        EntriesFailureSticks(m0, entries, i + 1, mode);
        return;
      }
      i := i + 1;
    }
    assert entries[..|entries|] == entries;
    r := Pass;
  }

  /** One turn of the loop over a properties array. */
  method ReadEntry(c: PropertiesContainer, entry: JsonValue, mode: DecodeMode) returns (r: Outcome<Error>)
    requires c.Valid()
    modifies c`props
    ensures c.Valid() && c.props.Keys == old(c.props).Keys
    ensures var d := DecodeEntry(old(c.props), entry, mode);
            (r.Pass? <==> d.Success?) && (r.Fail? ==> r.error == d.error) && (r.Pass? ==> c.props == d.value)
  {
    r := Pass;
    if HasMember(entry, "id") && HasMember(entry, "val") {
      var id := AsUint(Get(entry, "id"));
      if id.Failure? {
        return Fail(id.error);
      }
      if id.value in c.props {
        r := ReadProperty(c, id.value, entry, mode);
      }
    }
  }

  /** ReadProperties(line, PC_Sensor). */
  method ReadPropertiesLine(c: PropertiesContainer, line: Line) returns (r: Outcome<Error>)
    requires c.Valid()
    modifies c`props
    ensures c.Valid() && c.props.Keys == old(c.props).Keys
    ensures var d := DecodePropertiesLine(old(c.props), line);
            (r.Pass? <==> d.Success?) && (r.Fail? ==> r.error == d.error) && (r.Pass? ==> c.props == d.value)
  {
    if line.dom.None? {
      return Fail(RuntimeError("Error parsing properties"));
    }
    var dom := line.dom.value;
    if !HasMember(dom, "prop") || !Get(dom, "prop").JArray? {
      return Fail(RuntimeError("Record line is not a properties line."));
    }
    r := ReadEntries(c, Get(dom, "prop").items, FullDecode);
  }

  /** ReadProperties(line, PC_States) on the frame object of a frame line. */
  method ReadStatesSection(c: PropertiesContainer, frame: JsonValue) returns (r: Outcome<Error>)
    requires c.Valid()
    modifies c`props
    ensures c.Valid() && c.props.Keys == old(c.props).Keys
    ensures var d := DecodeStatesSection(old(c.props), frame);
            (r.Pass? <==> d.Success?) && (r.Fail? ==> r.error == d.error) && (r.Pass? ==> c.props == d.value)
  {
    if !HasMember(frame, "states") || !Get(frame, "states").JArray? {
      return Fail(RuntimeError("Could not read states properties."));
    }
    r := ReadEntries(c, Get(frame, "states").items, FullDecode);
  }

  /** ReadProperties(line, PC_Echoes), which hands over to ReadEchoProperties. */
  method ReadEchoProperties(c: PropertiesContainer, frame: JsonValue) returns (r: Outcome<Error>)
    requires c.Valid()
    modifies c`props
    ensures c.Valid() && c.props.Keys == old(c.props).Keys
    ensures var d := DecodeEchoPropertiesSection(old(c.props), frame);
            (r.Pass? <==> d.Success?) && (r.Fail? ==> r.error == d.error) && (r.Pass? ==> c.props == d.value)
  {
    if !HasMember(frame, "echoes_prop") || !Get(frame, "echoes_prop").JArray? {
      return Fail(RuntimeError("Could not read echoes properties."));
    }
    r := ReadEntries(c, Get(frame, "echoes_prop").items, EchoDecode);
  }

  // ----- The "echoes" section of a frame -----

  lemma WrittenAllNone(v: EchoesView)
    ensures WrittenAll(v, []) == v
  {
    assert [] + v.setSide.slots[0..] == v.setSide.slots;
  }

  lemma WrittenAllStep(v: EchoesView, sofar: seq<Echo>, x: Echo)
    requires |sofar| < Capacity(v)
    ensures Written(WrittenAll(v, sofar), |sofar|, x) == WrittenAll(v, sofar + [x])
  {
    var a := (sofar + v.setSide.slots[|sofar|..])[|sofar| := x];
    var b := (sofar + [x]) + v.setSide.slots[|sofar| + 1..];
    assert |a| == |b|;
    forall k | 0 <= k < |a| ensures a[k] == b[k] {
    }
    assert a == b;
  }

  lemma EchoesStep(items: seq<JsonValue>, i: nat, sofar: seq<Echo>, ds: nat, aScale: nat)
    requires i < |items| && DecodeEchoes(items[..i], ds, aScale) == Success(sofar)
    requires DecodeEcho(items[i], ds, aScale).Success?
    ensures DecodeEchoes(items[..i + 1], ds, aScale) == Success(sofar + [DecodeEcho(items[i], ds, aScale).value])
  {
    assert items[..i + 1][..i] == items[..i];
  }

  lemma EchoesStopped(items: seq<JsonValue>, i: nat, ds: nat, aScale: nat)
    requires i < |items| && DecodeEchoes(items[..i], ds, aScale).Success?
    requires DecodeEcho(items[i], ds, aScale).Failure?
    ensures DecodeEchoes(items, ds, aScale) == Failure(DecodeEcho(items[i], ds, aScale).error)
  {
    assert items[..i + 1][..i] == items[..i];
    EchoesFailureSticks(items, ds, aScale, i + 1);
  }

  /** The loop of ReadFrame over "echoes": element i decoded, with the
      store's scales, into slot i of the side being filled. */
  method FillEchoes(e: ResultEchoes, items: seq<JsonValue>) returns (r: Outcome<Error>)
    requires e.Valid() && |items| <= e.bufA.Length
    modifies e.bufA, e.bufB
    ensures e.Valid()
    ensures var v := old(e.View());
            var d := DecodeEchoes(items, v.distanceScale, v.amplitudeScale);
            |items| <= Capacity(v)
            && (r.Pass? <==> d.Success?) && (r.Fail? ==> r.error == d.error)
            && (r.Pass? ==> e.View() == WrittenAll(v, d.value))
  {
    ghost var v0 := e.View();
    e.ViewIsValid();
    var ds := e.distanceScale;
    var aScale := e.amplitudeScale;
    var i := 0;
    ghost var sofar: seq<Echo> := [];
    assert items[..0] == [];
    WrittenAllNone(v0);
    while i < |items|
      invariant i <= |items| && |sofar| == i && e.Valid()
      invariant DecodeEchoes(items[..i], ds, aScale) == Success(sofar)
      invariant e.View() == WrittenAll(v0, sofar)
    {
      var x := DecodeEcho(items[i], ds, aScale);
      if x.Failure? {
        EchoesStopped(items, i, ds, aScale);
        return Fail(x.error);
      }
      EchoesStep(items, i, sofar, ds, aScale);
      WrittenAllStep(v0, sofar, x.value);
      e.WriteEcho(i, x.value);
      sofar := sofar + [x.value];
      i := i + 1;
    }
    assert items[..|items|] == items;
    r := Pass;
  }

  /** The "echoes" section: stamp, set the echo count, fill, swap, signal. */
  method ReadEchoes(e: ResultEchoes, echoes: JsonValue, ts: nat) returns (r: Outcome<Error>)
    requires e.Valid()
    modifies e`timestampA, e`timestampB, e`countA, e`countB, e`setIndex, e`updates, e.bufA, e.bufB
    ensures e.Valid()
    ensures ViewValid(old(e.View()))
    ensures var a := EchoesApplied(old(e.View()), echoes, ts);
            (r.Pass? <==> a.Success?) && (r.Fail? ==> r.error == a.error) && (r.Pass? ==> e.View() == a.value)
  {
    e.ViewIsValid();
    if ts != 0 {
      e.SetTimestamp(ts);
    }
    var items := AsArray(echoes);
    if items.Failure? {
      return Fail(items.error);
    }
    r := e.SetEchoCount(|items.value|);
    if r.Fail? {
      return;
    }
    r := FillEchoes(e, items.value);
    if r.Fail? {
      return;
    }
    e.Swap();
    e.UpdateFinished();
  }

  // ----- The reader -----

  /** LdLjrRecordReader over a record file given as its lines. */
  /** The property part of InitProperties on a sensor: the properties line
      read, the constants updated, the line read again. */
  method ReadPropertiesInto(s: SensorM16.Sensor, line: Line) returns (r: Outcome<Error>)
    requires s.Valid()
    modifies s.props
    ensures s.Valid()
    ensures var d := PropertiesRead(old(s.props.props), line);
            (r.Pass? <==> d.Success?) && (r.Fail? ==> r.error == d.error) && (r.Pass? ==> s.props.props == d.value)
  {
    r := ReadConstantsInto(s, line);
    if r.Fail? {
      return;
    }
    ghost var updated := s.props.props;
    r := ReadPropertiesLine(s.props, line);
    LayoutShape(updated, s.props.props);
  }

  /** The first pass: the properties line read, then UpdateConstants. */
  method ReadConstantsInto(s: SensorM16.Sensor, line: Line) returns (r: Outcome<Error>)
    requires s.Valid()
    modifies s.props
    ensures s.Valid()
    ensures var d := ConstantsRead(old(s.props.props), line);
            (r.Pass? <==> d.Success?) && (r.Fail? ==> r.error == d.error) && (r.Pass? ==> s.props.props == d.value)
  {
    ghost var m0 := s.props.props;
    r := ReadPropertiesLine(s.props, line);
    if r.Fail? {
      return;
    }
    LayoutShape(m0, s.props.props);
    ghost var first := s.props.props;
    r := s.UpdateConstants();
    if r.Pass? {
      SameShapeTrans(m0, first, s.props.props);
    }
  }

  /** The sensor part of InitProperties, for one properties line: the
      properties read, then the echo store sized and swapped and the state
      scales set. */
  method InitialiseSensor(s: SensorM16.Sensor, line: Line) returns (r: Outcome<Error>)
    requires s.Valid()
    modifies s.props, s.echoes, s.states`temperatureScale, s.states`cpuLoadScale
    ensures s.Valid()
    ensures s.states.props.props == old(s.states.props.props) && s.echoes.props.props == old(s.echoes.props.props)
    ensures var d := PropertiesRead(old(s.props.props), line);
            (d.Failure? ==> r == Fail(d.error))
            && (d.Success? ==>
                  s.props.props == d.value
                  && var sz := BufferSizing(d.value);
                  (sz.Failure? ==> r == Fail(sz.error))
                  && (sz.Success? ==>
                        r.Pass? && fresh(s.echoes.bufA) && fresh(s.echoes.bufB)
                        && s.echoes.View() == Swapped(Initialised(old(s.echoes.View()), sz.value.distanceScale, sz.value.amplitudeScale, sz.value.capacity))
                        && s.states.View() == old(s.states.View()).(temperatureScale := sz.value.temperatureScale, cpuLoadScale := sz.value.cpuLoadScale)))
  {
    r := ReadPropertiesInto(s, line);
    if r.Fail? {
      return;
    }
    r := SizeFromProperties(s);
  }

  /** The echo store sized and swapped, and the state scales set, from what
      the properties say, or the error reading them. */
  method SizeFromProperties(s: SensorM16.Sensor) returns (r: Outcome<Error>)
    requires s.Valid()
    modifies s.echoes, s.states`temperatureScale, s.states`cpuLoadScale
    ensures s.Valid()
    ensures var sz := BufferSizing(s.props.props);
            (r.Pass? <==> sz.Success?) && (r.Fail? ==> r.error == sz.error)
            && (r.Pass? ==>
                  fresh(s.echoes.bufA) && fresh(s.echoes.bufB)
                  && s.echoes.View() == Swapped(Initialised(old(s.echoes.View()), sz.value.distanceScale, sz.value.amplitudeScale, sz.value.capacity))
                  && s.states.View() == old(s.states.View()).(temperatureScale := sz.value.temperatureScale, cpuLoadScale := sz.value.cpuLoadScale))
  {
    var sizing := BufferSizing(s.props.props);
    if sizing.Failure? {
      return Fail(sizing.error);
    }
    SizeBuffers(s, sizing.value);
    r := Pass;
  }

  method SizeBuffers(s: SensorM16.Sensor, sz: Sizing)
    requires s.Valid()
    modifies s.echoes, s.states`temperatureScale, s.states`cpuLoadScale
    ensures s.Valid() && fresh(s.echoes.bufA) && fresh(s.echoes.bufB)
    ensures s.echoes.View() == Swapped(Initialised(old(s.echoes.View()), sz.distanceScale, sz.amplitudeScale, sz.capacity))
    ensures s.states.View() == old(s.states.View()).(temperatureScale := sz.temperatureScale, cpuLoadScale := sz.cpuLoadScale)
  {
    s.echoes.Init(sz.distanceScale, sz.amplitudeScale, sz.capacity);
    s.echoes.Swap();
    s.states.Init(sz.temperatureScale, sz.cpuLoadScale);
  }

  class LjrRecordReader {
    const lines: seq<Line>
    /** mCurrentLine: how many lines have been consumed. */
    var currentLine: nat
    var recordSize: nat
    var deviceType: nat
    var protocol: nat
    var recordTimestamp: nat
    /** The sensor CreateSensor made; null before. */
    var sensor: SensorM16.Sensor?

    /** A reader the constructor accepted. */
    ghost predicate Opened()
      reads this`recordSize
    {
      |lines| >= LJR_HEADER_LINES && recordSize == |lines| - LJR_HEADER_LINES
    }

    /** An opened reader with a sensor to replay into. */
    ghost predicate Ready()
      reads this`recordSize, this`sensor, sensor
      reads if sensor != null then {sensor.props, sensor.states.props, sensor.echoes.props} else {}
      reads if sensor != null then {sensor.states} else {}
      reads if sensor != null then {sensor.echoes} else {}
    {
      Opened() && sensor != null && sensor.Valid()
    }

    /** What replaying lines changes: the sensor's properties and the buffers frames fill. */
    ghost function Replayed(): Replay
      requires sensor != null
      reads this`sensor, sensor, sensor.props, sensor.states, sensor.states.props, sensor.echoes, sensor.echoes.props
      reads sensor.echoes.bufA, sensor.echoes.bufB
    {
      Replay(sensor.props.props,
             FrameView(sensor.states.props.props, sensor.states.View(), sensor.echoes.props.props, sensor.echoes.View()))
    }

    constructor (ls: seq<Line>)
      requires |ls| >= LJR_HEADER_LINES
      ensures lines == ls && Opened() && currentLine == 0 && sensor == null
    {
      lines := ls;
      currentLine := 0;
      recordSize := |ls| - LJR_HEADER_LINES;
      deviceType, protocol, recordTimestamp := 0, 0, 0;
      sensor := null;
    }

    /** Opening a record: one too short for its header lines is refused; the
        first line is consumed as the header. */
    static method Open(ls: seq<Line>) returns (r: Result<LjrRecordReader, Error>)
      ensures var o := RecordOpened(ls);
              (r.Success? <==> o.Success?) && (r.Failure? ==> r.error == o.error)
              && (r.Success? ==>
                    fresh(r.value) && r.value.Opened() && r.value.lines == ls && r.value.sensor == null
                    && r.value.currentLine == 1 && r.value.recordSize == o.value.0
                    && Header(r.value.deviceType, r.value.protocol, r.value.recordTimestamp) == o.value.1)
    {
      if |ls| < LJR_HEADER_LINES {
        return Failure(LogicError("Record is too short."));
      }
      var reader := new LjrRecordReader(ls);
      reader.currentLine := reader.currentLine + 1;
      var h := reader.ReadHeader(ls[0]);
      if h.Fail? {
        return Failure(h.error);
      }
      r := Success(reader);
    }

    /** ReadHeader: the checks, then the device type, protocol and timestamp in turn. */
    method ReadHeader(line: Line) returns (r: Outcome<Error>)
      modifies this`deviceType, this`protocol, this`recordTimestamp
      ensures var h := HeaderOf(line);
              (r.Pass? <==> h.Success?) && (r.Fail? ==> r.error == h.error)
              && (r.Pass? ==> Header(deviceType, protocol, recordTimestamp) == h.value)
    {
      var header := CheckedHeader(line);
      if header.Failure? {
        return Fail(header.error);
      }
      var d := Required(header.value, "devicetype");
      if d.Failure? {
        return Fail(d.error);
      }
      var dt := AsUint(d.value);
      if dt.Failure? {
        return Fail(dt.error);
      }
      deviceType := dt.value;
      var p := Required(header.value, "protocol");
      if p.Failure? {
        return Fail(p.error);
      }
      var pr := AsUint(p.value);
      if pr.Failure? {
        return Fail(pr.error);
      }
      protocol := pr.value;
      var t := Required(header.value, "timestamp");
      if t.Failure? {
        return Fail(t.error);
      }
      var ts := AsUint64(t.value);
      if ts.Failure? {
        return Fail(ts.error);
      }
      recordTimestamp := ts.value;
      r := Pass;
    }

    /** GetCurrentPosition: the lines consumed past the header lines, as a `uint32_t` difference. */
    function CurrentPosition(): (p: nat)
      reads this
      ensures p < UINT32_LIMIT
      ensures LJR_HEADER_LINES <= currentLine < UINT32_LIMIT + LJR_HEADER_LINES ==> p == currentLine - LJR_HEADER_LINES
    {
      Position(currentLine)
    }

    /** ReadFrame: the line parsed and checked, then its sections. */
    method ReadFrame(line: Line) returns (r: Outcome<Error>)
      requires Ready()
      modifies sensor.states`timestamp, sensor.states.props`props, sensor.echoes.props`props
      modifies sensor.echoes`timestampA, sensor.echoes`timestampB, sensor.echoes`countA, sensor.echoes`countB
      modifies sensor.echoes`setIndex, sensor.echoes`updates, sensor.echoes.bufA, sensor.echoes.bufB
      ensures Ready() && sensor.props.props == old(sensor.props.props)
      ensures ViewValid(old(Replayed()).frame.echoes)
      ensures var d := DecodeFrame(line, old(Replayed()).frame);
              (r.Pass? <==> d.Success?) && (r.Fail? ==> r.error == d.error) && (r.Pass? ==> Replayed().frame == d.value)
    {
      sensor.echoes.ViewIsValid();
      if line.dom.None? {
        return Fail(RuntimeError("Error parsing frame"));
      }
      var dom := line.dom.value;
      if !HasMember(dom, "frame") || !Get(dom, "frame").JObject? {
        return Fail(RuntimeError("Record line is not a frame."));
      }
      var ts := FrameTimestamp(dom);
      if ts.Failure? {
        return Fail(ts.error);
      }
      r := ReadSections(Get(dom, "frame"), ts.value);
    }

    /** The sections of a frame, in the order states, echoes_prop, echoes. */
    method ReadSections(frame: JsonValue, ts: nat) returns (r: Outcome<Error>)
      requires Ready()
      modifies sensor.states`timestamp, sensor.states.props`props, sensor.echoes.props`props
      modifies sensor.echoes`timestampA, sensor.echoes`timestampB, sensor.echoes`countA, sensor.echoes`countB
      modifies sensor.echoes`setIndex, sensor.echoes`updates, sensor.echoes.bufA, sensor.echoes.bufB
      ensures Ready() && sensor.props.props == old(sensor.props.props)
      ensures ViewValid(old(Replayed()).frame.echoes)
      ensures var d := FrameSections(old(Replayed()).frame, frame, ts);
              (r.Pass? <==> d.Success?) && (r.Fail? ==> r.error == d.error) && (r.Pass? ==> Replayed().frame == d.value)
    {
      sensor.echoes.ViewIsValid();
      r := ReadPropertySections(frame, ts);
      if r.Pass? && HasMember(frame, "echoes") {
        r := ReadEchoesOf(Get(frame, "echoes"), ts);
      }
    }

    /** The "states" and "echoes_prop" sections of a frame. */
    method ReadPropertySections(frame: JsonValue, ts: nat) returns (r: Outcome<Error>)
      requires Ready()
      modifies sensor.states`timestamp, sensor.states.props`props, sensor.echoes.props`props
      ensures Ready()
      ensures var d := PropertySections(old(Replayed()).frame, frame, ts);
              (r.Pass? <==> d.Success?) && (r.Fail? ==> r.error == d.error) && (r.Pass? ==> Replayed().frame == d.value)
    {
      ghost var v := Replayed().frame;
      r := Pass;
      if HasMember(frame, "states") {
        r := ReadStates(frame, ts);
        if r.Fail? {
          return;
        }
      }
      assert (if HasMember(frame, "states") then ApplyStates(v, frame, ts) else Success(v)) == Success(Replayed().frame);
      if HasMember(frame, "echoes_prop") {
        r := ReadEchoPropertiesOf(frame);
      }
    }

    /** The "states" section: the state store stamped when the frame has a
        timestamp, then its properties read. */
    method ReadStates(frame: JsonValue, ts: nat) returns (r: Outcome<Error>)
      requires Ready()
      modifies sensor.states`timestamp, sensor.states.props`props
      ensures Ready()
      ensures var d := ApplyStates(old(Replayed()).frame, frame, ts);
              (r.Pass? <==> d.Success?) && (r.Fail? ==> r.error == d.error) && (r.Pass? ==> Replayed().frame == d.value)
    {
      if ts != 0 {
        sensor.states.SetTimestamp(ts);
      }
      r := ReadStatesSection(sensor.states.props, frame);
    }

    /** The "echoes_prop" section. */
    method ReadEchoPropertiesOf(frame: JsonValue) returns (r: Outcome<Error>)
      requires Ready()
      modifies sensor.echoes.props`props
      ensures Ready()
      ensures var d := DecodeEchoPropertiesSection(old(sensor.echoes.props.props), frame);
              (r.Pass? <==> d.Success?) && (r.Fail? ==> r.error == d.error)
              && (r.Pass? ==> Replayed().frame == old(Replayed()).frame.(echoProps := d.value))
    {
      r := ReadEchoProperties(sensor.echoes.props, frame);
    }

    /** The "echoes" section. */
    method ReadEchoesOf(echoes: JsonValue, ts: nat) returns (r: Outcome<Error>)
      requires Ready()
      modifies sensor.echoes`timestampA, sensor.echoes`timestampB, sensor.echoes`countA, sensor.echoes`countB
      modifies sensor.echoes`setIndex, sensor.echoes`updates, sensor.echoes.bufA, sensor.echoes.bufB
      ensures Ready()
      ensures ViewValid(old(Replayed()).frame.echoes)
      ensures var d := ApplyEchoes(old(Replayed()).frame, echoes, ts);
              (r.Pass? <==> d.Success?) && (r.Fail? ==> r.error == d.error) && (r.Pass? ==> Replayed().frame == d.value)
    {
      r := ReadEchoes(sensor.echoes, echoes, ts);
    }

    /** ReadNext: a line is consumed; a properties line is applied to the
        sensor and reading goes on; a frame line is read into the buffers. */
    method ReadNext() returns (r: Outcome<Error>)
      requires Ready()
      modifies this`currentLine, sensor.props`props
      modifies sensor.states`timestamp, sensor.states.props`props, sensor.echoes.props`props
      modifies sensor.echoes`timestampA, sensor.echoes`timestampB, sensor.echoes`countA, sensor.echoes`countB
      modifies sensor.echoes`setIndex, sensor.echoes`updates, sensor.echoes.bufA, sensor.echoes.bufB
      ensures Ready()
      ensures ViewValid(old(Replayed()).frame.echoes)
      ensures var n := NextRead(lines, old(currentLine), old(Replayed()));
              (r.Pass? <==> n.Success?) && (r.Fail? ==> r.error == n.error)
              && (r.Pass? ==> currentLine == n.value.0 && Replayed() == n.value.1)
      decreases |lines| - currentLine
    {
      sensor.echoes.ViewIsValid();
      if currentLine >= |lines| {
        return Fail(OutOfRange("End of file reached"));
      }
      var line := lines[currentLine];
      currentLine := currentLine + 1;
      var frame := IsFrameLine(line.text);
      if frame.Failure? {
        return Fail(frame.error);
      }
      if !frame.value {
        r := ReadPropertiesLine(sensor.props, line);
        if r.Fail? {
          return;
        }
        LayoutShape(old(sensor.props.props), sensor.props.props);
        r := ReadNext();
        return;
      }
      r := ReadFrame(line);
    }

    /** MoveTo(k): a frame past the record size is refused; otherwise the
        lines before frame k's are skipped from the top of the file, without
        reading them, and ReadNext follows. */
    method MoveTo(k: nat) returns (r: Outcome<Error>)
      requires Ready() && k < UINT32_LIMIT
      modifies this`currentLine, sensor.props`props
      modifies sensor.states`timestamp, sensor.states.props`props, sensor.echoes.props`props
      modifies sensor.echoes`timestampA, sensor.echoes`timestampB, sensor.echoes`countA, sensor.echoes`countB
      modifies sensor.echoes`setIndex, sensor.echoes`updates, sensor.echoes.bufA, sensor.echoes.bufB
      ensures Ready()
      ensures var m := MovedTo(lines, k, old(Replayed()));
              (r.Pass? <==> m.Success?) && (r.Fail? ==> r.error == m.error)
              && (r.Pass? ==> currentLine == m.value.0 && Replayed() == m.value.1)
    {
      sensor.echoes.ViewIsValid();
      if k > recordSize {
        return Fail(OutOfRange("Requested frame larger than record size"));
      }
      ghost var s0 := Replayed();
      SkipLines(k + LJR_HEADER_LINES - 1);
      assert MovedTo(lines, k, s0) == NextRead(lines, currentLine, s0);
      r := ReadNext();
    }

    /** The cursor put back at the top of the file, then n lines passed over. */
    method SkipLines(n: nat)
      modifies this`currentLine
      ensures currentLine == n
    {
      currentLine := 0;
      var i := 0;
      while i < n
        invariant i <= n && currentLine == i
      {
        currentLine := currentLine + 1;
        i := i + 1;
      }
    }

    /** ReadPrevious: MoveTo the frame before the current one, the target
        computed in `uint32_t`. */
    method ReadPrevious() returns (r: Outcome<Error>)
      requires Ready() && currentLine < UINT32_LIMIT
      modifies this`currentLine, sensor.props`props
      modifies sensor.states`timestamp, sensor.states.props`props, sensor.echoes.props`props
      modifies sensor.echoes`timestampA, sensor.echoes`timestampB, sensor.echoes`countA, sensor.echoes`countB
      modifies sensor.echoes`setIndex, sensor.echoes`updates, sensor.echoes.bufA, sensor.echoes.bufB
      ensures Ready()
      ensures var m := MovedTo(lines, PreviousTarget(old(currentLine)), old(Replayed()));
              (r.Pass? <==> m.Success?) && (r.Fail? ==> r.error == m.error)
              && (r.Pass? ==> currentLine == m.value.0 && Replayed() == m.value.1)
    {
      r := MoveTo((currentLine + UINT32_LIMIT - 1 - LJR_HEADER_LINES) % UINT32_LIMIT);
    }

    /** InitProperties: the next line read as the full properties line, the
        constants derived from it, the line read again; then the echo store
        sized from the properties and swapped, and the state scales set. */
    method InitProperties() returns (r: Outcome<Error>)
      requires Ready()
      modifies this`currentLine, sensor.props, sensor.echoes, sensor.states`temperatureScale, sensor.states`cpuLoadScale
      ensures Ready() && currentLine == old(currentLine) + 1
      ensures r.Pass? ==> fresh(sensor.echoes.bufA) && fresh(sensor.echoes.bufB)
      ensures sensor.states.props.props == old(sensor.states.props.props) && sensor.echoes.props.props == old(sensor.echoes.props.props)
      ensures var d := PropertiesInitialised(old(sensor.props.props), LineAt(lines, old(currentLine)));
              (r.Pass? <==> d.Success?) && (r.Fail? ==> r.error == d.error)
              && (r.Pass? ==>
                    var sz := d.value.1;
                    sensor.props.props == d.value.0
                    && sensor.echoes.View() == Swapped(Initialised(old(sensor.echoes.View()), sz.distanceScale, sz.amplitudeScale, sz.capacity))
                    && sensor.states.View() == old(sensor.states.View()).(temperatureScale := sz.temperatureScale, cpuLoadScale := sz.cpuLoadScale))
    {
      var line := LineAt(lines, currentLine);
      currentLine := currentLine + 1;
      r := InitialiseSensor(sensor, line);
    }

    /** CreateSensor: the device factory's M16 sensor, InitProperties, then
        ReadNext to the first frame. */
    method CreateSensor() returns (r: Outcome<Error>)
      requires Opened()
      modifies this`sensor, this`currentLine
      ensures Opened() && sensor != null && fresh(sensor)
      ensures var c := SensorCreated(lines, old(currentLine));
              (r.Pass? <==> c.Success?) && (r.Fail? ==> r.error == c.error)
              && (r.Pass? ==> Ready() && currentLine == c.value.0 && Replayed() == c.value.1)
    {
      sensor := new SensorM16.Sensor();
      r := InitAndRead();
    }

    /** InitProperties then ReadNext, on a sensor as the factory made it. */
    method InitAndRead() returns (r: Outcome<Error>)
      requires Ready() && sensor.props.props == SensorTable() && sensor.states.props.props == StatesTable()
      requires sensor.echoes.View() == EMPTY_ECHOES && sensor.echoes.props.props == map[] && sensor.states.View() == StatesView(0, 0, 0, 0)
      modifies this`currentLine, sensor.props, sensor.echoes, sensor.states`temperatureScale, sensor.states`cpuLoadScale
      modifies sensor.states`timestamp, sensor.states.props`props, sensor.echoes.props`props
      modifies sensor.echoes.bufA, sensor.echoes.bufB
      ensures Opened() && sensor == old(sensor)
      ensures var c := SensorCreated(lines, old(currentLine));
              (r.Pass? <==> c.Success?) && (r.Fail? ==> r.error == c.error)
              && (r.Pass? ==> Ready() && currentLine == c.value.0 && Replayed() == c.value.1)
    {
      ghost var consumed := currentLine;
      CreatedInSteps(lines, consumed);
      ghost var init := PropertiesInitialised(SensorTable(), LineAt(lines, consumed));
      r := InitCreated();
      if r.Fail? {
        return;
      }
      ghost var created := Replayed();
      assert created == CreatedState(init.value.0, init.value.1);
      assert SensorCreated(lines, consumed) == NextRead(lines, currentLine, created);
      r := ReadNext();
    }

    /** InitProperties on a sensor as the factory made it leaves the state a
        created sensor starts replaying from. */
    method InitCreated() returns (r: Outcome<Error>)
      requires Ready() && sensor.props.props == SensorTable() && sensor.states.props.props == StatesTable()
      requires sensor.echoes.View() == EMPTY_ECHOES && sensor.echoes.props.props == map[] && sensor.states.View() == StatesView(0, 0, 0, 0)
      modifies this`currentLine, sensor.props, sensor.echoes, sensor.states`temperatureScale, sensor.states`cpuLoadScale
      ensures Ready() && sensor == old(sensor) && currentLine == old(currentLine) + 1
      ensures r.Pass? ==> fresh(sensor.echoes.bufA) && fresh(sensor.echoes.bufB)
      ensures SensorLayout(SensorTable())
      ensures var d := PropertiesInitialised(SensorTable(), LineAt(lines, old(currentLine)));
              (r.Pass? <==> d.Success?) && (r.Fail? ==> r.error == d.error)
              && (r.Pass? ==> Replayed() == CreatedState(d.value.0, d.value.1))
    {
      SensorTableLayout();
      r := InitProperties();
    }
  }
}
