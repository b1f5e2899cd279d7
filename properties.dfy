/** Typed sensor properties and the container that holds them
    (LdProperty / LdPropertiesContainer as the modelled code uses them). */
module Properties {
  import opened Wrappers
  import opened Exceptions

  type PropId = nat

  /** The closed type tag; `OtherType` stands for any tag the decoder does not handle. */
  datatype PropType = Bitfield | Bool | Enum | Float | Integer | Text | Buffer | OtherType(tag: nat)

  datatype Category = CatConstant | CatInfo | CatConfiguration | CatCalibration | CatOther

  /** A stored element. Floats are reals; text and buffer properties hold strings. */
  datatype Value = BoolV(b: bool) | IntV(i: int) | RealV(r: real) | TextV(s: string)

  datatype Limits = NoLimits | IntLimits(lo: int, hi: int) | RealLimits(rlo: real, rhi: real) | MaskLimit(mask: int)

  datatype EnumPair = EnumPair(value: int, text: string)

  datatype Property = Property(
    id: PropId,
    deviceId: nat,
    ptype: PropType,
    category: Category,
    signed: bool,
    values: seq<Value>,
    modified: bool,
    limits: Limits,
    enumPairs: seq<EnumPair>,
    scale: nat)

  type PropMap = map<PropId, Property>

  /** What a property is, as opposed to what it holds: never changed after construction. */
  datatype PropKind = PropKind(id: PropId, deviceId: nat, ptype: PropType, category: Category, signed: bool)

  function Kind(p: Property): PropKind {
    PropKind(p.id, p.deviceId, p.ptype, p.category, p.signed)
  }

  /** Two property maps hold the same properties, possibly with other contents. */
  predicate SameShape(m1: PropMap, m2: PropMap) {
    m1.Keys == m2.Keys && forall id :: id in m1 ==> Kind(m1[id]) == Kind(m2[id])
  }

  lemma SameShapeTrans(m1: PropMap, m2: PropMap, m3: PropMap)
    requires SameShape(m1, m2) && SameShape(m2, m3)
    ensures SameShape(m1, m3)
  {
  }

  function DefaultValue(t: PropType): Value {
    match t
    case Bool => BoolV(false)
    case Float => RealV(0.0)
    case Text => TextV("")
    case Buffer => TextV("")
    case _ => IntV(0)
  }

  /** SetCount(n): n elements, each the type's default. */
  function WithCount(p: Property, n: nat): (q: Property)
    ensures Kind(q) == Kind(p) && |q.values| == n && q.modified == p.modified
  {
    p.(values := seq(n, _ => DefaultValue(p.ptype)))
  }

  /** ForceValue(j, v): sets element j and marks the property modified. */
  function WithValue(p: Property, j: nat, v: Value): (q: Property)
    requires j < |p.values|
    ensures Kind(q) == Kind(p) && |q.values| == |p.values| && q.values[j] == v && q.modified
    ensures forall k :: 0 <= k < |p.values| && k != j ==> q.values[k] == p.values[k]
  {
    p.(values := p.values[j := v], modified := true)
  }

  /** AddEnumPair: a value already registered keeps its first text. */
  function WithEnumPair(p: Property, value: int, text: string): (q: Property)
    ensures Kind(q) == Kind(p) && q.values == p.values
    ensures EnumValues(q) == EnumValues(p) + {value}
    ensures value !in EnumValues(p) ==> q.enumPairs == p.enumPairs + [EnumPair(value, text)]
    ensures value in EnumValues(p) ==> q == p
  {
    if value in EnumValues(p) then p
    else
      var q := p.(enumPairs := p.enumPairs + [EnumPair(value, text)]);
      assert q.enumPairs[|p.enumPairs|].value == value;
      assert forall k :: 0 <= k < |p.enumPairs| ==> q.enumPairs[k] == p.enumPairs[k];
      q
  }

  function EnumValues(p: Property): set<int> {
    set k | 0 <= k < |p.enumPairs| :: p.enumPairs[k].value
  }

  /** What the accessors throw for an element past the count. */
  const INDEX_ERROR: Error := OutOfRange("Index not valid, verify property count.")

  /** Value(j) / ValueT<T>(j): element j, or out_of_range past the count. */
  function ValueAt(p: Property, j: nat): (r: Result<Value, Error>)
    ensures r.Success? <==> j < |p.values|
    ensures r.Success? ==> r.value == p.values[j]
  {
    if j < |p.values| then Success(p.values[j]) else Failure(INDEX_ERROR)
  }

  /** The integer held in element j; a non-integer element is a misuse of the accessor. */
  function IntAt(p: Property, j: nat): (r: Result<int, Error>)
    ensures r.Success? <==> j < |p.values| && p.values[j].IntV?
    ensures r.Success? ==> r.value == p.values[j].i
  {
    var v :- ValueAt(p, j);
    if v.IntV? then Success(v.i) else Failure(Malformed("not an integer property"))
  }

  function RealAt(p: Property, j: nat): (r: Result<real, Error>)
    ensures r.Success? <==> j < |p.values| && p.values[j].RealV?
    ensures r.Success? ==> r.value == p.values[j].r
  {
    var v :- ValueAt(p, j);
    if v.RealV? then Success(v.r) else Failure(Malformed("not a float property"))
  }

  /** GetStringValue(j): the text held in element j. */
  function TextAt(p: Property, j: nat): (r: Result<string, Error>)
    ensures r.Success? <==> j < |p.values| && p.values[j].TextV?
    ensures r.Success? ==> r.value == p.values[j].s
  {
    var v :- ValueAt(p, j);
    if v.TextV? then Success(v.s) else Failure(Malformed("not a text property"))
  }

  /** The ids of the properties of one category that are marked modified. */
  function ModifiedIn(m: PropMap, cat: Category): set<PropId> {
    set id | id in m && m[id].category == cat && m[id].modified
  }

  /** The loop `if (Modified()) SetClean()` over one category: every property
      of that category ends clean, the others are untouched. */
  function Cleaned(m: PropMap, cat: Category): (c: PropMap)
    ensures c.Keys == m.Keys
  {
    map id | id in m :: if m[id].category == cat then m[id].(modified := false) else m[id]
  }

  /** The properties after an answer carried `elements` (values per property
      id): those properties take the values, the others keep theirs. */
  function Answered(m: PropMap, elements: map<PropId, seq<Value>>): (a: PropMap)
    ensures SameShape(m, a)
    ensures forall id :: id in m && id !in elements ==> a[id] == m[id]
    ensures forall id :: id in m && id in elements ==> a[id] == m[id].(values := elements[id])
  {
    map id | id in m :: if id in elements then m[id].(values := elements[id]) else m[id]
  }

  /** Cleaning part-way through: the properties of the category still in
      `left` are untouched. */
  function CleanedExcept(m: PropMap, cat: Category, left: set<PropId>): (c: PropMap)
    ensures c.Keys == m.Keys
  {
    map id | id in m :: if m[id].category == cat && id !in left then m[id].(modified := false) else m[id]
  }

  /** One more property of the category cleaned; a clean one needs no write. */
  lemma CleanStep(m: PropMap, cat: Category, left: set<PropId>, id: PropId)
    requires id in left && id in m && m[id].category == cat
    ensures CleanedExcept(m, cat, left - {id}) == CleanedExcept(m, cat, left)[id := m[id].(modified := false)]
    ensures !m[id].modified ==> CleanedExcept(m, cat, left - {id}) == CleanedExcept(m, cat, left)
  {
    if !m[id].modified {
      assert m[id].(modified := false) == m[id];
    }
  }

  /** Cleaning changes exactly the modified properties of the category, only
      in their flag, leaves none of them modified, and is idempotent. */
  lemma CleanedChangesModifiedOnly(m: PropMap, cat: Category)
    ensures SameShape(m, Cleaned(m, cat))
    ensures forall id :: id in m ==> (Cleaned(m, cat)[id] != m[id] <==> id in ModifiedIn(m, cat))
    ensures forall id :: id in m ==> Cleaned(m, cat)[id] == m[id].(modified := m[id].modified && m[id].category != cat)
    ensures ModifiedIn(Cleaned(m, cat), cat) == {}
    ensures Cleaned(Cleaned(m, cat), cat) == Cleaned(m, cat)
  {
    var c := Cleaned(m, cat);
    forall id | id in m ensures c[id] != m[id] <==> id in ModifiedIn(m, cat) {
      if m[id].category == cat && !m[id].modified {
        assert c[id] == m[id];
      }
    }
  }

  /** The container: properties by id, plus the secondary lookup by device id. */
  class PropertiesContainer {
    var props: PropMap
    var byDevice: map<nat, PropId>

    ghost predicate Valid()
      reads this
    {
      WellIndexed(props, byDevice)
    }

    constructor (table: PropMap, index: map<nat, PropId>)
      requires WellIndexed(table, index)
      ensures Valid() && props == table && byDevice == index
    {
      props := table;
      byDevice := index;
    }

    /** GetPropertiesByCategory: the ids of the properties of one category. */
    function ByCategory(cat: Category): (ids: set<PropId>)
      reads this
      ensures forall id :: id in ids <==> id in props && props[id].category == cat
    {
      set id | id in props && props[id].category == cat
    }

    /** FindDeviceProperty: the property answering to a device id, if any. */
    function FindDeviceProperty(deviceId: nat): (r: Option<PropId>)
      reads this
      requires Valid()
      ensures r.Some? ==> r.value in props && props[r.value].deviceId == deviceId
      ensures r.Some? <==> deviceId in byDevice
    {
      if deviceId in byDevice then Some(byDevice[deviceId]) else None
    }

    method SetCount(id: PropId, n: nat)
      requires Valid() && id in props
      modifies this`props
      ensures props.Keys == old(props).Keys
      ensures Valid() && props == old(props)[id := WithCount(old(props)[id], n)]
    {
      props := props[id := WithCount(props[id], n)];
    }

    method ForceValue(id: PropId, j: nat, v: Value)
      requires Valid() && id in props && j < |props[id].values|
      modifies this`props
      ensures props.Keys == old(props).Keys
      ensures Valid() && props == old(props)[id := WithValue(old(props)[id], j, v)]
    {
      props := props[id := WithValue(props[id], j, v)];
    }

    method SetClean(id: PropId)
      requires Valid() && id in props
      modifies this`props
      ensures props.Keys == old(props).Keys
      ensures Valid() && props == old(props)[id := old(props)[id].(modified := false)]
    {
      props := props[id := props[id].(modified := false)];
    }

    method AddEnumPair(id: PropId, value: int, text: string)
      requires Valid() && id in props
      modifies this`props
      ensures props.Keys == old(props).Keys
      ensures Valid() && props == old(props)[id := WithEnumPair(old(props)[id], value, text)]
    {
      props := props[id := WithEnumPair(props[id], value, text)];
    }

    method SetLimits(id: PropId, l: Limits)
      requires Valid() && id in props
      modifies this`props
      ensures props.Keys == old(props).Keys
      ensures Valid() && props == old(props)[id := old(props)[id].(limits := l)]
    {
      props := props[id := props[id].(limits := l)];
    }

    method SetScale(id: PropId, s: nat)
      requires Valid() && id in props
      modifies this`props
      ensures props.Keys == old(props).Keys
      ensures Valid() && props == old(props)[id := old(props)[id].(scale := s)]
    {
      props := props[id := props[id].(scale := s)];
    }

    /** The values an answer wrote into one property. */
    method ReadValues(id: PropId, vals: seq<Value>)
      requires Valid() && id in props
      modifies this`props
      ensures props.Keys == old(props).Keys
      ensures Valid() && props == old(props)[id := old(props)[id].(values := vals)]
    {
      props := props[id := props[id].(values := vals)];
    }

    /** ReadElementToProperties: the elements of an answer stored in their properties. */
    method ReadElements(elements: map<PropId, seq<Value>>)
      requires Valid()
      modifies this`props
      ensures props.Keys == old(props).Keys
      ensures Valid() && props == Answered(old(props), elements)
    {
      WellIndexedShape(props, Answered(props, elements), byDevice);
      props := Answered(props, elements);
    }

    /** The properties as the device left them after a read: same properties, new contents. */
    method Refresh(m: PropMap)
      requires Valid() && SameShape(props, m)
      modifies this`props
      ensures Valid() && props == m
    {
      props := m;
    }
  }

  /** Every property sits under its own id; the device-id index points at the property with that device id. */
  predicate WellIndexed(m: PropMap, index: map<nat, PropId>) {
    (forall id :: id in m ==> m[id].id == id)
    && (forall d :: d in index ==> index[d] in m && m[index[d]].deviceId == d)
  }

  lemma WellIndexedShape(m1: PropMap, m2: PropMap, index: map<nat, PropId>)
    requires WellIndexed(m1, index) && SameShape(m1, m2)
    ensures WellIndexed(m2, index)
  {
    forall id | id in m2 ensures m2[id].id == id {
      assert Kind(m1[id]) == Kind(m2[id]);
    }
    forall d | d in index ensures index[d] in m2 && m2[index[d]].deviceId == d {
      assert Kind(m1[index[d]]) == Kind(m2[index[d]]);
    }
  }
}
