/** The sensor's result buffers as the modelled code drives them: the
    double-buffered echo store (LdResultEchoes) and the state store
    (LdResultStates). Each owns a property container. */
module Results {
  import opened Wrappers
  import opened Exceptions
  import opened Properties

  /** LdEcho. The type does not bound the fields: M16Data.WithField narrows
      what the data channel writes to each field's width, and the record
      reader's DecodeEcho applies its casts to the channel index and flag
      (its distance and amplitude casts from `double` are left unbounded). */
  datatype Echo = Echo(channelIndex: int, distance: int, amplitude: int, base: int, flag: int,
                       x: real, y: real, z: real, timestamp: int)

  /** `LdEcho lEcho = {}`. */
  const ZeroEcho: Echo := Echo(0, 0, 0, 0, 0, 0.0, 0.0, 0.0, 0)

  /** One of the two echo buffers: all its slots, how many are in use, its timestamp. */
  datatype EchoSide = EchoSide(slots: seq<Echo>, count: nat, timestamp: nat)

  /** The echoes in use on one side. */
  function InUse(s: EchoSide): seq<Echo>
    requires s.count <= |s.slots|
  {
    s.slots[..s.count]
  }

  /** The echo store seen from outside: the side being filled ("set"), the side
      readers see ("get"), the scales, and how many times completion was signalled. */
  datatype EchoesView = EchoesView(setSide: EchoSide, getSide: EchoSide, distanceScale: nat, amplitudeScale: nat, updates: nat)

  predicate ViewValid(v: EchoesView) {
    |v.setSide.slots| == |v.getSide.slots| && v.setSide.count <= |v.setSide.slots| && v.getSide.count <= |v.getSide.slots|
  }

  function Capacity(v: EchoesView): nat {
    |v.setSide.slots|
  }

  /** Swap(): the roles of the two buffers are exchanged. */
  function Swapped(v: EchoesView): (w: EchoesView)
    ensures w.setSide == v.getSide && w.getSide == v.setSide
  {
    v.(setSide := v.getSide, getSide := v.setSide)
  }

  /** Swapping twice restores the roles. */
  lemma SwapInvolution(v: EchoesView)
    ensures Swapped(Swapped(v)) == v
  {
  }

  /** SetTimestamp(ts) stamps the side being filled. */
  function Stamped(v: EchoesView, ts: nat): EchoesView {
    v.(setSide := v.setSide.(timestamp := ts))
  }

  /** SetEchoCount(n); a count past the buffer size is refused. */
  function Counted(v: EchoesView, n: nat): (r: Result<EchoesView, Error>)
    ensures r.Success? <==> n <= Capacity(v)
    ensures r.Success? ==> r.value.setSide.count == n && r.value.setSide.slots == v.setSide.slots
  {
    if n <= Capacity(v) then Success(v.(setSide := v.setSide.(count := n)))
    else Failure(OutOfRange("Echo count larger than the echo buffer."))
  }

  /** Slot i of the side being filled replaced. */
  function Written(v: EchoesView, i: nat, e: Echo): EchoesView
    requires i < |v.setSide.slots|
  {
    v.(setSide := v.setSide.(slots := v.setSide.slots[i := e]))
  }

  /** UpdateFinished(): one more completion signal. */
  function Finished(v: EchoesView): EchoesView {
    v.(updates := v.updates + 1)
  }

  /** n zeroed echoes. */
  function Zeroes(n: nat): (z: seq<Echo>)
    ensures |z| == n && forall i :: 0 <= i < n ==> z[i] == ZeroEcho
  {
    seq(n, _ => ZeroEcho)
  }

  /** Init(distanceScale, amplitudeScale, maxTotalEchoes): both buffers resized and emptied. */
  function Initialised(v: EchoesView, distanceScale: nat, amplitudeScale: nat, capacity: nat): (w: EchoesView)
    ensures ViewValid(w) && Capacity(w) == capacity && w.setSide.count == 0 && w.getSide.count == 0
  {
    EchoesView(EchoSide(Zeroes(capacity), 0, 0), EchoSide(Zeroes(capacity), 0, 0),
               distanceScale, amplitudeScale, v.updates)
  }

  /** The echo store as constructed: no room yet, unit scales, nothing signalled. */
  const EMPTY_ECHOES: EchoesView := EchoesView(EchoSide([], 0, 0), EchoSide([], 0, 0), 1, 1, 0)

  class ResultEchoes {
    var bufA: array<Echo>
    var bufB: array<Echo>
    var countA: nat
    var countB: nat
    var timestampA: nat
    var timestampB: nat
    /** 0 when `bufA` is being filled, 1 when `bufB` is. */
    var setIndex: nat
    var distanceScale: nat
    var amplitudeScale: nat
    var updates: nat
    const props: PropertiesContainer

    ghost predicate Valid()
      reads this, props
    {
      bufA != bufB && bufA.Length == bufB.Length && countA <= bufA.Length && countB <= bufB.Length
      && setIndex < 2 && props.Valid()
    }

    function SideA(): EchoSide
      reads this, bufA
    {
      EchoSide(bufA[..], countA, timestampA)
    }

    function SideB(): EchoSide
      reads this, bufB
    {
      EchoSide(bufB[..], countB, timestampB)
    }

    function View(): EchoesView
      reads this, bufA, bufB
    {
      if setIndex == 0 then EchoesView(SideA(), SideB(), distanceScale, amplitudeScale, updates)
      else EchoesView(SideB(), SideA(), distanceScale, amplitudeScale, updates)
    }

    lemma ViewIsValid()
      requires Valid()
      ensures ViewValid(View()) && Capacity(View()) == bufA.Length
    {
    }

    constructor (p: PropertiesContainer)
      requires p.Valid()
      ensures Valid() && props == p && fresh(bufA) && fresh(bufB)
      ensures View() == EMPTY_ECHOES
    {
      bufA := new Echo[0];
      bufB := new Echo[0];
      countA, countB, timestampA, timestampB := 0, 0, 0, 0;
      setIndex := 0;
      distanceScale, amplitudeScale := 1, 1;
      updates := 0;
      props := p;
    }

    method Init(dScale: nat, aScale: nat, capacity: nat)
      requires Valid()
      modifies this
      ensures Valid() && fresh(bufA) && fresh(bufB)
      ensures View() == Initialised(old(View()), dScale, aScale, capacity)
    {
      bufA := NewBuffer(capacity);
      bufB := NewBuffer(capacity);
      countA, countB, timestampA, timestampB := 0, 0, 0, 0;
      distanceScale, amplitudeScale := dScale, aScale;
    }

    /** A buffer of `capacity` zeroed echoes. */
    static method NewBuffer(capacity: nat) returns (a: array<Echo>)
      ensures fresh(a) && a[..] == Zeroes(capacity)
    {
      a := new Echo[capacity](_ => ZeroEcho);
    }

    method Swap()
      requires Valid()
      modifies this`setIndex
      ensures Valid() && View() == Swapped(old(View()))
    {
      setIndex := 1 - setIndex;
    }

    method SetTimestamp(ts: nat)
      requires Valid()
      modifies this`timestampA, this`timestampB
      ensures Valid() && View() == Stamped(old(View()), ts)
    {
      if setIndex == 0 { timestampA := ts; } else { timestampB := ts; }
    }

    method SetEchoCount(n: nat) returns (r: Outcome<Error>)
      requires Valid()
      modifies this`countA, this`countB
      ensures Valid()
      ensures var c := Counted(old(View()), n);
              (r.Pass? <==> c.Success?) && (r.Pass? ==> View() == c.value) && (r.Fail? ==> r.error == c.error && View() == old(View()))
    {
      if n > bufA.Length {
        r := Fail(OutOfRange("Echo count larger than the echo buffer."));
        return;
      }
      if setIndex == 0 { countA := n; } else { countB := n; }
      r := Pass;
    }

    /** lEchoes[i] = e on the side being filled. */
    method WriteEcho(i: nat, e: Echo)
      requires Valid() && i < bufA.Length
      modifies bufA, bufB
      ensures Valid() && View() == Written(old(View()), i, e)
    {
      if setIndex == 0 { bufA[i] := e; } else { bufB[i] := e; }
    }

    /** Slot i of the side being filled. */
    function SetEchoAt(i: nat): (e: Echo)
      reads this, props, bufA, bufB
      requires Valid() && i < bufA.Length
      ensures e == View().setSide.slots[i]
    {
      if setIndex == 0 then bufA[i] else bufB[i]
    }

    method UpdateFinished()
      requires Valid()
      modifies this`updates
      ensures Valid() && View() == Finished(old(View()))
    {
      updates := updates + 1;
    }
  }

  /** The state store seen from outside, apart from its properties. */
  datatype StatesView = StatesView(timestamp: nat, updates: nat, temperatureScale: nat, cpuLoadScale: nat)

  class ResultStates {
    var timestamp: nat
    var updates: nat
    var temperatureScale: nat
    var cpuLoadScale: nat
    const props: PropertiesContainer

    ghost predicate Valid()
      reads this, props
    {
      props.Valid()
    }

    function View(): StatesView
      reads this
    {
      StatesView(timestamp, updates, temperatureScale, cpuLoadScale)
    }

    constructor (p: PropertiesContainer)
      requires p.Valid()
      ensures Valid() && props == p && View() == StatesView(0, 0, 0, 0)
    {
      timestamp, updates, temperatureScale, cpuLoadScale := 0, 0, 0, 0;
      props := p;
    }

    method Init(temperature: nat, cpuLoad: nat)
      requires Valid()
      modifies this`temperatureScale, this`cpuLoadScale
      ensures Valid() && View() == old(View()).(temperatureScale := temperature, cpuLoadScale := cpuLoad)
    {
      temperatureScale, cpuLoadScale := temperature, cpuLoad;
    }

    method SetTimestamp(ts: nat)
      requires Valid()
      modifies this`timestamp
      ensures Valid() && View() == old(View()).(timestamp := ts)
    {
      timestamp := ts;
    }

    method UpdateFinished()
      requires Valid()
      modifies this`updates
      ensures Valid() && View() == old(View()).(updates := old(View()).updates + 1)
    {
      updates := updates + 1;
    }
  }
}
