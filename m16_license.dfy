/** License keys of the M16 sensor: the text a user types (two hexadecimal
    digits per key byte), the key bytes sent to the device, and the license
    information word the device answers with (LdSensorM16::SendLicense,
    GetLicenses, RemoveLicense). */
module M16License {
  import opened Wrappers
  import opened Exceptions
  import opened Properties
  import opened M16Layout
  import opened M16Requests

  /** What the user's text must hold: two digits per key byte. */
  const LICENSE_TEXT_LENGTH: nat := 2 * LT_COMM_LICENSE_KEY_LENGTH

  const LENGTH_ERROR: Error := LengthError("Invalid license length.")

  /** The value of a hexadecimal digit, in either case. */
  function HexDigit(c: char): (r: Option<nat>)
    ensures r.Some? ==> r.value < 16
    ensures r.Some? <==> ('0' <= c <= '9') || ('a' <= c <= 'f') || ('A' <= c <= 'F')
  {
    if '0' <= c <= '9' then Some(c as int - '0' as int)
    else if 'a' <= c <= 'f' then Some(c as int - 'a' as int + 10)
    else if 'A' <= c <= 'F' then Some(c as int - 'A' as int + 10)
    else None
  }

  /** The characters `isspace` accepts in the C locale. */
  predicate IsSpace(c: char) {
    c == ' ' || 9 <= c as int <= 13
  }

  /** `(uint8_t)strtoul(pair, nullptr, 16)` on a two-character string:
      leading blanks and a sign are accepted, digits are read while they
      last, a negated value wraps, and nothing readable gives 0. */
  function PairValue(c1: char, c2: char): (b: Byte)
    ensures HexDigit(c1).Some? && HexDigit(c2).Some? ==> b == 16 * HexDigit(c1).value + HexDigit(c2).value
    ensures HexDigit(c1).None? && HexDigit(c2).None? ==> b == 0
  {
    var d2 := HexDigit(c2);
    if IsSpace(c1) || c1 == '+' then (if d2.Some? then d2.value else 0)
    else if c1 == '-' then (if d2.Some? then (256 - d2.value) % 256 else 0)
    else if HexDigit(c1).Some? then (if d2.Some? then 16 * HexDigit(c1).value + d2.value else HexDigit(c1).value)
    else 0
  }

  /** The key bytes of a full-length license text: byte k from characters 2k and 2k + 1. */
  function KeyOfText(s: string): (key: seq<Byte>)
    requires |s| == LICENSE_TEXT_LENGTH
    ensures |key| == LT_COMM_LICENSE_KEY_LENGTH
    ensures forall k :: 0 <= k < |key| ==> key[k] == PairValue(s[2 * k], s[2 * k + 1])
  {
    seq(LT_COMM_LICENSE_KEY_LENGTH, k requires 0 <= k < LT_COMM_LICENSE_KEY_LENGTH => PairValue(s[2 * k], s[2 * k + 1]))
  }

  /** SendLicense(string) as written: the buffer the key bytes go into is never
      initialised, so an empty text leaves every byte undetermined (None). */
  function KeyBufferAsWritten(s: string): (r: Result<seq<Option<Byte>>, Error>)
    ensures r.Success? <==> |s| == LICENSE_TEXT_LENGTH || |s| == 0
    ensures r.Success? ==> |r.value| == LT_COMM_LICENSE_KEY_LENGTH
  {
    if |s| != LICENSE_TEXT_LENGTH && |s| != 0 then Failure(LENGTH_ERROR)
    else if |s| == 0 then Success(seq(LT_COMM_LICENSE_KEY_LENGTH, _ => None))
    else Success(seq(LT_COMM_LICENSE_KEY_LENGTH, k requires 0 <= k < LT_COMM_LICENSE_KEY_LENGTH => Some(KeyOfText(s)[k])))
  }

  /** An empty text sends a key none of whose bytes the code has set. */
  lemma EmptyTextSendsUnsetBytes()
    ensures KeyBufferAsWritten("").Success?
    ensures forall k :: 0 <= k < LT_COMM_LICENSE_KEY_LENGTH ==> KeyBufferAsWritten("").value[k].None?
  {
  }

  /** The key sent for a license text, with the empty text sending the empty
      (all-zero) key that RemoveLicense and RemoveAllLicenses send. */
  function LicenseKey(s: string): (r: Result<seq<Byte>, Error>)
    ensures r.Success? <==> |s| == LICENSE_TEXT_LENGTH || |s| == 0
    ensures r.Failure? ==> r.error == LENGTH_ERROR
    ensures r.Success? ==> |r.value| == LT_COMM_LICENSE_KEY_LENGTH
    ensures |s| == 0 ==> r == Success(EmptyKey())
  {
    if |s| != LICENSE_TEXT_LENGTH && |s| != 0 then Failure(LENGTH_ERROR)
    else if |s| == 0 then Success(EmptyKey())
    else Success(KeyOfText(s))
  }

  /** Wherever the code as written determines a byte, the corrected key agrees with it. */
  lemma KeyAgreesWithBuffer(s: string)
    requires LicenseKey(s).Success?
    ensures KeyBufferAsWritten(s).Success?
    ensures forall k :: 0 <= k < LT_COMM_LICENSE_KEY_LENGTH && KeyBufferAsWritten(s).value[k].Some? ==>
              KeyBufferAsWritten(s).value[k].value == LicenseKey(s).value[k]
  {
  }

  function EmptyKey(): (key: seq<Byte>)
    ensures |key| == LT_COMM_LICENSE_KEY_LENGTH && forall k :: 0 <= k < |key| ==> key[k] == 0
  {
    seq(LT_COMM_LICENSE_KEY_LENGTH, _ => 0)
  }

  /** An upper-case hexadecimal digit. */
  function HexChar(d: nat): (c: char)
    requires d < 16
    ensures HexDigit(c) == Some(d)
  {
    if d < 10 then ('0' as int + d) as char else ('A' as int + d - 10) as char
  }

  /** How a key is written back as text: two upper-case digits per byte. */
  function TextOfKey(key: seq<Byte>): (s: string)
    ensures |s| == 2 * |key|
    ensures forall k :: 0 <= k < |key| ==> s[2 * k] == HexChar(key[k] / 16) && s[2 * k + 1] == HexChar(key[k] % 16)
  {
    if key == [] then ""
    else
      var s := TextOfKey(key[..|key| - 1]) + [HexChar(key[|key| - 1] / 16), HexChar(key[|key| - 1] % 16)];
      assert forall k :: 0 <= k < |key| - 1 ==> key[..|key| - 1][k] == key[k];
      s
  }

  /** A key written as text is read back as the same key. */
  lemma KeyTextRoundTrip(key: seq<Byte>)
    requires |key| == LT_COMM_LICENSE_KEY_LENGTH
    ensures LicenseKey(TextOfKey(key)) == Success(key)
  {
    var s := TextOfKey(key);
    assert KeyOfText(s) == key by {
      forall k | 0 <= k < |key| ensures KeyOfText(s)[k] == key[k] {
        assert PairValue(s[2 * k], s[2 * k + 1]) == 16 * (key[k] / 16) + key[k] % 16;
      }
    }
  }

  /** The license as the device describes it: type, subtype and key text. */
  datatype License = License(ltype: nat, subType: nat, key: string)

  /** The license information word: the type in its low 16 bits, the subtype
      in the byte above (`Value() & 0xFFFF`, `(uint8_t)(ValueT<uint32_t>() >> 16)`). */
  function DecodeLicense(key: string, info: int): (l: License)
    ensures l.ltype < 0x1_0000 && l.subType < 0x100 && l.key == key
  {
    License(info % 0x1_0000, (info % 0x1_0000_0000) / 0x1_0000 % 0x100, key)
  }

  /** How a device composes the word from a type and a subtype. */
  function EncodeInfo(ltype: nat, subType: nat): int {
    subType * 0x1_0000 + ltype
  }

  /** Decoding recovers the type and subtype the word was composed from. */
  lemma LicenseInfoRoundTrip(key: string, ltype: nat, subType: nat)
    requires ltype < 0x1_0000 && subType < 0x100
    ensures DecodeLicense(key, EncodeInfo(ltype, subType)) == License(ltype, subType, key)
  {
    var info := EncodeInfo(ltype, subType);
    assert info < 0x1_0000_0000;
    assert info % 0x1_0000 == ltype;
    assert info / 0x1_0000 == subType;
  }

  /** What SendLicense makes of the properties the device answered with: the
      key text, then the information word; a type of 0 means the device
      refused the key. */
  function LicenseOfReply(keyProp: Property, infoProp: Property): (r: Result<License, Error>)
    ensures r.Success? ==> 0 < r.value.ltype < 0x1_0000 && r.value.subType < 0x100
    ensures r.Success? <==> TextAt(keyProp, 0).Success? && IntAt(infoProp, 0).Success? && IntAt(infoProp, 0).value % 0x1_0000 != 0
  {
    var text :- TextAt(keyProp, 0);
    var info :- IntAt(infoProp, 0);
    var l := DecodeLicense(text, info);
    if l.ltype == 0 then Failure(INVALID_LICENSE) else Success(l)
  }

  /** What SendLicense throws when the device gives the key type 0. */
  const INVALID_LICENSE: Error := RuntimeError("Invalid license.")

  /** The exchanges SendLicense has with the device: the answers to the write
      of the key (read up to `retries` + 1 times each), the answer code after it,
      how the read of the read-back's answer went (ReadAnswer throws when the
      transport fails), what that answer put into the key and information
      properties, and its answer code. */
  datatype LicenseExchange = LicenseExchange(retries: nat, answers: Answers, setCode: nat, infoAnswer: Outcome<Error>,
                                             keyReply: seq<Value>, infoReply: seq<Value>, infoCode: nat)

  /** The four license properties are present. */
  predicate LicenseLayout(m: PropMap) {
    ID_LICENSE in m && ID_LICENSE_INFO in m && ID_VOLATILE_LICENSE in m && ID_VOLATILE_LICENSE_INFO in m
  }

  predicate IsLicenseId(id: PropId) {
    id == ID_LICENSE || id == ID_LICENSE_INFO || id == ID_VOLATILE_LICENSE || id == ID_VOLATILE_LICENSE_INFO
  }

  /** The key and information properties of a permanent or a volatile license. */
  function KeyId(isVolatile: bool): PropId {
    if isVolatile then ID_VOLATILE_LICENSE else ID_LICENSE
  }

  function InfoId(isVolatile: bool): PropId {
    if isVolatile then ID_VOLATILE_LICENSE_INFO else ID_LICENSE_INFO
  }

  /** The key property as SendLicense writes it before sending: at least one
      element, element 0 the key, marked clean. */
  function KeyStored(p: Property, key: seq<Byte>): (q: Property)
    ensures Kind(q) == Kind(p) && |q.values| > 0 && q.values[0] == TextV(TextOfKey(key)) && !q.modified
  {
    var counted := if |p.values| == 0 then WithCount(p, 1) else p;
    counted.(values := counted.values[0 := TextV(TextOfKey(key))], modified := false)
  }

  /** What SendLicense(bytes) returns or throws, `devices` being the device
      ids the container knows: the write's failure, a wrong answer code after
      the write, the failed read of the read-back's answer, a wrong answer code
      after the read-back, or the license read back. */
  function SendLicenseOutcome(m: PropMap, devices: set<nat>, isVolatile: bool, x: LicenseExchange): (r: Result<License, Error>)
    requires KeyId(isVolatile) in m && InfoId(isVolatile) in m
  {
    var sent := PropertiesSent(devices, [DeviceOf(KeyId(isVolatile))], x.retries, x.answers, 0).0;
    if sent.Fail? then Failure(sent.error)
    else if x.setCode != LT_COMM_ANSWER_OK then Failure(AnswerCodeError(x.setCode))
    else if x.infoAnswer.Fail? then Failure(x.infoAnswer.error)
    else if x.infoCode != LT_COMM_ANSWER_OK then Failure(AnswerCodeError(x.infoCode))
    else LicenseOfReply(m[KeyId(isVolatile)].(values := x.keyReply), m[InfoId(isVolatile)].(values := x.infoReply))
  }

  /** The properties once the license was read back: both hold what the device
      answered, and both are clean. */
  function LicenseStateAfter(m: PropMap, isVolatile: bool, x: LicenseExchange): PropMap
    requires KeyId(isVolatile) in m && InfoId(isVolatile) in m
  {
    var keyId, infoId := KeyId(isVolatile), InfoId(isVolatile);
    m[keyId := m[keyId].(values := x.keyReply, modified := false)][infoId := m[infoId].(values := x.infoReply, modified := false)]
  }

  /** The write went through and its answer code was LT_COMM_ANSWER_OK, so
      the read-back was requested and its reply reached the properties. */
  predicate ReadRequested(devices: set<nat>, isVolatile: bool, x: LicenseExchange) {
    PropertiesSent(devices, [DeviceOf(KeyId(isVolatile))], x.retries, x.answers, 0).0.Pass?
    && x.setCode == LT_COMM_ANSWER_OK
  }

  /** The read-back was requested, its answer arrived and its answer code was
      LT_COMM_ANSWER_OK too. */
  predicate ReadBack(devices: set<nat>, isVolatile: bool, x: LicenseExchange) {
    ReadRequested(devices, isVolatile, x) && x.infoAnswer.Pass? && x.infoCode == LT_COMM_ANSWER_OK
  }

  /** The read-back of SendLicense: when its answer could not be read the
      properties stay as they were; otherwise key and information take the
      reply whatever its answer code, and the information is marked clean once
      the code was good and both could be read. */
  function ReadBackState(m: PropMap, isVolatile: bool, x: LicenseExchange): (s: PropMap)
    requires KeyId(isVolatile) in m && InfoId(isVolatile) in m
    ensures s.Keys == m.Keys
  {
    var keyId, infoId := KeyId(isVolatile), InfoId(isVolatile);
    var read := m[keyId := m[keyId].(values := x.keyReply)][infoId := m[infoId].(values := x.infoReply)];
    if x.infoAnswer.Fail? then m
    else if x.infoCode == LT_COMM_ANSWER_OK && TextAt(read[keyId], 0).Success? && IntAt(read[infoId], 0).Success?
    then read[infoId := read[infoId].(modified := false)]
    else read
  }

  /** The properties SendLicense leaves: the key stored, then, when the
      read-back was requested, its reply. */
  function SendLicenseState(m: PropMap, devices: set<nat>, key: seq<Byte>, isVolatile: bool, x: LicenseExchange): (s: PropMap)
    requires KeyId(isVolatile) in m && InfoId(isVolatile) in m
    ensures s.Keys == m.Keys
  {
    var stored := m[KeyId(isVolatile) := KeyStored(m[KeyId(isVolatile)], key)];
    if ReadRequested(devices, isVolatile, x) then ReadBackState(stored, isVolatile, x) else stored
  }

  /** Whatever the device answers, SendLicense touches only the key and the
      information properties and leaves the key clean. */
  lemma SendLicenseTouchesOnlyItsPair(m: PropMap, devices: set<nat>, key: seq<Byte>, isVolatile: bool, x: LicenseExchange)
    requires KeyId(isVolatile) in m && InfoId(isVolatile) in m
    ensures forall id :: id in m && id != KeyId(isVolatile) && id != InfoId(isVolatile) ==>
              SendLicenseState(m, devices, key, isVolatile, x)[id] == m[id]
    ensures !SendLicenseState(m, devices, key, isVolatile, x)[KeyId(isVolatile)].modified
  {
    var keyId, infoId := KeyId(isVolatile), InfoId(isVolatile);
    assert keyId != infoId;
    var stored := m[keyId := KeyStored(m[keyId], key)];
    if ReadRequested(devices, isVolatile, x) {
      var read := stored[keyId := stored[keyId].(values := x.keyReply)][infoId := stored[infoId].(values := x.infoReply)];
      assert !read[keyId].modified;
    }
  }

  /** Once the license was read back, accepted or refused, both properties
      hold the reply and both are clean. */
  lemma SendLicenseReadBackClean(m: PropMap, devices: set<nat>, key: seq<Byte>, isVolatile: bool, x: LicenseExchange)
    requires KeyId(isVolatile) in m && InfoId(isVolatile) in m
    requires ReadBack(devices, isVolatile, x)
    requires SendLicenseOutcome(m, devices, isVolatile, x).Success? || SendLicenseOutcome(m, devices, isVolatile, x) == Failure(INVALID_LICENSE)
    ensures var s := SendLicenseState(m, devices, key, isVolatile, x);
            s[KeyId(isVolatile)] == m[KeyId(isVolatile)].(values := x.keyReply, modified := false)
            && s[InfoId(isVolatile)] == m[InfoId(isVolatile)].(values := x.infoReply, modified := false)
  {
    var keyId, infoId := KeyId(isVolatile), InfoId(isVolatile);
    assert keyId != infoId;
    var stored := m[keyId := KeyStored(m[keyId], key)];
    var read := stored[keyId := stored[keyId].(values := x.keyReply)][infoId := stored[infoId].(values := x.infoReply)];
    assert TextAt(read[keyId], 0).Success? && IntAt(read[infoId], 0).Success?;
  }

  /** A wrong answer code on the read-back is the error, but the reply has
      already reached both properties: the key stays clean, the information
      keeps its flag. */
  lemma SendLicenseWrongCodeKeepsReply(m: PropMap, devices: set<nat>, key: seq<Byte>, isVolatile: bool, x: LicenseExchange)
    requires KeyId(isVolatile) in m && InfoId(isVolatile) in m
    requires ReadRequested(devices, isVolatile, x) && x.infoAnswer.Pass? && x.infoCode != LT_COMM_ANSWER_OK
    ensures SendLicenseOutcome(m, devices, isVolatile, x) == Failure(AnswerCodeError(x.infoCode))
    ensures var s := SendLicenseState(m, devices, key, isVolatile, x);
            s[KeyId(isVolatile)] == KeyStored(m[KeyId(isVolatile)], key).(values := x.keyReply)
            && s[InfoId(isVolatile)] == m[InfoId(isVolatile)].(values := x.infoReply)
  {
    assert KeyId(isVolatile) != InfoId(isVolatile);
  }

  /** When the read-back's answer cannot be read, its error is the outcome
      and the key is stored but neither property takes a reply. */
  lemma SendLicenseReadFailureKeepsKey(m: PropMap, devices: set<nat>, key: seq<Byte>, isVolatile: bool, x: LicenseExchange)
    requires KeyId(isVolatile) in m && InfoId(isVolatile) in m
    requires ReadRequested(devices, isVolatile, x) && x.infoAnswer.Fail?
    ensures SendLicenseOutcome(m, devices, isVolatile, x) == Failure(x.infoAnswer.error)
    ensures var s := SendLicenseState(m, devices, key, isVolatile, x);
            s[KeyId(isVolatile)] == KeyStored(m[KeyId(isVolatile)], key)
            && s[InfoId(isVolatile)] == m[InfoId(isVolatile)]
  {
    assert KeyId(isVolatile) != InfoId(isVolatile);
  }

  /** Outside a failed write or read-back, or a wrong answer code, the license returned is
      the one the read-back describes, and "Invalid license." means type 0. */
  lemma SendLicenseReadsBack(m: PropMap, devices: set<nat>, isVolatile: bool, x: LicenseExchange)
    requires KeyId(isVolatile) in m && InfoId(isVolatile) in m
    requires PropertiesSent(devices, [DeviceOf(KeyId(isVolatile))], x.retries, x.answers, 0).0.Pass?
    requires x.setCode == LT_COMM_ANSWER_OK && x.infoAnswer.Pass? && x.infoCode == LT_COMM_ANSWER_OK
    requires |x.keyReply| > 0 && x.keyReply[0].TextV? && |x.infoReply| > 0 && x.infoReply[0].IntV?
    ensures SendLicenseOutcome(m, devices, isVolatile, x) == Failure(INVALID_LICENSE) <==> x.infoReply[0].i % 0x1_0000 == 0
    ensures SendLicenseOutcome(m, devices, isVolatile, x).Success? ==>
              SendLicenseOutcome(m, devices, isVolatile, x).value == DecodeLicense(x.keyReply[0].s, x.infoReply[0].i)
  {
  }

  /** A key the device accepts with a nonzero type comes back with that type
      and subtype; a type of 0 is the "Invalid license." error. */
  lemma ReplyDecoded(keyProp: Property, infoProp: Property, text: string, ltype: nat, subType: nat)
    requires |keyProp.values| > 0 && keyProp.values[0] == TextV(text)
    requires |infoProp.values| > 0 && infoProp.values[0] == IntV(EncodeInfo(ltype, subType))
    requires ltype < 0x1_0000 && subType < 0x100
    ensures ltype != 0 ==> LicenseOfReply(keyProp, infoProp) == Success(License(ltype, subType, text))
    ensures ltype == 0 ==> LicenseOfReply(keyProp, infoProp) == Failure(INVALID_LICENSE)
  {
    LicenseInfoRoundTrip(text, ltype, subType);
  }

  /** GetLicenses' loop from element i on: one license per key element, each
      with the information word of the same index. */
  function LicensesFrom(keyProp: Property, infoProp: Property, i: nat): (r: Result<seq<License>, Error>)
    ensures r.Success? ==> |r.value| == |keyProp.values| - i || (i >= |keyProp.values| && r.value == [])
    decreases |keyProp.values| - i
  {
    if i >= |keyProp.values| then Success([])
    else
      var text :- TextAt(keyProp, i);
      var info :- IntAt(infoProp, i);
      var rest :- LicensesFrom(keyProp, infoProp, i + 1);
      Success([DecodeLicense(text, info)] + rest)
  }

  /** From element i on, every key element is text with an integer
      information word beside it. */
  predicate LicensesReadable(keyProp: Property, infoProp: Property, i: nat) {
    forall j :: i <= j < |keyProp.values| ==> keyProp.values[j].TextV? && j < |infoProp.values| && infoProp.values[j].IntV?
  }

  /** Element j is a text key with an integer information word beside it. */
  predicate LicensePair(keyProp: Property, infoProp: Property, j: nat) {
    j < |keyProp.values| && keyProp.values[j].TextV? && j < |infoProp.values| && infoProp.values[j].IntV?
  }

  /** Readable from i on means a pair at i and readable from i + 1 on. */
  lemma ReadableHead(keyProp: Property, infoProp: Property, i: nat)
    requires i < |keyProp.values|
    ensures LicensesReadable(keyProp, infoProp, i) ==> LicensePair(keyProp, infoProp, i) && LicensesReadable(keyProp, infoProp, i + 1)
  {
    if LicensesReadable(keyProp, infoProp, i) {
      var key := keyProp.values[i];
      forall j | i + 1 <= j < |keyProp.values|
        ensures keyProp.values[j].TextV? && j < |infoProp.values| && infoProp.values[j].IntV?
      {
        var key := keyProp.values[j];
      }
    }
  }

  /** A pair at i in front of a readable rest is readable from i on. */
  lemma ReadableCons(keyProp: Property, infoProp: Property, i: nat)
    requires LicensePair(keyProp, infoProp, i) && LicensesReadable(keyProp, infoProp, i + 1)
    ensures LicensesReadable(keyProp, infoProp, i)
  {
    forall j | i <= j < |keyProp.values|
      ensures keyProp.values[j].TextV? && j < |infoProp.values| && infoProp.values[j].IntV?
    {
      var key := keyProp.values[j];
      if j > i {
        assert i + 1 <= j;
      }
    }
  }

  /** The list is read whole exactly when every key element is text with an
      integer information word beside it, and then entry i decodes element i. */
  lemma {:induction false} LicensesListed(keyProp: Property, infoProp: Property, i: nat)
    requires i <= |keyProp.values|
    ensures LicensesFrom(keyProp, infoProp, i).Success? <==> LicensesReadable(keyProp, infoProp, i)
    ensures LicensesFrom(keyProp, infoProp, i).Success? ==>
              forall j :: i <= j < |keyProp.values| ==>
                LicensesFrom(keyProp, infoProp, i).value[j - i] == DecodeLicense(keyProp.values[j].s, infoProp.values[j].i)
    decreases |keyProp.values| - i
  {
    if i < |keyProp.values| {
      LicensesListed(keyProp, infoProp, i + 1);
      var r := LicensesFrom(keyProp, infoProp, i);
      if r.Success? {
        assert TextAt(keyProp, i).Success? && IntAt(infoProp, i).Success?;
        assert LicensesFrom(keyProp, infoProp, i + 1).Success?;
        var rest := LicensesFrom(keyProp, infoProp, i + 1).value;
        assert r.value == [DecodeLicense(keyProp.values[i].s, infoProp.values[i].i)] + rest;
        assert LicensesReadable(keyProp, infoProp, i + 1);
        assert LicensePair(keyProp, infoProp, i);
        ReadableCons(keyProp, infoProp, i);
        forall j | i <= j < |keyProp.values|
          ensures r.value[j - i] == DecodeLicense(keyProp.values[j].s, infoProp.values[j].i)
        {
          if j > i {
            assert r.value[j - i] == rest[j - (i + 1)];
          }
        }
      } else if TextAt(keyProp, i).Success? && IntAt(infoProp, i).Success? {
        ReadableHead(keyProp, infoProp, i);
      } else {
        assert !LicensePair(keyProp, infoProp, i);
        ReadableHead(keyProp, infoProp, i);
      }
    }
  }

  /** The four license properties once GetLicenses' request was answered,
      whatever the answer code: each holds its reply. */
  function LicensesApplied(m: PropMap, keyReply: seq<Value>, infoReply: seq<Value>,
                           volatileKeyReply: seq<Value>, volatileInfoReply: seq<Value>): PropMap
    requires LicenseLayout(m)
  {
    m[ID_LICENSE := m[ID_LICENSE].(values := keyReply)]
     [ID_LICENSE_INFO := m[ID_LICENSE_INFO].(values := infoReply)]
     [ID_VOLATILE_LICENSE := m[ID_VOLATILE_LICENSE].(values := volatileKeyReply)]
     [ID_VOLATILE_LICENSE_INFO := m[ID_VOLATILE_LICENSE_INFO].(values := volatileInfoReply)]
  }

  /** The properties GetLicenses leaves when the answer code was good: the
      replies applied, then the permanent information and key marked clean. */
  function LicensesReadState(m: PropMap, keyReply: seq<Value>, infoReply: seq<Value>,
                             volatileKeyReply: seq<Value>, volatileInfoReply: seq<Value>): PropMap
    requires LicenseLayout(m)
  {
    var read := LicensesApplied(m, keyReply, infoReply, volatileKeyReply, volatileInfoReply);
    var infoClean := read[ID_LICENSE_INFO := read[ID_LICENSE_INFO].(modified := false)];
    infoClean[ID_LICENSE := infoClean[ID_LICENSE].(modified := false)]
  }

  /** GetLicenses changes the four license properties only: each holds its
      reply, the permanent pair is clean, the volatile pair keeps its flag. */
  lemma LicensesReadTouchesOnlyLicenses(m: PropMap, keyReply: seq<Value>, infoReply: seq<Value>,
                                        volatileKeyReply: seq<Value>, volatileInfoReply: seq<Value>)
    requires LicenseLayout(m)
    ensures var s := LicensesReadState(m, keyReply, infoReply, volatileKeyReply, volatileInfoReply);
            s.Keys == m.Keys
            && s[ID_LICENSE] == m[ID_LICENSE].(values := keyReply, modified := false)
            && s[ID_LICENSE_INFO] == m[ID_LICENSE_INFO].(values := infoReply, modified := false)
            && s[ID_VOLATILE_LICENSE] == m[ID_VOLATILE_LICENSE].(values := volatileKeyReply)
            && s[ID_VOLATILE_LICENSE_INFO] == m[ID_VOLATILE_LICENSE_INFO].(values := volatileInfoReply)
            && forall id :: id in m && !IsLicenseId(id) ==> s[id] == m[id]
  {
  }

  /** With a wrong answer code GetLicenses still leaves the replies in the
      four license properties, with their flags as they were, and nothing else changes. */
  lemma LicensesAppliedTouchesOnlyLicenses(m: PropMap, keyReply: seq<Value>, infoReply: seq<Value>,
                                           volatileKeyReply: seq<Value>, volatileInfoReply: seq<Value>)
    requires LicenseLayout(m)
    ensures var s := LicensesApplied(m, keyReply, infoReply, volatileKeyReply, volatileInfoReply);
            s.Keys == m.Keys
            && s[ID_LICENSE] == m[ID_LICENSE].(values := keyReply)
            && s[ID_LICENSE_INFO] == m[ID_LICENSE_INFO].(values := infoReply)
            && s[ID_VOLATILE_LICENSE] == m[ID_VOLATILE_LICENSE].(values := volatileKeyReply)
            && s[ID_VOLATILE_LICENSE_INFO] == m[ID_VOLATILE_LICENSE_INFO].(values := volatileInfoReply)
            && forall id :: id in m && !IsLicenseId(id) ==> s[id] == m[id]
  {
  }

  /** GetLicenses' list built so far in front of the rest of the loop's result. */
  function Join(done: seq<License>, rest: Result<seq<License>, Error>): (r: Result<seq<License>, Error>)
    ensures done == [] ==> r == rest
  {
    if rest.Success? then (assert done == [] ==> done + rest.value == rest.value; Success(done + rest.value)) else rest
  }

  /** `::toupper` in the C locale: only the ASCII letters change. */
  function UpperChar(c: char): (u: char)
    ensures 'a' <= c <= 'z' ==> u as int == c as int - 32
    ensures !('a' <= c <= 'z') ==> u == c
  {
    if 'a' <= c <= 'z' then (c as int - 32) as char else c
  }

  function Upper(s: string): (u: string)
    ensures |u| == |s| && forall k :: 0 <= k < |s| ==> u[k] == UpperChar(s[k])
  {
    seq(|s|, k requires 0 <= k < |s| => UpperChar(s[k]))
  }

  /** RemoveLicense's test: the two texts are equal ignoring the case of letters. */
  predicate SameLicense(a: string, b: string) {
    Upper(a) == Upper(b)
  }

  /** The comparison ignores case exactly: texts match iff they agree
      character by character up to the case of ASCII letters. */
  lemma SameLicenseCharwise(a: string, b: string)
    ensures SameLicense(a, b) <==> |a| == |b| && forall k :: 0 <= k < |a| ==> UpperChar(a[k]) == UpperChar(b[k])
  {
    if |a| == |b| && forall k :: 0 <= k < |a| ==> UpperChar(a[k]) == UpperChar(b[k]) {
      assert Upper(a) == Upper(b);
    }
  }

  /** A key's text matches itself typed in lower case. */
  lemma KeyTextIgnoresCase(key: seq<Byte>, typed: string)
    requires |typed| == |TextOfKey(key)|
    requires forall k :: 0 <= k < |typed| ==> UpperChar(typed[k]) == TextOfKey(key)[k]
    ensures SameLicense(typed, TextOfKey(key))
  {
    var s := TextOfKey(key);
    forall k | 0 <= k < |s| ensures UpperChar(s[k]) == s[k] {
      if k % 2 == 0 {
        assert s[2 * (k / 2)] == HexChar(key[k / 2] / 16);
      } else {
        assert s[2 * (k / 2) + 1] == HexChar(key[k / 2] % 16);
      }
    }
    SameLicenseCharwise(typed, s);
  }

  /** RemoveLicense: nothing is sent unless the text matches the stored
      permanent license ignoring case; then the all-zero key is sent, and the
      "Invalid license." it provokes is the expected answer, not an error. */
  function RemoveLicenseOutcome(m: PropMap, devices: set<nat>, text: string, x: LicenseExchange): (r: Outcome<Error>)
    requires ID_LICENSE in m && ID_LICENSE_INFO in m
    ensures r != Fail(INVALID_LICENSE)
    ensures TextAt(m[ID_LICENSE], 0).Success? && !SameLicense(text, TextAt(m[ID_LICENSE], 0).value) ==> r == Pass
    ensures r.Fail? ==> TextAt(m[ID_LICENSE], 0) == Failure(r.error)
                        || SendLicenseOutcome(m, devices, false, x) == Failure(r.error)
  {
    match TextAt(m[ID_LICENSE], 0)
    case Failure(e) => Fail(e)
    case Success(current) =>
      if !SameLicense(text, current) then Pass
      else
        var sent := SendLicenseOutcome(m, devices, false, x);
        if sent.Failure? && sent.error != INVALID_LICENSE then Fail(sent.error) else Pass
  }

  /** Removing the stored license succeeds whenever the device takes the empty
      key and answers it readably, whether it reports the key invalid or not. */
  lemma RemoveMatchingLicense(m: PropMap, devices: set<nat>, text: string, x: LicenseExchange)
    requires ID_LICENSE in m && ID_LICENSE_INFO in m
    requires TextAt(m[ID_LICENSE], 0).Success? && SameLicense(text, TextAt(m[ID_LICENSE], 0).value)
    requires ReadBack(devices, false, x)
    requires |x.keyReply| > 0 && x.keyReply[0].TextV? && |x.infoReply| > 0 && x.infoReply[0].IntV?
    ensures RemoveLicenseOutcome(m, devices, text, x) == Pass
  {
    SendLicenseReadsBack(m, devices, false, x);
  }
}
