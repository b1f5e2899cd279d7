/** Request-level rules of the M16 sensor that do not depend on its
    properties: which reset a reset call asks for, and how often an answer is
    read again when writing a property (LdSensorM16::Reset, SetProperties). */
module M16Requests {
  import opened Wrappers
  import opened Exceptions

  /** eResetType, in declaration order. */
  datatype ResetType = SoftReset | HardReset | ConfigReset

  /** eResetOptions, in declaration order. */
  datatype ResetOption = NoOption | ToMain | ToFactory

  function ResetTypeNumber(t: ResetType): nat {
    match t
    case SoftReset => 0
    case HardReset => 1
    case ConfigReset => 2
  }

  function ResetOptionNumber(o: ResetOption): nat {
    match o
    case NoOption => 0
    case ToMain => 1
    case ToFactory => 2
  }

  /** The software types a soft reset restarts into (stand-in values; only their distinctness matters). */
  const SOFTWARE_TYPE_MAIN: nat := 1
  const SOFTWARE_TYPE_FACTORY: nat := 2
  const SOFTWARE_TYPE_FPGA: nat := 3

  /** The request a reset sends. */
  datatype ResetRequest = ConfigResetRequest | SoftResetRequest(softwareType: nat)

  function ResetRequestFor(t: ResetType, o: ResetOption): (r: Result<ResetRequest, Error>) {
    match t
    case ConfigReset => Success(ConfigResetRequest)
    case SoftReset =>
      if o == ToMain then Success(SoftResetRequest(SOFTWARE_TYPE_MAIN))
      else if o == ToFactory then Success(SoftResetRequest(SOFTWARE_TYPE_FACTORY))
      else Failure(ComError("Reset option not valid: " + Decimal(ResetOptionNumber(o)) + ".", false))
    case HardReset => Failure(ComError("Reset type: " + Decimal(ResetTypeNumber(t)) + " not implemented.", false))
  }

  /** A configuration reset always goes through; a soft reset only with a
      firmware option, restarting into that firmware; a hard reset never. */
  lemma ResetAccepted(t: ResetType, o: ResetOption)
    ensures ResetRequestFor(t, o).Success? <==> t == ConfigReset || (t == SoftReset && o != NoOption)
    ensures t == SoftReset && o == ToMain ==> ResetRequestFor(t, o) == Success(SoftResetRequest(SOFTWARE_TYPE_MAIN))
    ensures t == SoftReset && o == ToFactory ==> ResetRequestFor(t, o) == Success(SoftResetRequest(SOFTWARE_TYPE_FACTORY))
    ensures t == SoftReset && o == NoOption ==> ResetRequestFor(t, o) == Failure(ComError("Reset option not valid: 0.", false))
    ensures t == HardReset ==> ResetRequestFor(t, o) == Failure(ComError("Reset type: 1 not implemented.", false))
  {
    assert Decimal(0) == "0" && Decimal(1) == "1";
    assert "Reset option not valid: " + Decimal(0) + "." == "Reset option not valid: 0.";
    assert "Reset type: " + Decimal(1) + " not implemented." == "Reset type: 1 not implemented.";
  }

  /** The answer code of a request the device carried out (stand-in value). */
  const LT_COMM_ANSWER_OK: nat := 0

  /** The exception a request answered with another code raises. */
  function AnswerCodeError(code: nat): Error {
    ComError("Wrong answer code : " + Decimal(code), false)
  }

  /** What the k-th ReadAnswer after the request for the i-th device id gives. */
  type Answers = (nat, nat) -> Outcome<Error>

  /** A failure SetProperties reads the answer again for: a communication
      error that is not a disconnection. */
  predicate Retryable(o: Outcome<Error>) {
    o.Fail? && o.error.ComError? && !o.error.disconnect
  }

  /** The do-while around ReadAnswer, from attempt k with `left` retries left:
      how many attempts were made in all and the last one's outcome. */
  function ReadAnswerRetried(answers: Answers, i: nat, k: nat, left: nat): (r: (nat, Outcome<Error>))
    ensures k < r.0 <= k + left + 1
    ensures r.1 == answers(i, r.0 - 1)
    ensures forall j :: k <= j < r.0 - 1 ==> Retryable(answers(i, j))
    ensures r.0 < k + left + 1 ==> !Retryable(r.1)
    decreases left
  {
    var a := answers(i, k);
    if !Retryable(a) || left == 0 then (k + 1, a)
    else ReadAnswerRetried(answers, i, k + 1, left - 1)
  }

  /** At most `retries` + 1 attempts; a disconnection ends the attempts at once;
      the outcome passes only when one attempt passed after retryable failures. */
  lemma RetryBounds(answers: Answers, i: nat, retries: nat)
    ensures ReadAnswerRetried(answers, i, 0, retries).0 <= retries + 1
    ensures answers(i, 0).Fail? && answers(i, 0).error.ComError? && answers(i, 0).error.disconnect ==>
              ReadAnswerRetried(answers, i, 0, retries) == (1, answers(i, 0))
    ensures ReadAnswerRetried(answers, i, 0, retries).1.Pass? <==>
              exists a: nat :: a <= retries && answers(i, a).Pass? && forall j :: 0 <= j < a ==> Retryable(answers(i, j))
  {
    var r := ReadAnswerRetried(answers, i, 0, retries);
    if r.1.Pass? {
      var a: nat := r.0 - 1;
      assert a <= retries && answers(i, a).Pass?;
    }
  }

  /** SetProperties over the device ids from the i-th on: the ids a request
      was sent for and the outcome; ids without a property are skipped, and the
      first failed answer ends the call. */
  function PropertiesSent(devices: set<nat>, ids: seq<nat>, retries: nat, answers: Answers, i: nat): (r: (Outcome<Error>, seq<nat>))
    requires i <= |ids|
    ensures forall k :: 0 <= k < |r.1| ==> r.1[k] in devices
    decreases |ids| - i
  {
    if i == |ids| then (Pass, [])
    else if ids[i] !in devices then PropertiesSent(devices, ids, retries, answers, i + 1)
    else
      var o := ReadAnswerRetried(answers, i, 0, retries).1;
      if o.Fail? then (o, [ids[i]])
      else
        var rest := PropertiesSent(devices, ids, retries, answers, i + 1);
        (rest.0, [ids[i]] + rest.1)
  }

  /** The device ids among `ids` that have a property, in order. */
  function Known(devices: set<nat>, ids: seq<nat>): seq<nat> {
    if ids == [] then []
    else if ids[0] in devices then [ids[0]] + Known(devices, ids[1..])
    else Known(devices, ids[1..])
  }

  /** When every answer passes, a request went out for exactly the known ids, in order. */
  lemma {:induction false} AllSentWhenAnswered(devices: set<nat>, ids: seq<nat>, retries: nat, answers: Answers, i: nat)
    requires i <= |ids|
    requires PropertiesSent(devices, ids, retries, answers, i).0.Pass?
    ensures PropertiesSent(devices, ids, retries, answers, i).1 == Known(devices, ids[i..])
    decreases |ids| - i
  {
    if i < |ids| {
      assert ids[i..][1..] == ids[i + 1..];
      AllSentWhenAnswered(devices, ids, retries, answers, i + 1);
    }
  }
}
