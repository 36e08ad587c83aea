/** The job-status pollers of the client: `job_status` (machine-learning
    jobs, field `state`) and `vision_job_status` / `tape_status` (vision and
    tape jobs, field `status`).

    The server is a finite stream of replies: the i-th element is what the
    i-th request to the status URL returns. Only the first reply's status
    code is ever inspected; later fetches go straight to their JSON body.
    The sleep between fetches does not affect any outcome and is not part
    of the model. */
module Polling {
  import opened Values

  /** One reply of a status endpoint: its HTTP status code and its parsed body. */
  datatype Reply = Reply(code: int, body: Json)

  /** The exceptions a poller raises. */
  datatype PollError =
    | BadStatus(code: int)        // the first reply was not 200
    | JobFailed(message: string)  // the job reached the 'FAIL' state
    | KeyError(field: string)     // `response[field]` on a dict without that key
    | TypeError(typeName: string) // `response[field]` on a body that is not a dict

  /** How a poller ends: it returns a payload, it raises, or the finite
      stream ran out while it still had to fetch (the program itself would
      go on polling). */
  datatype Outcome = Returned(payload: Json) | Raised(error: PollError) | Exhausted

  const RUN: Json := JStr("RUN")
  const FINISH: Json := JStr("FINISH")
  const FAIL: Json := JStr("FAIL")

  /** Field and failure message of `job_status`. */
  const JOB_STATE := "state"
  const JOB_FAILED := "Prediction job failed!"

  /** Field and failure message of `vision_job_status` and `tape_status`. */
  const SERVICE_STATE := "status"
  const SERVICE_JOB_FAILED := "job failed!"

  const STATUS_ERROR_PREFIX := "Error while checking the status. Got "

  /** The bodies of the replies, in order. */
  function ReplyBodies(replies: seq<Reply>): seq<Json>
  {
    seq(|replies|, i requires 0 <= i < |replies| => replies[i].body)
  }

  /** `body[field]` exists and is one of `states`. */
  predicate InState(body: Json, field: string, states: set<Json>)
  {
    Get(body, field).Some? && Get(body, field).value in states
  }

  /** The index at which `while response[field] in polling: response = fetch()`
      stops, when `bodies[0]` is the response in hand and `bodies[i]` is the
      body of the i-th re-fetch; `|bodies|` when every body keeps it polling. */
  function FirstOutside(bodies: seq<Json>, field: string, polling: set<Json>): (k: nat)
    ensures k <= |bodies|
    ensures forall i :: 0 <= i < k ==> InState(bodies[i], field, polling)
    ensures k < |bodies| ==> !InState(bodies[k], field, polling)
    decreases |bodies|
  {
    if bodies == [] || !InState(bodies[0], field, polling) then 0
    else 1 + FirstOutside(bodies[1..], field, polling)
  }

  /** The stopping index is the only one with the properties above. */
  lemma FirstOutsideUnique(bodies: seq<Json>, field: string, polling: set<Json>, k: nat)
    requires k <= |bodies|
    requires forall i :: 0 <= i < k ==> InState(bodies[i], field, polling)
    requires k < |bodies| ==> !InState(bodies[k], field, polling)
    ensures k == FirstOutside(bodies, field, polling)
  {
  }

  /** Once the loop stops inside `bodies`, later bodies do not matter. */
  lemma {:induction false} FirstOutsideExtend(bodies: seq<Json>, more: seq<Json>, field: string, polling: set<Json>)
    requires FirstOutside(bodies, field, polling) < |bodies|
    ensures FirstOutside(bodies + more, field, polling) == FirstOutside(bodies, field, polling)
    decreases |bodies|
  {
    if InState(bodies[0], field, polling) {
      assert (bodies + more)[1..] == bodies[1..] + more;
      FirstOutsideExtend(bodies[1..], more, field, polling);
    }
  }

  /** The polling loop itself: re-fetch while the field of the response in
      hand is one of `polling`. Returns the index of the response in hand
      when the loop exits (equal to the number of re-fetches made). */
  method PollWhile(bodies: seq<Json>, field: string, polling: set<Json>) returns (k: nat)
    ensures k <= |bodies|
    ensures forall i :: 0 <= i < k ==> InState(bodies[i], field, polling)
    ensures k < |bodies| ==> !InState(bodies[k], field, polling)
    ensures k == FirstOutside(bodies, field, polling)
  {
    k := 0;
    while k < |bodies| && InState(bodies[k], field, polling)
      invariant k <= |bodies|
      invariant forall i :: 0 <= i < k ==> InState(bodies[i], field, polling)
    {
      k := k + 1;
    }
    FirstOutsideUnique(bodies, field, polling, k);
  }

  /** Python's name for the type of a parsed body. */
  function PyTypeName(j: Json): string
  {
    match j
    case JNull => "NoneType"
    case JBool(_) => "bool"
    case JInt(_) => "int"
    case JReal(_) => "float"
    case JStr(_) => "str"
    case JList(_) => "list"
    case JObject(_) => "dict"
  }

  /** The exception `body[field]` raises when it yields no value: KeyError
      for a dict without the key, TypeError for any other body. */
  function LookupError(body: Json, field: string): (e: PollError)
    requires Get(body, field).None?
    ensures e == KeyError(field) <==> body.JObject?
    ensures e.TypeError? <==> !body.JObject?
    ensures e.TypeError? ==> e.typeName != "dict"
  {
    if body.JObject? then KeyError(field) else TypeError(PyTypeName(body))
  }

  /** What a poller does with the response it stopped on:
      `if response[field] == 'FAIL': raise Exception(failMessage)`, else return it. */
  function Verdict(body: Json, field: string, failMessage: string): (r: Outcome)
    ensures r == Raised(KeyError(field)) <==> body.JObject? && field !in body.fields
    ensures (r.Raised? && r.error.TypeError?) <==> !body.JObject?
    ensures r == Raised(JobFailed(failMessage)) <==> Get(body, field) == Some(FAIL)
    ensures r.Returned? <==> Get(body, field).Some? && Get(body, field).value != FAIL
    ensures r.Returned? ==> r.payload == body
    ensures !r.Exhausted? && !(r.Raised? && r.error.BadStatus?)
  {
    match Get(body, field)
    case None => Raised(LookupError(body, field))
    case Some(s) => if s == FAIL then Raised(JobFailed(failMessage)) else Returned(body)
  }

  // ---------------------------------------------------------------------
  // Polling while the job runs (job_status)
  // ---------------------------------------------------------------------

  /** The outcome of a poller that checks the first reply's status code and
      then re-fetches while `response[field] == 'RUN'`. */
  function PollUntilSettledOf(replies: seq<Reply>, field: string, failMessage: string): Outcome
  {
    if replies == [] then Exhausted
    else if replies[0].code != 200 then Raised(BadStatus(replies[0].code))
    else
      var k := FirstOutside(ReplyBodies(replies), field, {RUN});
      if k == |replies| then Exhausted else Verdict(replies[k].body, field, failMessage)
  }

  /** The number of requests that poller makes. */
  function PollUntilSettledFetches(replies: seq<Reply>, field: string): nat
  {
    if replies == [] then 0
    else if replies[0].code != 200 then 1
    else
      var k := FirstOutside(ReplyBodies(replies), field, {RUN});
      if k == |replies| then k else k + 1
  }

  /** The poller: one request, a status-code check, then the loop. */
  method PollUntilSettled(replies: seq<Reply>, field: string, failMessage: string)
    returns (r: Outcome, fetches: nat)
    ensures fetches <= |replies|
    ensures replies != [] && replies[0].code != 200 ==> r == Raised(BadStatus(replies[0].code)) && fetches == 1
    ensures r == PollUntilSettledOf(replies, field, failMessage)
    ensures fetches == PollUntilSettledFetches(replies, field)
  {
    if replies == [] {
      return Exhausted, 0;
    }
    if replies[0].code != 200 {
      return Raised(BadStatus(replies[0].code)), 1;
    }
    var bodies := ReplyBodies(replies);
    var k := PollWhile(bodies, field, {RUN});
    if k == |bodies| {
      return Exhausted, k;
    }
    r, fetches := Verdict(bodies[k], field, failMessage), k + 1;
  }

  function JobStatusOf(replies: seq<Reply>): Outcome
  {
    PollUntilSettledOf(replies, JOB_STATE, JOB_FAILED)
  }

  /** `job_status`: poll the machine-learning job until `state` leaves 'RUN'. */
  method JobStatus(replies: seq<Reply>) returns (r: Outcome, fetches: nat)
    ensures fetches <= |replies|
    ensures replies != [] && replies[0].code != 200 ==> r == Raised(BadStatus(replies[0].code)) && fetches == 1
    ensures r == JobStatusOf(replies)
    ensures fetches == PollUntilSettledFetches(replies, JOB_STATE)
  {
    r, fetches := PollUntilSettled(replies, JOB_STATE, JOB_FAILED);
  }

  /** Every reply before index `k` reports `field == 'RUN'`. */
  ghost predicate RunningBefore(replies: seq<Reply>, field: string, k: nat)
    requires k <= |replies|
  {
    forall i :: 0 <= i < k ==> Get(replies[i].body, field) == Some(RUN)
  }

  /** `RunningBefore` read on the bodies the loop sees. */
  lemma RunningBeforeBodies(replies: seq<Reply>, field: string, k: nat)
    requires k <= |replies|
    ensures RunningBefore(replies, field, k) <==>
      forall i :: 0 <= i < k ==> InState(ReplyBodies(replies)[i], field, {RUN})
  {
    var bodies := ReplyBodies(replies);
    if RunningBefore(replies, field, k) {
      forall i | 0 <= i < k ensures InState(bodies[i], field, {RUN}) {
        assert Get(replies[i].body, field) == Some(RUN);
      }
    }
    if forall i :: 0 <= i < k ==> InState(bodies[i], field, {RUN}) {
      forall i | 0 <= i < k ensures Get(replies[i].body, field) == Some(RUN) {
        assert InState(bodies[i], field, {RUN});
      }
    }
  }

  /** The poller returns exactly the first body whose field is not 'RUN',
      provided that field exists and is not 'FAIL'; every earlier reply was 'RUN'. */
  lemma SettledReturns(replies: seq<Reply>, field: string, failMessage: string, p: Json)
    ensures PollUntilSettledOf(replies, field, failMessage) == Returned(p) <==>
      (replies != [] && replies[0].code == 200 &&
       exists k :: 0 <= k < |replies| && RunningBefore(replies, field, k) && p == replies[k].body &&
         Get(p, field).Some? && Get(p, field).value != RUN && Get(p, field).value != FAIL)
  {
    if replies != [] && replies[0].code == 200 {
      var bodies := ReplyBodies(replies);
      var f := FirstOutside(bodies, field, {RUN});
      RunningBeforeBodies(replies, field, f);
      forall k | 0 <= k < |replies| && RunningBefore(replies, field, k) &&
        Get(replies[k].body, field).Some? && Get(replies[k].body, field).value != RUN
        ensures k == f
      {
        RunningBeforeBodies(replies, field, k);
        FirstOutsideUnique(bodies, field, {RUN}, k);
      }
    }
  }

  /** The poller raises the job-failure error, and returns nothing, exactly
      when the first non-'RUN' state is 'FAIL'. */
  lemma SettledFails(replies: seq<Reply>, field: string, failMessage: string)
    ensures PollUntilSettledOf(replies, field, failMessage) == Raised(JobFailed(failMessage)) <==>
      (replies != [] && replies[0].code == 200 &&
       exists k :: 0 <= k < |replies| && RunningBefore(replies, field, k) &&
         Get(replies[k].body, field) == Some(FAIL))
  {
    if replies != [] && replies[0].code == 200 {
      var bodies := ReplyBodies(replies);
      var f := FirstOutside(bodies, field, {RUN});
      RunningBeforeBodies(replies, field, f);
      forall k | 0 <= k < |replies| && RunningBefore(replies, field, k) && Get(replies[k].body, field) == Some(FAIL)
        ensures k == f
      {
        RunningBeforeBodies(replies, field, k);
        FirstOutsideUnique(bodies, field, {RUN}, k);
      }
    }
  }

  /** The status-code error is raised exactly when the first reply is not
      200, it carries that reply's code, and nothing else is fetched. */
  lemma SettledBadStatus(replies: seq<Reply>, field: string, failMessage: string, code: int)
    ensures PollUntilSettledOf(replies, field, failMessage) == Raised(BadStatus(code)) <==>
      (replies != [] && replies[0].code != 200 && code == replies[0].code)
    ensures replies != [] && replies[0].code != 200 ==> PollUntilSettledFetches(replies, field) == 1
  {
  }

  /** The stream runs out only when no reply at all was received, or every
      reply was 200-then-'RUN': the poller never gives up on its own. */
  lemma SettledExhausted(replies: seq<Reply>, field: string, failMessage: string)
    ensures PollUntilSettledOf(replies, field, failMessage) == Exhausted <==>
      (replies == [] || (replies[0].code == 200 && RunningBefore(replies, field, |replies|)))
  {
    if replies != [] && replies[0].code == 200 {
      var f := FirstOutside(ReplyBodies(replies), field, {RUN});
      RunningBeforeBodies(replies, field, f);
      RunningBeforeBodies(replies, field, |replies|);
    }
  }

  /** Only the first reply's status code matters; later replies are read
      for their body alone. */
  lemma SettledIgnoresLaterCodes(a: seq<Reply>, b: seq<Reply>, field: string, failMessage: string)
    requires |a| == |b| && a != [] && a[0] == b[0]
    requires forall i :: 0 < i < |a| ==> a[i].body == b[i].body
    ensures PollUntilSettledOf(a, field, failMessage) == PollUntilSettledOf(b, field, failMessage)
    ensures PollUntilSettledFetches(a, field) == PollUntilSettledFetches(b, field)
  {
    assert ReplyBodies(a) == ReplyBodies(b);
  }

  /** Once the poller has stopped, replies beyond the ones it consumed
      change nothing: a finite stream decides every outcome but `Exhausted`. */
  lemma SettledPrefixDecides(replies: seq<Reply>, more: seq<Reply>, field: string, failMessage: string)
    requires PollUntilSettledOf(replies, field, failMessage) != Exhausted
    ensures PollUntilSettledOf(replies + more, field, failMessage) == PollUntilSettledOf(replies, field, failMessage)
    ensures PollUntilSettledFetches(replies + more, field) == PollUntilSettledFetches(replies, field)
  {
    var all := replies + more;
    assert all[0] == replies[0];
    if replies[0].code == 200 {
      assert ReplyBodies(all) == ReplyBodies(replies) + ReplyBodies(more);
      FirstOutsideExtend(ReplyBodies(replies), ReplyBodies(more), field, {RUN});
      var k := FirstOutside(ReplyBodies(replies), field, {RUN});
      assert all[k] == replies[k];
    }
  }

  /** The stream RUN, RUN, FINISH: three requests, the third body returned. */
  lemma JobStatusThreeChecks()
    ensures var run := Reply(200, JObject(map[JOB_STATE := RUN]));
            var done := Reply(200, JObject(map[JOB_STATE := FINISH]));
            JobStatusOf([run, run, done]) == Returned(done.body) &&
            PollUntilSettledFetches([run, run, done], JOB_STATE) == 3
  {
    var run := Reply(200, JObject(map[JOB_STATE := RUN]));
    var done := Reply(200, JObject(map[JOB_STATE := FINISH]));
    var bodies := ReplyBodies([run, run, done]);
    assert bodies == [run.body, run.body, done.body];
    assert bodies[2..] == [done.body];
    assert FirstOutside(bodies[2..], JOB_STATE, {RUN}) == 0;
    assert bodies[1..][1..] == bodies[2..];
  }

  /** The stream FAIL: one request, the failure raised. */
  lemma JobStatusImmediateFailure()
    ensures var failed := Reply(200, JObject(map[JOB_STATE := FAIL]));
            JobStatusOf([failed]) == Raised(JobFailed(JOB_FAILED)) &&
            PollUntilSettledFetches([failed], JOB_STATE) == 1
  {
  }

  // ---------------------------------------------------------------------
  // vision_job_status and tape_status, as written
  // ---------------------------------------------------------------------

  /** What `vision_job_status` and `tape_status` end with: the verdict on the
      first reply alone. */
  function ServiceJobStatusOf(replies: seq<Reply>): Outcome
  {
    if replies == [] then Exhausted
    else if replies[0].code != 200 then Raised(BadStatus(replies[0].code))
    else Verdict(replies[0].body, SERVICE_STATE, SERVICE_JOB_FAILED)
  }

  /** The shared body of `vision_job_status` and `tape_status`: on 'RUN' it
      enters a loop that re-fetches while the status is 'FINISH' or 'FAIL',
      a condition a 'RUN' response never meets, so exactly one request is
      ever made. */
  method ServiceJobStatus(replies: seq<Reply>) returns (r: Outcome, fetches: nat)
    ensures fetches == if replies == [] then 0 else 1
    ensures r == ServiceJobStatusOf(replies)
  {
    if replies == [] {
      return Exhausted, 0;
    }
    if replies[0].code != 200 {
      return Raised(BadStatus(replies[0].code)), 1;
    }
    var bodies := ReplyBodies(replies);
    var response := bodies[0];
    fetches := 1;
    if Get(response, SERVICE_STATE).None? {
      return Raised(LookupError(response, SERVICE_STATE)), 1;
    }
    if Get(response, SERVICE_STATE).value == RUN {
      var k := PollWhile(bodies, SERVICE_STATE, {FINISH, FAIL});
      if k == |bodies| {
        return Exhausted, k;
      }
      response, fetches := bodies[k], k + 1;
    }
    r := Verdict(response, SERVICE_STATE, SERVICE_JOB_FAILED);
  }

  /** `vision_job_status`. */
  method VisionJobStatus(replies: seq<Reply>) returns (r: Outcome, fetches: nat)
    ensures fetches == if replies == [] then 0 else 1
    ensures r == ServiceJobStatusOf(replies)
  {
    r, fetches := ServiceJobStatus(replies);
  }

  /** `tape_status`. */
  method TapeStatus(replies: seq<Reply>) returns (r: Outcome, fetches: nat)
    ensures fetches == if replies == [] then 0 else 1
    ensures r == ServiceJobStatusOf(replies)
  {
    r, fetches := ServiceJobStatus(replies);
  }

  /** After a 200 reply, the job-failure error is raised exactly when the
      status is 'FAIL'; any other status, 'RUN' included, is returned as is. */
  lemma ServiceJobOutcomes(replies: seq<Reply>)
    requires replies != [] && replies[0].code == 200
    ensures ServiceJobStatusOf(replies) == Raised(JobFailed(SERVICE_JOB_FAILED)) <==>
      Get(replies[0].body, SERVICE_STATE) == Some(FAIL)
    ensures Get(replies[0].body, SERVICE_STATE).Some? && Get(replies[0].body, SERVICE_STATE).value != FAIL ==>
      ServiceJobStatusOf(replies) == Returned(replies[0].body)
    ensures replies[0].body.JObject? && SERVICE_STATE !in replies[0].body.fields ==>
      ServiceJobStatusOf(replies) == Raised(KeyError(SERVICE_STATE))
    ensures !replies[0].body.JObject? ==>
      ServiceJobStatusOf(replies) == Raised(TypeError(PyTypeName(replies[0].body)))
  {
  }

  /** A non-200 first reply raises the status-code error carrying that code. */
  lemma ServiceJobBadStatus(replies: seq<Reply>, code: int)
    ensures ServiceJobStatusOf(replies) == Raised(BadStatus(code)) <==>
      (replies != [] && replies[0].code != 200 && code == replies[0].code)
  {
  }

  // ---------------------------------------------------------------------
  // vision_job_status and tape_status, as evidently intended
  // ---------------------------------------------------------------------

  /** Poll on the `status` field until it leaves 'RUN', as `job_status`
      does on `state`. */
  method IntendedServiceJobStatus(replies: seq<Reply>) returns (r: Outcome, fetches: nat)
    ensures r == PollUntilSettledOf(replies, SERVICE_STATE, SERVICE_JOB_FAILED)
    ensures fetches == PollUntilSettledFetches(replies, SERVICE_STATE)
  {
    r, fetches := PollUntilSettled(replies, SERVICE_STATE, SERVICE_JOB_FAILED);
  }

  /** The intended poller never hands back a job that is still running. */
  lemma IntendedNeverReturnsRunning(replies: seq<Reply>, p: Json)
    requires PollUntilSettledOf(replies, SERVICE_STATE, SERVICE_JOB_FAILED) == Returned(p)
    ensures Get(p, SERVICE_STATE).Some?
    ensures Get(p, SERVICE_STATE).value != RUN && Get(p, SERVICE_STATE).value != FAIL
  {
  }

  /** The stream RUN, FINISH: as written, the running job's body comes back
      after one request; as intended, the finished body after two. */
  lemma InvertedLoopReturnsRunningJob()
    ensures var running := Reply(200, JObject(map[SERVICE_STATE := RUN]));
            var finished := Reply(200, JObject(map[SERVICE_STATE := FINISH]));
            ServiceJobStatusOf([running, finished]) == Returned(running.body) &&
            Get(running.body, SERVICE_STATE) == Some(RUN) &&
            PollUntilSettledOf([running, finished], SERVICE_STATE, SERVICE_JOB_FAILED) == Returned(finished.body) &&
            PollUntilSettledFetches([running, finished], SERVICE_STATE) == 2
  {
    var running := Reply(200, JObject(map[SERVICE_STATE := RUN]));
    var finished := Reply(200, JObject(map[SERVICE_STATE := FINISH]));
    var bodies := ReplyBodies([running, finished]);
    assert bodies == [running.body, finished.body];
    assert Get(running.body, SERVICE_STATE) == Some(RUN);
    assert Get(finished.body, SERVICE_STATE) == Some(FINISH);
    assert InState(bodies[0], SERVICE_STATE, {RUN});
    assert bodies[1..] == [finished.body];
    assert FirstOutside(bodies[1..], SERVICE_STATE, {RUN}) == 0;
  }

  // ---------------------------------------------------------------------
  // Error messages
  // ---------------------------------------------------------------------

  /** Python's `str(n)` for a natural number. */
  function NatToString(n: nat): (s: string)
    ensures s != [] && forall i :: 0 <= i < |s| ==> '0' <= s[i] <= '9'
    decreases n
  {
    if n < 10 then [(n + '0' as int) as char]
    else NatToString(n / 10) + [((n % 10) + '0' as int) as char]
  }

  /** The value of a string of decimal digits. */
  function DigitsValue(s: string): nat
    requires forall i :: 0 <= i < |s| ==> '0' <= s[i] <= '9'
    decreases |s|
  {
    if s == [] then 0
    else 10 * DigitsValue(s[..|s| - 1]) + (s[|s| - 1] as int - '0' as int)
  }

  lemma {:induction false} NatToStringRoundTrip(n: nat)
    ensures DigitsValue(NatToString(n)) == n
    decreases n
  {
    if n >= 10 {
      var s := NatToString(n);
      assert s[..|s| - 1] == NatToString(n / 10);
      NatToStringRoundTrip(n / 10);
    }
  }

  /** Python's `str(i)` for an integer. */
  function IntToString(i: int): string
  {
    if i < 0 then "-" + NatToString(-i) else NatToString(i)
  }

  /** The text the exception carries (`str(e)`). A KeyError quotes the key;
      a TypeError words its text after the body's type, as Python 3.11 and
      later do. */
  function Message(e: PollError): (m: string)
    ensures e.BadStatus? ==> |m| > |STATUS_ERROR_PREFIX| && m[..|STATUS_ERROR_PREFIX|] == STATUS_ERROR_PREFIX
    ensures e.JobFailed? ==> m == e.message
    ensures e.KeyError? ==> m == "'" + e.field + "'"
    ensures e.TypeError? && e.typeName == "list" ==> m == "list indices must be integers or slices, not str"
    ensures e.TypeError? && e.typeName == "str" ==> m == "string indices must be integers, not 'str'"
    ensures e.TypeError? && e.typeName != "list" && e.typeName != "str" ==>
      m == "'" + e.typeName + "' object is not subscriptable"
  {
    match e
    case BadStatus(code) => STATUS_ERROR_PREFIX + IntToString(code)
    case JobFailed(m) => m
    case KeyError(f) => "'" + f + "'"
    case TypeError(t) =>
      if t == "list" then "list indices must be integers or slices, not str"
      else if t == "str" then "string indices must be integers, not 'str'"
      else "'" + t + "' object is not subscriptable"
  }

  /** A 200 reply whose body is a list, not a dict: `job_status` raises a
      TypeError (not a KeyError) on its first `response['state']`. */
  lemma NonObjectBodyRaisesTypeError()
    ensures JobStatusOf([Reply(200, JList([]))]) == Raised(TypeError("list"))
    ensures Message(TypeError("list")) == "list indices must be integers or slices, not str"
    ensures JobStatusOf([Reply(200, JObject(map[]))]) == Raised(KeyError(JOB_STATE))
    ensures Message(KeyError(JOB_STATE)) == "'state'"
  {
  }

  /** The status-code message is the fixed prefix followed by the code,
      which can be read back from it. */
  lemma StatusMessageCarriesCode(code: int)
    ensures var m := Message(BadStatus(code));
            var n := |STATUS_ERROR_PREFIX|;
            |m| > n && m[..n] == STATUS_ERROR_PREFIX &&
            (code >= 0 ==> m[n..] == NatToString(code) && DigitsValue(m[n..]) == code) &&
            (code < 0 ==> m[n] == '-' && m[n + 1..] == NatToString(-code) && DigitsValue(m[n + 1..]) == -code)
  {
    var m := Message(BadStatus(code));
    var n := |STATUS_ERROR_PREFIX|;
    if code >= 0 {
      assert m[n..] == NatToString(code);
      NatToStringRoundTrip(code);
    } else {
      assert m[n + 1..] == NatToString(-code);
      NatToStringRoundTrip(-code);
    }
  }
}
