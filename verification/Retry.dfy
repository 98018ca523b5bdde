/** What the two http clients share: how long they wait after a 429 and which effects one
    request has, level by level. */
module RetryPolicy {
  import opened Basics

  const MAX_RETRIES: nat := 5
  const MIN_SECONDS_TO_WAIT_THRESHOLD := 10.0
  const DEFAULT_SECONDS_TO_RETRY_AFTER := 60.0

  /** Node's `setTimeout` replaces a delay outside 1..TIMEOUT_MAX milliseconds by 1. */
  const TIMEOUT_MAX := 2147483647.0

  datatype JsNumber = NaN | Infinite(negative: bool) | Finite(v: real)

  /** A JavaScript value, as far as truthiness can tell. */
  datatype JsValue = Undefined | Null | OtherFalsy(id: int) | Truthy(id: int)

  datatype Effect = Acquire | Call | Sleep(milliseconds: real) | Release

  function Times(x: JsNumber, factor: real): JsNumber
    requires factor > 0.0
  {
    if x.Finite? then Finite(x.v * factor) else x
  }

  function TimerDelay(milliseconds: JsNumber): real {
    if milliseconds.Finite? && 1.0 <= milliseconds.v <= TIMEOUT_MAX then milliseconds.v else 1.0
  }

  /** The wait asked for: the header's own value once it is a number of at least ten seconds,
      a minute otherwise; `extra` seconds more. */
  function SecondsToWait(header: JsNumber, extra: real): JsNumber {
    match header
    case Finite(v) => Finite((if v >= MIN_SECONDS_TO_WAIT_THRESHOLD then v else DEFAULT_SECONDS_TO_RETRY_AFTER) + extra)
    case Infinite(false) => header
    case _ => Finite(DEFAULT_SECONDS_TO_RETRY_AFTER + extra)
  }

  /** The header is adjusted step by step; the check for a wait that is not positive,
      which follows in both clients, can never succeed. */
  method ComputeSecondsToWait(header: JsNumber, extra: real) returns (seconds: JsNumber)
    requires extra >= 0.0
    ensures seconds == SecondsToWait(header, extra)
    ensures seconds == Infinite(false) || (seconds.Finite? && seconds.v >= MIN_SECONDS_TO_WAIT_THRESHOLD + extra)
    ensures TimerDelay(Times(seconds, 1000.0)) == SleepFor(header, extra)
  {
    seconds := header;
    if seconds == NaN || seconds == Finite(0.0) {
      seconds := Finite(DEFAULT_SECONDS_TO_RETRY_AFTER);
    }
    if seconds == Infinite(true) || (seconds.Finite? && seconds.v < MIN_SECONDS_TO_WAIT_THRESHOLD) {
      seconds := Finite(DEFAULT_SECONDS_TO_RETRY_AFTER);
    }
    if seconds.Finite? {
      seconds := Finite(seconds.v + extra);
    }
  }

  function SleepFor(header: JsNumber, extra: real): real {
    TimerDelay(Times(SecondsToWait(header, extra), 1000.0))
  }

  /** A wait longer than a timer can hold. */
  predicate TooLongForTimer(header: JsNumber, extra: real) {
    header == Infinite(false) || (header.Finite? && (header.v + extra) * 1000.0 > TIMEOUT_MAX)
  }

  /** The client sleeps for its minimum exactly when the header is not too long for a timer;
      beyond that it retries after a millisecond. */
  lemma {:induction false} WaitsLongEnough(header: JsNumber, extra: real)
    requires 0.0 <= extra <= 1000.0
    ensures SleepFor(header, extra) >= (MIN_SECONDS_TO_WAIT_THRESHOLD + extra) * 1000.0 <==> !TooLongForTimer(header, extra)
    ensures TooLongForTimer(header, extra) ==> SleepFor(header, extra) == 1.0
  {
  }

  /** What the wait is, in milliseconds: the header's own number of seconds from ten on, a minute for
      anything else, `extra` seconds more. */
  lemma SleepMeaning(header: JsNumber, extra: real)
    requires 0.0 <= extra <= 1000.0
    ensures header.Finite? && header.v >= 10.0 && !TooLongForTimer(header, extra) ==> SleepFor(header, extra) == (header.v + extra) * 1000.0
    ensures (header.Finite? && header.v < 10.0) || header == NaN || header == Infinite(true) ==>
              SleepFor(header, extra) == (60.0 + extra) * 1000.0
  {
  }

  /** For each level from some level on: the Retry-After value of the reply to its call, if
      that reply is a 429. There are MAX_RETRIES levels in all. */
  type Limits = seq<Option<JsNumber>>

  /** How many replies from the first on are 429s. */
  function Retries(limits: Limits): (n: nat)
    ensures n <= |limits|
  {
    if limits != [] && limits[0].Some? then 1 + Retries(limits[1..]) else 0
  }

  lemma {:induction false} RetriesMeaning(limits: Limits)
    ensures forall i :: 0 <= i < Retries(limits) ==> limits[i].Some?
    ensures Retries(limits) < |limits| ==> limits[Retries(limits)].None?
  {
    if limits == [] || limits[0].None? {
    } else {
      RetriesMeaning(limits[1..]);
      forall i | 0 <= i < Retries(limits)
        ensures limits[i].Some?
      {
        if i > 0 { assert limits[i] == limits[1..][i - 1]; }
      }
    }
  }

  /** The effects of the first of these levels and of the levels nested in it. */
  function LevelEffects(limits: Limits, extra: real): seq<Effect>
    decreases |limits|, 0
  {
    if limits == [] then [] else [Call] + HandlingEffects(limits, extra) + [Release]
  }

  /** What handling the first of these replies adds: a 429 is slept off and then retried. */
  function HandlingEffects(limits: Limits, extra: real): seq<Effect>
    requires limits != []
    decreases |limits| - 1, 1
  {
    if limits[0].Some? then [Sleep(SleepFor(limits[0].value, extra))] + LevelEffects(limits[1..], extra) else []
  }

  lemma {:induction false} LevelLog(log: seq<Effect>, limits: Limits, extra: real)
    requires limits != []
    ensures log + [Call] + HandlingEffects(limits, extra) + [Release] == log + LevelEffects(limits, extra)
  {
    Associates(log, HandlingEffects(limits, extra));
  }

  lemma {:induction false} Associates(log: seq<Effect>, inner: seq<Effect>)
    ensures log + [Call] + inner + [Release] == log + ([Call] + inner + [Release])
  {
  }

  function RequestEffects(limits: Limits, extra: real): seq<Effect> {
    [Acquire] + LevelEffects(limits, extra)
  }

  /** How many levels call their action: one more than the retries, unless every reply is a 429. */
  function LevelsEntered(limits: Limits): nat {
    if Retries(limits) == |limits| then |limits| else Retries(limits) + 1
  }

  lemma {:induction false} LevelAccounting(limits: Limits, extra: real)
    ensures multiset(LevelEffects(limits, extra))[Acquire] == 0
    ensures multiset(LevelEffects(limits, extra))[Call] == LevelsEntered(limits)
    ensures multiset(LevelEffects(limits, extra))[Release] == LevelsEntered(limits)
  {
    if limits == [] {
    } else {
      CountLevel(HandlingEffects(limits, extra));
      if limits[0].Some? {
        LevelAccounting(limits[1..], extra);
        CountSleep(SleepFor(limits[0].value, extra), LevelEffects(limits[1..], extra));
        NestedLevels(limits);
      }
    }
  }

  lemma {:induction false} NestedLevels(limits: Limits)
    requires limits != [] && limits[0].Some?
    ensures LevelsEntered(limits) == 1 + LevelsEntered(limits[1..])
  {
  }

  lemma {:induction false} CountLevel(inner: seq<Effect>)
    ensures var all := multiset([Call] + inner + [Release]);
            && all[Acquire] == multiset(inner)[Acquire]
            && all[Call] == 1 + multiset(inner)[Call]
            && all[Release] == 1 + multiset(inner)[Release]
  {
    assert multiset([Call] + inner) == multiset([Call]) + multiset(inner);
  }

  lemma {:induction false} CountSleep(sleep: real, inner: seq<Effect>)
    ensures var all := multiset([Sleep(sleep)] + inner);
            && all[Acquire] == multiset(inner)[Acquire]
            && all[Call] == multiset(inner)[Call]
            && all[Release] == multiset(inner)[Release]
  {
    assert multiset([Sleep(sleep)] + inner) == multiset([Sleep(sleep)]) + multiset(inner);
  }

  /** One acquire, at most five calls, and as many releases as calls. */
  lemma {:induction false} RequestAccounting(limits: Limits, extra: real)
    requires |limits| == MAX_RETRIES
    ensures multiset(RequestEffects(limits, extra))[Acquire] == 1
    ensures multiset(RequestEffects(limits, extra))[Call] == LevelsEntered(limits) <= 5
    ensures multiset(RequestEffects(limits, extra))[Release] == LevelsEntered(limits)
  {
    LevelAccounting(limits, extra);
  }

  /** The lock is acquired first, and every release comes after the last call. */
  lemma {:induction false} ReleasesComeLast(limits: Limits, extra: real, i: nat, j: nat)
    requires i < j < |LevelEffects(limits, extra)| && LevelEffects(limits, extra)[i] == Release
    ensures LevelEffects(limits, extra)[j] == Release
  {
    if limits[0].None? {
    } else {
      var inner := LevelEffects(limits[1..], extra);
      if j < 2 + |inner| {
        assert LevelEffects(limits, extra)[i] == inner[i - 2] && LevelEffects(limits, extra)[j] == inner[j - 2];
        ReleasesComeLast(limits[1..], extra, i - 2, j - 2);
      }
    }
  }

  ghost predicate NoEarlyRetry(log: seq<Effect>, extra: real) {
    forall e <- log :: e.Sleep? ==> e.milliseconds >= (MIN_SECONDS_TO_WAIT_THRESHOLD + extra) * 1000.0
  }

  /** No retry is made early if and only if no header that a retry goes by is too long for a timer. */
  lemma {:induction false} EveryRetryWaitsIff(limits: Limits, extra: real)
    requires 0.0 <= extra <= 1000.0
    ensures NoEarlyRetry(LevelEffects(limits, extra), extra)
       <==> forall i :: 0 <= i < Retries(limits) ==> limits[i].Some? && !TooLongForTimer(limits[i].value, extra)
  {
    if limits == [] || limits[0].None? {
    } else {
      var sleep, inner := Sleep(SleepFor(limits[0].value, extra)), LevelEffects(limits[1..], extra);
      WaitsLongEnough(limits[0].value, extra);
      EveryRetryWaitsIff(limits[1..], extra);
      NoEarlyRetrySplits(sleep, inner, extra);
      assert forall i :: 1 <= i < Retries(limits) ==> limits[i] == limits[1..][i - 1];
      assert forall i :: 0 <= i < |limits| - 1 ==> limits[1..][i] == limits[i + 1];
    }
  }

  lemma {:induction false} NoEarlyRetrySplits(sleep: Effect, inner: seq<Effect>, extra: real)
    ensures NoEarlyRetry([Call] + ([sleep] + inner) + [Release], extra) <==> NoEarlyRetry([sleep], extra) && NoEarlyRetry(inner, extra)
  {
    var all := [Call] + ([sleep] + inner) + [Release];
    assert forall e <- inner :: e in all;
    assert sleep in all;
  }
}

/** src/services/xero/http/HttpClient.ts */
module HttpClients {
  import opened Basics
  import opened RetryPolicy

  const ADDITIONAL_SECONDS_TO_RETRY_AFTER := 5.0

  /** How one call of the action ends. `ThrewOther` is anything Axios did not throw. */
  datatype Reply =
    | Returned(value: JsValue)
    | ThrewOther(error: int)
    | NoResponse
    | Status(code: int, retryAfter: JsNumber)

  datatype Failure =
    | Rethrown(error: int)
    | HttpError(code: int)
    | UnauthorizedError
    | ForbiddenError
    | ResourceNotFoundError
    | RetryLimit

  predicate IsLimited(reply: Reply) {
    reply.Status? && reply.code == 429
  }

  /** The server's answers to the calls made from some level on. */
  type Script = seq<Reply>

  function LimitsOf(script: Script): (limits: Limits)
    ensures |limits| == |script|
  {
    if script == [] then [] else [LimitOf(script[0])] + LimitsOf(script[1..])
  }

  function LimitOf(reply: Reply): Option<JsNumber> {
    if IsLimited(reply) then Some(reply.retryAfter) else None
  }

  lemma {:induction false} LimitsAt(script: Script, i: nat)
    requires i < |script|
    ensures LimitsOf(script)[i] == LimitOf(script[i])
  {
    if i == 0 {
    } else {
      LimitsAt(script[1..], i - 1);
    }
  }

  /** What one reply, not a 429, means on its own. */
  function Alone(reply: Reply): Result<JsValue, Failure> {
    match reply
    case Returned(value) => Ok(value)
    case ThrewOther(error) => Err(Rethrown(error))
    case NoResponse => Err(HttpError(500))
    case Status(code, _) =>
      if code == 401 then Err(UnauthorizedError)
      else if code == 403 then Err(ForbiddenError)
      else if code == 404 then Err(ResourceNotFoundError)
      else Err(HttpError(code))
  }

  /** A value handed up by a retry is turned into `undefined` when it is falsy. */
  function HandedUp(result: Result<JsValue, Failure>): Result<JsValue, Failure> {
    if result.Ok? && !result.value.Truthy? then Ok(Undefined) else result
  }

  function Outcome(script: Script): Result<JsValue, Failure> {
    var n := Retries(LimitsOf(script));
    if n == |script| then Err(RetryLimit)
    else if n == 0 then Alone(script[0])
    else HandedUp(Alone(script[n]))
  }

  lemma {:induction false} NothingToHandle(log: seq<Effect>, script: Script, extra: real)
    requires script != []
    ensures !IsLimited(script[0]) ==> log + HandlingEffects(LimitsOf(script), extra) == log
  {
  }

  lemma {:induction false} RetryToHandle(log: seq<Effect>, script: Script, extra: real)
    requires script != [] && IsLimited(script[0])
    ensures log + HandlingEffects(LimitsOf(script), extra)
         == log + [Sleep(SleepFor(script[0].retryAfter, extra))] + LevelEffects(LimitsOf(script[1..]), extra)
  {
    assert LimitsOf(script)[1..] == LimitsOf(script[1..]);
  }

  class HttpClient {
    const script: Script
    var log: seq<Effect>

    constructor (script: Script)
      requires |script| == MAX_RETRIES
      ensures this.script == script && log == []
    {
      this.script := script;
      log := [];
    }

    method MakeSafeRequest(retryCount: nat) returns (result: Result<JsValue, Failure>)
      requires retryCount <= |script| == MAX_RETRIES
      modifies this
      ensures result == Outcome(script[retryCount..])
      ensures log == (if retryCount == 0 then old(log) + [Acquire] else old(log)) + LevelEffects(LimitsOf(script[retryCount..]), ADDITIONAL_SECONDS_TO_RETRY_AFTER)
      decreases MAX_RETRIES - retryCount, 1
    {
      if retryCount == MAX_RETRIES {
        return Err(RetryLimit);
      }
      if retryCount == 0 {
        log := log + [Acquire];
      }
      ghost var before, rest := log, script[retryCount..];
      assert rest[1..] == script[retryCount + 1..];
      LevelLog(before, LimitsOf(rest), ADDITIONAL_SECONDS_TO_RETRY_AFTER);
      log := log + [Call];
      match script[retryCount] {
        case Returned(value) => result := Ok(value);
        case ThrewOther(error) => result := Err(Rethrown(error));
        case _ =>
          result := HandleFailedRequest(retryCount);
          result := HandedUp(result);
      }
      log := log + [Release];
    }

    method HandleFailedRequest(retryCount: nat) returns (result: Result<JsValue, Failure>)
      requires retryCount < |script| == MAX_RETRIES
      requires script[retryCount].NoResponse? || script[retryCount].Status?
      modifies this
      ensures !IsLimited(script[retryCount]) ==> result == Alone(script[retryCount])
      ensures IsLimited(script[retryCount]) ==> result == Outcome(script[retryCount + 1..])
      ensures log == old(log) + HandlingEffects(LimitsOf(script[retryCount..]), ADDITIONAL_SECONDS_TO_RETRY_AFTER)
      decreases MAX_RETRIES - retryCount, 0
    {
      ghost var before, rest := log, script[retryCount..];
      assert rest[0] == script[retryCount] && rest[1..] == script[retryCount + 1..];
      NothingToHandle(before, rest, ADDITIONAL_SECONDS_TO_RETRY_AFTER);
      match script[retryCount]
      case NoResponse => return Err(HttpError(500));
      case Status(code, retryAfter) =>
        match code
        case 401 => return Err(UnauthorizedError);
        case 403 => return Err(ForbiddenError);
        case 404 => return Err(ResourceNotFoundError);
        case 429 =>
          var seconds := ComputeSecondsToWait(retryAfter, ADDITIONAL_SECONDS_TO_RETRY_AFTER);
          log := log + [Sleep(TimerDelay(Times(seconds, 1000.0)))];
          RetryToHandle(before, rest, ADDITIONAL_SECONDS_TO_RETRY_AFTER);
          result := MakeSafeRequest(retryCount + 1);
        case _ => return Err(HttpError(code));
    }

    /** A whole request. */
    method Request() returns (result: Result<JsValue, Failure>)
      requires |script| == MAX_RETRIES
      modifies this
      ensures result == Outcome(script)
      ensures log == old(log) + RequestEffects(LimitsOf(script), ADDITIONAL_SECONDS_TO_RETRY_AFTER)
    {
      assert script[0..] == script;
      result := MakeSafeRequest(0);
    }
  }

  /** The retry-limit error is reported exactly when the first five replies are all 429s. */
  lemma {:induction false} RetryLimitIffFiveLimited(script: Script)
    requires |script| == MAX_RETRIES
    ensures Outcome(script) == Err(RetryLimit)
       <==> forall i :: 0 <= i < 5 ==> IsLimited(script[i])
  {
    var limits := LimitsOf(script);
    RetriesMeaning(limits);
    forall i | 0 <= i < |script|
      ensures limits[i] == LimitOf(script[i])
    {
      LimitsAt(script, i);
    }
  }

  predicate IsOtherFalsy(reply: Reply) {
    reply.Returned? && (reply.value.Null? || reply.value.OtherFalsy?)
  }

  /** With retries below the limit the caller sees what the last reply alone would give,
      except that a falsy body which is not `undefined` becomes `undefined`. */
  lemma {:induction false} RetriesAreTransparent(script: Script)
    requires Retries(LimitsOf(script)) < |script|
    ensures var n := Retries(LimitsOf(script));
            (Outcome(script) == Alone(script[n])) <==> (n == 0 || !IsOtherFalsy(script[n]))
  {
    var n := Retries(LimitsOf(script));
    HandingUpChangesOtherFalsy(script[n]);
    assert Outcome(script) == if n == 0 then Alone(script[n]) else HandedUp(Alone(script[n]));
  }

  lemma {:induction false} HandingUpChangesOtherFalsy(reply: Reply)
    ensures HandedUp(Alone(reply)) == Alone(reply) <==> !IsOtherFalsy(reply)
  {
  }

  /** The first n replies are 429s and the next one is not. */
  ghost predicate LimitedThen(script: Script, n: nat) {
    && n < |script|
    && (forall i :: 0 <= i < n ==> script[i].Status? && script[i].code == 429)
    && !(script[n].Status? && script[n].code == 429)
  }

  lemma {:induction false} RetriesWhenLimited(script: Script, n: nat)
    requires LimitedThen(script, n)
    ensures Retries(LimitsOf(script)) == n
  {
    if n == 0 {
    } else {
      assert LimitedThen(script[1..], n - 1) by {
        assert forall i :: 0 <= i < n - 1 ==> script[1..][i] == script[i + 1];
      }
      RetriesWhenLimited(script[1..], n - 1);
      assert LimitsOf(script)[1..] == LimitsOf(script[1..]);
    }
  }

  /** What a request returns or throws, by the first reply that is not a 429. */
  lemma {:induction false} LastReplyDecides(script: Script, n: nat)
    requires LimitedThen(script, n)
    ensures var last, outcome := script[n], Outcome(script);
            && (last.Status? && last.code == 401 ==> outcome == Err(UnauthorizedError))
            && (last.Status? && last.code == 403 ==> outcome == Err(ForbiddenError))
            && (last.Status? && last.code == 404 ==> outcome == Err(ResourceNotFoundError))
            && (last.Status? && last.code !in {401, 403, 404} ==> outcome == Err(HttpError(last.code)))
            && (last.NoResponse? ==> outcome == Err(HttpError(500)))
            && (last.ThrewOther? ==> outcome == Err(Rethrown(last.error)))
            && (last.Returned? && (n == 0 || last.value.Truthy?) ==> outcome == Ok(last.value))
            && (last.Returned? && n > 0 && !last.value.Truthy? ==> outcome == Ok(Undefined))
  {
    RetriesWhenLimited(script, n);
  }

  /** This client waits fifteen seconds at least, unless the header is too long for a timer. */
  lemma WaitsFifteenSeconds(header: JsNumber)
    ensures SleepFor(header, ADDITIONAL_SECONDS_TO_RETRY_AFTER) >= 15000.0 <==> !TooLongForTimer(header, 5.0)
  {
    WaitsLongEnough(header, 5.0);
  }
}

/** src/services/xero/http/XeroHttpClient.ts */
module XeroHttpClients {
  import opened Basics
  import opened RetryPolicy

  const DEFAULT_RESPONSE_TYPE := "items"

  /** The names of `XeroEntityResponseType` all start with a capital letter. */
  type ResponseType = name: string | |name| > 0 && 'A' <= name[0] <= 'Z' witness "Invoices"

  datatype ActionResult =
    | Plain(value: JsValue)
    | ApiResponse(hasResponse: bool, body: Option<map<string, JsValue>>)

  datatype ErrorBody = ErrorBody(isValidation: bool, validationErrors: seq<string>)

  /** How one call of the action ends: a value, an `Error`, an api error object with a response,
      or any other thrown object. `message` is the text derived from the api error. */
  datatype Reply =
    | Returned(result: ActionResult)
    | ThrewError(error: int)
    | ThrewApi(status: int, message: string, errorBody: Option<ErrorBody>, retryAfter: JsNumber)
    | ThrewBare(error: int)

  datatype Failure =
    | Rethrown(error: int)
    | RawApiError(reply: Reply)
    | ValidationFailed(message: string)
    | Failed(message: string)
    | ForbiddenError(message: string)
    | Unknown(error: int)
    | TypeError
    | NoResponseData
    | NoResponseBody
    | RetryLimit

  datatype Output = Raw(result: ActionResult) | Entities(value: JsValue)

  const NOTHING := Raw(Plain(Undefined))

  predicate IsLimited(reply: Reply) {
    reply.ThrewApi? && reply.status == 429
  }

  /** The server's answers to the calls made from some level on. */
  type Script = seq<Reply>

  function LimitsOf(script: Script): (limits: Limits)
    ensures |limits| == |script|
  {
    if script == [] then [] else [LimitOf(script[0])] + LimitsOf(script[1..])
  }

  function LimitOf(reply: Reply): Option<JsNumber> {
    if IsLimited(reply) then Some(reply.retryAfter) else None
  }

  lemma {:induction false} LimitsAt(script: Script, i: nat)
    requires i < |script|
    ensures LimitsOf(script)[i] == LimitOf(script[i])
  {
    if i == 0 {
    } else {
      LimitsAt(script[1..], i - 1);
    }
  }

  function ToSerializedEntityResponseType(name: ResponseType): string {
    [((name[0] as int) + 32) as char] + name[1..]
  }

  function Field(body: map<string, JsValue>, key: string): JsValue {
    if key in body then body[key] else Undefined
  }

  predicate IsTruthy(result: ActionResult) {
    result.ApiResponse? || result.value.Truthy?
  }

  /** The tail of `makeRequest`: the body's entities when a response type was given. */
  function Unwrap(result: ActionResult, responseType: Option<ResponseType>): Result<Output, Failure> {
    match responseType
    case None => Ok(Raw(result))
    case Some(name) =>
      match result
      case Plain(v) => Err(if v.Undefined? || v.Null? then TypeError else NoResponseData)
      case ApiResponse(hasResponse, body) =>
        if !hasResponse then Err(NoResponseData)
        else if body.None? then Err(NoResponseBody)
        else
          var entities := Field(body.value, ToSerializedEntityResponseType(name));
          Ok(Entities(if entities.Truthy? then entities else Field(body.value, DEFAULT_RESPONSE_TYPE)))
  }

  function BadRequest(reply: Reply, responseType: Option<ResponseType>): Failure
    requires reply.ThrewApi?
  {
    if responseType.None? then RawApiError(reply)
    else if reply.errorBody.None? then TypeError
    else if reply.errorBody.value.isValidation && reply.errorBody.value.validationErrors != []
    then ValidationFailed(reply.errorBody.value.validationErrors[0])
    else Failed(reply.message)
  }

  /** What one reply, not a 429, means on its own. */
  function Alone(reply: Reply, responseType: Option<ResponseType>): Result<Output, Failure> {
    match reply
    case Returned(result) => Unwrap(result, responseType)
    case ThrewError(error) => Err(Rethrown(error))
    case ThrewBare(error) => Err(Unknown(error))
    case ThrewApi(status, message, _, _) =>
      if status == 400 then Err(BadRequest(reply, responseType))
      else if status == 403 then Err(ForbiddenError(message))
      else if status == 404 then Ok(NOTHING)
      else Err(Failed(message))
  }

  /** What an outer level makes of the result of its retry, which had no response type. */
  function HandedUp(result: Result<Output, Failure>, responseType: Option<ResponseType>): Result<Output, Failure> {
    match result
    case Ok(Raw(r)) => if IsTruthy(r) then Unwrap(r, responseType) else Ok(NOTHING)
    case _ => result
  }

  function Outcome(script: Script, responseType: Option<ResponseType>): Result<Output, Failure> {
    var n := Retries(LimitsOf(script));
    if n == |script| then Err(RetryLimit)
    else if n == 0 then Alone(script[0], responseType)
    else HandedUp(Alone(script[n], None), responseType)
  }

  /** What the first level makes of its reply or of the levels nested in it. */
  lemma {:induction false} OutcomeStep(script: Script, responseType: Option<ResponseType>)
    requires script != []
    ensures Outcome(script, responseType)
         == if IsLimited(script[0]) then HandedUp(Outcome(script[1..], None), responseType) else Alone(script[0], responseType)
  {
    if IsLimited(script[0]) && Retries(LimitsOf(script)) < |script| {
      HandedUpTwice(script[Retries(LimitsOf(script))], responseType);
    }
  }

  lemma {:induction false} HandedUpTwice(last: Reply, responseType: Option<ResponseType>)
    ensures HandedUp(HandedUp(Alone(last, None), None), responseType) == HandedUp(Alone(last, None), responseType)
  {
  }

  lemma {:induction false} NothingToHandle(log: seq<Effect>, script: Script, extra: real)
    requires script != []
    ensures !IsLimited(script[0]) ==> log + HandlingEffects(LimitsOf(script), extra) == log
  {
  }

  lemma {:induction false} RetryToHandle(log: seq<Effect>, script: Script, extra: real)
    requires script != [] && IsLimited(script[0])
    ensures log + HandlingEffects(LimitsOf(script), extra)
         == log + [Sleep(SleepFor(script[0].retryAfter, extra))] + LevelEffects(LimitsOf(script[1..]), extra)
  {
    assert LimitsOf(script)[1..] == LimitsOf(script[1..]);
  }

  class XeroHttpClient {
    const script: Script
    var log: seq<Effect>

    constructor (script: Script)
      requires |script| == MAX_RETRIES
      ensures this.script == script && log == []
    {
      this.script := script;
      log := [];
    }

    method MakeRequest(retryCount: nat, responseType: Option<ResponseType>) returns (result: Result<Output, Failure>)
      requires retryCount <= |script| == MAX_RETRIES
      modifies this
      ensures result == Outcome(script[retryCount..], responseType)
      ensures log == (if retryCount == 0 then old(log) + [Acquire] else old(log)) + LevelEffects(LimitsOf(script[retryCount..]), 0.0)
      decreases MAX_RETRIES - retryCount, 1
    {
      if retryCount == MAX_RETRIES {
        return Err(RetryLimit);
      }
      if retryCount == 0 {
        log := log + [Acquire];
      }
      ghost var before, rest := log, script[retryCount..];
      assert rest[1..] == script[retryCount + 1..];
      OutcomeStep(rest, responseType);
      LevelLog(before, LimitsOf(rest), 0.0);
      log := log + [Call];
      if script[retryCount].Returned? {
        log := log + [Release];
        result := Unwrap(script[retryCount].result, responseType);
      } else {
        result := HandleFailedRequest(retryCount, responseType);
        log := log + [Release];
        result := HandedUp(result, responseType);
      }
    }

    /** A 404 yields nothing; a 429 yields what the retry, made without a response type, yields. */
    method HandleFailedRequest(retryCount: nat, responseType: Option<ResponseType>) returns (result: Result<Output, Failure>)
      requires retryCount < |script| == MAX_RETRIES
      requires !script[retryCount].Returned?
      modifies this
      ensures !IsLimited(script[retryCount]) ==> result == Alone(script[retryCount], responseType)
      ensures IsLimited(script[retryCount]) ==> result == Outcome(script[retryCount + 1..], None)
      ensures log == old(log) + HandlingEffects(LimitsOf(script[retryCount..]), 0.0)
      decreases MAX_RETRIES - retryCount, 0
    {
      ghost var before, rest := log, script[retryCount..];
      assert rest[0] == script[retryCount] && rest[1..] == script[retryCount + 1..];
      NothingToHandle(before, rest, 0.0);
      match script[retryCount]
      case ThrewError(error) => return Err(Rethrown(error));
      case ThrewBare(error) => return Err(Unknown(error));
      case ThrewApi(status, message, _, retryAfter) =>
        match status
        case 400 => return Err(BadRequest(script[retryCount], responseType));
        case 403 => return Err(ForbiddenError(message));
        case 404 => return Ok(NOTHING);
        case 429 =>
          var seconds := ComputeSecondsToWait(retryAfter, 0.0);
          log := log + [Sleep(TimerDelay(Times(seconds, 1000.0)))];
          RetryToHandle(before, rest, 0.0);
          result := MakeRequest(retryCount + 1, None);
        case _ => return Err(Failed(message));
    }

    /** A whole request. */
    method MakeClientRequest(responseType: Option<ResponseType>) returns (result: Result<Output, Failure>)
      requires |script| == MAX_RETRIES
      modifies this
      ensures result == Outcome(script, responseType)
      ensures log == old(log) + RequestEffects(LimitsOf(script), 0.0)
    {
      assert script[0..] == script;
      result := MakeRequest(0, responseType);
    }
  }

  /** The retry-limit error is reported exactly when the first five replies are all 429s. */
  lemma {:induction false} RetryLimitIffFiveLimited(script: Script, responseType: Option<ResponseType>)
    requires |script| == MAX_RETRIES
    ensures Outcome(script, responseType) == Err(RetryLimit)
       <==> forall i :: 0 <= i < 5 ==> IsLimited(script[i])
  {
    var limits := LimitsOf(script);
    RetriesMeaning(limits);
    forall i | 0 <= i < |script|
      ensures limits[i] == LimitOf(script[i])
    {
      LimitsAt(script, i);
    }
  }

  predicate ChangedByRetry(last: Reply, responseType: Option<ResponseType>) {
    || (last.ThrewApi? && last.status == 400 && responseType.Some?)
    || (last.Returned? && !IsTruthy(last.result) && !(responseType.None? && last.result == Plain(Undefined)))
  }

  /** With retries below the limit the caller sees what the last reply alone would give, and the
      body is unwrapped once. The exceptions are exact: a 400 that a response type would have
      translated, and an action value that is falsy (other than a plain `undefined`). */
  lemma {:induction false} RetriesAreTransparent(script: Script, responseType: Option<ResponseType>)
    requires Retries(LimitsOf(script)) < |script|
    ensures var n := Retries(LimitsOf(script));
            (Outcome(script, responseType) == Alone(script[n], responseType)) <==> (n == 0 || !ChangedByRetry(script[n], responseType))
  {
    var n := Retries(LimitsOf(script));
    OutcomeOfLast(script, responseType, n);
    HandingUpChanges(script[n], responseType);
  }

  lemma {:induction false} OutcomeOfLast(script: Script, responseType: Option<ResponseType>, n: nat)
    requires n == Retries(LimitsOf(script)) < |script|
    ensures Outcome(script, responseType)
         == if n == 0 then Alone(script[n], responseType) else HandedUp(Alone(script[n], None), responseType)
  {
  }

  lemma {:induction false} HandingUpChanges(last: Reply, responseType: Option<ResponseType>)
    ensures HandedUp(Alone(last, None), responseType) == Alone(last, responseType) <==> !ChangedByRetry(last, responseType)
  {
  }

  /** Success and 404 after any number of retries below the limit are fully transparent. */
  lemma {:induction false} SuccessAndNotFoundAreTransparent(script: Script, responseType: Option<ResponseType>)
    requires Retries(LimitsOf(script)) < |script|
    requires var last := script[Retries(LimitsOf(script))];
             (last.Returned? && last.result.ApiResponse?) || (last.ThrewApi? && last.status == 404)
    ensures Outcome(script, responseType) == Alone(script[Retries(LimitsOf(script))], responseType)
  {
    OutcomeOfLast(script, responseType, Retries(LimitsOf(script)));
    HandingUpChanges(script[Retries(LimitsOf(script))], responseType);
  }

  /** The first n replies are 429s and the next one is not. */
  ghost predicate LimitedThen(script: Script, n: nat) {
    && n < |script|
    && (forall i :: 0 <= i < n ==> script[i].ThrewApi? && script[i].status == 429)
    && !(script[n].ThrewApi? && script[n].status == 429)
  }

  lemma {:induction false} RetriesWhenLimited(script: Script, n: nat)
    requires LimitedThen(script, n)
    ensures Retries(LimitsOf(script)) == n
  {
    if n == 0 {
    } else {
      assert LimitedThen(script[1..], n - 1) by {
        assert forall i :: 0 <= i < n - 1 ==> script[1..][i] == script[i + 1];
      }
      RetriesWhenLimited(script[1..], n - 1);
      assert LimitsOf(script)[1..] == LimitsOf(script[1..]);
    }
  }

  /** What a request returns or throws when the first reply that is not a 429 is an error. */
  lemma {:induction false} LastErrorDecides(script: Script, n: nat, responseType: Option<ResponseType>)
    requires LimitedThen(script, n) && !script[n].Returned?
    ensures var last, outcome := script[n], Outcome(script, responseType);
            && (last.ThrewApi? && last.status == 404 ==> outcome == Ok(Raw(Plain(Undefined))))
            && (last.ThrewApi? && last.status == 403 ==> outcome == Err(ForbiddenError(last.message)))
            && (last.ThrewApi? && last.status !in {400, 403, 404} ==> outcome == Err(Failed(last.message)))
            && (last.ThrewError? ==> outcome == Err(Rethrown(last.error)))
            && (last.ThrewBare? ==> outcome == Err(Unknown(last.error)))
            && (last.ThrewApi? && last.status == 400 && (n > 0 || responseType.None?) ==> outcome == Err(RawApiError(last)))
            && (last.ThrewApi? && last.status == 400 && n == 0 && responseType.Some? ==>
                  outcome == match last.errorBody
                             case None => Err(TypeError)
                             case Some(body) => Err(if body.isValidation && |body.validationErrors| > 0
                                                    then ValidationFailed(body.validationErrors[0]) else Failed(last.message)))
  {
    RetriesWhenLimited(script, n);
  }

  /** What it makes of a value: the response itself without a response type, the body's entities with
      one. Falsy values do not survive a retry, and without a retry they are no response. */
  lemma {:induction false} LastValueDecides(script: Script, n: nat, responseType: Option<ResponseType>)
    requires LimitedThen(script, n) && script[n].Returned?
    ensures var result, outcome := script[n].result, Outcome(script, responseType);
            && (result.ApiResponse? && responseType.None? ==> outcome == Ok(Raw(result)))
            && (result.ApiResponse? && responseType.Some? && !result.hasResponse ==> outcome == Err(NoResponseData))
            && (result.ApiResponse? && responseType.Some? && result.hasResponse && result.body.None? ==> outcome == Err(NoResponseBody))
            && (result.Plain? && result.value.Truthy? ==> outcome == if responseType.None? then Ok(Raw(result)) else Err(NoResponseData))
            && (result.Plain? && !result.value.Truthy? && n > 0 ==> outcome == Ok(Raw(Plain(Undefined))))
            && (result.Plain? && !result.value.Truthy? && n == 0 ==>
                  outcome == if responseType.None? then Ok(Raw(result))
                             else Err(if result.value.OtherFalsy? then NoResponseData else TypeError))
  {
    RetriesWhenLimited(script, n);
  }

  /** The entities of a body: under the response type's name with a small first letter if they are
      truthy there, and under "items" otherwise. */
  lemma {:induction false} BodyDecides(script: Script, n: nat, name: ResponseType, body: map<string, JsValue>)
    requires LimitedThen(script, n) && script[n] == Returned(ApiResponse(true, Some(body)))
    ensures forall key: string :: |key| == |name| && key[1..] == name[1..] && key[0] as int == name[0] as int + 32 ==>
              Outcome(script, Some(name)) == Ok(Entities(if key in body && body[key].Truthy? then body[key]
                                                         else if "items" in body then body["items"] else Undefined))
  {
    RetriesWhenLimited(script, n);
    var serialized := ToSerializedEntityResponseType(name);
    forall key: string | |key| == |name| && key[1..] == name[1..] && key[0] as int == name[0] as int + 32
      ensures key == serialized
    {
      assert key == [key[0]] + key[1..];
    }
  }

  /** For example, bills are found under "invoices". */
  lemma {:induction false} InvoicesAreFound(script: Script, n: nat, body: map<string, JsValue>)
    requires LimitedThen(script, n) && script[n] == Returned(ApiResponse(true, Some(body)))
    requires "invoices" in body && body["invoices"].Truthy?
    ensures Outcome(script, Some("Invoices")) == Ok(Entities(body["invoices"]))
  {
    assert "invoices"[1..] == "Invoices"[1..];
    BodyDecides(script, n, "Invoices", body);
  }

  /** This client waits ten seconds at least, unless the header is too long for a timer. */
  lemma WaitsTenSeconds(header: JsNumber)
    ensures SleepFor(header, 0.0) >= 10000.0 <==> !TooLongForTimer(header, 0.0)
  {
    WaitsLongEnough(header, 0.0);
  }
}
