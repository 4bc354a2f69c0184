/**
 * The decisions the HTTP API handlers make: the authentication gate and common headers,
 * the reading of boolean arguments, the schedule and manual-override endpoints' choice
 * of scheduler or override call and of status code, the RAPI bridge with its emulation
 * of the `$GD` delay-timer query, the deferred access-point shutdown, and the buffer
 * that collects a request body.
 *
 * The scheduler, the manual override, the RAPI sender and the EVSE's command filter are
 * outside the model: what they answer is passed in as parameters.
 */
module WebServer {
  import opened Wrappers
  import opened MachineInts
  import opened ArduinoString
  import opened Http

  const SCHEDULE_PATH := "/schedule/"
  /** `SCHEDULE_PATH_LEN`: the length of "/schedule/". */
  const SCHEDULE_PATH_LEN: nat := |SCHEDULE_PATH|
  /** `WEB_SERVER_MAX_BODY_SIZE`: 1 MiB. */
  const MAX_BODY_SIZE: nat := 1024 * 1024
  /** How long `/apoff` waits, in milliseconds, before the access point is turned off. */
  const AP_OFF_DELAY: nat := 1000
  /** The value of the emulated delay timer before any `$ST` command succeeds. */
  const INITIAL_DELAY_TIMER := "0 0 0 0"

  const CORS_HEADERS := [
    Header("Access-Control-Allow-Origin", "*"),
    Header("Access-Control-Allow-Headers", "*"),
    Header("Access-Control-Allow-Methods", "*")]
  const NO_CACHE := Header("Cache-Control", "no-cache, private, no-store, must-revalidate, max-stale=0, post-check=0, pre-check=0")

  // ---------------------------------------------------------------------------
  // Common request processing
  // ---------------------------------------------------------------------------

  /**
   * `requestPreProcess`: `None` when the request is answered with an authentication
   * challenge, otherwise the headers the response starts with.
   */
  function PreProcess(apOnly: bool, username: string, authenticated: bool, enableCors: bool): (headers: Option<seq<Header>>)
    ensures headers.None? <==> AuthRequired(apOnly, username, authenticated)
    ensures headers.Some? ==> NO_CACHE in headers.value
    ensures headers.Some? ==> forall h :: h in CORS_HEADERS ==> (h in headers.value <==> enableCors)
    ensures headers.Some? ==> forall h :: h in headers.value ==> h == NO_CACHE || h in CORS_HEADERS
  {
    if !apOnly && username != "" && !authenticated then None
    else Some((if enableCors then CORS_HEADERS else []) + [NO_CACHE])
  }

  /** `isPositive(str)`: the two spellings of a true flag. */
  function IsPositive(s: string): (b: bool)
    ensures b <==> s == "1" || s == "true"
  {
    s == "1" || s == "true"
  }

  /**
   * `isPositive(request, param)`: the argument is present and is either empty (a bare
   * `?param`) or positive; an absent argument is never positive.
   */
  function IsPositiveArg(args: map<string, string>, param: string): (b: bool)
    ensures b ==> param in args
    ensures param in args && args[param] == "" ==> b
    ensures param in args && args[param] != "" ==> (b <==> IsPositive(args[param]))
  {
    var found := param in args;
    var arg := if found then args[param] else "";
    found && (|arg| == 0 || IsPositive(arg))
  }

  // ---------------------------------------------------------------------------
  // /schedule and /override
  // ---------------------------------------------------------------------------

  /**
   * The event id `handleSchedule` reads from its URL: `toInt` of the text after
   * "/schedule/", stored in a `uint16_t`; `eventNull` (`SCHEDULER_EVENT_NULL`) when the
   * URL has nothing after that prefix.
   */
  function ScheduleEvent(path: string, eventNull: uint16): (event: uint16)
    ensures |path| <= SCHEDULE_PATH_LEN ==> event == eventNull
    ensures |path| > SCHEDULE_PATH_LEN ==> (event - ToInt(path[SCHEDULE_PATH_LEN..])) % TWO_16 == 0
  {
    if |path| > SCHEDULE_PATH_LEN then ToInt(Substring(path, SCHEDULE_PATH_LEN)) % TWO_16 else eventNull
  }

  /** The id written in decimal after "/schedule/" is the id the handler works on. */
  lemma ScheduleEventOfDecimal(n: nat, eventNull: uint16)
    requires n < TWO_16
    ensures ScheduleEvent(SCHEDULE_PATH + Decimal(n), eventNull) == n
  {
    assert n % TWO_16 == n;
    var d := Decimal(n);
    var path := SCHEDULE_PATH + d;
    assert |path| > SCHEDULE_PATH_LEN;
    assert Substring(path, SCHEDULE_PATH_LEN) == d by {
      assert path[SCHEDULE_PATH_LEN..] == d;
    }
    assert ToInt(d) == n by {
      ToIntOfDecimal(n, []);
      assert d + [] == d;
    }
    assert ScheduleEvent(path, eventNull) == ToInt(d) % TWO_16;
  }

  /** The scheduler operation a schedule request leads to. */
  datatype SchedulerCall =
    | NoCall
    | SerializeAll
    | SerializeEvent(event: uint16)
    | DeserializeAll
    | DeserializeEvent(event: uint16)
    | RemoveEvent(event: uint16)

  /** The status code a handler sets and the collaborator call it makes. */
  datatype Dispatch<C> = Dispatch(code: nat, call: C)

  /** `handleScheduleGet`; `ok` is what `scheduler.serialize` answers. */
  function ScheduleGet(event: uint16, eventNull: uint16, ok: bool): (d: Dispatch<SchedulerCall>)
    ensures d.call == (if event == eventNull then SerializeAll else SerializeEvent(event))
    ensures d.code == (if ok then 200 else 404)
  {
    Dispatch(if ok then 200 else 404, if event == eventNull then SerializeAll else SerializeEvent(event))
  }

  /** `handleSchedulePost`; `hasBody` is whether `_tempObject` holds a body, `ok` what `scheduler.deserialize` answers. */
  function SchedulePost(event: uint16, eventNull: uint16, hasBody: bool, ok: bool): (d: Dispatch<SchedulerCall>)
    ensures !hasBody ==> d == Dispatch(400, NoCall)
    ensures hasBody ==> d.call == (if event == eventNull then DeserializeAll else DeserializeEvent(event))
    ensures d.code == 200 <==> hasBody && ok
    ensures d.code != 200 ==> d.code == 400
  {
    if hasBody then
      Dispatch(if ok then 200 else 400, if event == eventNull then DeserializeAll else DeserializeEvent(event))
    else Dispatch(400, NoCall)
  }

  /** `handleScheduleDelete`; `ok` is what `scheduler.removeEvent` answers. */
  function ScheduleDelete(event: uint16, eventNull: uint16, ok: bool): (d: Dispatch<SchedulerCall>)
    ensures event == eventNull <==> d == Dispatch(405, NoCall)
    ensures event != eventNull ==> d == Dispatch(if ok then 200 else 404, RemoveEvent(event))
  {
    if event != eventNull then Dispatch(if ok then 200 else 404, RemoveEvent(event))
    else Dispatch(405, NoCall)
  }

  /**
   * `handleSchedule` once past the authentication gate: GET, POST and DELETE go to
   * their handlers, every other method is refused with 405. `ok` is the answer of the
   * one scheduler call made.
   */
  function Schedule(verb: Method, url: string, eventNull: uint16, hasBody: bool, ok: bool): (d: Dispatch<SchedulerCall>)
    ensures d.code in {200, 400, 404, 405}
    ensures d.call.NoCall? ==> d.code in {400, 405}
    ensures verb !in {GET, POST, DELETE} ==> d == Dispatch(405, NoCall)
    ensures verb == DELETE && ScheduleEvent(url, eventNull) == eventNull ==> d == Dispatch(405, NoCall)
    ensures verb == GET ==> d == ScheduleGet(ScheduleEvent(url, eventNull), eventNull, ok)
    ensures verb == POST ==> d == SchedulePost(ScheduleEvent(url, eventNull), eventNull, hasBody, ok)
    ensures verb == DELETE ==> d == ScheduleDelete(ScheduleEvent(url, eventNull), eventNull, ok)
  {
    var event := ScheduleEvent(url, eventNull);
    match verb
    case GET => ScheduleGet(event, eventNull, ok)
    case POST => SchedulePost(event, eventNull, hasBody, ok)
    case DELETE => ScheduleDelete(event, eventNull, ok)
    case _ => Dispatch(405, NoCall)
  }

  /** A DELETE on "/schedule/" with no id is refused without calling the scheduler. */
  lemma DeleteWithoutEventIsRefused(eventNull: uint16, hasBody: bool, ok: bool)
    ensures Schedule(DELETE, SCHEDULE_PATH, eventNull, hasBody, ok) == Dispatch(405, NoCall)
  {
  }

  /** A DELETE of "/schedule/" followed by an id in decimal removes exactly that event. */
  lemma DeleteOfIdRemovesIt(n: nat, eventNull: uint16, hasBody: bool, ok: bool)
    requires n < TWO_16 && n != eventNull
    ensures Schedule(DELETE, SCHEDULE_PATH + Decimal(n), eventNull, hasBody, ok)
         == Dispatch(if ok then 200 else 404, RemoveEvent(n))
  {
    ScheduleEventOfDecimal(n, eventNull);
  }

  /** The manual-override operation an override request leads to. */
  datatype ManualCall = NoManualCall | GetProperties | ManualClaim | ManualRelease | ManualToggle

  /**
   * `handleOverridePost`: 400 without a body, 500 when the body does not parse
   * (`parsed`) or the claim is refused (`claimed`), 201 when the claim is made.
   */
  function OverridePost(hasBody: bool, parsed: bool, claimed: bool): (d: Dispatch<ManualCall>)
    ensures !hasBody ==> d == Dispatch(400, NoManualCall)
    ensures hasBody && !parsed ==> d == Dispatch(500, NoManualCall)
    ensures hasBody && parsed ==> d.call == ManualClaim
    ensures d.code == 201 <==> hasBody && parsed && claimed
    ensures hasBody && parsed && !claimed ==> d == Dispatch(500, ManualClaim)
  {
    if !hasBody then Dispatch(400, NoManualCall)
    else if !parsed then Dispatch(500, NoManualCall)
    else Dispatch(if claimed then 201 else 500, ManualClaim)
  }

  /**
   * `handleOverride` once past the authentication gate: GET, POST, DELETE and PATCH go
   * to their handlers, any other method gets 405. `ok` is the answer of the manual
   * override's `isActive`, `claim`, `release` or `toggle`, whichever the method calls.
   * A GET of an active override keeps the stream's default code, 200.
   */
  function Override(verb: Method, hasBody: bool, parsed: bool, ok: bool): (d: Dispatch<ManualCall>)
    ensures d.code == 405 <==> verb !in {GET, POST, DELETE, PATCH}
    ensures verb !in {GET, POST, DELETE, PATCH} ==> d == Dispatch(405, NoManualCall)
    ensures verb == GET ==> d == (if ok then Dispatch(200, GetProperties) else Dispatch(404, NoManualCall))
    ensures verb == DELETE ==> d == Dispatch(if ok then 200 else 500, ManualRelease)
    ensures verb == PATCH ==> d == Dispatch(if ok then 200 else 500, ManualToggle)
    ensures verb == POST ==> d == OverridePost(hasBody, parsed, ok)
  {
    match verb
    case GET => if ok then Dispatch(200, GetProperties) else Dispatch(404, NoManualCall)
    case POST => OverridePost(hasBody, parsed, ok)
    case DELETE => Dispatch(if ok then 200 else 500, ManualRelease)
    case PATCH => Dispatch(if ok then 200 else 500, ManualToggle)
    case _ => Dispatch(405, NoManualCall)
  }

  // ---------------------------------------------------------------------------
  // /r and /rapi
  // ---------------------------------------------------------------------------

  /**
   * The results of `sendCmdSync` that `handleRapi` tells apart, and `RAPI_RESPONSE_BLOCKED`
   * (-300). `OtherResult(code)` stands only for a code that is none of the named ones.
   */
  datatype RapiResult =
    | RapiOk | RapiNk | QueueFull | BufferOverflow | Timeout | InvalidResponse
    | CmdTooLong | BadChecksum | BadSequenceId | AsyncEvent | Blocked
    | OtherResult(code: int)

  /**
   * The name `handleRapi` reports for a failed command: "UNKNOWN" exactly for a code it
   * does not know, and a `RAPI_RESPONSE_` name otherwise.
   */
  function ErrorName(ret: RapiResult): (name: string)
    ensures name == "UNKNOWN" <==> ret.OtherResult?
    ensures !ret.OtherResult? ==> StartsWith(name, "RAPI_RESPONSE_")
    ensures name == "RAPI_RESPONSE_BLOCKED" <==> ret == Blocked
  {
    match ret
    case QueueFull => "RAPI_RESPONSE_QUEUE_FULL"
    case BufferOverflow => "RAPI_RESPONSE_BUFFER_OVERFLOW"
    case Timeout => "RAPI_RESPONSE_TIMEOUT"
    case RapiOk => "RAPI_RESPONSE_OK"
    case RapiNk => "RAPI_RESPONSE_NK"
    case InvalidResponse => "RAPI_RESPONSE_INVALID_RESPONSE"
    case CmdTooLong => "RAPI_RESPONSE_CMD_TOO_LONG"
    case BadChecksum => "RAPI_RESPONSE_BAD_CHECKSUM"
    case BadSequenceId => "RAPI_RESPONSE_BAD_SEQUENCE_ID"
    case AsyncEvent => "RAPI_RESPONSE_ASYNC_EVENT"
    case Blocked => "RAPI_RESPONSE_BLOCKED"
    case OtherResult(_) => "UNKNOWN"
  }

  /** What the RAPI page reports: nothing, the command with its response, or the command with an error name. */
  datatype RapiBody = NoCommand | Answered(cmd: string, response: string) | Failed(cmd: string, error: string)

  datatype RapiReply = RapiChallenge | RapiReply(code: nat, json: bool, body: RapiBody)

  /** A whole call of `handleRapi`: the reply, the commands sent to the EVSE in order, the new `delayTimer`. */
  datatype RapiOutcome = RapiOutcome(reply: RapiReply, sent: seq<string>, delayTimer: string)

  /** The HTTP code for a command's result: 200 for OK and NK, 400 for a blocked command, 500 otherwise. */
  function RapiHttpCode(ret: RapiResult): (code: nat)
    ensures code == 200 <==> ret == RapiOk || ret == RapiNk
    ensures code == 400 <==> ret == Blocked
    ensures code in {200, 400, 500}
  {
    if ret == RapiOk || ret == RapiNk then 200 else if ret == Blocked then 400 else 500
  }

  /** The emulated delay timer after a command: a successful `$ST...` stores its arguments (from index 4). */
  function DelayTimerAfter(delayTimer: string, rapi: string, ret: RapiResult): (t: string)
    ensures ret == RapiOk && StartsWith(rapi, "$ST") ==> t == Substring(rapi, 4)
    ensures !(ret == RapiOk && StartsWith(rapi, "$ST")) ==> t == delayTimer
  {
    if ret == RapiOk && StartsWith(rapi, "$ST") then Substring(rapi, 4) else delayTimer
  }

  /** The response reported for an OK or NK command: a refused `$GD` is answered from the emulated timer. */
  function ReportedResponse(rapi: string, ret: RapiResult, response: string, delayTimer: string): (s: string)
    ensures ret == RapiNk && rapi == "$GD" ==> s == "$OK " + delayTimer
    ensures !(ret == RapiNk && rapi == "$GD") ==> s == response
  {
    if ret == RapiNk && rapi == "$GD" then "$OK " + delayTimer else response
  }

  /** The legacy command tried when a `$FF...` command is refused: "$S" and the text after the first four characters. */
  function FallbackCommand(rapi: string): (c: string)
    ensures StartsWith(c, "$S") && |c| >= 2
    ensures |rapi| >= 4 ==> c[2..] == rapi[4..]
    ensures |rapi| <= 4 ==> c == "$S"
  {
    "$S" + Substring(rapi, 4)
  }

  /**
   * `handleRapi`. The command is taken only from the query string (`hasParam("rapi")`),
   * `json` from any argument (`hasArg`); `query` and `args` are the two collections.
   * `blocked` is the EVSE's verdict on the command, `result` and `response` what
   * `sendCmdSync` and `getResponse` give for it, `delayTimer` the emulated timer.
   */
  function Rapi(query: map<string, string>, args: map<string, string>, authRequired: bool, blocked: bool,
                result: RapiResult, response: string, delayTimer: string): (o: RapiOutcome)
    ensures authRequired ==> o == RapiOutcome(RapiChallenge, [], delayTimer)
    ensures !authRequired && "rapi" !in query ==>
      o == RapiOutcome(RapiReply(200, IsPositiveArg(args, "json"), NoCommand), [], delayTimer)
    ensures !authRequired && "rapi" in query ==>
      var ret := if blocked then Blocked else result;
      && o.reply.RapiReply?
      && o.reply.code == RapiHttpCode(ret)
      && o.reply.json == IsPositiveArg(args, "json")
      && (o.reply.code == 200 <==> o.reply.body.Answered?)
      && (o.reply.code != 200 ==>
            && o.reply.body == Failed(query["rapi"], ErrorName(ret))
            && o.delayTimer == delayTimer
            && o.sent == (if blocked then [] else [query["rapi"]]))
      && (o.reply.code == 200 ==>
            && o.delayTimer == DelayTimerAfter(delayTimer, query["rapi"], ret)
            && o.reply.body == Answered(query["rapi"], ReportedResponse(query["rapi"], ret, response, o.delayTimer))
            && o.sent == [query["rapi"]]
                 + (if ret == RapiNk && StartsWith(query["rapi"], "$FF") then [FallbackCommand(query["rapi"])] else []))
  {
    if authRequired then RapiOutcome(RapiChallenge, [], delayTimer)
    else
      var json := IsPositiveArg(args, "json");
      if "rapi" !in query then RapiOutcome(RapiReply(200, json, NoCommand), [], delayTimer)
      else
        var rapi := query["rapi"];
        var ret := if blocked then Blocked else result;
        var first := if blocked then [] else [rapi];
        if ret == RapiOk || ret == RapiNk then
          assert StartsWith(rapi, "$FF") ==> rapi != "$GD" by { FfIsNotGd(rapi); }
          var timer := DelayTimerAfter(delayTimer, rapi, ret);
          var fallback :=
            if ret == RapiNk && rapi != "$GD" && StartsWith(rapi, "$FF") then [FallbackCommand(rapi)] else [];
          RapiOutcome(RapiReply(200, json, Answered(rapi, ReportedResponse(rapi, ret, response, timer))),
                      first + fallback, timer)
        else
          RapiOutcome(RapiReply(RapiHttpCode(ret), json, Failed(rapi, ErrorName(ret))), first, delayTimer)
  }

  /** A `$FF...` command is never `$GD`, so the `$GD` emulation and the `$FF` fallback exclude each other. */
  lemma FfIsNotGd(rapi: string)
    ensures StartsWith(rapi, "$FF") ==> rapi != "$GD"
  {
    if StartsWith(rapi, "$FF") {
      assert rapi[1] == "$FF"[1] == 'F';
      assert "$GD"[1] == 'G';
    }
  }

  /** A blocked command is never sent, leaves the timer alone and is answered with 400. */
  lemma BlockedCommandIsNotSent(query: map<string, string>, args: map<string, string>, result: RapiResult,
                                 response: string, delayTimer: string)
    requires "rapi" in query
    ensures var o := Rapi(query, args, false, true, result, response, delayTimer);
      o.sent == [] && o.delayTimer == delayTimer
      && o.reply == RapiReply(400, IsPositiveArg(args, "json"), Failed(query["rapi"], "RAPI_RESPONSE_BLOCKED"))
  {
  }

  /**
   * The `$GD` emulation: after a successful `$ST` command, a `$GD` the EVSE refuses is
   * answered with "$OK " and the arguments of that `$ST`, whatever the EVSE replied.
   */
  lemma DelayTimerEmulation(query1: map<string, string>, args1: map<string, string>,
                            query2: map<string, string>, args2: map<string, string>,
                            delayTimer: string, stResponse: string, gdResponse: string)
    requires "rapi" in query1 && StartsWith(query1["rapi"], "$ST")
    requires "rapi" in query2 && query2["rapi"] == "$GD"
    ensures var o1 := Rapi(query1, args1, false, false, RapiOk, stResponse, delayTimer);
      var o2 := Rapi(query2, args2, false, false, RapiNk, gdResponse, o1.delayTimer);
      && o1.delayTimer == Substring(query1["rapi"], 4)
      && o2.reply == RapiReply(200, IsPositiveArg(args2, "json"), Answered("$GD", "$OK " + Substring(query1["rapi"], 4)))
      && o2.delayTimer == o1.delayTimer
      && o2.sent == ["$GD"]
  {
    var o1 := Rapi(query1, args1, false, false, RapiOk, stResponse, delayTimer);
    assert o1.delayTimer == DelayTimerAfter(delayTimer, query1["rapi"], RapiOk);
    assert !StartsWith("$GD", "$FF") by { FfIsNotGd("$GD"); }
  }

  /** A refused `$FF` command is retried as `$S...`, and the page still reports the first reply. */
  lemma LegacyFallbackKeepsReply(query: map<string, string>, args: map<string, string>, response: string, delayTimer: string)
    requires "rapi" in query && StartsWith(query["rapi"], "$FF")
    ensures var o := Rapi(query, args, false, false, RapiNk, response, delayTimer);
      && o.sent == [query["rapi"], FallbackCommand(query["rapi"])]
      && o.reply == RapiReply(200, IsPositiveArg(args, "json"), Answered(query["rapi"], response))
  {
    FfIsNotGd(query["rapi"]);
  }

  // ---------------------------------------------------------------------------
  // Deferred Wi-Fi actions of web_server_loop
  // ---------------------------------------------------------------------------

  /** `wifiRestartTime` and `apOffTime`: deadlines in `millis()` time, 0 when nothing is pending. */
  datatype Timers = Timers(wifiRestartTime: uint32, apOffTime: uint32)

  datatype WifiAction = RestartWifi | TurnOffAp

  /** `/apoff` arms the access-point shutdown for one second later, computed in 32-bit `unsigned long`. */
  function ArmApOff(t: Timers, now: uint32): (r: Timers)
    ensures r.wifiRestartTime == t.wifiRestartTime
    ensures now + AP_OFF_DELAY < TWO_32 ==> r.apOffTime == now + AP_OFF_DELAY
    ensures now + AP_OFF_DELAY >= TWO_32 ==> r.apOffTime == now + AP_OFF_DELAY - TWO_32
  {
    t.(apOffTime := (now + AP_OFF_DELAY) % TWO_32)
  }

  /** One call of `web_server_loop`: each armed deadline that `now` has passed fires and is disarmed. */
  function LoopStep(t: Timers, now: uint32): (r: (Timers, seq<WifiAction>))
    ensures RestartWifi in r.1 <==> 0 < t.wifiRestartTime < now
    ensures TurnOffAp in r.1 <==> 0 < t.apOffTime < now
    ensures r.0.wifiRestartTime == (if 0 < t.wifiRestartTime < now then 0 else t.wifiRestartTime)
    ensures r.0.apOffTime == (if 0 < t.apOffTime < now then 0 else t.apOffTime)
    ensures Count(TurnOffAp, r.1) == (if 0 < t.apOffTime < now then 1 else 0)
    ensures r.1 == (if 0 < t.wifiRestartTime < now then [RestartWifi] else [])
                 + (if 0 < t.apOffTime < now then [TurnOffAp] else [])
  {
    var restart := if t.wifiRestartTime > 0 && now > t.wifiRestartTime then [RestartWifi] else [];
    var t1 := if restart != [] then t.(wifiRestartTime := 0) else t;
    var apOff := if t1.apOffTime > 0 && now > t1.apOffTime then [TurnOffAp] else [];
    var t2 := if apOff != [] then t1.(apOffTime := 0) else t1;
    CountAppend(TurnOffAp, restart, apOff);
    (t2, restart + apOff)
  }

  /** Successive calls of `web_server_loop` at the times `nows`, with no `/apoff` in between. */
  function LoopRun(t: Timers, nows: seq<uint32>): (r: (Timers, seq<WifiAction>))
    decreases |nows|
  {
    if nows == [] then (t, [])
    else
      var step := LoopStep(t, nows[0]);
      var rest := LoopRun(step.0, nows[1..]);
      (rest.0, step.1 + rest.1)
  }

  function Count(a: WifiAction, actions: seq<WifiAction>): nat {
    if actions == [] then 0 else (if actions[0] == a then 1 else 0) + Count(a, actions[1..])
  }

  lemma {:induction false} CountAppend(a: WifiAction, xs: seq<WifiAction>, ys: seq<WifiAction>)
    ensures Count(a, xs + ys) == Count(a, xs) + Count(a, ys)
  {
    if xs != [] {
      assert (xs + ys)[1..] == xs[1..] + ys;
      CountAppend(a, xs[1..], ys);
    } else {
      assert xs + ys == ys;
    }
  }

  /** Each arming of the access-point shutdown fires at most once, and a disarmed one never fires. */
  lemma {:induction false} ApOffFiresAtMostOnce(t: Timers, nows: seq<uint32>)
    ensures Count(TurnOffAp, LoopRun(t, nows).1) <= (if t.apOffTime == 0 then 0 else 1)
    ensures t.apOffTime == 0 ==> LoopRun(t, nows).0.apOffTime == 0
    decreases |nows|
  {
    if nows != [] {
      var step := LoopStep(t, nows[0]);
      ApOffFiresAtMostOnce(step.0, nows[1..]);
      CountAppend(TurnOffAp, step.1, LoopRun(step.0, nows[1..]).1);
    }
  }

  /** No code in this file arms `wifiRestartTime`: from 0 it stays 0 and the Wi-Fi restart never fires. */
  lemma {:induction false} WifiRestartStaysDisarmed(t: Timers, nows: seq<uint32>)
    requires t.wifiRestartTime == 0
    ensures RestartWifi !in LoopRun(t, nows).1
    ensures LoopRun(t, nows).0.wifiRestartTime == 0
    decreases |nows|
  {
    if nows != [] {
      var step := LoopStep(t, nows[0]);
      WifiRestartStaysDisarmed(step.0, nows[1..]);
    }
  }

  /** Away from the wrap of the clock, the access point goes off at the first loop more than one second after `/apoff`. */
  lemma ApOffFiresAfterDelay(t: Timers, now: uint32, later: uint32)
    requires now + AP_OFF_DELAY < TWO_32
    ensures TurnOffAp in LoopStep(ArmApOff(t, now), later).1 <==> later > now + AP_OFF_DELAY
  {
  }

  /**
   * An `/apoff` whose deadline wraps to exactly 0 (at `now` = 2^32 - 1000) is never
   * carried out: 0 is the value that means "nothing pending".
   */
  lemma ApOffArmedAtWrapNeverFires(t: Timers, nows: seq<uint32>)
    ensures ArmApOff(t, TWO_32 - AP_OFF_DELAY).apOffTime == 0
    ensures Count(TurnOffAp, LoopRun(ArmApOff(t, TWO_32 - AP_OFF_DELAY), nows).1) == 0
  {
    ApOffFiresAtMostOnce(ArmApOff(t, TWO_32 - AP_OFF_DELAY), nows);
  }

  /**
   * An `/apoff` less than one second before the wrap of the clock gets a deadline just
   * after 0, which every later loop before the wrap has already passed: the access
   * point goes off at the first such loop instead of one second later.
   */
  lemma ApOffNearWrapFiresAtOnce(t: Timers, now: uint32, later: uint32)
    requires TWO_32 - AP_OFF_DELAY < now < later
    ensures ArmApOff(t, now).apOffTime == now + AP_OFF_DELAY - TWO_32 < AP_OFF_DELAY
    ensures TurnOffAp in LoopStep(ArmApOff(t, now), later).1
  {
  }

  /** The file-scope state of the API handlers: the emulated delay timer and the two deadlines. */
  class WebServerState {
    var delayTimer: string
    var wifiRestartTime: uint32
    var apOffTime: uint32

    function Deadlines(): Timers
      reads this
    {
      Timers(wifiRestartTime, apOffTime)
    }

    constructor ()
      ensures delayTimer == INITIAL_DELAY_TIMER && wifiRestartTime == 0 && apOffTime == 0
    {
      delayTimer := INITIAL_DELAY_TIMER;
      wifiRestartTime, apOffTime := 0, 0;
    }

    /**
     * `handleRapi`. The `$FF` fallback's own result and response (`fallbackResult`,
     * `fallbackResponse`) land in shadowing locals and are never reported.
     */
    method HandleRapi(query: map<string, string>, args: map<string, string>, authRequired: bool, blocked: bool,
                      result: RapiResult, response: string, fallbackResult: RapiResult, fallbackResponse: string)
      returns (reply: RapiReply, sent: seq<string>)
      modifies this
      ensures var o := Rapi(query, args, authRequired, blocked, result, response, old(delayTimer));
        reply == o.reply && sent == o.sent && delayTimer == o.delayTimer
      ensures Deadlines() == old(Deadlines())
    {
      var json := IsPositiveArg(args, "json");
      sent := [];
      if authRequired {
        return RapiChallenge, sent;
      }
      var code := 200;
      var body := NoCommand;
      if "rapi" in query {
        var rapi := query["rapi"];
        var ret := RapiNk;
        if !blocked {
          sent := sent + [rapi];
          ret := result;
        } else {
          ret := Blocked;
        }
        if ret == RapiOk || ret == RapiNk {
          var rapiString := response;
          if ret == RapiOk && StartsWith(rapi, "$ST") {
            delayTimer := Substring(rapi, 4);
          }
          if ret == RapiNk {
            if rapi == "$GD" {
              rapiString := "$OK " + delayTimer;
            } else if StartsWith(rapi, "$FF") {
              var fallback := "$S" + Substring(rapi, 4);
              sent := sent + [fallback];
              var ret := fallbackResult;
              if ret == RapiOk {
                var rapiString := fallbackResponse;
              }
            }
          }
          body := Answered(rapi, rapiString);
        } else {
          body := Failed(rapi, ErrorName(ret));
          code := if ret == Blocked then 400 else 500;
        }
      }
      reply := RapiReply(code, json, body);
    }

    /** `handleAPOff`: once past the authentication gate, answer 200 and arm the shutdown. */
    method HandleApOff(now: uint32, authRequired: bool) returns (code: Option<nat>)
      modifies this
      ensures code == (if authRequired then None else Some(200))
      ensures Deadlines() == (if authRequired then old(Deadlines()) else ArmApOff(old(Deadlines()), now))
      ensures delayTimer == old(delayTimer)
    {
      if authRequired {
        return None;
      }
      apOffTime := (now + AP_OFF_DELAY) % TWO_32;
      return Some(200);
    }

    /** `web_server_loop`. */
    method Loop(now: uint32) returns (actions: seq<WifiAction>)
      modifies this
      ensures (Deadlines(), actions) == LoopStep(old(Deadlines()), now)
      ensures delayTimer == old(delayTimer)
    {
      actions := [];
      if wifiRestartTime > 0 && now > wifiRestartTime {
        wifiRestartTime := 0;
        actions := actions + [RestartWifi];
      }
      if apOffTime > 0 && now > apOffTime {
        apOffTime := 0;
        actions := actions + [TurnOffAp];
      }
      assert actions == LoopStep(old(Deadlines()), now).1;
    }
  }

  // ---------------------------------------------------------------------------
  // Request bodies
  // ---------------------------------------------------------------------------

  /** `s` with `d` written over it from position `at`, as `memcpy` does. */
  function Splice(s: seq<bv8>, at: nat, d: seq<bv8>): (r: seq<bv8>)
    requires at + |d| <= |s|
    ensures |r| == |s|
    ensures forall k :: 0 <= k < |d| ==> r[at + k] == d[k]
    ensures forall k :: 0 <= k < |s| && !(at <= k < at + |d|) ==> r[k] == s[k]
  {
    s[..at] + d + s[at + |d|..]
  }

  function Zeros(n: nat): (z: seq<bv8>)
    ensures |z| == n && forall k :: 0 <= k < n ==> z[k] == 0
  {
    seq(n, _ => 0)
  }

  /**
   * `handleBody`: the chunk `data` of a body of `total` bytes, at offset `index`. The
   * chunk of a body shorter than `MAX_BODY_SIZE` that finds no buffer yet asks `calloc` for a zeroed
   * buffer of `total + 1` bytes (so the body text ends in NUL); `callocOk` is whether
   * `calloc` succeeds. Every chunk is copied into the buffer when there is one. The
   * library delivers chunks inside the body, and a buffer that already exists was
   * allocated for this body.
   */
  method HandleBody(request: Request, data: seq<bv8>, index: nat, total: nat, callocOk: bool)
    requires index + |data| <= total
    requires !request.tempObject.FileEntry?
    requires request.tempObject.BodyBuffer? ==> request.tempObject.buf.Length == total + 1
    modifies request, if request.tempObject.BodyBuffer? then {request.tempObject.buf} else {}
    ensures old(request.tempObject).NoObject? && 0 < total < MAX_BODY_SIZE && callocOk ==>
      && request.tempObject.BodyBuffer?
      && fresh(request.tempObject.buf)
      && request.tempObject.buf[..] == Splice(Zeros(total + 1), index, data)
    ensures old(request.tempObject).NoObject? && !(0 < total < MAX_BODY_SIZE && callocOk) ==>
      request.tempObject == NoObject
    ensures old(request.tempObject).BodyBuffer? ==>
      && request.tempObject == old(request.tempObject)
      && request.tempObject.buf[..] == Splice(old(request.tempObject.buf[..]), index, data)
  {
    if total > 0 && request.tempObject.NoObject? && total < MAX_BODY_SIZE && callocOk {
      var buf := new bv8[total + 1](_ => 0);
      request.tempObject := BodyBuffer(buf);
    }
    if request.tempObject.BodyBuffer? {
      var buf := request.tempObject.buf;
      ghost var before := buf[..];
      forall k | 0 <= k < |data| {
        buf[index + k] := data[k];
      }
      assert buf[..] == Splice(before, index, data);
    }
  }

  /**
   * A body of `MAX_BODY_SIZE` bytes or more, or one whose buffer `calloc` cannot
   * provide, is dropped, so a POST to the schedule endpoint carrying it is answered
   * 400 ("No Body") without calling the scheduler.
   */
  method DroppedBodySchedulePost(url: string, data: seq<bv8>, total: nat, callocOk: bool, eventNull: uint16, ok: bool)
    returns (d: Dispatch<SchedulerCall>)
    requires |data| <= total && (total >= MAX_BODY_SIZE || !callocOk)
    ensures d == Dispatch(400, NoCall)
  {
    var request := new Request(POST, url, map[], map[], None);
    HandleBody(request, data, 0, total, callocOk);
    d := Schedule(POST, url, eventNull, request.tempObject.BodyBuffer?, ok);
  }
}
