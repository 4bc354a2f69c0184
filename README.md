# Current shaper and HTTP request decisions of an EVSE Wi-Fi gateway

This project models three parts of the firmware of an electric-vehicle charging-station
(EVSE) Wi-Fi gateway, and proves properties of those models.

- **The current-shaper task** (`CurrentShaperTask`). It is a periodic task. It turns a
  grid power budget (`_max_pwr`) and the live available power (`_live_pwr`) into a
  charge-current claim on the EVSE manager. Setters recompute the current and raise a
  pending flag. The next `loop` tick consumes the flag and makes one claim. If no power
  update arrives for 60 s, every later tick at which more than 60 s have elapsed
  modulo 2^32 claims the Disabled state instead (the failsafe).
  The six fields live in the class `CurrentShaper.CurrentShaperTask`. Its `Loop` method
  is proved against the pure function `CurrentShaper.Tick`. The static `instance`
  pointer and the operations reached through it live in `CurrentShaper.ShaperSlot`.
  Every call the task makes to the EVSE manager (`claim`, `release`) and to
  `event_send` is appended to a ghost `trace`.
- **The static-file handler** (`StaticFileWebHandler`). It rewrites "/" to the home
  page or the Wi-Fi portal page, searches the table of built-in files for the first
  entry with that name, and answers with an authentication challenge, 304, 200 or 404.
  `_getFile` is a loop method with an out-parameter slot. `canHandle` and
  `handleRequest` write and clear the request's `_tempObject`.
- **Decisions of the HTTP API handlers**:
  - the authentication gate and the common headers;
  - boolean arguments;
  - the parsing of `/schedule/<id>`;
  - the status codes of the schedule and manual-override endpoints;
  - the handling of RAPI command results, including the emulated `$GD` delay timer;
  - the deferred access-point shutdown;
  - the buffer that collects a request body.

The clock is a parameter `now: uint32` (the value `millis()` would return). Elapsed
time is computed modulo 2^32, as `uint32_t` subtraction does. The answers of
collaborators whose code is not part of this model are inputs:

- the EVSE's present current and voltage;
- `clientHasClaim`;
- `request->authenticate`;
- the scheduler and the manual override;
- `isRapiCommandBlocked`, `sendCmdSync` and `getResponse`.

Where the code and its documented intent differ, the model follows the code:

- The destructor only clears `instance`. It does not release the shaper's claim.
- `setState(false)` does not release the claim either (only `notifyConfigChanged`
  does), and `isActive` does not look at `_enabled`.
- The claim that carries the computed current uses priority `Limit` and state `None`.
  It limits the current and leaves the charging state alone.
- `_chg_cur` is not clamped to a valid range before being stored in a `uint8_t`.
- The failsafe measures the time since the last claim as a `uint32_t`. After 2^32 ms
  (about 49.7 days) without a power update, the elapsed time wraps below 60 s, and for
  about a minute `loop` makes no Disabled claim and sends no event: see
  `CurrentShaper.FailsafeLapsesAfterWrap`.
- `wifiRestartTime` is never armed by this file, so the Wi-Fi restart branch of
  `web_server_loop` never fires.
- An `/apoff` in the last second before the wrap of the 32-bit clock gets a deadline
  that has already wrapped. It is carried out at the first loop that still runs before
  the clock wraps, or never when the deadline wraps to exactly 0: see
  `WebServer.ApOffNearWrapFiresAtOnce` and `WebServer.ApOffArmedAtWrapNeverFires`.
- The RAPI command is taken only when the query string holds `rapi` (`hasParam`);
  a `rapi` field in a form body alone is not a command.

Files:

- `wrappers.dfy`: `Option`.
- `machine_ints.dfy`: fixed-width integer types.
- `arduino_string.dfy`: the parts of Arduino's `String` used here.
- `http.dfy`: the request as the handlers see it.
- `current_shaper.dfy`: the shaper task.
- `web_server_static.dfy`: the static-file handler.
- `web_server.dfy`: the API handlers.

## Model

| member | source | states |
|---|---|---|
| ArduinoString.Substring | src/web_server.cpp:569-570 | `substring(from)` is the tail from `from`, or "" when `from` is past the end |
| ArduinoString.SkipSpace | src/web_server.cpp:572 | the leading white space `toInt` skips: the result is a suffix of the input, everything dropped before it is white space, it starts with a non-space, and it is the whole input when that starts with a non-space |
| ArduinoString.DigitPrefix | src/web_server.cpp:572 | the digits `toInt` reads: the longest all-digit prefix (the next character is not a digit) |
| ArduinoString.ToInt | src/web_server.cpp:572 | `toInt`: 0 when no sign or digit follows the white space; non-positive after '-', non-negative otherwise |
| ArduinoString.DecimalValue | src/web_server.cpp:572 | the decimal text of `n` denotes `n` (induction on the digits) |
| ArduinoString.DigitPrefixOfDigits | src/web_server.cpp:572 | `toInt`'s digit scan stops exactly at the end of a digit string followed by a non-digit (induction) |
| ArduinoString.ToIntOfDigits | src/web_server.cpp:572 | `toInt` of a digit string followed by non-digit text is the value of the digits |
| ArduinoString.ToIntOfDecimal | src/web_server.cpp:572 | `toInt` reads back the decimal text of any natural number, whatever non-digit text follows it |
| CurrentShaper.Elapsed | src/current_shaper.cpp:33 | `millis() - _timer` on `uint32_t`: the plain difference, or the difference plus 2^32 across the wrap |
| CurrentShaper.ToInt32 | src/current_shaper.cpp:69 | storing the `uint32_t` budget in the `int` field `_max_pwr`: congruent modulo 2^32, unchanged exactly when below 2^31 |
| CurrentShaper.RoundDiv | src/current_shaper.cpp:104 | `round(n / d)`: within half a unit of the exact quotient, halves away from zero |
| CurrentShaper.ChargeCurrent | src/current_shaper.cpp:104 | `_chg_cur` is the rounded current reduced modulo 256 (it is a `uint8_t`), and the nearest integer itself whenever that fits in a byte |
| CurrentShaper.ChargeCurrentExample | src/current_shaper.cpp:104 | a 6010 W surplus at 230 V gives 26 |
| CurrentShaper.Tick | src/current_shaper.cpp:18-49 | one `loop` tick: returns 2000. Disabled, it changes and calls nothing. With a pending change, it clears the flag, restarts the timer at `now`, claims the computed current with state None and sends the status event, and never takes the failsafe branch in the same tick. Otherwise it claims Disabled and reports exactly when more than 60000 ms have elapsed, leaving the fields alone |
| CurrentShaper.DisabledRunIsIdle | src/current_shaper.cpp:18-49 | any number of ticks of a disabled shaper leave every field as it was and make no call (induction over the ticks) |
| CurrentShaper.FailsafeRepeats | src/current_shaper.cpp:33-44 | once the window has passed with nothing pending, every later tick at which more than 60 s have elapsed modulo 2^32 repeats the Disabled claim and the event, and the timer is never re-armed (induction) |
| CurrentShaper.FailsafeLapsesAfterWrap | src/current_shaper.cpp:33 | a tick 2^32 ms or more after the last claim, but within 60 s of it modulo 2^32, sees the window as not passed and claims nothing |
| CurrentShaper.QuietRunIsIdle | src/current_shaper.cpp:19-44 | ticks inside the window with nothing pending change nothing and call nothing (induction) |
| CurrentShaper.ChangeConsumedOnce | src/current_shaper.cpp:21-32 | a pending change is consumed by exactly one claim; the ticks after it inside the window resubmit nothing |
| CurrentShaper.Shaped | src/current_shaper.cpp:102-107 | `shapeCurrent` sets `_chg_cur` to the computed current and raises `_changed`, and changes no other field |
| CurrentShaper.SettersCoalesce | src/current_shaper.cpp:78-107 | however many `setMaxPwr` and `setLivePwr` calls run before a tick, the tick makes exactly one claim, carrying the current computed by the last call from the values all the calls left, and restarts the failsafe window |
| CurrentShaper.SettersAccumulate | src/current_shaper.cpp:78-107 | after any non-empty run of setter calls the budget and the live power are the arguments of the last `setMaxPwr` and the last `setLivePwr` (the old values when there is none), the change is pending, and the current is the one the last call computed from them; enablement and timer are unchanged (induction) |
| CurrentShaper.ApplySettersSnoc | src/current_shaper.cpp:78-90 | a run of setter calls is the run without its last call followed by that call (induction) |
| CurrentShaper.ApplySetter | src/current_shaper.cpp:78-90 | `setMaxPwr` stores its argument as the budget and `setLivePwr` as the live power, the other value kept; either raises `_changed` and recomputes `_chg_cur` from the new values; enablement and the failsafe timer are unchanged |
| CurrentShaper.SetterEndsFailsafe | src/current_shaper.cpp:21-44 | during the failsafe, any `setMaxPwr` or `setLivePwr` makes the next tick claim the computed current (state None) again, and the failsafe window starts over |
| CurrentShaper.Configured | src/current_shaper.cpp:65-69 | `notifyConfigChanged` sets `_enabled` and `_max_pwr`, and leaves `_changed`, `_timer`, `_live_pwr` and `_chg_cur` alone |
| CurrentShaper.ConfigEffects | src/current_shaper.cpp:70-74 | it releases the shaper's claim exactly when disabling, never claims, and ends with the event carrying the new settings |
| CurrentShaper.ConfigDisableSilencesLoop | src/current_shaper.cpp:65-70 | after a disabling configuration change every later tick is silent |
| CurrentShaper.CurrentShaperTask.constructor | src/current_shaper.cpp:5-8 | the constructor clears `_changed` and `_enabled` |
| CurrentShaper.CurrentShaperTask.Loop | src/current_shaper.cpp:18-49 | the method's new fields, trace and return value are those of `Tick` |
| CurrentShaper.ShaperSlot.constructor | src/current_shaper.cpp:3 | `instance` starts out null |
| CurrentShaper.ShaperSlot.Begin | src/current_shaper.cpp:51-63 | `begin` restarts the timer at `now`, loads the configured enablement and budget, zeroes `_live_pwr` and `_chg_cur`, publishes the task as `instance` and sends the start-up event; `_changed` is kept |
| CurrentShaper.ShaperSlot.Destroy | src/current_shaper.cpp:10-12 | the destructor clears `instance` and makes no call |
| CurrentShaper.ShaperSlot.NotifyConfigChanged | src/current_shaper.cpp:65-76 | with an instance: its fields become `Configured` and its trace grows by `ConfigEffects`; without one, nothing can change (empty frame) |
| CurrentShaper.ShaperSlot.ShapeCurrent | src/current_shaper.cpp:102-107 | the instance's fields become `Shaped`, with no call to the EVSE manager |
| CurrentShaper.ShaperSlot.SetMaxPwr | src/current_shaper.cpp:78-83 | stores the budget and recomputes through `Shaped`; the trace is unchanged (no claim, no release); a no-op without an instance |
| CurrentShaper.ShaperSlot.SetLivePwr | src/current_shaper.cpp:85-90 | stores the live power and recomputes through `Shaped`; the trace is unchanged; a no-op without an instance |
| CurrentShaper.ShaperSlot.SetState | src/current_shaper.cpp:92-100 | changes only `_enabled` and sends one event with 1 or 0; no release |
| CurrentShaper.ShaperSlot.GetMaxPwr | src/current_shaper.cpp:109-114 | the instance's `_max_pwr`, 0 without an instance |
| CurrentShaper.ShaperSlot.GetLivePwr | src/current_shaper.cpp:115-120 | the instance's `_live_pwr`, 0 without an instance |
| CurrentShaper.ShaperSlot.GetChgCur | src/current_shaper.cpp:121-126 | the instance's `_chg_cur`, 0 without an instance |
| CurrentShaper.ShaperSlot.GetState | src/current_shaper.cpp:127-132 | true exactly when there is an instance and it is enabled |
| CurrentShaper.ShaperSlot.IsActive | src/current_shaper.cpp:134-139 | true exactly when there is an instance and the EVSE manager says the shaper holds a claim, whatever `_enabled` is |
| WebServerStatic.ResolvePath | src/web_server_static.cpp:35-38 | "/" becomes the portal page in access-point-only mode and the home page otherwise; every other path is kept |
| WebServerStatic.FirstMatch | src/web_server_static.cpp:42-52 | a match is found exactly when some entry has the name, and it is the lowest-index such entry |
| WebServerStatic.FileSlot.constructor | src/web_server_static.cpp:59 | the `StaticFile *` local starts null |
| WebServerStatic.GetFile | src/web_server_static.cpp:32-55 | `_getFile` reports a match exactly as `FirstMatch` of the resolved path does, writes that entry through a non-null slot, and writes nothing otherwise |
| WebServerStatic.CanHandle | src/web_server_static.cpp:57-69 | accepts exactly GET requests whose path resolves, and then stashes the first matching entry in `_tempObject`; otherwise `_tempObject` is unchanged |
| WebServerStatic.FileReply | src/web_server_static.cpp:87-104 | 304 with an empty body exactly when `If-None-Match` equals the entry's etag; otherwise 200 with the entry's bytes, its content type, `Connection: close`, an `Etag` header with its etag, the cache header, the CORS header exactly when CORS is on, and no other header |
| WebServerStatic.StaticReply | src/web_server_static.cpp:76-107 | an authentication challenge exactly when the gate fails; otherwise 404 without a stashed entry, and with one the `FileReply` of that entry (200 or 304) |
| WebServerStatic.HandleRequest | src/web_server_static.cpp:71-108 | the reply is `StaticReply` of the stashed entry; a challenged request keeps `_tempObject`, any other ends with it cleared |
| Http.AuthRequired | src/web_server_static.cpp:76-77 | authentication is asked for exactly when the device is not in AP-only mode, a user name is set and the request does not authenticate |
| WebServerStatic.ServeStatic | src/web_server_static.cpp:57-108 | for a GET request: taken exactly when the resolved path is in the table, and then answered from its first matching entry |
| WebServer.PreProcess | src/web_server.cpp:128-149 | the challenge is sent exactly when the gate fails; otherwise the headers include the no-cache header, and the three CORS headers exactly when CORS is on, and no other header |
| WebServer.IsPositive | src/web_server.cpp:154-156 | true exactly for "1" and "true" |
| WebServer.IsPositiveArg | src/web_server.cpp:158-162 | false for an absent argument, true for an empty one, and `isPositive` of its value otherwise |
| WebServer.ScheduleEvent | src/web_server.cpp:566-573 | the event is `SCHEDULER_EVENT_NULL` when the URL is no longer than "/schedule/", and otherwise `toInt` of the rest, modulo 2^16 |
| WebServer.ScheduleEventOfDecimal | src/web_server.cpp:566-573 | "/schedule/" followed by the decimal text of an id below 2^16 selects that id |
| WebServer.ScheduleGet | src/web_server.cpp:496-512 | serializes all events for the null id and one event otherwise; 200 on success, 404 otherwise |
| WebServer.SchedulePost | src/web_server.cpp:515-536 | 400 without calling the scheduler when there is no body; otherwise deserializes all or one event; 200 exactly when there is a body and it parses, 400 otherwise |
| WebServer.ScheduleDelete | src/web_server.cpp:539-554 | 405 without a call exactly for the null id; otherwise removes that event, 200 or 404 |
| WebServer.Schedule | src/web_server.cpp:559-589 | dispatch on the method: GET, POST and DELETE go to `handleScheduleGet`, `handleSchedulePost` and `handleScheduleDelete` of the id parsed from the path; only 200, 400, 404 or 405 occur; other methods get 405 with no scheduler call; DELETE with the null id gets 405 |
| WebServer.DeleteOfIdRemovesIt | src/web_server.cpp:559-589 | DELETE of `/schedule/<n>` for a non-null 16-bit id `n` removes event `n` and answers 200 or 404 after the scheduler's answer |
| WebServer.DeleteWithoutEventIsRefused | src/web_server.cpp:539-554 | DELETE on "/schedule/" itself is refused with 405 |
| WebServer.OverridePost | src/web_server.cpp:622-646 | 400 without a body, 500 with no call when the body does not parse, 500 after the claim when the claim is refused, 201 exactly when the parsed claim succeeds |
| WebServer.Override | src/web_server.cpp:672-693 | 405 with no manual-override call exactly for methods other than GET, POST, DELETE and PATCH; GET 404 without an active override; DELETE and PATCH 200 or 500; POST as `OverridePost` |
| WebServer.RapiHttpCode | src/web_server.cpp:812-877 | 200 exactly for OK and NK, 400 exactly for a blocked command, 500 otherwise |
| WebServer.DelayTimerAfter | src/web_server.cpp:818-820 | an OK `$ST...` command stores its text from index 4 as the delay timer; anything else keeps it |
| WebServer.ReportedResponse | src/web_server.cpp:821-827 | a `$GD` answered NK is reported as "$OK " followed by the delay timer; any other response is reported as received |
| WebServer.Rapi | src/web_server.cpp:773-888 | the page for one call: a challenge and nothing sent when the gate fails; no command unless the query string holds `rapi`; otherwise the code follows `RapiHttpCode` and the reply is JSON exactly when the `json` argument is positive. For an OK or NK result the command is sent once, followed by the `$S` fallback exactly for a refused `$FF`, the delay timer becomes `DelayTimerAfter` and the reported response is `ReportedResponse`; for any other result the command is sent once unless blocked, the timer is kept and the reply names the error |
| WebServer.FfIsNotGd | src/web_server.cpp:822-828 | a command starting with `$FF` is never `$GD`, so the `$GD` emulation and the `$FF` fallback never apply to the same command |
| WebServer.BlockedCommandIsNotSent | src/web_server.cpp:801-877 | a blocked command is never sent, leaves the delay timer alone, and is answered 400 with the name "RAPI_RESPONSE_BLOCKED" |
| WebServer.DelayTimerEmulation | src/web_server.cpp:817-827 | for any requests carrying them, after an OK `$ST` a `$GD` the EVSE refuses is answered 200 with "$OK " plus that `$ST`'s arguments, sending only `$GD` and keeping the timer |
| WebServer.LegacyFallbackKeepsReply | src/web_server.cpp:828-842 | a refused `$FF...` is retried as `$S` plus its text from index 4, and the page still reports the first response with code 200 |
| WebServer.ArmApOff | src/web_server.cpp:243-255 | `/apoff` sets the shutdown deadline to `now + 1000` on 32-bit `unsigned long`, wrapping past 2^32, and leaves the Wi-Fi restart deadline alone |
| WebServer.LoopStep | src/web_server.cpp:1047-1063 | each armed deadline that `now` has passed fires exactly once and is reset to 0, the Wi-Fi restart before the access-point shutdown; no other action; any other deadline is kept |
| WebServer.CountAppend | src/web_server.cpp:1051-1060 | counting actions distributes over concatenation (induction) |
| WebServer.ApOffFiresAtMostOnce | src/web_server.cpp:1057-1060 | over any run of loops, one arming turns the access point off at most once, and a disarmed deadline never fires (induction) |
| WebServer.WifiRestartStaysDisarmed | src/web_server.cpp:1051-1054 | a Wi-Fi restart deadline of 0 stays 0 and never fires (induction) |
| WebServer.ApOffFiresAfterDelay | src/web_server.cpp:254 | away from the clock wrap, the shutdown fires at a loop exactly when it runs more than 1000 ms after `/apoff` |
| WebServer.ApOffArmedAtWrapNeverFires | src/web_server.cpp:254 | an `/apoff` at 2^32 - 1000 ms gets deadline 0 and is never carried out |
| WebServer.ApOffNearWrapFiresAtOnce | src/web_server.cpp:254 | an `/apoff` less than a second before the wrap gets a deadline that has already wrapped, and is carried out at the first loop that runs after it and before the clock wraps |
| WebServer.WebServerState.constructor | src/web_server.cpp:771 | the delay timer starts as "0 0 0 0" (line 771), and both deadlines as 0 (their declarations at lines 50-51) |
| WebServer.WebServerState.HandleRapi | src/web_server.cpp:773-888 | the reply, the commands sent and the new delay timer are those of `Rapi` for the command in the query string, whatever the `$FF` fallback's own result and response are; the deadlines are unchanged |
| WebServer.ErrorName | src/web_server.cpp:855-867 | the error text is "UNKNOWN" exactly for a result outside the named codes, otherwise starts with `RAPI_RESPONSE_`, and is "RAPI_RESPONSE_BLOCKED" exactly for a blocked command |
| WebServer.FallbackCommand | src/web_server.cpp:832-833 | the legacy command starts with `$S` and continues with the original command from its fifth character on (nothing more when that is shorter than five) |
| ArduinoString.StartsWith | src/web_server.cpp:818 | `startsWith(p)` holds exactly when `p` is no longer than the string and equals its first characters |
| WebServer.WebServerState.HandleApOff | src/web_server.cpp:243-255 | the gate passed: answers 200 and arms the deadline by `ArmApOff`; gate failed: no answer and nothing changes |
| WebServer.WebServerState.Loop | src/web_server.cpp:1047-1063 | the new deadlines and the actions taken are those of `LoopStep` |
| WebServer.Splice | src/web_server.cpp:949 | `memcpy` of the chunk at `index`: those bytes are the chunk's, every other byte is kept |
| WebServer.Zeros | src/web_server.cpp:945 | `calloc`'s buffer: every byte 0 |
| WebServer.HandleBody | src/web_server.cpp:943-951 | a chunk of a body with `0 < total < 1 MiB` that finds no buffer gets a fresh zeroed buffer of `total + 1` bytes when `calloc` succeeds; an oversized or empty body, or a failed `calloc`, leaves `_tempObject` empty; every chunk is copied into an existing buffer at its offset |
| WebServer.DroppedBodySchedulePost | src/web_server.cpp:943-951 | a schedule POST whose body is 1 MiB or more, or whose buffer `calloc` cannot provide, is answered 400 without a scheduler call |

## Left out

- `MicroTasks` scheduling and `setup` are left out. The task's wake-up is modelled as a
  call of `Loop(now)`, and the delay it returns is a value.
- `millis()` is the parameter `now`. Where the source reads `millis()` twice in one call
  (`loop`, `web_server_loop`), the model reads one value.
- `event_send` and the EVSE manager's `claim`, `release` and `clientHasClaim` keep
  their code out of the model. Calls to them are recorded in the ghost trace, and
  `clientHasClaim` is an input. Claim arbitration between clients is not modelled.
- CurrentShaper.ChargeCurrent: the source divides doubles (`getAmps()`, `getVoltage()`)
  and rounds. The model uses integer amps and voltage with `voltage > 0` and rounds
  the exact rational quotient. A double that does not fit a `uint8_t` is undefined
  behaviour in C++; the model reduces it modulo 256. `_max_pwr - _live_pwr` is `int`
  arithmetic done before the double is added; its overflow is undefined behaviour in
  C++, and the model's difference is unbounded.
- The `public`/`protected` split of `CurrentShaperTask` is not enforced: `ShapeCurrent`
  is a method like the others.
- The inline `isActive` of the header (it does not test `instance`) is not modelled.
  The out-of-line definition in the .cpp is. So are `setState`, `getChgCur` and
  `getState`, which the header does not declare.
- `EVSE_SHAPER_LOOP_TIME` and `EVSE_SHAPER_FAILSAFE_TIME` are the constants 2000 and
  60000. Overrides of them by an earlier `#define` are not modelled.
- The fields the constructor leaves uninitialised are not modelled as undefined. The
  constructor's contract says nothing about them.
- Strings are sequences of characters with one character per byte. Arduino's `String`
  counts the bytes of the URL-decoded path, so `length()`, `substring()` and
  `ScheduleEvent` agree with the source only when every character of the path is one
  byte (a path such as `/schedule%C3%A95` is outside the model).
- ArduinoString.ToInt: `toInt` returns a 32-bit `long`. The model's value is unbounded,
  so the overflow of very long digit strings is not modelled.
- `SCHEDULER_EVENT_NULL` has no value in the files modelled, so it is the parameter
  `eventNull`. The numeric values of the `RAPI_RESPONSE_*` codes (other than -300) are
  not shown either, so results are a datatype. The assignment `ret = 0` after the
  `$GD` emulation is dropped, because nothing reads `ret` afterwards.
- The text of the pages (the HTML around a RAPI reply, the JSON messages) is not
  modelled. Replies are datatypes naming the code, the command and the response or
  error. The serialization of schedules and override properties is left out.
- Sending RAPI commands, the scheduler, the manual override and `authenticate` keep
  their code out of the model; their answers are inputs.
- Concurrency between the web server's tasks and the shaper's setters is not
  modelled. Every operation is one sequential step.
- WebServerStatic.HandleRequest: it requires that `_tempObject` does not hold a body
  buffer. `canHandle` only takes GET requests, and the library does not give a GET
  such a buffer here.
- WebServer.HandleBody: it requires what the web server library guarantees. The chunk
  lies inside the body, an existing buffer was allocated for this body, and
  `_tempObject` does not hold a static-file entry.
- Http.Request: `hasParam` looks only at the query string, `hasArg` and `arg` at query
  and form body together. The model keeps the two as the maps `query` and `args` and
  takes `arg(name)` to be the query value when the query holds `name`, since the
  library parses the query parameters first.
- `StaticFileResponse` and the header-only declarations of the static handler are left
  out. The files modelled contain no code for them.
- The handlers outside these decisions are left out: scan, status, set-time,
  configuration, Tesla, OhmConnect, reset and restart, RFID, event logs, update, the
  schedule plan, not-found, the WebSocket handler, `web_server_setup` routing,
  `web_server_event` and `dumpRequest`. They are plumbing around the network library
  and around components whose code is not part of this model.
