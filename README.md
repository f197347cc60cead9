# OCPP 1.6 JSON charge point and central system, in Dafny

This project models the core of a minimal OCPP 1.6 JSON pair. On one side is a
charge-point client that runs one scripted charging session against a central
system. On the other is a central-system server that answers only
BootNotification. The modelled source files are `ocpp16_min/common.py`,
`ocpp16_min/client.py` and `ocpp16_min/server.py`.

- `wrappers.dfy`: `Option` and `Result`. `Failure` carries the text of the
  `ValueError` the source raises.
- `json.dfy`: decoded JSON values. `Json` is null, bool, int, string, list or
  object. `Decoded` is either a parsed value or a decoder error message, so
  JSON text itself is not modelled. `Get` is `dict.get` with `None`, and
  `IsIntInstance` is Python's `isinstance(x, int)`, which bools also pass.
- `decimal.dfy`: `str(n)` on integers, and the integer literals `int()`
  accepts, with the round trip between them.
- `common.dfy`: the frame builders for CALL, CALLRESULT and CALLERROR. Also:
  - `validate_call`, whose checks run in order and each raise their own message;
  - `parse_call_result_payload` and `coerce_int`;
  - the seven CALL builders;
  - `get_charging_profile_id`;
  - the `SessionState` record, as a class, because `main` updates its
    `meter_stop` field in place.
- `client.py` is modelled in `client.dfy`:
  - `_parse_response` becomes a function from the decoded reply and the
    expected uid to the payload and failure flag.
  - The acceptance rules for each reply are predicates over the reply payloads.
  - The heartbeat loop and the metering loop are methods with loops. Each is
    proved against a specification of the frames it sends and of when it
    raises the shared error flag.
  - `main` is modelled by `OpenSession` (BootNotification to
    SetChargingProfile) and `Run` (the session, from the two tasks to the
    exit code).
- `server.py` is modelled in `server.dfy`:
  - the charge-point id taken from the connection path;
  - the decision for one inbound message, as a pure `Decide`;
  - the per-connection loop, as a method over the inbound messages.
- `conversation.dfy` connects the two sides. The server's BootNotification
  reply passes the client's acceptance rules, with a heartbeat interval of
  30. The server's NotSupported reply fails every other exchange, so a session
  whose StatusNotification this server answers never completes and ends with
  result 1.

Inputs from the environment are parameters:
- every generated uid (`uuid4`);
- every clock reading (`utc_now_iso_z`);
- each reply the client receives, as an `Exchange(uid, now, reply)`;
- each message the server receives, as an `Inbound(message, now)`.

For the client's two concurrent tasks, a `Script` holds two more inputs:
- The metering loop tests the stop signal before and after each 5-second wait.
  `meterStopSeenAt` is the number of the first of those tests that sees the
  signal set.
- `heartbeatsInWindow` is the number of heartbeat exchanges that finish before
  the metering task is joined. A heartbeat failure inside that window is seen
  right after the join. A later one is seen after StopTransaction.

The server keeps no session registry and answers only BootNotification;
every other action gets a NotSupported CALLERROR
(`ocpp16_min/server.py:104-109`).

## Model

| member | source | states |
|---|---|---|
| Common.ValidateCall | ocpp16_min/common.py:37-51 | Success exactly when the message is a 4-element list with tag 2, a non-empty string uid and action, and an object payload; the checks run in the source's order, each failure carries its own message, and on success the parts rebuild the message with `make_call` |
| Common.MakeCall | ocpp16_min/common.py:13-14 | Builds the CALL `[2, uid, action, payload]`; CallRoundTrip proves `validate_call` gives back its parts, and BuiltCallsValidate proves the same for every builder's frame |
| Common.MakeCallResult | ocpp16_min/common.py:17-18 | Builds `[3, uid, payload]`; CallResultRoundTrip proves it is recognised and its payload extracted unchanged |
| Common.MakeCallError | ocpp16_min/common.py:21-22 | Builds `[4, uid, code, description, details or {}]`; CallErrorShape proves the positions and that it is neither a CALL nor a CALLRESULT |
| Common.IsCall | ocpp16_min/common.py:29-30 | A list of length 4 with tag 2; ValidateCall's contract proves every accepted frame passes it |
| Common.IsCallResult | ocpp16_min/common.py:33-34 | A list of length at least 3 with tag 3; ParseCallResultPayload succeeds only on such frames, and CallErrorShape proves a CALLERROR never passes it |
| Common.CallRoundTrip | ocpp16_min/common.py:13-14 | `validate_call(make_call(uid, action, payload))` returns those parts when uid and action are non-empty |
| Common.ParseCallResultPayload | ocpp16_min/common.py:204-210 | Success exactly when the message is a list of length at least 3 with tag 3 and an object third element, and then the payload is that object; otherwise the fixed error message |
| Common.CallResultRoundTrip | ocpp16_min/common.py:17-18 | A CALLRESULT built by `make_call_result` is recognised as a CALLRESULT, and parsing it gives back its payload |
| Common.CallErrorShape | ocpp16_min/common.py:21-22 | A CALLERROR is the five elements tag 4, uid, code, description and details, with empty details when none are given; it is neither a CALL nor a CALLRESULT |
| Common.CoerceInt | ocpp16_min/common.py:213-217 | Ints are returned unchanged and bools as 0/1; a string is accepted exactly when it is a signed decimal literal (such as "+7" or "007"), and gives that literal's value; any other value fails with "<field> must be an integer" |
| Common.CoerceDecimalRoundTrip | ocpp16_min/common.py:213-217 | `coerce_int(str(n))` returns n for every integer n |
| Decimal.DigitsRoundTrip | ocpp16_min/common.py:118 | The decimal digits of a natural number are non-empty, all digits, and read back as that number |
| Decimal.DecimalRoundTrip | ocpp16_min/common.py:118 | `str(n)` of any integer is an integer literal, and that literal reads back as n |
| Common.PyInt | ocpp16_min/common.py:190-193 | Python's `int()` on decoded values: ints unchanged, bools as 0/1, signed decimal literals by their value, else none; CoerceInt's contract and CoerceDecimalRoundTrip state what it accepts and that it reads `str(n)` back as n |
| Common.MakeHeartbeatCall | ocpp16_min/common.py:54-55 | Heartbeat CALL with an empty payload; BuiltCallsValidate and BuilderUid give its action and uid |
| Common.MakeStatusNotificationCall | ocpp16_min/common.py:58-70 | StatusNotification CALL with connector, status, error code and the current time; BuiltCallsValidate gives its action and uid |
| Common.MakeStartTransactionCall | ocpp16_min/common.py:73-86 | StartTransaction CALL with connector, id tag, `meterStart` and the given timestamp or the current time; BuiltCallsValidate gives its action and uid |
| Common.MakeStopTransactionCall | ocpp16_min/common.py:89-104 | StopTransaction CALL with transaction id, `meterStop`, timestamp, id tag and reason; BuiltCallsValidate gives its action and uid, and Client.Run its contents in the session |
| Common.MakeMeterValuesCall | ocpp16_min/common.py:107-130 | MeterValues CALL; MeterValuesPayload proves the optional `transactionId` and the energy as decimal text |
| Common.MakeSetChargingProfileCall | ocpp16_min/common.py:133-159 | SetChargingProfile CALL with the nested profile; SetChargingProfileId proves its id is found again |
| Common.MakeClearChargingProfileCall | ocpp16_min/common.py:162-166 | ClearChargingProfile CALL; ClearChargingProfilePayload proves the optional id key and its read-back |
| Common.BuilderUid | ocpp16_min/common.py:54-55 | A builder uses the uid it is given, or a freshly generated one, which is never empty |
| Common.BuiltCallsValidate | ocpp16_min/common.py:54-104 | For all arguments, the Heartbeat, StatusNotification, StartTransaction and StopTransaction CALLs pass `validate_call` with the builder's action name and with the given uid, or the generated one |
| Common.ChargingCallsValidate | ocpp16_min/common.py:107-166 | For all arguments, the MeterValues, SetChargingProfile and ClearChargingProfile CALLs pass `validate_call` with the builder's action name and with the given uid, or the generated one |
| Common.ClearChargingProfilePayload | ocpp16_min/common.py:162-166 | The ClearChargingProfile payload has a `chargingProfileId` key exactly when a profile id is given, no other key, and `get_charging_profile_id` reads that id back |
| Common.MeterValuesPayload | ocpp16_min/common.py:107-130 | The payload has `transactionId` exactly when one is given; the energy sample is the decimal string of the energy, and `coerce_int` reads the energy back from it |
| Common.GetChargingProfileId | ocpp16_min/common.py:177-193 | A non-object gives none; a top-level `chargingProfileId` key is used whenever present (even when null), else the id inside an object `chargingProfile`; the value found is converted as `int()` does, and null or an unconvertible value gives none |
| Common.TopLevelProfileIdWins | ocpp16_min/common.py:180-187 | With a top-level `chargingProfileId` key, `chargingProfile` makes no difference, and a top-level null gives none |
| Common.SetChargingProfileId | ocpp16_min/common.py:133-159 | `get_charging_profile_id` reads back the profile id that `make_set_charging_profile_call` put in the nested profile |
| Common.SessionState.constructor | ocpp16_min/common.py:230-235 | The record holds the four values it is built with |
| Client.ParseResponse | ocpp16_min/client.py:73-106 | The reply is accepted exactly when it decodes to a CALLRESULT (tag 3, an object payload) whose uid is the expected one (not checked when the expected uid is empty); on acceptance the payload is returned; otherwise there is no payload and the failure flag is set |
| Client.RejectedReplies | ocpp16_min/client.py:80-91 | Undecodable text, a uid other than the (non-empty) expected one, and a tag other than 3 each fail the exchange |
| Client.CallErrorFails | ocpp16_min/client.py:100-104 | A CALLERROR reply always fails the exchange |
| Client.CallResultAccepted | ocpp16_min/client.py:92-99 | A CALLRESULT echoing the expected uid is accepted with its payload |
| Client.StatusAccepted | ocpp16_min/client.py:194-195 | The reply's `status` is "Accepted" (also used at client.py:267 and 308); Conversation.BootNotificationAccepted proves the server's boot reply meets it |
| Client.IdTagAccepted | ocpp16_min/client.py:328-329 | `idTagInfo`, default `{}`, is an object whose `status` is "Accepted" (also used at client.py:232-236); IdTagInfoRequired proves a reply without `idTagInfo` fails it |
| Client.IdTagInfoRequired | ocpp16_min/client.py:232-236 | A StartTransaction reply without `idTagInfo` is not accepted and yields no transaction id |
| Client.HeartbeatInterval | ocpp16_min/client.py:200-202 | The interval is the BootNotification reply's `interval` when that is a positive int (a bool counts as 0/1), else 10; it is always positive |
| Client.StartedTransactionId | ocpp16_min/client.py:231-238 | A transaction id is returned exactly when `transactionId` is an int instance and `idTagInfo` (default `{}`) is an object whose `status` is "Accepted" |
| Client.HeartbeatLoop | ocpp16_min/client.py:109-128 | The loop sends at most `max_count` Heartbeat CALLs, the i-th under the i-th generated uid; it raises the error flag exactly when some reply within `max_count` is not acknowledged, stops at the first such reply, and sends all `max_count` when none fails |
| Client.MeterValuesCallsAt | ocpp16_min/client.py:140-150 | The k-th MeterValues CALL carries the transaction id and an energy of the start value plus 100 × (k+1), which is incremented before the send |
| Client.SendMeterValues | ocpp16_min/client.py:145-156 | One metering round sends the MeterValues CALL of the metering specification for that round's energy, and reports whether its reply was acknowledged |
| Client.MeterValuesLoop | ocpp16_min/client.py:131-159 | The frames sent are those of the metering specification, one per completed wait before the stop signal is seen; the final energy is the start value plus 100 per CALL sent; the error flag is raised exactly when a reply within that window is not acknowledged, and the loop stops there |
| Client.HeartbeatFailureAtJoin | ocpp16_min/client.py:288-293 | A heartbeat failure is seen at the join exactly when a heartbeat within the window is not acknowledged |
| Client.RunTasks | ocpp16_min/client.py:272-293 | The error flag is raised by the join exactly when a metering reply fails, or a heartbeat within the window fails; otherwise the metering counter is the start value plus 100 per completed round |
| Client.ClearChargingProfile | ocpp16_min/client.py:295-311 | ClearChargingProfile succeeds exactly when its reply is acknowledged with status "Accepted" |
| Client.StopTransaction | ocpp16_min/client.py:313-332 | The StopTransaction CALL carries the session's transaction id and final meter reading, with id tag "TEST" and reason "Local"; it succeeds exactly when the reply is acknowledged with an accepted `idTagInfo` |
| Client.OpenSession | ocpp16_min/client.py:185-270 | The session continues, with the started transaction id, exactly when BootNotification is accepted, StatusNotification is acknowledged, StartTransaction yields a transaction id and SetChargingProfile is accepted |
| Client.Run | ocpp16_min/client.py:162-337 | Result 0 exactly when every reply meets its acceptance rule and neither periodic task failed, otherwise 1; StopTransaction is sent exactly when the session gets past ClearChargingProfile, with the started transaction id, id tag "TEST", reason "Local" and `meterStop` = 100 × the number of MeterValues CALLs sent |
| Server.CallError | ocpp16_min/server.py:55-56 | The server's CALLERROR is `make_call_error` with empty details, echoing the uid value |
| Server.StripLeadingSlashes | ocpp16_min/server.py:69 | Python's `lstrip("/")`; StripLeadingSlashesSuffix and StripSlashesPrefix state what it removes and keeps |
| Server.StripLeadingSlashesSuffix | ocpp16_min/server.py:69 | `lstrip("/")` removes only slashes, leaves a suffix of its input, and leaves nothing that starts with a slash |
| Server.ChargePointId | ocpp16_min/server.py:69 | The charge-point id is never empty and never starts with a slash |
| Server.StripSlashesPrefix | ocpp16_min/server.py:69 | Stripping removes any number of leading slashes and keeps the rest intact |
| Server.ChargePointIdOfPath | ocpp16_min/server.py:65-69 | The id is the connection's path, or else the handshake request's path (`ResolvePath`), without its leading slashes; it is "unknown" when neither path is known or nothing is left |
| Server.BootResultPayload | ocpp16_min/server.py:115-119 | Status "Accepted", the current time and interval 30; Conversation.BootNotificationAccepted proves the client accepts it and adopts 30 |
| Server.Decide | ocpp16_min/server.py:86-122 | Each of the four refusals (undecodable text, not a list, wrong length, tag other than 2) and a non-object BootNotification payload closes with its own diagnostic; any other action gets a NotSupported CALLERROR (before the payload is looked at); a BootNotification with an object payload gets an Accepted CALLRESULT with interval 30 and the current time; replies echo the uid |
| Server.ThreeElementFrameClosed | ocpp16_min/server.py:95-97 | A three-element list is refused for its length |
| Server.ValidBootAccepted | ocpp16_min/server.py:104-122 | Every message `validate_call` accepts as a BootNotification is answered with the Accepted CALLRESULT |
| Server.HandleClient | ocpp16_min/server.py:80-123 | Each inbound message, up to and including the first one that closes the connection, gets exactly one outbound message (its verdict's diagnostic or frame); after that one, the connection closes with code 1002 and the diagnostic as reason, and nothing more is read |
| Conversation.BootNotificationAccepted | ocpp16_min/server.py:115-122 | The server's BootNotification reply is accepted by the client's rules, with status Accepted and a heartbeat interval of 30 |
| Conversation.OtherActionsFail | ocpp16_min/server.py:104-109 | The server answers any action other than BootNotification with NotSupported, and that reply fails the client's exchange |
| Conversation.SessionFailsAgainstServer | ocpp16_min/client.py:209-215 | When StatusNotification is answered by this server, the session neither completes nor reaches StopTransaction, so by `Client.Run`'s contract it ends with result 1 |

## Left out

- JSON text: encoding and decoding are not modelled. The server and client work on already-decoded values, and a decode error is a `Malformed` value with its message. Object key order is not modelled, because `map` is unordered.
- Floating point: `make_set_charging_profile_call` takes `limit_kw` and sends `limit_kw * 1000`. The model takes the limit directly as whole watts (7000).
- Common.CoerceInt: does not model the whitespace, underscores and non-ASCII digits that Python's `int()` also accepts. It does not model floats, which `int()` truncates. Strings are limited to an optional sign followed by ASCII digits.
- `new_uid`, `utc_now_iso_z`, `parse_message`, `parse_iso_z`: the uid and clock are inputs; `parse_message` is JSON decoding; `parse_iso_z` is not used by the modelled code.
- `is_set_charging_profile` / `is_clear_charging_profile`: single string comparisons that the modelled code never calls.
- Concurrency: asyncio tasks, the websocket lock, cancellation and sleeps are not modelled. Client.Run runs the heartbeat and metering loops one after the other. Their interleaving is summarised by two `Script` inputs: the stop-signal test number and the heartbeat window. The order of frames on the shared socket is therefore not modelled.
- Client.HeartbeatInterval: the interval is computed, but it only sets the length of sleeps, so it has no effect on the modelled behaviour.
- Client.Run: requires the scripted replies to cover every request the loops may send. A peer that never answers (a `recv` that blocks) is not modelled.
- Client.Run: the metering counter (`energy_state`) is an out-parameter of the metering loop instead of a shared dict.
- Client.Run: the local `state` variable (BOOTING/AVAILABLE) is only logged, so it is left out. The fixed BootNotification payload is also left out, because the model checks only the reply to it.
- Tracing, logging, environment variables, the WebSocket transport, header propagation, and the `ConnectionClosed` / `ConnectionRefusedError` handlers are I/O and are not modelled.
- The top-level `server.py` and `client.py` are not part of this model.
- Decoded JSON numbers are integers only, because `Json` has no non-integer numbers. So the model does not capture three behaviours. A tag `2.0` passes the server's `message_type != CALL` test (`ocpp16_min/server.py:100`). A tag `3.0` passes the client's `msg_type == 3` test (`ocpp16_min/client.py:92`). An `interval` of `30.0` fails the `isinstance(interval, int)` test and gives 10 (`ocpp16_min/client.py:201`).
