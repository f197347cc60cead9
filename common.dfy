/**
 * The OCPP-J 1.6 frame codec shared by the charge point and the central
 * system (ocpp16_min/common.py): builders for the three frame shapes and for
 * the CALLs the charge point sends, the structural CALL check, the CALLRESULT
 * recogniser and extractor, the charging-profile-id extractor and integer
 * coercion.
 *
 * Frames follow the RPC framework of section 4 of the OCPP-J 1.6
 * specification: CALL = 2, CALLRESULT = 3, CALLERROR = 4.
 *
 * Generated uids (uuid4) and the wall clock are inputs: a builder takes the
 * uid its caller passed (`uid`), the uid the generator would produce if that
 * one is missing or empty (`generated`), and the current time (`now`).
 */
module Common {
  import opened Wrappers
  import opened Json
  import opened Decimal

  const CALL := 2
  const CALL_RESULT := 3
  const CALL_ERROR := 4

  /** The three parts `validate_call` returns for a well-formed CALL. */
  datatype CallParts = CallParts(uid: string, action: string, payload: map<string, Json>)

  /*
   * Frame builders
   */

  function MakeCall(uid: string, action: string, payload: map<string, Json>): Json
  {
    JArray([JInt(CALL), JString(uid), JString(action), JObject(payload)])
  }

  /** The server echoes whatever value stood in the uid position, so the uid is any JSON value. */
  function MakeCallResult(uid: Json, payload: map<string, Json>): Json
  {
    JArray([JInt(CALL_RESULT), uid, JObject(payload)])
  }

  /** `details or {}`: absent (or empty) details become the empty object. */
  function MakeCallError(uid: Json, code: string, description: string, details: Option<map<string, Json>>): Json
  {
    JArray([JInt(CALL_ERROR), uid, JString(code), JString(description),
            JObject(if details.Some? then details.value else map[])])
  }

  /** Python's `given or fallback` on an optional string: None and "" are both falsy. */
  function OrElse(given: Option<string>, fallback: string): string
  {
    if given.Some? && given.value != "" then given.value else fallback
  }

  /*
   * Frame recognisers and the structural CALL check
   */

  predicate IsCall(msg: Json)
  {
    msg.JArray? && |msg.items| == 4 && msg.items[0] == JInt(CALL)
  }

  predicate IsCallResult(msg: Json)
  {
    msg.JArray? && |msg.items| >= 3 && msg.items[0] == JInt(CALL_RESULT)
  }

  predicate IsNonEmptyString(v: Json)
  {
    v.JString? && v.str != ""
  }

  /**
   * Checks, in order: list, length 4, tag 2, non-empty string uid, non-empty
   * string action, object payload; the first check that fails names the error.
   */
  function ValidateCall(msg: Json): (r: Result<CallParts>)
    ensures r.Success? ==> IsCall(msg)
    ensures r.Success? <==>
      IsCall(msg) && IsNonEmptyString(msg.items[1]) && IsNonEmptyString(msg.items[2]) && msg.items[3].JObject?
    ensures r.Success? ==> MakeCall(r.value.uid, r.value.action, r.value.payload) == msg
    ensures r == Failure("frame must be a JSON list") <==> !msg.JArray?
    ensures r == Failure("CALL frame must have length 4") <==> msg.JArray? && |msg.items| != 4
    ensures r == Failure("MessageTypeId must be 2 (CALL)") <==>
      msg.JArray? && |msg.items| == 4 && msg.items[0] != JInt(CALL)
    ensures r == Failure("CALL uid must be a non-empty string") <==>
      IsCall(msg) && !IsNonEmptyString(msg.items[1])
    ensures r == Failure("CALL action must be a non-empty string") <==>
      IsCall(msg) && IsNonEmptyString(msg.items[1]) && !IsNonEmptyString(msg.items[2])
    ensures r == Failure("CALL payload must be an object") <==>
      IsCall(msg) && IsNonEmptyString(msg.items[1]) && IsNonEmptyString(msg.items[2]) && !msg.items[3].JObject?
  {
    if !msg.JArray? then Failure("frame must be a JSON list")
    else if |msg.items| != 4 then Failure("CALL frame must have length 4")
    else
      var messageType, uid, action, payload := msg.items[0], msg.items[1], msg.items[2], msg.items[3];
      if messageType != JInt(CALL) then Failure("MessageTypeId must be 2 (CALL)")
      else if !uid.JString? || uid.str == "" then Failure("CALL uid must be a non-empty string")
      else if !action.JString? || action.str == "" then Failure("CALL action must be a non-empty string")
      else if !payload.JObject? then Failure("CALL payload must be an object")
      else Success(CallParts(uid.str, action.str, payload.fields))
  }

  /** Every CALL that `make_call` builds passes `validate_call` and gives back its parts. */
  lemma CallRoundTrip(uid: string, action: string, payload: map<string, Json>)
    requires uid != "" && action != ""
    ensures IsCall(MakeCall(uid, action, payload))
    ensures ValidateCall(MakeCall(uid, action, payload)) == Success(CallParts(uid, action, payload))
  {
  }

  /** The payload of a CALLRESULT, or the error `parse_call_result_payload` raises. */
  function ParseCallResultPayload(msg: Json): (r: Result<map<string, Json>>)
    ensures r.Success? <==> IsCallResult(msg) && msg.items[2].JObject?
    ensures r.Success? ==> r.value == msg.items[2].fields
    ensures r.Failure? ==>
      r.error == if IsCallResult(msg) then "CALLRESULT payload must be an object" else "CALLRESULT frame expected"
  {
    if !msg.JArray? || |msg.items| < 3 || msg.items[0] != JInt(CALL_RESULT) then Failure("CALLRESULT frame expected")
    else
      var payload := msg.items[2];
      if !payload.JObject? then Failure("CALLRESULT payload must be an object")
      else Success(payload.fields)
  }

  /** The payload that `make_call_result` wraps is the one the CALLRESULT extractor returns. */
  lemma CallResultRoundTrip(uid: Json, payload: map<string, Json>)
    ensures IsCallResult(MakeCallResult(uid, payload))
    ensures ParseCallResultPayload(MakeCallResult(uid, payload)) == Success(payload)
  {
  }

  /**
   * A CALLERROR has tag 4, then the uid, code and description, and always an
   * object as details; it is neither a CALL nor a CALLRESULT.
   */
  lemma CallErrorShape(uid: Json, code: string, description: string, details: Option<map<string, Json>>)
    ensures var frame := MakeCallError(uid, code, description, details);
      && |frame.items| == 5 && frame.items[0] == JInt(CALL_ERROR) && frame.items[1] == uid
      && frame.items[2] == JString(code) && frame.items[3] == JString(description)
      && frame.items[4] == JObject(if details.Some? then details.value else map[])
      && !IsCall(frame) && !IsCallResult(frame)
      && ParseCallResultPayload(frame) == Failure("CALLRESULT frame expected")
  {
  }

  /*
   * Integer coercion
   */

  /**
   * Python's `int(value)` on the values of this model: ints unchanged, the
   * booleans as 0 and 1, plain decimal strings by their value; None for the
   * values on which `int` raises TypeError or ValueError.
   */
  function PyInt(value: Json): Option<int>
  {
    match value
    case JInt(n) => Some(n)
    case JBool(b) => Some(if b then 1 else 0)
    case JString(s) => if IsIntLiteral(s) then Some(ParseIntLiteral(s)) else None
    case _ => None
  }

  function CoerceInt(value: Json, fieldName: string): (r: Result<int>)
    ensures value.JInt? ==> r == Success(value.i)
    ensures value.JBool? ==> r == Success(if value.b then 1 else 0)
    ensures value.JString? && IsIntLiteral(value.str) ==> r == Success(ParseIntLiteral(value.str))
    ensures r.Failure? <==> !IsIntInstance(value) && !(value.JString? && IsIntLiteral(value.str))
    ensures r.Failure? ==> r.error == fieldName + " must be an integer"
  {
    match PyInt(value)
    case Some(n) => Success(n)
    case None => Failure(fieldName + " must be an integer")
  }

  /** `coerce_int` reads back the decimal text of any integer as that integer. */
  lemma CoerceDecimalRoundTrip(n: int, fieldName: string)
    ensures CoerceInt(JString(DecimalString(n)), fieldName) == Success(n)
  {
    DecimalRoundTrip(n);
  }

  /*
   * CALL builders for the actions the charge point sends
   */

  function MakeHeartbeatCall(uid: Option<string>, generated: string): Json
  {
    MakeCall(OrElse(uid, generated), "Heartbeat", map[])
  }

  function MakeStatusNotificationCall(uid: Option<string>, generated: string, connectorId: int,
                                      status: string, errorCode: string, now: string): Json
  {
    MakeCall(OrElse(uid, generated), "StatusNotification",
             map["connectorId" := JInt(connectorId), "status" := JString(status),
                 "errorCode" := JString(errorCode), "timestamp" := JString(now)])
  }

  function MakeStartTransactionCall(uid: Option<string>, generated: string, connectorId: int, idTag: string,
                                    meterStart: int, timestamp: Option<string>, now: string): Json
  {
    MakeCall(OrElse(uid, generated), "StartTransaction",
             map["connectorId" := JInt(connectorId), "idTag" := JString(idTag),
                 "meterStart" := JInt(meterStart), "timestamp" := JString(OrElse(timestamp, now))])
  }

  /** The transaction id is passed on as the JSON value the charge point received. */
  function MakeStopTransactionCall(uid: Option<string>, generated: string, transactionId: Json, idTag: string,
                                   meterStop: int, timestamp: Option<string>, reason: string, now: string): Json
  {
    MakeCall(OrElse(uid, generated), "StopTransaction",
             map["transactionId" := transactionId, "meterStop" := JInt(meterStop),
                 "timestamp" := JString(OrElse(timestamp, now)), "idTag" := JString(idTag),
                 "reason" := JString(reason)])
  }

  /** `transactionId` is JNull when no transaction id is given (Python's None). */
  function MakeMeterValuesCall(uid: Option<string>, generated: string, connectorId: int, transactionId: Json,
                               energyWh: int, timestamp: Option<string>, now: string): Json
  {
    var sample := JObject(map["value" := JString(DecimalString(energyWh)),
                              "measurand" := JString("Energy.Active.Import.Register"),
                              "unit" := JString("Wh")]);
    var entry := JObject(map["timestamp" := JString(OrElse(timestamp, now)),
                             "sampledValue" := JArray([sample])]);
    var payload := map["connectorId" := JInt(connectorId), "meterValue" := JArray([entry])];
    var payload := if transactionId != JNull then payload["transactionId" := transactionId] else payload;
    MakeCall(OrElse(uid, generated), "MeterValues", payload)
  }

  /** The limit is given in watts (the source converts a kW float with `int(limit_kw * 1000)`). */
  function MakeSetChargingProfileCall(uid: Option<string>, generated: string, connectorId: int,
                                      profileId: int, limitW: int): Json
  {
    var period := JObject(map["startPeriod" := JInt(0), "limit" := JInt(limitW)]);
    var schedule := JObject(map["chargingRateUnit" := JString("W"), "chargingSchedulePeriod" := JArray([period])]);
    var profile := JObject(map["chargingProfileId" := JInt(profileId), "stackLevel" := JInt(1),
                               "chargingProfilePurpose" := JString("TxProfile"),
                               "chargingProfileKind" := JString("Absolute"),
                               "chargingSchedule" := schedule]);
    MakeCall(OrElse(uid, generated), "SetChargingProfile",
             map["connectorId" := JInt(connectorId), "chargingProfile" := profile])
  }

  function MakeClearChargingProfileCall(uid: Option<string>, generated: string, profileId: Option<int>): Json
  {
    var payload := if profileId.Some? then map["chargingProfileId" := JInt(profileId.value)] else map[];
    MakeCall(OrElse(uid, generated), "ClearChargingProfile", payload)
  }

  /** A builder's CALL carries the uid the caller gave, or else the generated one, and is well formed. */
  lemma BuilderUid(uid: Option<string>, generated: string)
    requires generated != ""
    ensures var u := OrElse(uid, generated);
      && u != ""
      && (uid.Some? && uid.value != "" ==> u == uid.value)
      && (uid.None? || uid.value == "" ==> u == generated)
      && ValidateCall(MakeHeartbeatCall(uid, generated)) == Success(CallParts(u, "Heartbeat", map[]))
  {
  }

  /**
   * Every session CALL the builders make (Heartbeat, StatusNotification,
   * StartTransaction, StopTransaction) passes `validate_call`, under the
   * builder's action name and uid.
   */
  lemma BuiltCallsValidate(uid: Option<string>, generated: string, connectorId: int, connectorStatus: string,
                           errorCode: string, idTag: string, meter: int, transactionId: Json, reason: string,
                           timestamp: Option<string>, now: string)
    requires generated != ""
    ensures var u := OrElse(uid, generated);
      && ValidateCall(MakeHeartbeatCall(uid, generated)) == Success(CallParts(u, "Heartbeat", map[]))
      && var status := ValidateCall(MakeStatusNotificationCall(uid, generated, connectorId, connectorStatus,
                                                               errorCode, now));
      && status.Success? && status.value.uid == u && status.value.action == "StatusNotification"
      && var start := ValidateCall(MakeStartTransactionCall(uid, generated, connectorId, idTag, meter, timestamp, now));
      && start.Success? && start.value.uid == u && start.value.action == "StartTransaction"
      && var stop := ValidateCall(MakeStopTransactionCall(uid, generated, transactionId, idTag, meter, timestamp,
                                                          reason, now));
      && stop.Success? && stop.value.uid == u && stop.value.action == "StopTransaction"
  {
    var u := OrElse(uid, generated);
    BuiltCallValid(MakeHeartbeatCall(uid, generated), u, "Heartbeat");
    BuiltCallValid(MakeStatusNotificationCall(uid, generated, connectorId, connectorStatus, errorCode, now),
                   u, "StatusNotification");
    BuiltCallValid(MakeStartTransactionCall(uid, generated, connectorId, idTag, meter, timestamp, now),
                   u, "StartTransaction");
    BuiltCallValid(MakeStopTransactionCall(uid, generated, transactionId, idTag, meter, timestamp, reason, now),
                   u, "StopTransaction");
  }

  /**
   * Every metering and charging-profile CALL the builders make (MeterValues,
   * SetChargingProfile, ClearChargingProfile) passes `validate_call`, under
   * the builder's action name and uid.
   */
  lemma ChargingCallsValidate(uid: Option<string>, generated: string, connectorId: int, transactionId: Json,
                              energyWh: int, profileId: int, limitW: int, clearedId: Option<int>,
                              timestamp: Option<string>, now: string)
    requires generated != ""
    ensures var u := OrElse(uid, generated);
      && var meterValues := ValidateCall(MakeMeterValuesCall(uid, generated, connectorId, transactionId, energyWh,
                                                             timestamp, now));
      && meterValues.Success? && meterValues.value.uid == u && meterValues.value.action == "MeterValues"
      && var setProfile := ValidateCall(MakeSetChargingProfileCall(uid, generated, connectorId, profileId, limitW));
      && setProfile.Success? && setProfile.value.uid == u && setProfile.value.action == "SetChargingProfile"
      && var clearProfile := ValidateCall(MakeClearChargingProfileCall(uid, generated, clearedId));
      && clearProfile.Success? && clearProfile.value.uid == u && clearProfile.value.action == "ClearChargingProfile"
  {
    var u := OrElse(uid, generated);
    BuiltCallValid(MakeMeterValuesCall(uid, generated, connectorId, transactionId, energyWh, timestamp, now),
                   u, "MeterValues");
    BuiltCallValid(MakeSetChargingProfileCall(uid, generated, connectorId, profileId, limitW),
                   u, "SetChargingProfile");
    BuiltCallValid(MakeClearChargingProfileCall(uid, generated, clearedId), u, "ClearChargingProfile");
  }

  lemma BuiltCallValid(frame: Json, uid: string, action: string)
    requires uid != "" && action != ""
    requires frame.JArray? && |frame.items| == 4 && frame.items[3].JObject?
    requires frame == MakeCall(uid, action, frame.items[3].fields)
    ensures ValidateCall(frame).Success? && ValidateCall(frame).value.uid == uid
    ensures ValidateCall(frame).value.action == action
  {
    CallRoundTrip(uid, action, frame.items[3].fields);
  }

  /** The ClearChargingProfile payload holds `chargingProfileId` exactly when an id is given, and nothing else. */
  lemma ClearChargingProfilePayload(uid: Option<string>, generated: string, profileId: Option<int>)
    ensures var frame := MakeClearChargingProfileCall(uid, generated, profileId);
      var payload := frame.items[3].fields;
      && frame.items[2] == JString("ClearChargingProfile")
      && payload.Keys <= {"chargingProfileId"}
      && ("chargingProfileId" in payload <==> profileId.Some?)
      && (profileId.Some? ==> payload["chargingProfileId"] == JInt(profileId.value))
      && GetChargingProfileId(frame.items[3]) == profileId
  {
  }

  /**
   * The MeterValues payload holds `transactionId` exactly when one is given,
   * and its first sampled value is the energy as decimal text, which
   * `coerce_int` reads back as the energy.
   */
  lemma MeterValuesPayload(uid: Option<string>, generated: string, connectorId: int, transactionId: Json,
                           energyWh: int, timestamp: Option<string>, now: string)
    ensures var frame := MakeMeterValuesCall(uid, generated, connectorId, transactionId, energyWh, timestamp, now);
      var payload := frame.items[3].fields;
      && frame.items[2] == JString("MeterValues")
      && ("transactionId" in payload <==> transactionId != JNull)
      && (transactionId != JNull ==> payload["transactionId"] == transactionId)
      && payload["meterValue"].items[0].fields["sampledValue"].items[0].fields["value"]
         == JString(DecimalString(energyWh))
      && CoerceInt(payload["meterValue"].items[0].fields["sampledValue"].items[0].fields["value"], "value")
         == Success(energyWh)
  {
    CoerceDecimalRoundTrip(energyWh, "value");
  }

  /*
   * Charging-profile id extraction
   */

  /**
   * A top-level `chargingProfileId` key is looked up first, whatever its value
   * (so a top-level null gives None); only without it is the id inside
   * `chargingProfile` consulted. The value found is converted with `int()`.
   */
  function GetChargingProfileId(payload: Json): (r: Option<int>)
    ensures !payload.JObject? ==> r == None
    ensures payload.JObject? && "chargingProfileId" in payload.fields ==>
      r == PyInt(payload.fields["chargingProfileId"])
    ensures payload.JObject? && "chargingProfileId" !in payload.fields ==>
      r == (var profile := Get(payload.fields, "chargingProfile");
            if profile.JObject? then PyInt(Get(profile.fields, "chargingProfileId")) else None)
  {
    if !payload.JObject? then None
    else
      var value :=
        if "chargingProfileId" in payload.fields then Get(payload.fields, "chargingProfileId")
        else
          var profile := Get(payload.fields, "chargingProfile");
          if profile.JObject? then Get(profile.fields, "chargingProfileId") else JNull;
      if value == JNull then None
      else PyInt(value)
  }

  /** With a top-level id present, whatever `chargingProfile` holds makes no difference. */
  lemma TopLevelProfileIdWins(fields: map<string, Json>, profile: Json)
    requires "chargingProfileId" in fields
    ensures GetChargingProfileId(JObject(fields["chargingProfile" := profile])) == GetChargingProfileId(JObject(fields))
    ensures fields["chargingProfileId"] == JNull ==> GetChargingProfileId(JObject(fields)) == None
  {
  }

  /** The id of the profile that `make_set_charging_profile_call` installs is found again. */
  lemma SetChargingProfileId(uid: Option<string>, generated: string, connectorId: int, profileId: int, limitW: int)
    ensures var frame := MakeSetChargingProfileCall(uid, generated, connectorId, profileId, limitW);
      && frame.items[2] == JString("SetChargingProfile")
      && GetChargingProfileId(frame.items[3]) == Some(profileId)
  {
  }

  /** The charge point's record of its open transaction; `meterStop` is set when the session ends. */
  class SessionState {
    var transactionId: Json
    var connectorId: int
    var meterStart: int
    var meterStop: int

    constructor (transactionId: Json, connectorId: int, meterStart: int, meterStop: int)
      ensures this.transactionId == transactionId && this.connectorId == connectorId
      ensures this.meterStart == meterStart && this.meterStop == meterStop
    {
      this.transactionId := transactionId;
      this.connectorId := connectorId;
      this.meterStart := meterStart;
      this.meterStop := meterStop;
    }
  }
}
