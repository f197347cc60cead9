/**
 * The charge point (ocpp16_min/client.py): the classifier that decides
 * whether a reply to a CALL succeeded, the acceptance rules applied to the
 * replies of the session's fixed sequence of CALLs, the heartbeat and
 * metering loops, and the session orchestration itself.
 *
 * The connection is replaced by its inputs: for every CALL the charge point
 * sends, an Exchange gives the uid generated for it, the clock reading used
 * for its timestamps, and the reply that came back (already decoded). The two
 * periodic tasks run concurrently in the source; here they run one after the
 * other, and a Script says how their timing relates to the rest of the
 * session (see Script).
 */
module Client {
  import opened Wrappers
  import opened Json
  import opened Common

  /** The heartbeat interval adopted when the boot reply gives no usable one. */
  const DEFAULT_HEARTBEAT_INTERVAL := 10
  /** Number of heartbeats the session sends at most. */
  const HEARTBEAT_COUNT := 3
  /** Energy (Wh) added to the meter reading on every metering round. */
  const METER_STEP := 100
  /** Id and limit (watts) of the charging profile the session installs. */
  const PROFILE_ID := 1
  const PROFILE_LIMIT_W := 7000

  /** What `_parse_response` returns: the CALLRESULT payload or None, and whether the exchange failed. */
  datatype Response = Response(payload: Option<map<string, Json>>, failed: bool)

  /**
   * Classifies a reply to the CALL with uid `expectedUid`. The only success is
   * a CALLRESULT whose payload is an object, and that payload is returned
   * unchanged; an empty `expectedUid` skips the uid comparison.
   */
  function ParseResponse(reply: Decoded, expectedUid: string): (r: Response)
    ensures r.failed <==> r.payload.None?
    ensures !r.failed <==>
      && reply.Parsed?
      && IsCallResult(reply.value)
      && (expectedUid == "" || reply.value.items[1] == JString(expectedUid))
      && reply.value.items[2].JObject?
    ensures !r.failed ==> r.payload == Some(reply.value.items[2].fields)
  {
    match reply
    case Malformed(_) => Response(None, true)
    case Parsed(response) =>
      if !response.JArray? || |response.items| < 3 then Response(None, true)
      else
        var messageType, uid := response.items[0], response.items[1];
        if expectedUid != "" && uid != JString(expectedUid) then Response(None, true)
        else if messageType == JInt(CALL_RESULT) then
          match ParseCallResultPayload(response)
          case Failure(_) => Response(None, true)
          case Success(payload) => Response(Some(payload), false)
        else if messageType == JInt(CALL_ERROR) then Response(None, true)
        else Response(None, true)
  }

  /** Undecodable text, a uid other than the expected one, and a tag other than 3 each fail the exchange. */
  lemma RejectedReplies(reply: Decoded, expectedUid: string)
    ensures reply.Malformed? ==> ParseResponse(reply, expectedUid).failed
    ensures (reply.Parsed? && reply.value.JArray? && |reply.value.items| >= 3 &&
             expectedUid != "" && reply.value.items[1] != JString(expectedUid)) ==> ParseResponse(reply, expectedUid).failed
    ensures (reply.Parsed? && reply.value.JArray? && |reply.value.items| >= 1 &&
             reply.value.items[0] != JInt(CALL_RESULT)) ==> ParseResponse(reply, expectedUid).failed
  {
  }

  /** Any CALLERROR fails, whether or not its uid matches. */
  lemma CallErrorFails(uid: string, code: string, description: string,
                       details: Option<map<string, Json>>, expectedUid: string)
    ensures ParseResponse(Parsed(MakeCallError(JString(uid), code, description, details)), expectedUid).failed
  {
  }

  /** A CALLRESULT built for the expected uid is accepted with its payload. */
  lemma CallResultAccepted(uid: string, payload: map<string, Json>)
    ensures ParseResponse(Parsed(MakeCallResult(JString(uid), payload)), uid) == Response(Some(payload), false)
  {
  }

  /*
   * Acceptance rules for the replies of the session's CALLs
   */

  /** `payload.get("status") == "Accepted"`, the rule for BootNotification, SetChargingProfile and ClearChargingProfile. */
  predicate StatusAccepted(payload: map<string, Json>)
  {
    Get(payload, "status") == JString("Accepted")
  }

  /** `payload.get("idTagInfo", {})` is an object whose status is "Accepted" (StartTransaction, StopTransaction). */
  predicate IdTagAccepted(payload: map<string, Json>)
  {
    var info := if "idTagInfo" in payload then payload["idTagInfo"] else JObject(map[]);
    info.JObject? && StatusAccepted(info.fields)
  }

  /** Without an `idTagInfo` the default `{}` has no status, so the reply is not accepted. */
  lemma IdTagInfoRequired(payload: map<string, Json>)
    requires "idTagInfo" !in payload
    ensures !IdTagAccepted(payload) && StartedTransactionId(payload).None?
  {
  }

  /**
   * The heartbeat interval adopted from the boot reply: its `interval` when
   * that is a positive int (Python counts `true` as the int 1), else 10.
   */
  function HeartbeatInterval(bootPayload: map<string, Json>): (interval: int)
    ensures interval > 0
    ensures var v := Get(bootPayload, "interval");
      IsIntInstance(v) && PyInt(v).value > 0 ==> interval == PyInt(v).value
    ensures var v := Get(bootPayload, "interval");
      !(IsIntInstance(v) && PyInt(v).value > 0) ==> interval == DEFAULT_HEARTBEAT_INTERVAL
  {
    match Get(bootPayload, "interval")
    case JInt(n) => if n > 0 then n else DEFAULT_HEARTBEAT_INTERVAL
    case JBool(b) => if b then 1 else DEFAULT_HEARTBEAT_INTERVAL
    case _ => DEFAULT_HEARTBEAT_INTERVAL
  }

  /**
   * The transaction id of an accepted StartTransaction reply: the reply must
   * carry an int `transactionId` and an accepted `idTagInfo`.
   */
  function StartedTransactionId(payload: map<string, Json>): (r: Option<Json>)
    ensures r.Some? <==> IsIntInstance(Get(payload, "transactionId")) && IdTagAccepted(payload)
    ensures r.Some? ==> "transactionId" in payload && r.value == payload["transactionId"]
  {
    var transactionId := Get(payload, "transactionId");
    if !IsIntInstance(transactionId) then None
    else if !IdTagAccepted(payload) then None
    else Some(transactionId)
  }

  /*
   * Exchanges and the two periodic loops
   */

  /** One CALL sent and its reply: the generated uid, the clock reading, and the decoded reply. */
  datatype Exchange = Exchange(uid: string, now: string, reply: Decoded)

  /** The verdict on an exchange's reply; the CALL's uid is the generated one, so it is the uid expected back. */
  function Outcome(e: Exchange): Response
  {
    ParseResponse(e.reply, e.uid)
  }

  predicate Acknowledged(e: Exchange)
  {
    !Outcome(e).failed
  }

  predicate AllAcknowledged(exchanges: seq<Exchange>, n: nat)
    requires n <= |exchanges|
  {
    forall i {:trigger Acknowledged(exchanges[i])} :: 0 <= i < n ==> Acknowledged(exchanges[i])
  }

  lemma AcknowledgedStep(exchanges: seq<Exchange>, n: nat)
    requires n < |exchanges| && AllAcknowledged(exchanges, n) && Acknowledged(exchanges[n])
    ensures AllAcknowledged(exchanges, n + 1)
  {
  }

  lemma FirstFailure(exchanges: seq<Exchange>, n: nat, m: nat)
    requires n < m <= |exchanges| && !Acknowledged(exchanges[n])
    ensures !AllAcknowledged(exchanges, m)
  {
  }

  /**
   * `_heartbeat_loop`: sends at most `maxCount` heartbeats and stops at the
   * first failed reply, reporting failure (the shared error flag). The wait
   * before each heartbeat is not modelled.
   */
  method HeartbeatLoop(exchanges: seq<Exchange>, maxCount: nat) returns (sent: seq<Json>, failed: bool)
    requires maxCount <= |exchanges|
    ensures |sent| <= maxCount
    ensures forall i :: 0 <= i < |sent| ==> sent[i] == MakeHeartbeatCall(None, exchanges[i].uid)
    ensures failed <==> !AllAcknowledged(exchanges, maxCount)
    ensures failed ==> |sent| > 0 && AllAcknowledged(exchanges, |sent| - 1) && !Acknowledged(exchanges[|sent| - 1])
    ensures !failed ==> |sent| == maxCount
  {
    sent, failed := [], false;
    for idx := 0 to maxCount
      invariant |sent| == idx
      invariant forall i :: 0 <= i < idx ==> sent[i] == MakeHeartbeatCall(None, exchanges[i].uid)
      invariant AllAcknowledged(exchanges, idx)
    {
      var heartbeatCall := MakeHeartbeatCall(None, exchanges[idx].uid);
      var heartbeatUid := heartbeatCall.items[1].str;
      sent := sent + [heartbeatCall];
      if ParseResponse(exchanges[idx].reply, heartbeatUid).failed {
        FirstFailure(exchanges, idx, maxCount);
        failed := true;
        return;
      }
    }
  }

  /** The MeterValues CALL of round `k` (from 0), which reports the energy after k + 1 steps. */
  function MeterValuesRound(meterStart: int, transactionId: Json, e: Exchange, k: nat): Json
  {
    MakeMeterValuesCall(None, e.uid, 1, transactionId, meterStart + METER_STEP * (k + 1), None, e.now)
  }

  /** The MeterValues CALLs of the first `n` rounds. */
  function MeterValuesCalls(meterStart: int, transactionId: Json, exchanges: seq<Exchange>, n: nat): (calls: seq<Json>)
    requires n <= |exchanges|
    ensures |calls| == n
  {
    if n == 0 then []
    else MeterValuesCalls(meterStart, transactionId, exchanges, n - 1) +
         [MeterValuesRound(meterStart, transactionId, exchanges[n - 1], n - 1)]
  }

  /**
   * Round k's CALL carries the energy meterStart + METER_STEP * (k + 1) as the
   * decimal text of its first sampled value, and for the transaction given.
   */
  lemma {:induction false} MeterValuesCallsAt(meterStart: int, transactionId: Json, exchanges: seq<Exchange>,
                                              n: nat, k: nat)
    requires k < n <= |exchanges|
    ensures var call := MeterValuesCalls(meterStart, transactionId, exchanges, n)[k];
      && call == MakeMeterValuesCall(None, exchanges[k].uid, 1, transactionId,
                                     meterStart + METER_STEP * (k + 1), None, exchanges[k].now)
      && CoerceInt(call.items[3].fields["meterValue"].items[0].fields["sampledValue"].items[0].fields["value"], "value")
         == Success(meterStart + METER_STEP * (k + 1))
  {
    MeterValuesCallsIndex(meterStart, transactionId, exchanges, n, k);
    MeterValuesPayload(None, exchanges[k].uid, 1, transactionId, meterStart + METER_STEP * (k + 1), None, exchanges[k].now);
  }

  /** Entry k of the record of the first n rounds is round k's CALL. */
  lemma {:induction false} MeterValuesCallsIndex(meterStart: int, transactionId: Json, exchanges: seq<Exchange>,
                                                 n: nat, k: nat)
    requires k < n <= |exchanges|
    ensures MeterValuesCalls(meterStart, transactionId, exchanges, n)[k]
            == MeterValuesRound(meterStart, transactionId, exchanges[k], k)
  {
    if k < n - 1 {
      MeterValuesCallsIndex(meterStart, transactionId, exchanges, n - 1, k);
      assert MeterValuesCalls(meterStart, transactionId, exchanges, n)[k]
             == MeterValuesCalls(meterStart, transactionId, exchanges, n - 1)[k];
    }
  }

  /** A round whose two looks both come before the stop is one of the first `stopSeenAt / 2`. */
  lemma RoundBeforeStop(round: nat, stopSeenAt: nat)
    requires 2 * round + 1 < stopSeenAt
    ensures round < stopSeenAt / 2
  {
  }

  /** Sending round `|prior|`'s CALL extends the record of the rounds before it by one. */
  lemma MeterRoundSent(meterStart: int, transactionId: Json, exchanges: seq<Exchange>, prior: seq<Json>, call: Json)
    requires |prior| < |exchanges|
    requires prior == MeterValuesCalls(meterStart, transactionId, exchanges, |prior|)
    requires call == MeterValuesRound(meterStart, transactionId, exchanges[|prior|], |prior|)
    ensures prior + [call] == MeterValuesCalls(meterStart, transactionId, exchanges, |prior| + 1)
  {
  }

  /**
   * A failed reply in round `round`, after every earlier round was acknowledged,
   * is the first failure among the rounds before the stop.
   */
  lemma MeterRoundFailed(exchanges: seq<Exchange>, round: nat, stopSeenAt: nat)
    requires 2 * round + 1 < stopSeenAt && stopSeenAt / 2 <= |exchanges|
    requires AllAcknowledged(exchanges, round) && !Acknowledged(exchanges[round])
    ensures round < stopSeenAt / 2 && !AllAcknowledged(exchanges, stopSeenAt / 2)
  {
    RoundBeforeStop(round, stopSeenAt);
    FirstFailure(exchanges, round, stopSeenAt / 2);
  }

  /** When the stop is seen at look 2n or 2n + 1, exactly n rounds went ahead. */
  lemma RoundsAtStop(n: nat, stopSeenAt: nat)
    requires 2 * n <= stopSeenAt <= 2 * n + 1
    ensures n == stopSeenAt / 2
  {
  }

  /**
   * One metering round's exchange: the MeterValues CALL for `energy`, which is
   * round `round`'s reading, sent and its reply classified.
   */
  method SendMeterValues(transactionId: Json, energy: int, e: Exchange, ghost meterStart: int, ghost round: nat)
    returns (call: Json, acknowledged: bool)
    requires energy == meterStart + METER_STEP * (round + 1)
    ensures call == MeterValuesRound(meterStart, transactionId, e, round)
    ensures acknowledged == Acknowledged(e)
  {
    call := MakeMeterValuesCall(None, e.uid, 1, transactionId, energy, None, e.now);
    var meterUid := call.items[1].str;
    acknowledged := !ParseResponse(e.reply, meterUid).failed;
  }

  /**
   * `_meter_values_loop`. The stop signal is looked at twice per round: at the
   * loop test before the wait (look 2k of round k) and right after the wait
   * (look 2k + 1). `stopSeenAt` is the first look that finds it raised. Each
   * round that gets past both looks adds METER_STEP to the energy BEFORE
   * sending it, so a stop raised during a wait skips that round's increment.
   * The loop also ends at the first failed reply, reporting failure.
   */
  method MeterValuesLoop(meterStart: int, transactionId: Json, exchanges: seq<Exchange>, stopSeenAt: nat)
    returns (energy: int, sent: seq<Json>, failed: bool)
    requires stopSeenAt / 2 <= |exchanges|
    ensures |sent| <= stopSeenAt / 2
    ensures energy == meterStart + METER_STEP * |sent|
    ensures sent == MeterValuesCalls(meterStart, transactionId, exchanges, |sent|)
    ensures failed <==> !AllAcknowledged(exchanges, stopSeenAt / 2)
    ensures failed ==> |sent| > 0 && AllAcknowledged(exchanges, |sent| - 1) && !Acknowledged(exchanges[|sent| - 1])
    ensures !failed ==> |sent| == stopSeenAt / 2
  {
    energy, sent, failed := meterStart, [], false;
    assert 2 * (stopSeenAt / 2) <= stopSeenAt <= 2 * (stopSeenAt / 2) + 1;
    var looks := 0;
    // a round goes ahead when neither the loop test (look `looks`) nor the
    // test after the wait (look `looks + 1`) finds the stop signal raised
    while looks + 1 < stopSeenAt
      invariant looks == 2 * |sent| <= stopSeenAt
      invariant energy == meterStart + METER_STEP * |sent|
      invariant sent == MeterValuesCalls(meterStart, transactionId, exchanges, |sent|)
      invariant AllAcknowledged(exchanges, |sent|)
    {
      var round := |sent|;
      energy := energy + METER_STEP;
      var meterCall, acknowledged := SendMeterValues(transactionId, energy, exchanges[round], meterStart, round);
      MeterRoundSent(meterStart, transactionId, exchanges, sent, meterCall);
      sent := sent + [meterCall];
      if !acknowledged {
        MeterRoundFailed(exchanges, round, stopSeenAt);
        failed := true;
        return;
      }
      AcknowledgedStep(exchanges, round);
      looks := looks + 2;
    }
    RoundsAtStop(|sent|, stopSeenAt);
  }

  /*
   * The session
   */

  /**
   * Everything the session reads from the outside: one Exchange per CALL of
   * the fixed sequence, the exchanges of the two loops, `meterStopSeenAt` for
   * the metering loop (see MeterValuesLoop), and `heartbeatsInWindow`, the
   * number of heartbeat exchanges that complete before the metering task is
   * stopped and joined; a heartbeat failure among them is seen at the join.
   */
  datatype Script = Script(
    boot: Exchange,
    status: Exchange,
    start: Exchange,
    setProfile: Exchange,
    heartbeats: seq<Exchange>,
    heartbeatsInWindow: nat,
    meterValues: seq<Exchange>,
    meterStopSeenAt: nat,
    clearProfile: Exchange,
    stopTransaction: Exchange)

  predicate WellFormedScript(s: Script)
  {
    HEARTBEAT_COUNT <= |s.heartbeats| && s.meterStopSeenAt / 2 <= |s.meterValues|
  }

  predicate BootAccepted(s: Script)
  {
    Acknowledged(s.boot) && StatusAccepted(Outcome(s.boot).payload.value)
  }

  predicate StartAccepted(s: Script)
  {
    Acknowledged(s.start) && StartedTransactionId(Outcome(s.start).payload.value).Some?
  }

  predicate ProfileSet(s: Script)
  {
    Acknowledged(s.setProfile) && StatusAccepted(Outcome(s.setProfile).payload.value)
  }

  predicate ProfileCleared(s: Script)
  {
    Acknowledged(s.clearProfile) && StatusAccepted(Outcome(s.clearProfile).payload.value)
  }

  predicate StopAccepted(s: Script)
  {
    Acknowledged(s.stopTransaction) && IdTagAccepted(Outcome(s.stopTransaction).payload.value)
  }

  function Min(a: nat, b: nat): nat
  {
    if a <= b then a else b
  }

  /** The error flag is raised by the time the metering task has been joined. */
  predicate FailureSeenAtJoin(s: Script)
    requires WellFormedScript(s)
  {
    !AllAcknowledged(s.meterValues, s.meterStopSeenAt / 2) ||
    !AllAcknowledged(s.heartbeats, Min(HEARTBEAT_COUNT, s.heartbeatsInWindow))
  }

  /** The session gets as far as sending StopTransaction. */
  predicate ReachesStopTransaction(s: Script)
    requires WellFormedScript(s)
  {
    BootAccepted(s) && Acknowledged(s.status) && StartAccepted(s) && ProfileSet(s) &&
    !FailureSeenAtJoin(s) && ProfileCleared(s)
  }

  /** Every reply met its acceptance rule and neither loop failed. */
  predicate SessionCompletes(s: Script)
    requires WellFormedScript(s)
  {
    ReachesStopTransaction(s) && StopAccepted(s) && AllAcknowledged(s.heartbeats, HEARTBEAT_COUNT)
  }

  function StartedId(s: Script): Json
    requires StartAccepted(s)
  {
    StartedTransactionId(Outcome(s.start).payload.value).value
  }

  /** Whether a heartbeat failure is seen at the join depends only on where the first failure falls. */
  lemma HeartbeatFailureAtJoin(exchanges: seq<Exchange>, sent: seq<Json>, failed: bool, window: nat)
    requires HEARTBEAT_COUNT <= |exchanges| && |sent| <= HEARTBEAT_COUNT
    requires failed <==> !AllAcknowledged(exchanges, HEARTBEAT_COUNT)
    requires failed ==> |sent| > 0 && AllAcknowledged(exchanges, |sent| - 1) && !Acknowledged(exchanges[|sent| - 1])
    ensures (failed && |sent| <= window) <==> !AllAcknowledged(exchanges, Min(HEARTBEAT_COUNT, window))
  {
    if failed && |sent| <= window {
      assert !Acknowledged(exchanges[|sent| - 1]);
    }
  }

  /**
   * The first half of `main`: BootNotification, StatusNotification,
   * StartTransaction and SetChargingProfile, each of which ends the session
   * with result 1 when its reply does not meet its rule. Returns the
   * transaction id when all four were accepted.
   */
  method OpenSession(s: Script) returns (transactionId: Option<Json>)
    ensures transactionId.Some? <==>
      BootAccepted(s) && Acknowledged(s.status) && StartAccepted(s) && ProfileSet(s)
    ensures transactionId.Some? ==> transactionId.value == StartedId(s)
  {
    // BootNotification, sent as make_call(uid, "BootNotification", BOOT_NOTIFICATION_PAYLOAD)
    var boot := ParseResponse(s.boot.reply, s.boot.uid);
    if boot.failed || boot.payload.None? {
      return None;
    }
    if !StatusAccepted(boot.payload.value) {
      return None;
    }
    var interval := HeartbeatInterval(boot.payload.value);

    var statusCall := MakeStatusNotificationCall(None, s.status.uid, 0, "Available", "NoError", s.status.now);
    var status := ParseResponse(s.status.reply, statusCall.items[1].str);
    if status.failed {
      return None;
    }

    var startCall := MakeStartTransactionCall(None, s.start.uid, 1, "TEST", 0, None, s.start.now);
    var start := ParseResponse(s.start.reply, startCall.items[1].str);
    if start.failed || start.payload.None? {
      return None;
    }
    transactionId := StartedTransactionId(start.payload.value);
    if transactionId.None? {
      return None;
    }

    var setCall := MakeSetChargingProfileCall(None, s.setProfile.uid, 1, PROFILE_ID, PROFILE_LIMIT_W);
    var setProfile := ParseResponse(s.setProfile.reply, setCall.items[1].str);
    if setProfile.failed || setProfile.payload.None? {
      return None;
    }
    if !StatusAccepted(setProfile.payload.value) {
      return None;
    }
  }

  /**
   * The heartbeat and metering tasks, from their start to the join of the
   * metering task: whether the error flag is raised by then, the metering
   * counter's value, and whether the heartbeat task fails at all.
   */
  method RunTasks(s: Script, session: SessionState) returns (energy: int, heartbeatFailed: bool, errorSet: bool)
    requires WellFormedScript(s)
    ensures errorSet == FailureSeenAtJoin(s)
    ensures heartbeatFailed == !AllAcknowledged(s.heartbeats, HEARTBEAT_COUNT)
    ensures !errorSet ==> energy == session.meterStart + METER_STEP * (s.meterStopSeenAt / 2)
  {
    var heartbeatsSent, heartbeatFailedNow := HeartbeatLoop(s.heartbeats, HEARTBEAT_COUNT);
    var meterEnergy, meterValuesSent, meterFailed :=
      MeterValuesLoop(session.meterStart, session.transactionId, s.meterValues, s.meterStopSeenAt);
    HeartbeatFailureAtJoin(s.heartbeats, heartbeatsSent, heartbeatFailedNow, s.heartbeatsInWindow);
    energy, heartbeatFailed := meterEnergy, heartbeatFailedNow;
    errorSet := meterFailed || (heartbeatFailed && |heartbeatsSent| <= s.heartbeatsInWindow);
  }

  /** ClearChargingProfile for the session's profile; true when the reply is a CALLRESULT with status Accepted. */
  method ClearChargingProfile(e: Exchange) returns (accepted: bool)
    ensures accepted == (Acknowledged(e) && StatusAccepted(Outcome(e).payload.value))
  {
    var clearCall := MakeClearChargingProfileCall(None, e.uid, Some(PROFILE_ID));
    var clearProfile := ParseResponse(e.reply, clearCall.items[1].str);
    if clearProfile.failed || clearProfile.payload.None? {
      return false;
    }
    accepted := StatusAccepted(clearProfile.payload.value);
  }

  /**
   * StopTransaction for the session's transaction and final meter reading;
   * true when the reply is a CALLRESULT whose `idTagInfo` is accepted.
   */
  method StopTransaction(e: Exchange, session: SessionState) returns (stopCall: Json, accepted: bool)
    ensures stopCall == MakeStopTransactionCall(None, e.uid, session.transactionId, "TEST", session.meterStop,
                                                None, "Local", e.now)
    ensures accepted == (Acknowledged(e) && IdTagAccepted(Outcome(e).payload.value))
  {
    stopCall := MakeStopTransactionCall(None, e.uid, session.transactionId, "TEST", session.meterStop,
                                        None, "Local", e.now);
    var stopped := ParseResponse(e.reply, stopCall.items[1].str);
    if stopped.failed || stopped.payload.None? {
      return stopCall, false;
    }
    accepted := IdTagAccepted(stopped.payload.value);
  }

  /**
   * `main` from the BootNotification on: returns 0 exactly when every reply
   * met its acceptance rule and neither periodic task failed, and reports the
   * StopTransaction CALL it sent, whose `meterStop` is the metering counter's
   * final value: the start value 0 plus METER_STEP for each MeterValues sent.
   */
  method Run(s: Script) returns (code: int, stopCall: Option<Json>)
    requires WellFormedScript(s)
    ensures code == 0 || code == 1
    ensures code == 0 <==> SessionCompletes(s)
    ensures stopCall.Some? <==> ReachesStopTransaction(s)
    ensures ReachesStopTransaction(s) ==>
      stopCall == Some(MakeStopTransactionCall(None, s.stopTransaction.uid, StartedId(s), "TEST",
                                               METER_STEP * (s.meterStopSeenAt / 2), None, "Local",
                                               s.stopTransaction.now))
  {
    stopCall := None;
    var transactionId := OpenSession(s);
    if transactionId.None? {
      return 1, None;
    }
    var session := new SessionState(transactionId.value, 1, 0, 0);

    var energy, heartbeatFailed, errorSet := RunTasks(s, session);
    if errorSet {
      // the heartbeat task is cancelled
      return 1, None;
    }

    var cleared := ClearChargingProfile(s.clearProfile);
    if !cleared {
      return 1, None;
    }

    session.meterStop := energy;
    assert session.transactionId == StartedId(s);
    var stop, stopped := StopTransaction(s.stopTransaction, session);
    stopCall := Some(stop);
    if !stopped {
      return 1, stopCall;
    }

    // await the heartbeat task, then look at the error flag
    if heartbeatFailed {
      return 1, stopCall;
    }
    return 0, stopCall;
  }
}
