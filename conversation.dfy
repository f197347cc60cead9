/**
 * The charge point of ocpp16_min/client.py talking to the central system of
 * ocpp16_min/server.py: what the client's reply classifier and acceptance
 * rules make of the server's replies.
 */
module Conversation {
  import opened Wrappers
  import opened Json
  import opened Common
  import Client
  import Server

  /**
   * A BootNotification the charge point builds is answered with a CALLRESULT
   * that the charge point accepts, adopting the server's interval of 30.
   */
  lemma BootNotificationAccepted(uid: string, payload: map<string, Json>, now: string)
    requires uid != ""
    ensures var verdict := Server.Decide(Parsed(MakeCall(uid, "BootNotification", payload)), now);
      && verdict.SendCallResult?
      && var response := Client.ParseResponse(Parsed(verdict.frame), uid);
      && !response.failed
      && Client.StatusAccepted(response.payload.value)
      && Client.HeartbeatInterval(response.payload.value) == Server.BOOT_INTERVAL
  {
    var verdict := Server.Decide(Parsed(MakeCall(uid, "BootNotification", payload)), now);
    Client.CallResultAccepted(uid, Server.BootResultPayload(now));
    assert Client.ParseResponse(Parsed(verdict.frame), uid).payload == Some(Server.BootResultPayload(now));
  }

  /**
   * Every other CALL the charge point sends is answered with NotSupported,
   * which the charge point counts as a failed exchange: against this server
   * the session ends with result 1 at its StatusNotification.
   */
  lemma OtherActionsFail(uid: string, action: string, payload: map<string, Json>, now: string)
    requires uid != "" && action != "BootNotification"
    ensures var verdict := Server.Decide(Parsed(MakeCall(uid, action, payload)), now);
      && verdict.SendCallError?
      && Client.ParseResponse(Parsed(verdict.frame), uid).failed
  {
    Client.CallErrorFails(uid, "NotSupported", "Only BootNotification is supported", None, uid);
  }

  /**
   * A session whose StatusNotification is answered by this server never
   * completes (so Client.Run returns 1) and never reaches StopTransaction.
   */
  lemma SessionFailsAgainstServer(s: Client.Script, statusPayload: map<string, Json>, now: string)
    requires Client.WellFormedScript(s)
    requires s.status.reply ==
      Parsed(Server.Decide(Parsed(MakeCall(s.status.uid, "StatusNotification", statusPayload)), now).frame)
    ensures !Client.SessionCompletes(s) && !Client.ReachesStopTransaction(s)
  {
    Client.CallErrorFails(s.status.uid, "NotSupported", "Only BootNotification is supported", None, s.status.uid);
  }
}
