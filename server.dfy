/**
 * The central system (ocpp16_min/server.py): the charge-point id taken from
 * the connection path, the decision taken for each inbound message, and the
 * per-connection loop over inbound messages. The server answers only
 * BootNotification; every other action gets a NotSupported CALLERROR.
 */
module Server {
  import opened Wrappers
  import opened Json
  import opened Common

  /** Close code for a protocol error (section 7.4.1 of RFC 6455). */
  const PROTOCOL_ERROR := 1002
  /** Heartbeat interval the server hands out in its BootNotification reply. */
  const BOOT_INTERVAL := 30

  /** `_call_error`: a CALLERROR with empty details, echoing whatever uid value it is given. */
  function CallError(uid: Json, code: string, description: string): (frame: Json)
    ensures frame == MakeCallError(uid, code, description, None)
  {
    JArray([JInt(CALL_ERROR), uid, JString(code), JString(description), JObject(map[])])
  }

  /*
   * Charge-point id
   */

  /** Python's `s.lstrip("/")`. */
  function StripLeadingSlashes(s: string): string
  {
    if s != [] && s[0] == '/' then StripLeadingSlashes(s[1..]) else s
  }

  /** `lstrip("/")` leaves the suffix that follows the leading slashes, and only slashes are removed. */
  lemma {:induction false} StripLeadingSlashesSuffix(s: string)
    ensures var r := StripLeadingSlashes(s);
      && |r| <= |s| && r == s[|s| - |r|..]
      && (forall i :: 0 <= i < |s| - |r| ==> s[i] == '/')
      && (r == [] || r[0] != '/')
  {
    if s != [] && s[0] == '/' {
      var t := s[1..];
      StripLeadingSlashesSuffix(t);
      var r := StripLeadingSlashes(t);
      assert StripLeadingSlashes(s) == r;
      forall i | 0 <= i < |s| - |r|
        ensures s[i] == '/'
      {
        if i > 0 {
          assert s[i] == t[i - 1];
        }
      }
      assert s[|s| - |r|..] == t[|t| - |r|..];
    }
  }

  function Slashes(n: nat): string
  {
    if n == 0 then [] else ['/'] + Slashes(n - 1)
  }

  /** The connection's own path, else the path of its handshake request, else none. */
  function ResolvePath(connectionPath: Option<string>, requestPath: Option<string>): Option<string>
  {
    if connectionPath.Some? then connectionPath else requestPath
  }

  /** `((path or "/").lstrip("/")) or "unknown"`. */
  function ChargePointId(path: Option<string>): (id: string)
    ensures id != "" && id[0] != '/'
  {
    var stripped := StripLeadingSlashes(OrElse(path, "/"));
    StripLeadingSlashesSuffix(OrElse(path, "/"));
    if stripped == "" then "unknown" else stripped
  }

  lemma {:induction false} StripSlashesPrefix(n: nat, s: string)
    requires s == [] || s[0] != '/'
    ensures StripLeadingSlashes(Slashes(n) + s) == s
  {
    if n > 0 {
      var rest := Slashes(n - 1) + s;
      var whole := Slashes(n) + s;
      assert whole == ['/'] + rest;
      assert whole[0] == '/' && whole[1..] == rest;
      StripSlashesPrefix(n - 1, s);
    }
  }

  /**
   * The id is the connection's path, or else the handshake request's path,
   * with all its leading slashes removed; it is "unknown" when neither path
   * is known or nothing is left after the slashes.
   */
  lemma ChargePointIdOfPath(connectionPath: Option<string>, requestPath: Option<string>, n: nat, s: string)
    requires s == [] || s[0] != '/'
    ensures connectionPath == Some(Slashes(n) + s) ==>
      ChargePointId(ResolvePath(connectionPath, requestPath)) == if s == [] then "unknown" else s
    ensures connectionPath.None? && requestPath == Some(Slashes(n) + s) ==>
      ChargePointId(ResolvePath(connectionPath, requestPath)) == if s == [] then "unknown" else s
    ensures connectionPath.None? && requestPath.None? ==>
      ChargePointId(ResolvePath(connectionPath, requestPath)) == "unknown"
  {
    StripSlashesPrefix(n, s);
    if n == 0 && s == [] {
      StripSlashesPrefix(1, s);
      assert Slashes(1) + s == "/";
    }
  }

  /*
   * The decision for one inbound message
   */

  /** What the server does with one inbound message. */
  datatype Verdict =
    | CloseWith(diagnostic: string)   // send the diagnostic text, then close with PROTOCOL_ERROR
    | SendCallError(frame: Json)      // answer with a CALLERROR and go on
    | SendCallResult(frame: Json)     // answer with a CALLRESULT and go on

  function BootResultPayload(now: string): map<string, Json>
  {
    map["status" := JString("Accepted"), "currentTime" := JString(now), "interval" := JInt(BOOT_INTERVAL)]
  }

  /**
   * Undecodable text, a value that is not a list, a list whose length is not
   * 4 and a tag other than 2 close the connection; then any action other than
   * BootNotification gets NotSupported (before the payload is looked at); a
   * BootNotification whose payload is not an object closes the connection;
   * otherwise the BootNotification is accepted. Replies echo the uid value
   * unchanged, whatever it is.
   */
  function Decide(message: Decoded, now: string): (v: Verdict)
    ensures message.Malformed? ==> v == CloseWith("ERROR: invalid JSON (" + message.reason + ")")
    ensures message.Parsed? && !message.value.JArray? ==> v == CloseWith("ERROR: frame must be a JSON list")
    ensures message.Parsed? && message.value.JArray? && |message.value.items| != 4 ==>
      v == CloseWith("ERROR: CALL frame must have length 4")
    ensures message.Parsed? && message.value.JArray? && |message.value.items| == 4 && !IsCall(message.value) ==>
      v == CloseWith("ERROR: MessageTypeId must be 2 (CALL)")
    ensures (message.Parsed? && IsCall(message.value) && message.value.items[2] == JString("BootNotification")
             && !message.value.items[3].JObject?) ==> v == CloseWith("ERROR: payload must be an object")
    ensures v.SendCallError? <==>
      message.Parsed? && IsCall(message.value) && message.value.items[2] != JString("BootNotification")
    ensures v.SendCallError? ==>
      v.frame == MakeCallError(message.value.items[1], "NotSupported", "Only BootNotification is supported", None)
    ensures v.SendCallResult? <==>
      && message.Parsed? && IsCall(message.value)
      && message.value.items[2] == JString("BootNotification") && message.value.items[3].JObject?
    ensures v.SendCallResult? ==> v.frame == MakeCallResult(message.value.items[1], BootResultPayload(now))
    ensures !v.CloseWith? ==> v.frame.JArray? && |v.frame.items| >= 3 && v.frame.items[1] == message.value.items[1]
  {
    match message
    case Malformed(reason) => CloseWith("ERROR: invalid JSON (" + reason + ")")
    case Parsed(data) =>
      if !data.JArray? then CloseWith("ERROR: frame must be a JSON list")
      else if |data.items| != 4 then CloseWith("ERROR: CALL frame must have length 4")
      else
        var messageType, uid, action, payload := data.items[0], data.items[1], data.items[2], data.items[3];
        if messageType != JInt(CALL) then CloseWith("ERROR: MessageTypeId must be 2 (CALL)")
        else if action != JString("BootNotification") then
          SendCallError(CallError(uid, "NotSupported", "Only BootNotification is supported"))
        else if !payload.JObject? then CloseWith("ERROR: payload must be an object")
        else SendCallResult(MakeCallResult(uid, BootResultPayload(now)))
  }

  /** The length check comes first: a three-element list is refused for its length, not its tag. */
  lemma ThreeElementFrameClosed(now: string)
    ensures Decide(Parsed(JArray([JString("not"), JString("a"), JString("call")])), now)
            == CloseWith("ERROR: CALL frame must have length 4")
  {
  }

  /** Whatever `validate_call` accepts with action BootNotification, the server accepts. */
  lemma ValidBootAccepted(message: Json, now: string)
    requires ValidateCall(message).Success? && ValidateCall(message).value.action == "BootNotification"
    ensures Decide(Parsed(message), now) ==
      SendCallResult(MakeCallResult(JString(ValidateCall(message).value.uid), BootResultPayload(now)))
  {
  }

  /*
   * The loop over inbound messages of one connection
   */

  /** One inbound text message, decoded, with the clock reading at the time it is handled. */
  datatype Inbound = Inbound(message: Decoded, now: string)

  /** One outbound text message: a diagnostic, or a frame. */
  datatype Outbound = Diagnostic(text: string) | Frame(frame: Json)

  datatype Closing = Closing(code: int, reason: string)

  function VerdictOf(m: Inbound): Verdict
  {
    Decide(m.message, m.now)
  }

  function Emitted(v: Verdict): Outbound
  {
    match v
    case CloseWith(text) => Diagnostic(text)
    case SendCallError(frame) => Frame(frame)
    case SendCallResult(frame) => Frame(frame)
  }

  /**
   * `handle_client` from the first message on: each message up to and
   * including the first one that closes the connection gets exactly one
   * outbound message, and nothing after it is read.
   */
  method HandleClient(inbound: seq<Inbound>) returns (sent: seq<Outbound>, closing: Option<Closing>)
    ensures |sent| <= |inbound|
    ensures forall i :: 0 <= i < |sent| ==> sent[i] == Emitted(VerdictOf(inbound[i]))
    ensures forall i :: 0 <= i < |sent| - 1 ==> !VerdictOf(inbound[i]).CloseWith?
    ensures closing.Some? <==> |sent| > 0 && VerdictOf(inbound[|sent| - 1]).CloseWith?
    ensures closing.None? ==> |sent| == |inbound|
    ensures closing.Some? ==> closing.value == Closing(PROTOCOL_ERROR, VerdictOf(inbound[|sent| - 1]).diagnostic)
  {
    sent, closing := [], None;
    for n := 0 to |inbound|
      invariant |sent| == n
      invariant forall i :: 0 <= i < n ==> sent[i] == Emitted(VerdictOf(inbound[i]))
      invariant forall i :: 0 <= i < n ==> !VerdictOf(inbound[i]).CloseWith?
    {
      var verdict := Decide(inbound[n].message, inbound[n].now);
      match verdict {
        case CloseWith(text) =>
          sent := sent + [Diagnostic(text)];
          closing := Some(Closing(PROTOCOL_ERROR, text));
          return;
        case SendCallError(frame) =>
          sent := sent + [Frame(frame)];
        case SendCallResult(frame) =>
          sent := sent + [Frame(frame)];
      }
    }
  }
}
