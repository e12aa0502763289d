/** Outbound command shaping (service/ocpp/centralSystemService.js): each central-system
    operation of section 5 of the OCPP 1.6 specification validates its arguments, looks up the
    charger's connection in the session registry and sends one request, and the outcome of the
    call is normalised into a success or failure result. The remote call itself is an input. */
module CentralSystem {
  import opened Common
  import opened OcppTypes
  import opened SessionRegistry

  /** A value in a request payload. */
  datatype Value =
    | Num(n: int)
    | Text(s: string)
    | Texts(items: seq<string>)
    | AuthList(entries: seq<LocalAuthEntry>)

  /** One element of a SendLocalList authorization list; passed through unchanged. */
  datatype LocalAuthEntry = LocalAuthEntry(
    idTag: string, status: Option<AuthorizationStatus>, expiryDate: Option<string>, parentIdTag: Option<string>)

  /** One property of a JSON object, kept in insertion order. */
  datatype Param = Param(name: string, value: Value)

  /** An OCPP request: the action name and its payload. */
  datatype Request = Request(action: string, params: seq<Param>)

  /** How the remote call ended: the charger's reply payload, or a rejection carrying the
      error's message and its OCPP error code (a timeout is the rejection "Request timeout"). */
  datatype RpcOutcome =
    | Replied(payload: seq<Param>)
    | Rejected(message: string, errorCode: Option<string>)

  /** The normalised result `{ success, data | error }` of `call`. */
  datatype CallResult = CallSucceeded(data: seq<Param>) | CallFailed(error: string)

  /** What an operation does: throw before sending, or send `request` and return `result`. */
  datatype Outcome = Threw(message: string) | Returned(request: Request, result: CallResult)

  /** The names a payload holds. */
  function Names(params: seq<Param>): set<string>
  {
    if params == [] then {} else {params[0].name} + Names(params[1..])
  }

  /** The value of the first property called `name`. */
  function Lookup(params: seq<Param>, name: string): (v: Option<Value>)
    ensures v.Some? <==> name in Names(params)
    ensures v.Some? ==> Param(name, v.value) in params
  {
    if params == [] then None
    else if params[0].name == name then Some(params[0].value)
    else Lookup(params[1..], name)
  }

  // ---------------------------------------------------------------------------------------
  // Connection lookup and result normalisation

  const ChargePointIdRequired: string := "chargePointId is required"

  function NotConnectedMessage(chargePointId: string): string
  {
    "Charge point " + chargePointId + " is not connected"
  }

  /** `getClient`: an empty id and an id without a registry entry are errors. Entries are kept
      after their connection closes, so a disconnected charger still yields its old connection. */
  function GetClient(entries: Entries, chargePointId: string): (r: Result<nat, string>)
    ensures r.Ok? <==> chargePointId != [] && chargePointId in entries
    ensures r.Ok? ==> r.value == entries[chargePointId].client
    ensures chargePointId == [] ==> r == Err(ChargePointIdRequired)
    ensures chargePointId != [] && chargePointId !in entries ==> r == Err(NotConnectedMessage(chargePointId))
  {
    if chargePointId == [] then Err(ChargePointIdRequired)
    else if chargePointId !in entries then Err(NotConnectedMessage(chargePointId))
    else Ok(entries[chargePointId].client)
  }

  /** The catch block of `call`: the error's message, else "OCPP error <code>" when a code is
      present, else "Unknown error". */
  function Normalize(o: RpcOutcome): (r: CallResult)
    ensures r.CallSucceeded? <==> o.Replied?
    ensures o.Replied? ==> r.data == o.payload
    ensures o.Rejected? && o.message != [] ==> r == CallFailed(o.message)
    ensures o.Rejected? && o.message == [] && o.errorCode.Some? ==> r == CallFailed("OCPP error " + o.errorCode.value)
    ensures o.Rejected? && o.message == [] && o.errorCode.None? ==> r == CallFailed("Unknown error")
    ensures r.CallFailed? ==> r.error != []
  {
    match o
    case Replied(payload) => CallSucceeded(payload)
    case Rejected(message, code) =>
      if message != [] then CallFailed(message)
      else if code.Some? then CallFailed("OCPP error " + code.value)
      else CallFailed("Unknown error")
  }

  /** `call`: the connection lookup throws (it is outside the try block); otherwise the request
      is sent and its outcome normalised. */
  function Call(entries: Entries, chargePointId: string, action: string, params: seq<Param>, o: RpcOutcome): (r: Outcome)
    ensures r.Threw? <==> GetClient(entries, chargePointId).Err?
    ensures r.Threw? ==> r.message == GetClient(entries, chargePointId).error
    ensures r.Returned? ==> r.request == Request(action, params) && r.result == Normalize(o)
  {
    match GetClient(entries, chargePointId)
    case Err(message) => Threw(message)
    case Ok(_) => Returned(Request(action, params), Normalize(o))
  }

  /** A not-connected charger is reported by an exception, never by a failed result. */
  lemma NotConnectedThrows(entries: Entries, chargePointId: string, action: string, params: seq<Param>, o: RpcOutcome)
    requires chargePointId != [] && chargePointId !in entries
    ensures Call(entries, chargePointId, action, params, o) == Threw(NotConnectedMessage(chargePointId))
  {
  }

  /** Closing a connection keeps its entry, so commands to that charger are still sent. */
  lemma ClosedChargerIsStillAddressed(entries: Entries, key: string, client: nat, now: int)
    requires key != [] && key in entries
    ensures GetClient(ClosedByConnection(entries, key, client, now), key) == Ok(entries[key].client)
  {
  }

  // ---------------------------------------------------------------------------------------
  // The operations

  /** A property included only when the argument is not null or undefined. */
  function Optional(name: string, v: Option<Value>): (ps: seq<Param>)
    ensures v.None? ==> ps == []
    ensures v.Some? ==> ps == [Param(name, v.value)]
  {
    if v.Some? then [Param(name, v.value)] else []
  }

  function OptionalNum(name: string, v: Option<int>): (ps: seq<Param>)
    ensures Names(ps) == (if v.Some? then {name} else {})
    ensures v.Some? ==> Lookup(ps, name) == Some(Num(v.value))
  {
    Optional(name, if v.Some? then Some(Num(v.value)) else None)
  }

  function OptionalText(name: string, v: Option<string>): (ps: seq<Param>)
    ensures Names(ps) == (if v.Some? then {name} else {})
    ensures v.Some? ==> Lookup(ps, name) == Some(Text(v.value))
  {
    Optional(name, if v.Some? then Some(Text(v.value)) else None)
  }

  /** Names and values of a two-property object literal. */
  lemma Literal2(p: Param, q: Param)
    requires p.name != q.name
    ensures Names([p, q]) == {p.name, q.name}
    ensures Lookup([p, q], p.name) == Some(p.value) && Lookup([p, q], q.name) == Some(q.value)
  {
    assert [p, q][1..] == [q] && [q][1..] == [];
    assert Names([q]) == {q.name} + Names([]);
  }

  /** Names and values of a three-property object literal. */
  lemma Literal3(p: Param, q: Param, t: Param)
    requires p.name != q.name && p.name != t.name && q.name != t.name
    ensures Names([p, q, t]) == {p.name, q.name, t.name}
    ensures Lookup([p, q, t], p.name) == Some(p.value) && Lookup([p, q, t], q.name) == Some(q.value)
            && Lookup([p, q, t], t.name) == Some(t.value)
  {
    assert [p, q, t][1..] == [q, t];
    Literal2(q, t);
  }

  lemma {:induction false} NamesAppend(a: seq<Param>, b: seq<Param>)
    ensures Names(a + b) == Names(a) + Names(b)
  {
    if a == [] {
      assert a + b == b;
    } else {
      assert (a + b)[0] == a[0] && (a + b)[1..] == a[1..] + b;
      NamesAppend(a[1..], b);
    }
  }

  lemma {:induction false} LookupAppend(a: seq<Param>, b: seq<Param>, name: string)
    ensures Lookup(a + b, name) == if name in Names(a) then Lookup(a, name) else Lookup(b, name)
  {
    if a == [] {
      assert a + b == b;
    } else {
      assert (a + b)[0] == a[0] && (a + b)[1..] == a[1..] + b;
      LookupAppend(a[1..], b, name);
    }
  }

  /** The texts of a string argument that is falsy (missing or empty). */
  predicate Falsy(s: Option<string>)
  {
    s.None? || s.value == []
  }

  /** `changeAvailability`: only "Operative" and "Inoperative" are sent, and the type is
      checked before the connection is looked up. */
  function ChangeAvailability(entries: Entries, chargePointId: string, connectorId: int, kind: string, o: RpcOutcome): (r: Outcome)
    ensures kind != "Operative" && kind != "Inoperative" ==> r == Threw("type must be \"Operative\" or \"Inoperative\"")
    ensures (kind == "Operative" || kind == "Inoperative") ==> (r.Threw? <==> GetClient(entries, chargePointId).Err?)
    ensures r.Returned? ==> r.request.action == "ChangeAvailability"
                            && Names(r.request.params) == {"connectorId", "type"}
                            && Lookup(r.request.params, "connectorId") == Some(Num(connectorId))
                            && Lookup(r.request.params, "type") == Some(Text(kind))
                            && r.result == Normalize(o)
  {
    if kind != "Operative" && kind != "Inoperative" then Threw("type must be \"Operative\" or \"Inoperative\"")
    else
      var ps := [Param("connectorId", Num(connectorId)), Param("type", Text(kind))];
      Literal2(ps[0], ps[1]);
      Call(entries, chargePointId, "ChangeAvailability", ps, o)
  }

  /** `changeConfiguration`: a falsy key or a missing value is rejected before the lookup;
      both are sent as strings (`value` is the string form of the given value). */
  function ChangeConfiguration(entries: Entries, chargePointId: string, key: Option<string>, value: Option<string>, o: RpcOutcome): (r: Outcome)
    ensures Falsy(key) || value.None? ==> r == Threw("key and value are required")
    ensures !(Falsy(key) || value.None?) ==> (r.Threw? <==> GetClient(entries, chargePointId).Err?)
    ensures r.Returned? ==> r.request.action == "ChangeConfiguration"
                            && Names(r.request.params) == {"key", "value"}
                            && Lookup(r.request.params, "key") == Some(Text(key.value))
                            && Lookup(r.request.params, "value") == Some(Text(value.value))
                            && r.result == Normalize(o)
  {
    if Falsy(key) || value.None? then Threw("key and value are required")
    else
      var ps := [Param("key", Text(key.value)), Param("value", Text(value.value))];
      Literal2(ps[0], ps[1]);
      Call(entries, chargePointId, "ChangeConfiguration", ps, o)
  }

  /** `clearCache`: an empty payload. */
  function ClearCache(entries: Entries, chargePointId: string, o: RpcOutcome): (r: Outcome)
    ensures r.Threw? <==> GetClient(entries, chargePointId).Err?
    ensures r.Returned? ==> r.request == Request("ClearCache", []) && r.result == Normalize(o)
  {
    Call(entries, chargePointId, "ClearCache", [], o)
  }

  /** `getConfiguration`: `{key: keys}` only for a non-empty array (`None` is a value that is
      not an array), otherwise the empty payload that asks for every key. */
  function GetConfiguration(entries: Entries, chargePointId: string, keys: Option<seq<string>>, o: RpcOutcome): (r: Outcome)
    ensures r.Threw? <==> GetClient(entries, chargePointId).Err?
    ensures r.Returned? ==> r.request.action == "GetConfiguration" && r.result == Normalize(o)
    ensures r.Returned? ==> ("key" in Names(r.request.params) <==> keys.Some? && keys.value != [])
    ensures r.Returned? && keys.Some? && keys.value != [] ==> r.request.params == [Param("key", Texts(keys.value))]
    ensures r.Returned? && !(keys.Some? && keys.value != []) ==> r.request.params == []
  {
    var params := if keys.Some? && keys.value != [] then [Param("key", Texts(keys.value))] else [];
    Call(entries, chargePointId, "GetConfiguration", params, o)
  }

  /** `remoteStartTransaction`: idTag is required; connectorId is sent only when given. */
  function RemoteStartTransaction(entries: Entries, chargePointId: string, idTag: Option<string>, connectorId: Option<int>, o: RpcOutcome): (r: Outcome)
    ensures Falsy(idTag) ==> r == Threw("idTag is required for RemoteStartTransaction")
    ensures !Falsy(idTag) ==> (r.Threw? <==> GetClient(entries, chargePointId).Err?)
    ensures r.Returned? ==> r.request.action == "RemoteStartTransaction" && r.result == Normalize(o)
                            && Names(r.request.params) == {"idTag"} + (if connectorId.Some? then {"connectorId"} else {})
                            && Lookup(r.request.params, "idTag") == Some(Text(idTag.value))
                            && (connectorId.Some? ==> Lookup(r.request.params, "connectorId") == Some(Num(connectorId.value)))
  {
    if Falsy(idTag) then Threw("idTag is required for RemoteStartTransaction")
    else
      var head := [Param("idTag", Text(idTag.value))];
      var tail := OptionalNum("connectorId", connectorId);
      NamesAppend(head, tail);
      LookupAppend(head, tail, "connectorId");
      Call(entries, chargePointId, "RemoteStartTransaction", head + tail, o)
  }

  /** `remoteStopTransaction`: a missing transactionId is rejected before the lookup. */
  function RemoteStopTransaction(entries: Entries, chargePointId: string, transactionId: Option<int>, o: RpcOutcome): (r: Outcome)
    ensures transactionId.None? ==> r == Threw("transactionId is required for RemoteStopTransaction")
    ensures transactionId.Some? ==> (r.Threw? <==> GetClient(entries, chargePointId).Err?)
    ensures r.Returned? ==> r.request == Request("RemoteStopTransaction", [Param("transactionId", Num(transactionId.value))])
                            && r.result == Normalize(o)
  {
    if transactionId.None? then Threw("transactionId is required for RemoteStopTransaction")
    else Call(entries, chargePointId, "RemoteStopTransaction", [Param("transactionId", Num(transactionId.value))], o)
  }

  /** `reset`: only "Hard" and "Soft" are sent, checked before the lookup. */
  function Reset(entries: Entries, chargePointId: string, kind: string, o: RpcOutcome): (r: Outcome)
    ensures kind != "Hard" && kind != "Soft" ==> r == Threw("type must be \"Hard\" or \"Soft\"")
    ensures (kind == "Hard" || kind == "Soft") ==> (r.Threw? <==> GetClient(entries, chargePointId).Err?)
    ensures r.Returned? ==> r.request == Request("Reset", [Param("type", Text(kind))]) && r.result == Normalize(o)
                            && (kind == "Hard" || kind == "Soft")
  {
    if kind != "Hard" && kind != "Soft" then Threw("type must be \"Hard\" or \"Soft\"")
    else Call(entries, chargePointId, "Reset", [Param("type", Text(kind))], o)
  }

  /** `unlockConnector`: no validation of its own. */
  function UnlockConnector(entries: Entries, chargePointId: string, connectorId: int, o: RpcOutcome): (r: Outcome)
    ensures r.Threw? <==> GetClient(entries, chargePointId).Err?
    ensures r.Returned? ==> r.request == Request("UnlockConnector", [Param("connectorId", Num(connectorId))])
                            && r.result == Normalize(o)
  {
    Call(entries, chargePointId, "UnlockConnector", [Param("connectorId", Num(connectorId))], o)
  }

  /** `getDiagnostics`: location is required; startTime, stopTime, retries and retryInterval
      are sent only when given. */
  function GetDiagnostics(entries: Entries, chargePointId: string, location: Option<string>,
                          startTime: Option<string>, stopTime: Option<string>,
                          retries: Option<int>, retryInterval: Option<int>, o: RpcOutcome): (r: Outcome)
    ensures Falsy(location) ==> r == Threw("location (URI) is required for GetDiagnostics")
    ensures !Falsy(location) ==> (r.Threw? <==> GetClient(entries, chargePointId).Err?)
    ensures r.Returned? ==> r.request.action == "GetDiagnostics" && r.result == Normalize(o)
                            && Lookup(r.request.params, "location") == Some(Text(location.value))
                            && Names(r.request.params) == {"location"}
                                 + (if startTime.Some? then {"startTime"} else {})
                                 + (if stopTime.Some? then {"stopTime"} else {})
                                 + (if retries.Some? then {"retries"} else {})
                                 + (if retryInterval.Some? then {"retryInterval"} else {})
  {
    if Falsy(location) then Threw("location (URI) is required for GetDiagnostics")
    else
      var ps := [Param("location", Text(location.value))];
      var a := OptionalText("startTime", startTime);
      var b := OptionalText("stopTime", stopTime);
      var c := OptionalNum("retries", retries);
      var d := OptionalNum("retryInterval", retryInterval);
      NamesAppend(ps, a); NamesAppend(ps + a, b); NamesAppend(ps + a + b, c); NamesAppend(ps + a + b + c, d);
      LookupAppend(ps, a, "location"); LookupAppend(ps + a, b, "location");
      LookupAppend(ps + a + b, c, "location"); LookupAppend(ps + a + b + c, d, "location");
      Call(entries, chargePointId, "GetDiagnostics", ps + a + b + c + d, o)
  }

  const FirmwareLocation: string := "https://zapcloud/firmware"

  /** `updateFirmware`: always the fixed firmware location and the current instant
      `retrieveDate` (rendered as ISO 8601); retries and retryInterval only when given. */
  function UpdateFirmware(entries: Entries, chargePointId: string, retries: Option<int>, retryInterval: Option<int>,
                          retrieveDate: string, o: RpcOutcome): (r: Outcome)
    ensures r.Threw? <==> GetClient(entries, chargePointId).Err?
    ensures r.Returned? ==> r.request.action == "UpdateFirmware" && r.result == Normalize(o)
                            && Lookup(r.request.params, "location") == Some(Text(FirmwareLocation))
                            && Lookup(r.request.params, "retrieveDate") == Some(Text(retrieveDate))
                            && Names(r.request.params) == {"location", "retrieveDate"}
                                 + (if retries.Some? then {"retries"} else {})
                                 + (if retryInterval.Some? then {"retryInterval"} else {})
  {
    var ps := [Param("location", Text(FirmwareLocation)), Param("retrieveDate", Text(retrieveDate))];
    Literal2(ps[0], ps[1]);
    var a := OptionalNum("retries", retries);
    var b := OptionalNum("retryInterval", retryInterval);
    NamesAppend(ps, a); NamesAppend(ps + a, b);
    LookupAppend(ps, a, "location"); LookupAppend(ps + a, b, "location");
    LookupAppend(ps, a, "retrieveDate"); LookupAppend(ps + a, b, "retrieveDate");
    Call(entries, chargePointId, "UpdateFirmware", ps + a + b, o)
  }

  /** `sendLocalList`: listVersion, then the list (`None` is a value that is not an array),
      then the update type are checked, in that order, before the lookup. */
  function SendLocalList(entries: Entries, chargePointId: string, listVersion: Option<int>,
                         list: Option<seq<LocalAuthEntry>>, updateType: Option<string>, o: RpcOutcome): (r: Outcome)
    ensures listVersion.None? ==> r == Threw("listVersion is required for SendLocalList")
    ensures listVersion.Some? && list.None? ==> r == Threw("localAuthorizationList must be an array")
    ensures listVersion.Some? && list.Some? && updateType != Some("Full") && updateType != Some("Differential")
            ==> r == Threw("updateType must be \"Full\" or \"Differential\"")
    ensures r.Returned? ==> r.request == Request("SendLocalList", [Param("listVersion", Num(listVersion.value)),
                                                                   Param("localAuthorizationList", AuthList(list.value)),
                                                                   Param("updateType", Text(updateType.value))])
                            && (updateType == Some("Full") || updateType == Some("Differential"))
                            && r.result == Normalize(o)
    ensures listVersion.Some? && list.Some? && (updateType == Some("Full") || updateType == Some("Differential"))
            ==> (r.Threw? <==> GetClient(entries, chargePointId).Err?)
  {
    if listVersion.None? then Threw("listVersion is required for SendLocalList")
    else if list.None? then Threw("localAuthorizationList must be an array")
    else if updateType != Some("Full") && updateType != Some("Differential") then
      Threw("updateType must be \"Full\" or \"Differential\"")
    else
      Call(entries, chargePointId, "SendLocalList", [Param("listVersion", Num(listVersion.value)),
                                                     Param("localAuthorizationList", AuthList(list.value)),
                                                     Param("updateType", Text(updateType.value))], o)
  }

  /** `getLocalListVersion`: an empty payload. */
  function GetLocalListVersion(entries: Entries, chargePointId: string, o: RpcOutcome): (r: Outcome)
    ensures r.Threw? <==> GetClient(entries, chargePointId).Err?
    ensures r.Returned? ==> r.request == Request("GetLocalListVersion", []) && r.result == Normalize(o)
  {
    Call(entries, chargePointId, "GetLocalListVersion", [], o)
  }

  /** `reserveNow`: connectorId, then expiryDate, then idTag are required, in that order;
      reservationId and parentIdTag are sent only when given. */
  function ReserveNow(entries: Entries, chargePointId: string, connectorId: Option<int>, expiryDate: Option<string>,
                      idTag: Option<string>, reservationId: Option<int>, parentIdTag: Option<string>, o: RpcOutcome): (r: Outcome)
    ensures connectorId.None? ==> r == Threw("connectorId is required for ReserveNow")
    ensures connectorId.Some? && Falsy(expiryDate) ==> r == Threw("expiryDate is required for ReserveNow")
    ensures connectorId.Some? && !Falsy(expiryDate) && Falsy(idTag) ==> r == Threw("idTag is required for ReserveNow")
    ensures connectorId.Some? && !Falsy(expiryDate) && !Falsy(idTag) ==> (r.Threw? <==> GetClient(entries, chargePointId).Err?)
    ensures r.Returned? ==> r.request.action == "ReserveNow" && r.result == Normalize(o)
                            && Lookup(r.request.params, "connectorId") == Some(Num(connectorId.value))
                            && Lookup(r.request.params, "expiryDate") == Some(Text(expiryDate.value))
                            && Lookup(r.request.params, "idTag") == Some(Text(idTag.value))
                            && Names(r.request.params) == {"connectorId", "expiryDate", "idTag"}
                                 + (if reservationId.Some? then {"reservationId"} else {})
                                 + (if parentIdTag.Some? then {"parentIdTag"} else {})
  {
    if connectorId.None? then Threw("connectorId is required for ReserveNow")
    else if Falsy(expiryDate) then Threw("expiryDate is required for ReserveNow")
    else if Falsy(idTag) then Threw("idTag is required for ReserveNow")
    else
      var ps := [Param("connectorId", Num(connectorId.value)), Param("expiryDate", Text(expiryDate.value)),
                 Param("idTag", Text(idTag.value))];
      Literal3(ps[0], ps[1], ps[2]);
      var a := OptionalNum("reservationId", reservationId);
      var b := OptionalText("parentIdTag", parentIdTag);
      NamesAppend(ps, a); NamesAppend(ps + a, b);
      LookupAppend(ps, a, "connectorId"); LookupAppend(ps + a, b, "connectorId");
      LookupAppend(ps, a, "expiryDate"); LookupAppend(ps + a, b, "expiryDate");
      LookupAppend(ps, a, "idTag"); LookupAppend(ps + a, b, "idTag");
      Call(entries, chargePointId, "ReserveNow", ps + a + b, o)
  }

  /** The MessageTrigger values of section 7.44 of the OCPP 1.6 specification, as listed by the
      service. */
  const TriggerMessageTypes: seq<string> := ["BootNotification", "DiagnosticsStatusNotification",
    "FirmwareStatusNotification", "Heartbeat", "MeterValues", "StatusNotification"]

  /** `triggerMessage`: requestedMessage is required (any non-empty text is sent);
      connectorId only when given. */
  function TriggerMessage(entries: Entries, chargePointId: string, requestedMessage: Option<string>,
                          connectorId: Option<int>, o: RpcOutcome): (r: Outcome)
    ensures Falsy(requestedMessage) ==> r == Threw("requestedMessage is required for TriggerMessage")
    ensures !Falsy(requestedMessage) ==> (r.Threw? <==> GetClient(entries, chargePointId).Err?)
    ensures r.Returned? ==> r.request.action == "TriggerMessage" && r.result == Normalize(o)
                            && Lookup(r.request.params, "requestedMessage") == Some(Text(requestedMessage.value))
                            && Names(r.request.params) == {"requestedMessage"} + (if connectorId.Some? then {"connectorId"} else {})
                            && (connectorId.Some? ==> Lookup(r.request.params, "connectorId") == Some(Num(connectorId.value)))
  {
    if Falsy(requestedMessage) then Threw("requestedMessage is required for TriggerMessage")
    else
      var head := [Param("requestedMessage", Text(requestedMessage.value))];
      var tail := OptionalNum("connectorId", connectorId);
      NamesAppend(head, tail);
      LookupAppend(head, tail, "connectorId");
      LookupAppend(head, tail, "requestedMessage");
      Call(entries, chargePointId, "TriggerMessage", head + tail, o)
  }

  /** Validation comes before the connection lookup: an invalid reservation is rejected with
      the same message whether or not the charger is connected. */
  lemma ValidationPrecedesLookup(e1: Entries, e2: Entries, chargePointId: string, connectorId: Option<int>,
                                 expiryDate: Option<string>, idTag: Option<string>, reservationId: Option<int>,
                                 parentIdTag: Option<string>, o: RpcOutcome)
    requires connectorId.None? || Falsy(expiryDate) || Falsy(idTag)
    ensures ReserveNow(e1, chargePointId, connectorId, expiryDate, idTag, reservationId, parentIdTag, o)
         == ReserveNow(e2, chargePointId, connectorId, expiryDate, idTag, reservationId, parentIdTag, o)
    ensures ReserveNow(e1, chargePointId, connectorId, expiryDate, idTag, reservationId, parentIdTag, o).Threw?
  {
  }
}
