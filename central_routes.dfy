/** The HTTP layer over the outbound commands (routes/centralSystem.js): each route checks its
    request body, calls the operation, and maps the result to a status code. */
module CentralRoutes {
  import opened Common
  import opened Strings
  import opened Collections
  import opened SessionRegistry
  import opened CentralSystem

  /** A response: the status code and the JSON body `{ success, data | error }`. */
  datatype HttpReply = HttpReply(status: int, body: CallResult)

  const NotConnectedPattern: string := "not connected"

  /** A failure reports a charger that is not connected. The expression
      `/not connected|Charge point .* is not connected/i` matches exactly when the first
      alternative does, since the second contains it. */
  predicate ReportsNotConnected(error: string)
  {
    ContainsIgnoringCase(error, NotConnectedPattern)
  }

  /** `sendResult` with a validation error: 400 and that message. */
  function Invalid(message: string): (r: HttpReply)
    ensures r.status == 400 && r.body == CallFailed(message)
  {
    HttpReply(400, CallFailed(message))
  }

  /** `sendResult` with a result: 200 when it succeeded, 404 when its error reports a missing
      connection, 400 otherwise; the body is the result unchanged. */
  function SendResult(result: CallResult): (r: HttpReply)
    ensures r.body == result
    ensures r.status == 200 <==> result.CallSucceeded?
    ensures r.status == 404 <==> result.CallFailed? && ReportsNotConnected(result.error)
    ensures r.status == 400 <==> result.CallFailed? && !ReportsNotConnected(result.error)
  {
    match result
    case CallSucceeded(_) => HttpReply(200, result)
    case CallFailed(error) => HttpReply(if error != [] && ReportsNotConnected(error) then 404 else 400, result)
  }

  /** The route's catch block: an exception becomes `{ success: false, error: e.message }`,
      where an empty message gives way to the string form of the error. */
  function AsResult(o: Outcome): (result: CallResult)
    ensures o.Returned? ==> result == o.result
    ensures o.Threw? && o.message != [] ==> result == CallFailed(o.message)
    ensures o.Threw? ==> result.CallFailed? && result.error != []
  {
    match o
    case Returned(_, result) => result
    case Threw(message) => CallFailed(if message != [] then message else "Error")
  }

  /** Answering an operation's outcome: 200 exactly when a request was sent and answered. */
  function Respond(o: Outcome): (r: HttpReply)
    ensures r.status == 200 <==> o.Returned? && o.result.CallSucceeded?
    ensures r.status == 200 || r.status == 400 || r.status == 404
    ensures r.body == AsResult(o)
  {
    SendResult(AsResult(o))
  }

  lemma LowerStringAppend(a: string, b: string)
    ensures LowerString(a + b) == LowerString(a) + LowerString(b)
  {
    var l := LowerString(a + b);
    assert forall k :: 0 <= k < |a| ==> l[k] == Lower(a[k]);
    assert forall k :: 0 <= k < |b| ==> l[|a| + k] == Lower(b[k]);
  }

  lemma LowerStringOfLowerCase(s: string)
    requires forall k :: 0 <= k < |s| ==> !('A' <= s[k] <= 'Z')
    ensures LowerString(s) == s
  {
  }

  /** A pattern preceded by any text is found, ignoring case, when the pattern has no
      upper-case letters. */
  lemma FoundAfterPrefix(prefix: string, pat: string)
    requires forall k :: 0 <= k < |pat| ==> !('A' <= pat[k] <= 'Z')
    ensures ContainsIgnoringCase(prefix + pat, pat)
  {
    LowerStringAppend(prefix, pat);
    LowerStringOfLowerCase(pat);
    var lowered := LowerString(prefix) + pat;
    assert lowered[|prefix|..|prefix| + |pat|] == pat;
    assert ContainsAt(LowerString(prefix + pat), pat, |prefix|);
  }

  /** The service's not-connected message matches the route's 404 pattern. */
  lemma NotConnectedMessageReported(chargePointId: string)
    ensures ReportsNotConnected(NotConnectedMessage(chargePointId))
  {
    var prefix := "Charge point " + chargePointId + " is ";
    assert NotConnectedMessage(chargePointId) == prefix + NotConnectedPattern;
    FoundAfterPrefix(prefix, NotConnectedPattern);
  }

  /** A command to a charger without a registry entry is answered 404, by whichever route. */
  lemma NotConnectedIsNotFound(entries: Entries, chargePointId: string, action: string, params: seq<Param>, o: RpcOutcome)
    requires chargePointId != [] && chargePointId !in entries
    ensures Respond(Call(entries, chargePointId, action, params, o)).status == 404
  {
    NotConnectedMessageReported(chargePointId);
  }

  // ---------------------------------------------------------------------------------------
  // The keys query of get-configuration

  /** `pieces.map(k => k.trim())`. */
  function TrimAll(pieces: seq<string>): (ts: seq<string>)
    ensures |ts| == |pieces| && forall k :: 0 <= k < |pieces| ==> ts[k] == Trim(pieces[k])
  {
    if pieces == [] then [] else [Trim(pieces[0])] + TrimAll(pieces[1..])
  }

  /** `filter(Boolean)` on strings: only the empty string is falsy. */
  predicate NonBlank(t: string)
  {
    t != []
  }

  /** `pieces.map(k => k.trim()).filter(Boolean)`: the trimmed pieces that are not empty. */
  function TrimmedNonEmpty(pieces: seq<string>): (keys: seq<string>)
    ensures |keys| <= |pieces|
    ensures forall k :: 0 <= k < |keys| ==> keys[k] != [] && !IsSpace(keys[k][0]) && !IsSpace(keys[k][|keys[k]| - 1])
    ensures (forall i :: 0 <= i < |pieces| ==> ',' !in pieces[i]) ==> forall k :: 0 <= k < |keys| ==> ',' !in keys[k]
  {
    if pieces == [] then []
    else
      var t := Trim(pieces[0]);
      var rest := TrimmedNonEmpty(pieces[1..]);
      if t != [] then [t] + rest else rest
  }

  /** `keys.split(",").map(k => k.trim()).filter(Boolean)`. */
  function ParseKeys(query: string): (keys: seq<string>)
    ensures keys == Filter(TrimAll(Split(query, ',')), NonBlank)
    ensures forall k :: 0 <= k < |keys| ==> keys[k] != [] && ',' !in keys[k]
    ensures forall k :: 0 <= k < |keys| ==> !IsSpace(keys[k][0]) && !IsSpace(keys[k][|keys[k]| - 1])
  {
    TrimmedNonEmptyIsFilter(Split(query, ','));
    TrimmedNonEmpty(Split(query, ','))
  }

  /** The recursive trim-and-drop is the map followed by the filter. */
  lemma {:induction false} TrimmedNonEmptyIsFilter(pieces: seq<string>)
    ensures TrimmedNonEmpty(pieces) == Filter(TrimAll(pieces), NonBlank)
  {
    if pieces != [] {
      TrimmedNonEmptyIsFilter(pieces[1..]);
      var s := TrimAll(pieces);
      assert s[0] == Trim(pieces[0]) && s[1..] == TrimAll(pieces[1..]);
      assert Filter(s, NonBlank) == if NonBlank(s[0]) then [s[0]] + Filter(s[1..], NonBlank) else Filter(s[1..], NonBlank);
    }
  }

  /** The query value: an absent or non-string value asks for every key. */
  function KeysOf(query: Option<string>): (keys: seq<string>)
    ensures query.None? ==> keys == []
    ensures query.Some? ==> keys == ParseKeys(query.value)
  {
    if query.Some? then ParseKeys(query.value) else []
  }

  /** A key list is written without blank keys, commas or surrounding blanks. */
  predicate CleanKeys(keys: seq<string>)
  {
    forall k :: 0 <= k < |keys| ==> keys[k] != [] && ',' !in keys[k] && !IsSpace(keys[k][0]) && !IsSpace(keys[k][|keys[k]| - 1])
  }

  lemma {:induction false} CleanKeysSurvive(keys: seq<string>)
    requires CleanKeys(keys)
    ensures TrimmedNonEmpty(keys) == keys
  {
    if keys != [] {
      CleanKeysSurvive(keys[1..]);
    }
  }

  /** Parsing a comma-joined list of clean keys gives the list back. */
  lemma ParseJoinedKeys(keys: seq<string>)
    requires keys != [] && CleanKeys(keys)
    ensures ParseKeys(Join(keys, ',')) == keys
  {
    SplitJoin(keys, ',');
    CleanKeysSurvive(keys);
  }

  // ---------------------------------------------------------------------------------------
  // The routes. Body fields are `None` when null or undefined.

  /** POST change-availability: connectorId, then a truthy type, before the operation. */
  function ChangeAvailabilityRoute(entries: Entries, chargePointId: string, connectorId: Option<int>, kind: Option<string>,
                                   o: RpcOutcome): (r: HttpReply)
    ensures connectorId.None? ==> r == Invalid("connectorId is required")
    ensures connectorId.Some? && Falsy(kind) ==> r == Invalid("type is required (Operative | Inoperative)")
    ensures connectorId.Some? && !Falsy(kind) ==> r == Respond(ChangeAvailability(entries, chargePointId, connectorId.value, kind.value, o))
  {
    if connectorId.None? then Invalid("connectorId is required")
    else if Falsy(kind) then Invalid("type is required (Operative | Inoperative)")
    else Respond(ChangeAvailability(entries, chargePointId, connectorId.value, kind.value, o))
  }

  /** POST change-configuration: a truthy key, then a value. */
  function ChangeConfigurationRoute(entries: Entries, chargePointId: string, key: Option<string>, value: Option<string>,
                                    o: RpcOutcome): (r: HttpReply)
    ensures Falsy(key) ==> r == Invalid("key is required")
    ensures !Falsy(key) && value.None? ==> r == Invalid("value is required")
    ensures !Falsy(key) && value.Some? ==> r == Respond(ChangeConfiguration(entries, chargePointId, key, value, o))
  {
    if Falsy(key) then Invalid("key is required")
    else if value.None? then Invalid("value is required")
    else Respond(ChangeConfiguration(entries, chargePointId, key, value, o))
  }

  /** POST clear-cache. */
  function ClearCacheRoute(entries: Entries, chargePointId: string, o: RpcOutcome): (r: HttpReply)
    ensures r == Respond(ClearCache(entries, chargePointId, o))
    ensures r.status == 200 <==> chargePointId in entries && chargePointId != [] && o.Replied?
  {
    Respond(ClearCache(entries, chargePointId, o))
  }

  /** GET get-configuration: the keys come from the query string. */
  function GetConfigurationRoute(entries: Entries, chargePointId: string, keysQuery: Option<string>, o: RpcOutcome): (r: HttpReply)
    ensures r == Respond(GetConfiguration(entries, chargePointId, Some(KeysOf(keysQuery)), o))
  {
    Respond(GetConfiguration(entries, chargePointId, Some(KeysOf(keysQuery)), o))
  }

  /** POST remote-start-transaction: a truthy idTag. */
  function RemoteStartRoute(entries: Entries, chargePointId: string, idTag: Option<string>, connectorId: Option<int>,
                            o: RpcOutcome): (r: HttpReply)
    ensures Falsy(idTag) ==> r == Invalid("idTag is required")
    ensures !Falsy(idTag) ==> r == Respond(RemoteStartTransaction(entries, chargePointId, idTag, connectorId, o))
  {
    if Falsy(idTag) then Invalid("idTag is required")
    else Respond(RemoteStartTransaction(entries, chargePointId, idTag, connectorId, o))
  }

  /** POST remote-stop-transaction: a transactionId. */
  function RemoteStopRoute(entries: Entries, chargePointId: string, transactionId: Option<int>, o: RpcOutcome): (r: HttpReply)
    ensures transactionId.None? ==> r == Invalid("transactionId is required")
    ensures transactionId.Some? ==> r == Respond(RemoteStopTransaction(entries, chargePointId, transactionId, o))
  {
    if transactionId.None? then Invalid("transactionId is required")
    else Respond(RemoteStopTransaction(entries, chargePointId, transactionId, o))
  }

  /** POST reset: a truthy type; the operation then rejects anything but Hard and Soft. */
  function ResetRoute(entries: Entries, chargePointId: string, kind: Option<string>, o: RpcOutcome): (r: HttpReply)
    ensures Falsy(kind) ==> r == Invalid("type is required (Hard | Soft)")
    ensures !Falsy(kind) ==> r == Respond(Reset(entries, chargePointId, kind.value, o))
    ensures r.status == 200 ==> kind == Some("Hard") || kind == Some("Soft")
  {
    if Falsy(kind) then Invalid("type is required (Hard | Soft)")
    else Respond(Reset(entries, chargePointId, kind.value, o))
  }

  /** POST unlock-connector: a connectorId. */
  function UnlockConnectorRoute(entries: Entries, chargePointId: string, connectorId: Option<int>, o: RpcOutcome): (r: HttpReply)
    ensures connectorId.None? ==> r == Invalid("connectorId is required")
    ensures connectorId.Some? ==> r == Respond(UnlockConnector(entries, chargePointId, connectorId.value, o))
  {
    if connectorId.None? then Invalid("connectorId is required")
    else Respond(UnlockConnector(entries, chargePointId, connectorId.value, o))
  }

  /** POST get-diagnostics: a truthy location. */
  function GetDiagnosticsRoute(entries: Entries, chargePointId: string, location: Option<string>,
                               startTime: Option<string>, stopTime: Option<string>,
                               retries: Option<int>, retryInterval: Option<int>, o: RpcOutcome): (r: HttpReply)
    ensures Falsy(location) ==> r == Invalid("location (URI) is required")
    ensures !Falsy(location) ==> r == Respond(GetDiagnostics(entries, chargePointId, location, startTime, stopTime, retries, retryInterval, o))
  {
    if Falsy(location) then Invalid("location (URI) is required")
    else Respond(GetDiagnostics(entries, chargePointId, location, startTime, stopTime, retries, retryInterval, o))
  }

  /** POST update-firmware: no checks; `retrieveDate` is the current instant in ISO 8601. */
  function UpdateFirmwareRoute(entries: Entries, chargePointId: string, retries: Option<int>, retryInterval: Option<int>,
                               retrieveDate: string, o: RpcOutcome): (r: HttpReply)
    ensures r == Respond(UpdateFirmware(entries, chargePointId, retries, retryInterval, retrieveDate, o))
    ensures r.status == 200 <==> chargePointId in entries && chargePointId != [] && o.Replied?
  {
    Respond(UpdateFirmware(entries, chargePointId, retries, retryInterval, retrieveDate, o))
  }

  /** POST send-local-list: listVersion, then an array, then a truthy updateType. */
  function SendLocalListRoute(entries: Entries, chargePointId: string, listVersion: Option<int>,
                              list: Option<seq<LocalAuthEntry>>, updateType: Option<string>, o: RpcOutcome): (r: HttpReply)
    ensures listVersion.None? ==> r == Invalid("listVersion is required")
    ensures listVersion.Some? && list.None? ==> r == Invalid("localAuthorizationList must be an array")
    ensures listVersion.Some? && list.Some? && Falsy(updateType) ==> r == Invalid("updateType is required (Full | Differential)")
    ensures listVersion.Some? && list.Some? && !Falsy(updateType)
            ==> r == Respond(SendLocalList(entries, chargePointId, listVersion, list, updateType, o))
  {
    if listVersion.None? then Invalid("listVersion is required")
    else if list.None? then Invalid("localAuthorizationList must be an array")
    else if Falsy(updateType) then Invalid("updateType is required (Full | Differential)")
    else Respond(SendLocalList(entries, chargePointId, listVersion, list, updateType, o))
  }

  /** GET get-local-list-version. */
  function GetLocalListVersionRoute(entries: Entries, chargePointId: string, o: RpcOutcome): (r: HttpReply)
    ensures r == Respond(GetLocalListVersion(entries, chargePointId, o))
    ensures r.status == 200 <==> chargePointId in entries && chargePointId != [] && o.Replied?
  {
    Respond(GetLocalListVersion(entries, chargePointId, o))
  }

  /** POST reserve-now: connectorId, then a truthy expiryDate, then a truthy idTag. */
  function ReserveNowRoute(entries: Entries, chargePointId: string, connectorId: Option<int>, expiryDate: Option<string>,
                           idTag: Option<string>, reservationId: Option<int>, parentIdTag: Option<string>, o: RpcOutcome): (r: HttpReply)
    ensures connectorId.None? ==> r == Invalid("connectorId is required")
    ensures connectorId.Some? && Falsy(expiryDate) ==> r == Invalid("expiryDate is required (ISO 8601)")
    ensures connectorId.Some? && !Falsy(expiryDate) && Falsy(idTag) ==> r == Invalid("idTag is required")
    ensures connectorId.Some? && !Falsy(expiryDate) && !Falsy(idTag)
            ==> r == Respond(ReserveNow(entries, chargePointId, connectorId, expiryDate, idTag, reservationId, parentIdTag, o))
  {
    if connectorId.None? then Invalid("connectorId is required")
    else if Falsy(expiryDate) then Invalid("expiryDate is required (ISO 8601)")
    else if Falsy(idTag) then Invalid("idTag is required")
    else Respond(ReserveNow(entries, chargePointId, connectorId, expiryDate, idTag, reservationId, parentIdTag, o))
  }

  /** POST trigger-message: a truthy requestedMessage. */
  function TriggerMessageRoute(entries: Entries, chargePointId: string, requestedMessage: Option<string>,
                               connectorId: Option<int>, o: RpcOutcome): (r: HttpReply)
    ensures Falsy(requestedMessage) ==> r == Invalid("requestedMessage is required")
    ensures !Falsy(requestedMessage) ==> r == Respond(TriggerMessage(entries, chargePointId, requestedMessage, connectorId, o))
  {
    if Falsy(requestedMessage) then Invalid("requestedMessage is required")
    else Respond(TriggerMessage(entries, chargePointId, requestedMessage, connectorId, o))
  }

  /** GET trigger-message-types: every MessageTrigger value, keyed by itself. */
  function TriggerMessageTypesRoute(): (r: HttpReply)
    ensures r.status == 200 && r.body.CallSucceeded?
    ensures |r.body.data| == |TriggerMessageTypes|
    ensures forall k :: 0 <= k < |r.body.data| ==> r.body.data[k] == Param(TriggerMessageTypes[k], Text(TriggerMessageTypes[k]))
  {
    HttpReply(200, CallSucceeded(seq(|TriggerMessageTypes|, k requires 0 <= k < |TriggerMessageTypes| =>
                                       Param(TriggerMessageTypes[k], Text(TriggerMessageTypes[k])))))
  }

  /** A well-formed reservation for a charger that is not registered is answered 404: the
      route checks pass, the operation's checks pass, and the lookup throws. */
  lemma ReservationForUnknownChargerIsNotFound(entries: Entries, chargePointId: string, connectorId: int,
                                               expiryDate: string, idTag: string, o: RpcOutcome)
    requires chargePointId != [] && chargePointId !in entries
    requires expiryDate != [] && idTag != []
    ensures ReserveNowRoute(entries, chargePointId, Some(connectorId), Some(expiryDate), Some(idTag), None, None, o).status == 404
  {
    NotConnectedMessageReported(chargePointId);
  }

  /** A route-level check decides before the operation's own: a reservation without an expiry
      date is answered 400 with the route's message, whether or not the charger is connected. */
  lemma RouteCheckComesFirst(entries: Entries, chargePointId: string, connectorId: int, idTag: Option<string>, o: RpcOutcome)
    ensures ReserveNowRoute(entries, chargePointId, Some(connectorId), None, idTag, None, None, o)
         == HttpReply(400, CallFailed("expiryDate is required (ISO 8601)"))
  {
  }
}
