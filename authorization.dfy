/** Authorization (service/ocpp/authorize.js) and the idTag and reservation records
    (model/ocpp/IdTag.js, model/ocpp/Reservation.js). */
module Authorization {
  import opened Common
  import opened OcppTypes
  import opened Collections

  // ---------------------------------------------------------------------------------------
  // Insertion-ordered string sets (a JavaScript `Set` read back with `Array.from`)

  predicate NoDuplicates(s: seq<string>)
  {
    forall i, j :: 0 <= i < j < |s| ==> s[i] != s[j]
  }

  /** `set.add(x)`: a new member goes last, an existing one keeps its place. */
  function SetAdd(s: seq<string>, x: string): (r: seq<string>)
    ensures x in r
    ensures forall y :: y in r <==> y in s || y == x
    ensures NoDuplicates(s) ==> NoDuplicates(r)
    ensures x in s ==> r == s
    ensures x !in s ==> |r| == |s| + 1 && r[..|s|] == s
  {
    if x in s then s else s + [x]
  }

  /** `set.delete(x)`: the order of the other members is kept, so the result is the input
      with every `x` filtered out. */
  function SetDelete(s: seq<string>, x: string): (r: seq<string>)
    ensures x !in r
    ensures forall y :: y in r <==> y in s && y != x
    ensures NoDuplicates(s) ==> NoDuplicates(r)
    ensures r == Filter(s, (y: string) => y != x)
  {
    if s == [] then []
    else if s[0] == x then SetDelete(s[1..], x)
    else
      var rest := SetDelete(s[1..], x);
      assert NoDuplicates(s) ==> s[0] !in s[1..];
      [s[0]] + rest
  }

  /** The authorized and blocked tag sets. */
  datatype TagSets = TagSets(authorized: seq<string>, blocked: seq<string>)

  predicate ValidSets(s: TagSets)
  {
    NoDuplicates(s.authorized) && NoDuplicates(s.blocked)
    && forall t :: t in s.authorized ==> t !in s.blocked
  }

  const InitialTags := TagSets(["TAG001", "TAG002", "TAG003", "OCPP1234TAG", "DEMO_TAG", "TEST_TAG"],
                               ["BLOCKED_TAG"])

  /** The demo lists the module starts with are disjoint. */
  lemma InitialTagsValid()
    ensures ValidSets(InitialTags)
  {
    var s := InitialTags;
    forall t | t in s.authorized
      ensures t !in s.blocked
    {
      assert s.blocked == ["BLOCKED_TAG"];
      assert t[0] == 'T' || t[0] == 'O' || t[0] == 'D';
    }
  }

  /** The `idTagInfo` a request gets back. */
  datatype IdTagInfo = IdTagInfo(status: AuthorizationStatus, expiryDate: Option<int>)

  /** `authorizeOCPPRequest`: an empty tag is Invalid, a blocked tag is Blocked (the blocked set
      is consulted first), an authorized tag is Accepted until one year after now (the instant
      `oneYearLater`, computed from the clock), every other tag is Invalid. */
  function Authorize(s: TagSets, idTag: string, oneYearLater: int): (info: IdTagInfo)
    ensures info.status == Accepted <==> idTag != [] && idTag !in s.blocked && idTag in s.authorized
    ensures info.status == Blocked <==> idTag != [] && idTag in s.blocked
    ensures info.status == Accepted || info.status == Blocked || info.status == Invalid
    ensures info.expiryDate.Some? <==> info.status == Accepted
    ensures info.expiryDate.Some? ==> info.expiryDate.value == oneYearLater
  {
    if idTag == [] then IdTagInfo(Invalid, None)
    else if idTag in s.blocked then IdTagInfo(Blocked, None)
    else if idTag in s.authorized then IdTagInfo(Accepted, Some(oneYearLater))
    else IdTagInfo(Invalid, None)
  }

  /** `addAuthorizedTag`: into the authorized set, out of the blocked set. */
  function AddAuthorized(s: TagSets, t: string): (r: TagSets)
    ensures r.authorized == SetAdd(s.authorized, t) && r.blocked == SetDelete(s.blocked, t)
    ensures ValidSets(s) ==> ValidSets(r)
  {
    TagSets(SetAdd(s.authorized, t), SetDelete(s.blocked, t))
  }

  /** `removeAuthorizedTag`: out of the authorized set only. */
  function RemoveAuthorized(s: TagSets, t: string): (r: TagSets)
    ensures r.authorized == SetDelete(s.authorized, t) && r.blocked == s.blocked
    ensures ValidSets(s) ==> ValidSets(r)
  {
    TagSets(SetDelete(s.authorized, t), s.blocked)
  }

  /** `blockTag`: into the blocked set, out of the authorized set. */
  function Block(s: TagSets, t: string): (r: TagSets)
    ensures r.blocked == SetAdd(s.blocked, t) && r.authorized == SetDelete(s.authorized, t)
    ensures ValidSets(s) ==> ValidSets(r)
  {
    TagSets(SetDelete(s.authorized, t), SetAdd(s.blocked, t))
  }

  /** A tag just added is accepted, whatever the sets held before. */
  lemma AddedTagIsAccepted(s: TagSets, t: string, oneYearLater: int)
    requires t != []
    ensures Authorize(AddAuthorized(s, t), t, oneYearLater) == IdTagInfo(Accepted, Some(oneYearLater))
  {
  }

  /** A tag just blocked is refused, whatever the sets held before. */
  lemma BlockedTagIsBlocked(s: TagSets, t: string, oneYearLater: int)
    requires t != []
    ensures Authorize(Block(s, t), t, oneYearLater) == IdTagInfo(Blocked, None)
  {
  }

  /** Removing a tag that was never blocked makes it Invalid. */
  lemma RemovedTagIsInvalid(s: TagSets, t: string, oneYearLater: int)
    requires t !in s.blocked
    ensures Authorize(RemoveAuthorized(s, t), t, oneYearLater).status == Invalid
  {
  }

  /** No other tag's answer changes when one tag is added, removed or blocked. */
  lemma MutatorsAffectOnlyTheirTag(s: TagSets, t: string, u: string, oneYearLater: int)
    requires u != t
    ensures Authorize(AddAuthorized(s, t), u, oneYearLater) == Authorize(s, u, oneYearLater)
    ensures Authorize(RemoveAuthorized(s, t), u, oneYearLater) == Authorize(s, u, oneYearLater)
    ensures Authorize(Block(s, t), u, oneYearLater) == Authorize(s, u, oneYearLater)
  {
  }

  /** The module-level sets, updated in place by the three mutators. */
  class TagRegistry {
    var authorized: seq<string>
    var blocked: seq<string>

    function Sets(): TagSets
      reads this
    {
      TagSets(authorized, blocked)
    }

    ghost predicate Valid()
      reads this
    {
      ValidSets(Sets())
    }

    constructor ()
      ensures Sets() == InitialTags && Valid()
    {
      authorized := InitialTags.authorized;
      blocked := InitialTags.blocked;
      InitialTagsValid();
    }

    method AddAuthorizedTag(t: string)
      requires Valid()
      modifies this
      ensures Valid() && Sets() == AddAuthorized(old(Sets()), t)
    {
      authorized := SetAdd(authorized, t);
      blocked := SetDelete(blocked, t);
    }

    method RemoveAuthorizedTag(t: string)
      requires Valid()
      modifies this
      ensures Valid() && Sets() == RemoveAuthorized(old(Sets()), t)
    {
      authorized := SetDelete(authorized, t);
    }

    method BlockTag(t: string)
      requires Valid()
      modifies this
      ensures Valid() && Sets() == Block(old(Sets()), t)
    {
      blocked := SetAdd(blocked, t);
      authorized := SetDelete(authorized, t);
    }

    /** `getAuthorizedTags` and `getBlockedTags`: the members in insertion order. */
    method AuthorizedTags() returns (r: seq<string>)
      ensures NoDuplicates(authorized) ==> NoDuplicates(r)
      ensures forall t :: t in r <==> t in authorized
      ensures r == authorized
    {
      r := authorized;
    }

    method BlockedTags() returns (r: seq<string>)
      ensures NoDuplicates(blocked) ==> NoDuplicates(r)
      ensures forall t :: t in r <==> t in blocked
      ensures r == blocked
    {
      r := blocked;
    }
  }

  // ---------------------------------------------------------------------------------------
  // IdTag and Reservation records

  datatype IdTagRecord = IdTagRecord(
    idTag: string,
    parentIdTag: Option<string>,
    status: AuthorizationStatus,
    expiryDate: Option<int>,
    userId: Option<string>,
    isActive: bool)

  /** The `isExpired` virtual: never without an expiry date, else strictly after it. */
  function IdTagExpired(t: IdTagRecord, now: int): (expired: bool)
    ensures expired <==> t.expiryDate.Some? && now > t.expiryDate.value
  {
    match t.expiryDate
    case None => false
    case Some(e) => now > e
  }

  datatype IdTagDraft = IdTagDraft(
    idTag: string,
    parentIdTag: Option<string>,
    status: Option<AuthorizationStatus>,
    expiryDate: Option<int>,
    userId: Option<string>,
    isActive: Option<bool>)

  datatype RecordError = DuplicateKey | RecordValidationFailed

  /** Saving an idTag document: status defaults to Accepted and isActive to true, the tag is
      required (non-empty) and unique. */
  function InsertIdTag(store: seq<IdTagRecord>, d: IdTagDraft): (r: Result<seq<IdTagRecord>, RecordError>)
    ensures d.idTag == [] ==> r == Err(RecordValidationFailed)
    ensures d.idTag != [] && (exists k :: 0 <= k < |store| && store[k].idTag == d.idTag) ==> r == Err(DuplicateKey)
    ensures r.Ok? ==> |r.value| == |store| + 1 && r.value[..|store|] == store
    ensures r.Ok? ==> var t := r.value[|store|];
                      t.idTag == d.idTag && t.status == d.status.GetOr(Accepted) && t.isActive == d.isActive.GetOr(true)
                      && t.expiryDate == d.expiryDate && t.parentIdTag == d.parentIdTag && t.userId == d.userId
    ensures r.Ok? ==> r.value == store + [IdTagRecord(d.idTag, d.parentIdTag, d.status.GetOr(Accepted), d.expiryDate,
                                                      d.userId, d.isActive.GetOr(true))]
    ensures r.Ok? <==> d.idTag != [] && forall k :: 0 <= k < |store| ==> store[k].idTag != d.idTag
  {
    if d.idTag == [] then Err(RecordValidationFailed)
    else if exists k :: 0 <= k < |store| && store[k].idTag == d.idTag then Err(DuplicateKey)
    else Ok(store + [IdTagRecord(d.idTag, d.parentIdTag, d.status.GetOr(Accepted), d.expiryDate, d.userId,
                                 d.isActive.GetOr(true))])
  }

  /** The unique index keeps every tag once. */
  lemma InsertIdTagKeepsTagsUnique(store: seq<IdTagRecord>, d: IdTagDraft)
    requires forall i, j :: 0 <= i < j < |store| ==> store[i].idTag != store[j].idTag
    requires InsertIdTag(store, d).Ok?
    ensures var s := InsertIdTag(store, d).value;
            forall i, j :: 0 <= i < j < |s| ==> s[i].idTag != s[j].idTag
  {
  }

  datatype ReservationStatus = ReservationActive | Used | ReservationExpired | Cancelled

  datatype Reservation = Reservation(
    reservationId: int,
    chargePointId: string,
    connectorId: Option<int>,
    idTag: string,
    expiryDate: int,
    status: ReservationStatus,
    transactionId: Option<int>)

  /** The `isExpired` virtual: strictly after the expiry date. */
  function ReservationExpiredAt(r: Reservation, now: int): (expired: bool)
    ensures expired <==> now > r.expiryDate
  {
    now > r.expiryDate
  }

  /** A reservation without a connector holds any connector of its charge point. */
  function CoversConnector(r: Reservation, connectorId: int): (covers: bool)
    ensures r.connectorId.None? ==> covers
    ensures r.connectorId.Some? ==> (covers <==> r.connectorId.value == connectorId)
  {
    r.connectorId.None? || r.connectorId.value == connectorId
  }

  datatype ReservationDraft = ReservationDraft(
    reservationId: Option<int>,
    chargePointId: string,
    connectorId: Option<int>,
    idTag: string,
    expiryDate: Option<int>,
    status: Option<ReservationStatus>)

  /** Saving a reservation: status defaults to Active; reservationId, chargePointId, idTag and
      expiryDate are required; reservationId is unique. */
  function InsertReservation(store: seq<Reservation>, d: ReservationDraft): (r: Result<seq<Reservation>, RecordError>)
    ensures r.Ok? <==> d.reservationId.Some? && d.chargePointId != [] && d.idTag != [] && d.expiryDate.Some?
                       && forall k :: 0 <= k < |store| ==> store[k].reservationId != d.reservationId.value
    ensures r.Ok? ==> |r.value| == |store| + 1 && r.value[..|store|] == store
                      && r.value[|store|].status == d.status.GetOr(ReservationActive)
                      && r.value[|store|].connectorId == d.connectorId
    ensures r.Ok? ==> r.value == store + [Reservation(d.reservationId.value, d.chargePointId, d.connectorId, d.idTag,
                                                      d.expiryDate.value, d.status.GetOr(ReservationActive), None)]
  {
    if d.reservationId.None? || d.chargePointId == [] || d.idTag == [] || d.expiryDate.None? then Err(RecordValidationFailed)
    else if exists k :: 0 <= k < |store| && store[k].reservationId == d.reservationId.value then Err(DuplicateKey)
    else Ok(store + [Reservation(d.reservationId.value, d.chargePointId, d.connectorId, d.idTag, d.expiryDate.value,
                                 d.status.GetOr(ReservationActive), None)])
  }
}
