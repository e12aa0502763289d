/** The status-notification log (service/ocpp/statusNotificationService.js over
    model/ocpp/StatusNotification.js): every StatusNotification a charger sends is appended,
    and the log is read back per charge point or per connector, newest first. */
module StatusNotifications {
  import opened Common
  import opened OcppTypes
  import opened Collections

  /** StatusNotification.errorCode: the schema's enum, which spells OCPP 1.6's OtherError as "Other". */
  datatype ChargePointErrorCode =
    | ConnectorLockFailure | EVCommunicationError | GroundFailure | HighTemperature | InternalError
    | LocalListConflict | NoError | Other | OverCurrentFailure | PowerMeterFailure
    | PowerSwitchFailure | ReaderFailure | ResetFailure | UnderVoltage | OverVoltage | WeakSignal

  /** A stored notification. */
  datatype StatusRecord = StatusRecord(
    id: nat,
    chargePointId: string,
    connectorId: int,
    status: ConnectorStatus,
    errorCode: Option<ChargePointErrorCode>,
    info: Option<string>,
    timestamp: int,
    vendorId: Option<string>,
    vendorErrorCode: Option<string>,
    createdAt: int)

  /** The `additionalData` object; `None` is a key it does not have. Every key it has is
      spread over the record, so it may also override the three named arguments. */
  datatype AdditionalData = AdditionalData(
    chargePointId: Option<string>,
    connectorId: Option<int>,
    status: Option<ConnectorStatus>,
    errorCode: Option<ChargePointErrorCode>,
    info: Option<string>,
    timestamp: Option<int>,
    vendorId: Option<string>,
    vendorErrorCode: Option<string>)

  datatype StatusError = StatusValidationFailed

  /** The record `saveStatusNotification` builds, before validation: the arguments, the
      timestamp defaulting to now, then every key of `additionalData` on top. */
  function Compose(id: nat, chargePointId: string, connectorId: int, status: ConnectorStatus, extra: AdditionalData,
                   now: int): (r: StatusRecord)
    ensures r.chargePointId == extra.chargePointId.GetOr(chargePointId)
    ensures r.connectorId == extra.connectorId.GetOr(connectorId)
    ensures r.status == extra.status.GetOr(status)
    ensures r.timestamp == extra.timestamp.GetOr(now)
    ensures r.errorCode == extra.errorCode && r.info == extra.info && r.vendorId == extra.vendorId
            && r.vendorErrorCode == extra.vendorErrorCode
    ensures r.id == id && r.createdAt == now
  {
    StatusRecord(id, extra.chargePointId.GetOr(chargePointId), extra.connectorId.GetOr(connectorId),
                 extra.status.GetOr(status), extra.errorCode, extra.info, extra.timestamp.GetOr(now), extra.vendorId,
                 extra.vendorErrorCode, now)
  }

  /** Without additional data, the record holds exactly the arguments, stamped now. */
  lemma PlainNotification(id: nat, chargePointId: string, connectorId: int, status: ConnectorStatus, now: int)
    ensures var r := Compose(id, chargePointId, connectorId, status,
                             AdditionalData(None, None, None, None, None, None, None, None), now);
            r.chargePointId == chargePointId && r.connectorId == connectorId && r.status == status
            && r.timestamp == now && r.errorCode.None? && r.info.None?
  {
  }

  /** The schema's one check a typed record can fail: chargePointId is a required string. */
  function ValidStatusRecord(r: StatusRecord): (ok: bool)
    ensures ok <==> |r.chargePointId| > 0
  {
    r.chargePointId != []
  }

  class StatusLog {
    var records: seq<StatusRecord>
    var nextId: nat

    ghost predicate Valid()
      reads this
    {
      forall k :: 0 <= k < |records| ==> records[k].id < nextId
    }

    constructor ()
      ensures Valid() && records == [] && nextId == 0
    {
      records := [];
      nextId := 0;
    }

    /** `saveStatusNotification`: the composed record is appended when it validates. */
    method Save(chargePointId: string, connectorId: int, status: ConnectorStatus, extra: AdditionalData, now: int)
      returns (r: Result<StatusRecord, StatusError>)
      requires Valid()
      modifies this
      ensures Valid()
      ensures var n := Compose(old(nextId), chargePointId, connectorId, status, extra, now);
              if ValidStatusRecord(n) then r == Ok(n) && records == old(records) + [n]
              else r == Err(StatusValidationFailed) && records == old(records)
    {
      var n := Compose(nextId, chargePointId, connectorId, status, extra, now);
      if !ValidStatusRecord(n) {
        return Err(StatusValidationFailed);
      }
      records := records + [n];
      nextId := nextId + 1;
      return Ok(n);
    }
  }

  // ---------------------------------------------------------------------------------------
  // Queries

  /** The options of `getStatusNotificationsByChargePoint`: `None` is an option not given, and
      a limit of 0 is no limit (falsy). */
  datatype StatusQuery = StatusQuery(connectorId: Option<int>, status: Option<ConnectorStatus>, limit: nat)

  predicate Matches(n: StatusRecord, chargePointId: string, q: StatusQuery)
  {
    n.chargePointId == chargePointId
    && (q.connectorId.None? || n.connectorId == q.connectorId.value)
    && (q.status.None? || n.status == q.status.value)
  }

  function StatusTimestamp(n: StatusRecord): int
  {
    n.timestamp
  }

  /** `getStatusNotificationsByChargePoint`: the matching records, newest first, cut to the
      limit when one is given. */
  function ByChargePoint(rs: seq<StatusRecord>, chargePointId: string, q: StatusQuery): (r: seq<StatusRecord>)
    ensures forall k :: 0 <= k < |r| ==> r[k] in rs && Matches(r[k], chargePointId, q)
    ensures SortedDesc(r, StatusTimestamp)
    ensures q.limit > 0 ==> |r| <= q.limit
    ensures (q.limit > 0 && |r| == q.limit) || forall k :: 0 <= k < |rs| && Matches(rs[k], chargePointId, q) ==> rs[k] in r
    ensures q.limit == 0 ==> multiset(r) == multiset(Filter(rs, n => Matches(n, chargePointId, q)))
    ensures forall k, i :: 0 <= k < |rs| && Matches(rs[k], chargePointId, q) && rs[k] !in r && 0 <= i < |r|
                           ==> rs[k].timestamp <= r[i].timestamp
    ensures multiset(r) <= multiset(Filter(rs, n => Matches(n, chargePointId, q)))
    ensures |r| == if q.limit == 0 || Count(rs, n => Matches(n, chargePointId, q)) <= q.limit
                   then Count(rs, n => Matches(n, chargePointId, q)) else q.limit
  {
    NewestMatches(rs, n => Matches(n, chargePointId, q), StatusTimestamp, q.limit)
  }

  /** `getLatestStatusNotification`: the newest record of a charge point's connector. */
  function Latest(rs: seq<StatusRecord>, chargePointId: string, connectorId: int): (r: Option<StatusRecord>)
    ensures r.None? <==> forall k :: 0 <= k < |rs| ==> !(rs[k].chargePointId == chargePointId && rs[k].connectorId == connectorId)
    ensures r.Some? ==> r.value in rs && r.value.chargePointId == chargePointId && r.value.connectorId == connectorId
    ensures r.Some? ==> forall k :: 0 <= k < |rs| && rs[k].chargePointId == chargePointId && rs[k].connectorId == connectorId
                                    ==> rs[k].timestamp <= r.value.timestamp
  {
    NewestMatch(rs, (n: StatusRecord) => n.chargePointId == chargePointId && n.connectorId == connectorId,
                StatusTimestamp)
  }

  /** The latest notification of a connector is as recent as the head of that connector's
      listing, and there is one exactly when the listing is not empty. */
  lemma LatestHeadsListing(rs: seq<StatusRecord>, chargePointId: string, connectorId: int)
    ensures var listing := ByChargePoint(rs, chargePointId, StatusQuery(Some(connectorId), None, 0));
            var latest := Latest(rs, chargePointId, connectorId);
            (latest.Some? <==> listing != []) && (latest.Some? ==> latest.value.timestamp == listing[0].timestamp)
  {
    var q := StatusQuery(Some(connectorId), None, 0);
    NewestMatchHeadsListing(rs, (n: StatusRecord) => n.chargePointId == chargePointId && n.connectorId == connectorId,
                            n => Matches(n, chargePointId, q), StatusTimestamp);
  }

  /** A saved notification shows up in its charge point's unlimited listing. */
  lemma SavedIsListed(rs: seq<StatusRecord>, n: StatusRecord, q: StatusQuery)
    requires q.limit == 0 && Matches(n, n.chargePointId, q)
    ensures n in ByChargePoint(rs + [n], n.chargePointId, q)
  {
    assert (rs + [n])[|rs|] == n;
  }
}
