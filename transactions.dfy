/** The transaction ledger (service/management/transactionService.js over model/ocpp/Transaction.js):
    id allocation, creation with defaults, the stop rule and the active-per-charge-point query. */
module Transactions {
  import opened Common
  import opened OcppTypes
  import opened Collections

  /** A stored transaction. Instants are milliseconds since the epoch. */
  datatype Transaction = Transaction(
    transactionId: int,
    chargePointId: string,
    connectorId: int,
    idTag: string,
    meterStart: int,
    timestamp: int,
    startedAt: Option<int>,
    stoppedAt: Option<int>,
    meterStop: Option<int>,
    stopReason: Option<StopReason>,
    status: TransactionStatus)

  /** The data handed to `createTransaction`; `None` is a field left undefined. */
  datatype TransactionDraft = TransactionDraft(
    transactionId: Option<int>,
    chargePointId: string,
    connectorId: Option<int>,
    idTag: string,
    meterStart: Option<int>,
    timestamp: Option<int>,
    startedAt: Option<int>,
    status: Option<TransactionStatus>)

  /** The StopTransaction data the ledger uses: meterStop when defined, a reason when given. */
  datatype StopData = StopData(meterStop: Option<int>, reason: Option<StopReason>)

  datatype LedgerError =
    | TransactionNotFound(transactionId: int)
    | DuplicateTransactionId(transactionId: int)   // the unique index rejects the insert
    | TransactionValidationFailed                   // a required field is missing

  predicate IdTaken(ts: seq<Transaction>, id: int)
  {
    exists k :: 0 <= k < |ts| && ts[k].transactionId == id
  }

  /** The highest transactionId in a non-empty store. */
  function MaxId(ts: seq<Transaction>): (m: int)
    requires ts != []
    ensures exists k :: 0 <= k < |ts| && ts[k].transactionId == m
    ensures forall k :: 0 <= k < |ts| ==> ts[k].transactionId <= m
  {
    if |ts| == 1 then ts[0].transactionId
    else
      var rest := MaxId(ts[1..]);
      if ts[0].transactionId >= rest then ts[0].transactionId else rest
  }

  /** The id one attempt proposes: the highest id + 1, or `Math.floor(now / 1000)` when the store
      is empty or its highest id is 0 (falsy). */
  function Proposal(ts: seq<Transaction>, now: int): (p: int)
    ensures ts != [] && MaxId(ts) != 0 ==> forall k :: 0 <= k < |ts| ==> ts[k].transactionId < p
    ensures ts != [] && MaxId(ts) != 0 ==> exists k :: 0 <= k < |ts| && ts[k].transactionId + 1 == p
    ensures ts == [] || MaxId(ts) == 0 ==> p * 1000 <= now < p * 1000 + 1000
  {
    if ts != [] && MaxId(ts) != 0 then MaxId(ts) + 1 else now / 1000
  }

  /** Once the clock is past the first second of the epoch, the proposal is never already taken. */
  lemma ProposalIsFresh(ts: seq<Transaction>, now: int)
    requires now >= 1000
    ensures !IdTaken(ts, Proposal(ts, now))
  {
    if ts != [] {
      assert forall k :: 0 <= k < |ts| ==> ts[k].transactionId <= MaxId(ts);
    }
  }

  /** The attempt outcomes of `generateTransactionId`: some attempt reads the store without a fault. */
  predicate SomeAttemptSucceeds(faults: seq<bool>)
    requires |faults| == 10
  {
    exists k :: 0 <= k < 10 && !faults[k]
  }

  /** The stop rule: an emergency stop or hard reset ends as Stopped, anything else as Completed. */
  function StatusAfterStop(reason: Option<StopReason>): (s: TransactionStatus)
    ensures s == Stopped <==> reason == Some(EmergencyStop) || reason == Some(HardReset)
    ensures s != Active
  {
    if reason == Some(EmergencyStop) || reason == Some(HardReset) then Stopped else Completed
  }

  /** The transaction after `stopTransaction`: stoppedAt is stamped, the status follows the
      stop rule, meterStop and stopReason are written only when supplied. */
  function AfterStop(t: Transaction, stop: StopData, now: int): (u: Transaction)
    ensures u.stoppedAt == Some(now) && u.status == StatusAfterStop(stop.reason)
    ensures u.meterStop == (if stop.meterStop.Some? then stop.meterStop else t.meterStop)
    ensures u.stopReason == (if stop.reason.Some? then stop.reason else t.stopReason)
    ensures u.(stoppedAt := t.stoppedAt, status := t.status, meterStop := t.meterStop, stopReason := t.stopReason) == t
  {
    t.(stoppedAt := Some(now), status := StatusAfterStop(stop.reason),
       meterStop := if stop.meterStop.Some? then stop.meterStop else t.meterStop,
       stopReason := if stop.reason.Some? then stop.reason else t.stopReason)
  }

  /** Stopping again with the same data at the same instant changes nothing more. */
  lemma StopIsIdempotent(t: Transaction, stop: StopData, now: int)
    ensures AfterStop(AfterStop(t, stop, now), stop, now) == AfterStop(t, stop, now)
  {
  }

  /** `getActiveTransactionsByChargePoint`: exactly that charge point's Active transactions. */
  function ActiveByChargePoint(ts: seq<Transaction>, chargePointId: string): (r: seq<Transaction>)
    ensures forall k :: 0 <= k < |r| ==> r[k] in ts && r[k].chargePointId == chargePointId && r[k].status == Active
    ensures forall k :: 0 <= k < |ts| && ts[k].chargePointId == chargePointId && ts[k].status == Active ==> ts[k] in r
  {
    Filter(ts, (t: Transaction) => t.chargePointId == chargePointId && t.status == Active)
  }

  /** The schema's required fields. */
  function ValidTransactionDraft(d: TransactionDraft): (r: bool)
    ensures d.chargePointId == [] || d.connectorId.None? || d.idTag == [] ==> !r
    ensures d.meterStart.None? || d.timestamp.None? ==> !r
  {
    d.chargePointId != [] && d.connectorId.Some? && d.idTag != [] && d.meterStart.Some? && d.timestamp.Some?
  }

  class TransactionLedger {
    var transactions: seq<Transaction>

    ghost predicate Valid()
      reads this
    {
      forall i, j :: 0 <= i < j < |transactions| ==> transactions[i].transactionId != transactions[j].transactionId
    }

    constructor ()
      ensures Valid() && transactions == []
    {
      transactions := [];
    }

    /** `generateTransactionId`. `faults[k]` says whether attempt k's store lookup throws;
        `random` is `Math.floor(Math.random() * 1000)`. A proposal is returned only if no stored
        transaction has it; after ten failed attempts the unchecked fallback
        `Math.floor(now / 1000) + random` is returned. */
    method GenerateTransactionId(now: int, faults: seq<bool>, random: int) returns (id: int)
      requires |faults| == 10 && 0 <= random < 1000
      ensures SomeAttemptSucceeds(faults) && !IdTaken(transactions, Proposal(transactions, now))
              ==> id == Proposal(transactions, now)
      ensures !(SomeAttemptSucceeds(faults) && !IdTaken(transactions, Proposal(transactions, now)))
              ==> id == now / 1000 + random
      ensures SomeAttemptSucceeds(faults) && now >= 1000 ==> !IdTaken(transactions, id)
    {
      var attempts := 0;
      while attempts < 10
        invariant 0 <= attempts <= 10
        invariant forall k :: 0 <= k < attempts ==> faults[k] || IdTaken(transactions, Proposal(transactions, now))
      {
        if !faults[attempts] {
          var candidate := if transactions != [] && MaxId(transactions) != 0
                           then MaxId(transactions) + 1 else now / 1000;
          var taken := IdTaken(transactions, candidate);
          if !taken {
            return candidate;
          }
        }
        attempts := attempts + 1;
      }
      if now >= 1000 { ProposalIsFresh(transactions, now); }
      return now / 1000 + random;
    }

    /** `createTransaction`: an id is generated only when none (or 0) is given, the status
        defaults to Active and startedAt to now; the validators and the unique index decide
        whether the insert happens. */
    method CreateTransaction(draft: TransactionDraft, now: int, faults: seq<bool>, random: int)
      returns (r: Result<Transaction, LedgerError>)
      requires Valid() && |faults| == 10 && 0 <= random < 1000
      modifies this
      ensures Valid()
      ensures r.Ok? ==> transactions == old(transactions) + [r.value]
      ensures r.Err? ==> transactions == old(transactions)
      ensures r.Ok? ==> r.value.status == (if draft.status.Some? then draft.status.value else Active)
                        && r.value.startedAt == Some(if draft.startedAt.Some? then draft.startedAt.value else now)
      ensures draft.transactionId.Some? && draft.transactionId.value != 0 && r.Ok?
              ==> r.value.transactionId == draft.transactionId.value
      ensures !ValidTransactionDraft(draft) ==> r == Err(TransactionValidationFailed)
      ensures r.Ok? ==> !IdTaken(old(transactions), r.value.transactionId)
      ensures (ValidTransactionDraft(draft) && (draft.transactionId.None? || draft.transactionId.value == 0)
               && SomeAttemptSucceeds(faults) && now >= 1000) ==> r.Ok?
      ensures ValidTransactionDraft(draft) && draft.transactionId.Some? && draft.transactionId.value != 0
              ==> if IdTaken(old(transactions), draft.transactionId.value)
                  then r == Err(DuplicateTransactionId(draft.transactionId.value))
                  else r.Ok?
      ensures r.Ok? ==> ValidTransactionDraft(draft)
                        && r.value == Transaction(r.value.transactionId, draft.chargePointId, draft.connectorId.value,
                                                  draft.idTag, draft.meterStart.value, draft.timestamp.value,
                                                  r.value.startedAt, None, None, None, r.value.status)
    {
      var id: int;
      if draft.transactionId.None? || draft.transactionId.value == 0 {
        id := GenerateTransactionId(now, faults, random);
      } else {
        id := draft.transactionId.value;
      }
      if !ValidTransactionDraft(draft) {
        return Err(TransactionValidationFailed);
      }
      if IdTaken(transactions, id) {
        return Err(DuplicateTransactionId(id));
      }
      var t := Transaction(id, draft.chargePointId, draft.connectorId.value, draft.idTag, draft.meterStart.value,
                           draft.timestamp.value, Some(draft.startedAt.GetOr(now)), None, None, None,
                           draft.status.GetOr(Active));
      transactions := transactions + [t];
      return Ok(t);
    }

    /** `stopTransaction`: an unknown transactionId is an error; otherwise that one record is
        replaced by its stopped form and nothing else changes. */
    method StopTransaction(transactionId: int, stop: StopData, now: int) returns (r: Result<Transaction, LedgerError>)
      requires Valid()
      modifies this
      ensures Valid()
      ensures var k := FirstIndex(old(transactions), (t: Transaction) => t.transactionId == transactionId);
              if k == |old(transactions)| then r == Err(TransactionNotFound(transactionId)) && transactions == old(transactions)
              else r == Ok(AfterStop(old(transactions)[k], stop, now)) && transactions == old(transactions)[k := r.value]
    {
      var k := FirstIndex(transactions, (t: Transaction) => t.transactionId == transactionId);
      if k == |transactions| {
        return Err(TransactionNotFound(transactionId));
      }
      var u := AfterStop(transactions[k], stop, now);
      transactions := transactions[k := u];
      return Ok(u);
    }
  }

  /** A stopped transaction is no longer reported as active for its charge point. */
  lemma StoppedLeavesActiveList(ts: seq<Transaction>, k: nat, stop: StopData, now: int)
    requires k < |ts|
    requires forall i, j :: 0 <= i < j < |ts| ==> ts[i].transactionId != ts[j].transactionId
    ensures var us := ts[k := AfterStop(ts[k], stop, now)];
            forall m :: 0 <= m < |ActiveByChargePoint(us, ts[k].chargePointId)| ==>
              ActiveByChargePoint(us, ts[k].chargePointId)[m].transactionId != ts[k].transactionId
  {
    var us := ts[k := AfterStop(ts[k], stop, now)];
    var r := ActiveByChargePoint(us, ts[k].chargePointId);
    forall m | 0 <= m < |r|
      ensures r[m].transactionId != ts[k].transactionId
    {
      var i :| 0 <= i < |us| && us[i] == r[m];
      assert i != k;
    }
  }
}
