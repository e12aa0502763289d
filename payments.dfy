/** Payments (service/management/paymentService.js over model/management/Payment.js): creation,
    updates, completion, the filtered listing and the gate consulted before charging. */
module Payments {
  import opened Common
  import opened Collections

  datatype PaymentStatus = Pending | PaymentCompleted | Failed | Refunded | PaymentCancelled
  datatype PaymentMethod = Card | Wallet | Invoice | Cash | OtherMethod

  /** A stored payment; `createdAt` and `updatedAt` are the schema's timestamps. */
  datatype Payment = Payment(
    id: nat,
    amount: real,
    currency: string,
    status: PaymentStatus,
    paymentMethod: PaymentMethod,
    userId: Option<string>,
    companyId: Option<string>,
    transactionId: Option<int>,
    chargePointId: Option<string>,
    idTag: Option<string>,
    paidAt: Option<int>,
    externalPaymentId: Option<string>,
    createdAt: int,
    updatedAt: int)

  /** The data handed to `createPayment`, or the fields of an update; `None` is left undefined. */
  datatype PaymentFields = PaymentFields(
    amount: Option<real>,
    currency: Option<string>,
    status: Option<PaymentStatus>,
    paymentMethod: Option<PaymentMethod>,
    userId: Option<string>,
    companyId: Option<string>,
    transactionId: Option<int>,
    chargePointId: Option<string>,
    idTag: Option<string>,
    paidAt: Option<int>,
    externalPaymentId: Option<string>)

  const NoFields := PaymentFields(None, None, None, None, None, None, None, None, None, None, None)

  datatype PaymentError =
    | AmountRequired
    | AmountNegative
    | PaymentNotFound(id: nat)
    | PaymentValidationFailed   // currency set to the empty string

  /** A field written when the update defines it, kept otherwise. */
  function Written<T>(given: Option<T>, current: Option<T>): (r: Option<T>)
  {
    if given.Some? then given else current
  }

  /** The fields of `p` overwritten by those `f` defines. */
  function Overwrite(p: Payment, f: PaymentFields): (q: Payment)
    ensures q.id == p.id && q.createdAt == p.createdAt && q.updatedAt == p.updatedAt
    ensures f.amount.Some? ==> q.amount == f.amount.value
    ensures f.amount.None? ==> q.amount == p.amount
    ensures f.status.Some? ==> q.status == f.status.value
    ensures f.status.None? ==> q.status == p.status
    ensures f.paidAt.Some? ==> q.paidAt == f.paidAt
    ensures f.paidAt.None? ==> q.paidAt == p.paidAt
    ensures f.currency.Some? ==> q.currency == f.currency.value
    ensures f.currency.None? ==> q.currency == p.currency
    ensures f.paymentMethod.Some? ==> q.paymentMethod == f.paymentMethod.value
    ensures f.paymentMethod.None? ==> q.paymentMethod == p.paymentMethod
    ensures f.userId.Some? ==> q.userId == f.userId
    ensures f.userId.None? ==> q.userId == p.userId
    ensures f.companyId.Some? ==> q.companyId == f.companyId
    ensures f.companyId.None? ==> q.companyId == p.companyId
    ensures f.transactionId.Some? ==> q.transactionId == f.transactionId
    ensures f.transactionId.None? ==> q.transactionId == p.transactionId
    ensures f.chargePointId.Some? ==> q.chargePointId == f.chargePointId
    ensures f.chargePointId.None? ==> q.chargePointId == p.chargePointId
    ensures f.idTag.Some? ==> q.idTag == f.idTag
    ensures f.idTag.None? ==> q.idTag == p.idTag
    ensures f.externalPaymentId.Some? ==> q.externalPaymentId == f.externalPaymentId
    ensures f.externalPaymentId.None? ==> q.externalPaymentId == p.externalPaymentId
  {
    Payment(p.id, f.amount.GetOr(p.amount), f.currency.GetOr(p.currency), f.status.GetOr(p.status),
            f.paymentMethod.GetOr(p.paymentMethod), Written(f.userId, p.userId), Written(f.companyId, p.companyId),
            Written(f.transactionId, p.transactionId), Written(f.chargePointId, p.chargePointId),
            Written(f.idTag, p.idTag), Written(f.paidAt, p.paidAt), Written(f.externalPaymentId, p.externalPaymentId),
            p.createdAt, p.updatedAt)
  }

  /** Writing the same fields twice changes nothing the second time. */
  lemma OverwriteIsIdempotent(p: Payment, f: PaymentFields)
    ensures Overwrite(Overwrite(p, f), f) == Overwrite(p, f)
  {
  }

  /** The update `completePayment` sends: status Completed unless `extra` names one, and paidAt
      stamped with now unless `extra` supplies a truthy one (a paidAt of 0 is falsy and replaced). */
  function CompletionFields(extra: PaymentFields, now: int): (f: PaymentFields)
    ensures f.status == Some(extra.status.GetOr(PaymentCompleted))
    ensures extra.paidAt.None? || extra.paidAt == Some(0) ==> f.paidAt == Some(now)
    ensures extra.paidAt.Some? && extra.paidAt != Some(0) ==> f.paidAt == extra.paidAt
    ensures f.(status := extra.status, paidAt := extra.paidAt) == extra
  {
    var paidAt := if extra.paidAt.Some? && extra.paidAt.value != 0 then extra.paidAt.value else now;
    extra.(status := Some(extra.status.GetOr(PaymentCompleted)), paidAt := Some(paidAt))
  }

  // ---------------------------------------------------------------------------------------
  // The gate consulted before charging

  const FailedWindowMs: int := 30 * 24 * 60 * 60 * 1000
  const FailedLimit: nat := 5

  /** The `$or` of the gate's queries: the idTag, or the userId when one is given. */
  predicate Concerns(p: Payment, idTag: string, userId: Option<string>)
  {
    p.idTag == Some(idTag) || (userId.Some? && userId.value != [] && p.userId == userId)
  }

  /** A pending payment of the idTag, or of the user when one is given. */
  function PendingFor(p: Payment, idTag: string, userId: Option<string>): (r: bool)
    ensures r ==> p.status == Pending
    ensures p.idTag == Some(idTag) ==> (r <==> p.status == Pending)
    ensures userId.None? ==> (r <==> p.status == Pending && p.idTag == Some(idTag))
  {
    p.status == Pending && Concerns(p, idTag, userId)
  }

  /** A failed payment of the idTag or user created within the last thirty days. */
  function RecentFailureFor(p: Payment, idTag: string, userId: Option<string>, now: int): (r: bool)
    ensures r ==> p.status == Failed && now - p.createdAt <= FailedWindowMs
    ensures p.createdAt < now - FailedWindowMs ==> !r
    ensures userId.None? ==> (r <==> p.status == Failed && p.idTag == Some(idTag) && p.createdAt >= now - FailedWindowMs)
  {
    p.status == Failed && Concerns(p, idTag, userId) && p.createdAt >= now - FailedWindowMs
  }

  datatype GateReason = OutstandingPayment | TooManyFailures
  datatype GateDecision = Allowed | Blocked(reason: GateReason)

  /** `checkPaymentStatusForAuthorization`: a pending payment blocks first; otherwise five or
      more failures in the last thirty days block; otherwise charging is allowed. */
  function PaymentGate(ps: seq<Payment>, idTag: string, userId: Option<string>, now: int): (d: GateDecision)
    ensures d == Blocked(OutstandingPayment) <==> exists k :: 0 <= k < |ps| && PendingFor(ps[k], idTag, userId)
    ensures d == Blocked(TooManyFailures)
            <==> (forall k :: 0 <= k < |ps| ==> !PendingFor(ps[k], idTag, userId))
                 && Count(ps, p => RecentFailureFor(p, idTag, userId, now)) >= FailedLimit
    ensures d.Allowed? <==> (forall k :: 0 <= k < |ps| ==> !PendingFor(ps[k], idTag, userId))
                            && Count(ps, p => RecentFailureFor(p, idTag, userId, now)) < FailedLimit
  {
    if Count(ps, p => PendingFor(p, idTag, userId)) > 0 then Blocked(OutstandingPayment)
    else if Count(ps, p => RecentFailureFor(p, idTag, userId, now)) >= FailedLimit then Blocked(TooManyFailures)
    else Allowed
  }

  /** Recording another payment never lifts a block at the same instant. */
  lemma {:induction false} GateBlockPersists(ps: seq<Payment>, q: Payment, idTag: string, userId: Option<string>, now: int)
    requires PaymentGate(ps, idTag, userId, now).Blocked?
    ensures PaymentGate(ps + [q], idTag, userId, now).Blocked?
  {
    var fail := p => RecentFailureFor(p, idTag, userId, now);
    if exists k :: 0 <= k < |ps| && PendingFor(ps[k], idTag, userId) {
      var k :| 0 <= k < |ps| && PendingFor(ps[k], idTag, userId);
      assert (ps + [q])[k] == ps[k];
    } else {
      FilterAppend(ps, [q], fail);
      assert Count(ps + [q], fail) >= Count(ps, fail);
    }
  }

  /** A pending payment for the tag blocks it, whatever else is stored. */
  lemma PendingPaymentBlocks(ps: seq<Payment>, q: Payment, idTag: string, userId: Option<string>, now: int)
    requires q.status == Pending && q.idTag == Some(idTag)
    ensures PaymentGate(ps + [q], idTag, userId, now) == Blocked(OutstandingPayment)
  {
    assert (ps + [q])[|ps|] == q;
  }

  // ---------------------------------------------------------------------------------------
  // Listing

  /** The filters of `getAllPayments`; the string filters and the dates apply only when truthy,
      transactionId whenever it is given. */
  datatype PaymentFilter = PaymentFilter(
    companyId: string, userId: string, status: Option<PaymentStatus>, chargePointId: string, idTag: string,
    transactionId: Option<int>, from: Option<int>, to: Option<int>)

  predicate Listed(p: Payment, f: PaymentFilter)
  {
    (f.companyId == [] || p.companyId == Some(f.companyId))
    && (f.userId == [] || p.userId == Some(f.userId))
    && (f.status.None? || p.status == f.status.value)
    && (f.chargePointId == [] || p.chargePointId == Some(f.chargePointId))
    && (f.idTag == [] || p.idTag == Some(f.idTag))
    && (f.transactionId.None? || p.transactionId == f.transactionId)
    && (f.from.None? || f.from.value == 0 || p.createdAt >= f.from.value)
    && (f.to.None? || f.to.value == 0 || p.createdAt <= f.to.value)
  }

  function CreatedAt(p: Payment): int { p.createdAt }

  /** `getAllPayments`: exactly the payments every given filter admits, newest first. */
  function AllPayments(ps: seq<Payment>, f: PaymentFilter): (r: seq<Payment>)
    ensures SortedDesc(r, CreatedAt)
    ensures multiset(r) == multiset(Filter(ps, p => Listed(p, f)))
    ensures forall k :: 0 <= k < |r| ==> r[k] in ps && Listed(r[k], f)
    ensures forall k :: 0 <= k < |ps| && Listed(ps[k], f) ==> ps[k] in r
  {
    SelectSorted(ps, p => Listed(p, f), CreatedAt)
  }

  // ---------------------------------------------------------------------------------------
  // The payment collection

  class PaymentStore {
    var payments: seq<Payment>
    var nextId: nat

    ghost predicate Valid()
      reads this
    {
      forall k :: 0 <= k < |payments| ==> payments[k].id < nextId
    }

    constructor ()
      ensures Valid() && payments == [] && nextId == 0
    {
      payments := [];
      nextId := 0;
    }

    /** `createPayment`: a missing amount and a negative amount are refused before anything is
        written (0 is allowed); currency defaults to "USD", status to Pending, the method to Other. */
    method CreatePayment(d: PaymentFields, now: int) returns (r: Result<Payment, PaymentError>)
      requires Valid()
      modifies this
      ensures Valid()
      ensures d.amount.None? ==> r == Err(AmountRequired)
      ensures d.amount.Some? && d.amount.value < 0.0 ==> r == Err(AmountNegative)
      ensures d.amount.Some? && d.amount.value >= 0.0 && d.currency == Some([]) ==> r == Err(PaymentValidationFailed)
      ensures d.amount.Some? && d.amount.value >= 0.0 && d.currency != Some([]) ==> r.Ok?
      ensures r.Err? ==> payments == old(payments)
      ensures r.Ok? ==> payments == old(payments) + [r.value] && r.value.id == old(nextId)
                        && r.value.amount == d.amount.value >= 0.0
                        && r.value.currency == d.currency.GetOr(DefaultCurrency)
                        && r.value.status == d.status.GetOr(Pending)
                        && r.value.paymentMethod == d.paymentMethod.GetOr(OtherMethod)
                        && r.value.userId == d.userId && r.value.companyId == d.companyId
                        && r.value.transactionId == d.transactionId && r.value.chargePointId == d.chargePointId
                        && r.value.idTag == d.idTag && r.value.paidAt == d.paidAt
                        && r.value.externalPaymentId == d.externalPaymentId
                        && r.value.createdAt == now && r.value.updatedAt == now
    {
      if d.amount.None? {
        return Err(AmountRequired);
      }
      if d.amount.value < 0.0 {
        return Err(AmountNegative);
      }
      if d.currency == Some([]) {
        return Err(PaymentValidationFailed);
      }
      var blank := Payment(nextId, 0.0, DefaultCurrency, Pending, OtherMethod, None, None, None, None, None, None,
                           None, now, now);
      var p := Overwrite(blank, d);
      payments := payments + [p];
      nextId := nextId + 1;
      return Ok(p);
    }

    /** `updatePayment`: the update validators run before the lookup, so an empty currency is
        refused first; then an unknown id is an error; otherwise the given fields are written
        and updatedAt is stamped. Nothing checks the sign of a new amount. */
    method UpdatePayment(id: nat, f: PaymentFields, now: int) returns (r: Result<Payment, PaymentError>)
      requires Valid()
      modifies this
      ensures Valid()
      ensures var k := FirstIndex(old(payments), (p: Payment) => p.id == id);
              if f.currency == Some([]) then r == Err(PaymentValidationFailed) && payments == old(payments)
              else if k == |old(payments)| then r == Err(PaymentNotFound(id)) && payments == old(payments)
              else r == Ok(Overwrite(old(payments)[k], f).(updatedAt := now)) && payments == old(payments)[k := r.value]
    {
      if f.currency == Some([]) {
        return Err(PaymentValidationFailed);
      }
      var k := FirstIndex(payments, (p: Payment) => p.id == id);
      if k == |payments| {
        return Err(PaymentNotFound(id));
      }
      var q := Overwrite(payments[k], f).(updatedAt := now);
      payments := payments[k := q];
      return Ok(q);
    }

    /** `completePayment`: the update of `CompletionFields`. */
    method CompletePayment(id: nat, extra: PaymentFields, now: int) returns (r: Result<Payment, PaymentError>)
      requires Valid()
      modifies this
      ensures Valid()
      ensures r.Ok? ==> r.value.status == extra.status.GetOr(PaymentCompleted) && r.value.updatedAt == now
      ensures r.Ok? ==> r.value.paidAt == if extra.paidAt.Some? && extra.paidAt != Some(0) then extra.paidAt else Some(now)
      ensures var k := FirstIndex(old(payments), (p: Payment) => p.id == id);
              if extra.currency == Some([]) then r == Err(PaymentValidationFailed) && payments == old(payments)
              else if k == |old(payments)| then r == Err(PaymentNotFound(id)) && payments == old(payments)
              else r == Ok(Overwrite(old(payments)[k], CompletionFields(extra, now)).(updatedAt := now))
                   && payments == old(payments)[k := r.value]
    {
      r := UpdatePayment(id, CompletionFields(extra, now), now);
    }
  }
}
