/** Billing (service/management/consumptionService.js, model/management/Consumption.js): the
    consumption record written when a transaction completes, the pre-save hook that recomputes
    its derived fields, manual creation, listing and the statistics summary. */
module Consumption {
  import opened Common
  import opened TimeOfDay
  import opened Collections
  import opened Transactions
  import opened TariffService
  import opened PricingService

  /** The numeric and time fields the pre-save hook reads and writes; `None` is null/undefined. */
  datatype CostFields = CostFields(
    meterStart: Option<real>,
    meterStop: Option<real>,
    energyConsumed: Option<real>,
    pricePerKwh: Option<real>,
    connectionFee: Option<real>,
    energyCost: Option<real>,
    totalCost: Option<real>,
    transactionStartTime: Option<int>,
    transactionStopTime: Option<int>,
    duration: Option<real>)

  /** A consumption document before it is saved. */
  datatype ConsumptionData = ConsumptionData(
    transactionId: Option<int>,
    chargePointId: string,
    connectorId: Option<int>,
    idTag: string,
    pricingId: Option<nat>,
    tariffId: Option<nat>,
    currency: Option<string>,
    timestamp: Option<int>,
    cost: CostFields)

  /** A stored consumption record. */
  datatype ConsumptionRecord = ConsumptionRecord(id: nat, data: ConsumptionData)

  datatype ConsumptionError =
    | ConsumptionTransactionNotFound(transactionId: int)
    | NoMeterStop(transactionId: int)
    | ConsumptionExists(transactionId: int)
    | ConsumptionValidationFailed

  /** Milliseconds between two instants, in seconds. */
  function Seconds(start: int, stop: int): (r: real)
    ensures r * 1000.0 == (stop - start) as real
    ensures start <= stop ==> 0.0 <= r
  {
    (stop - start) as real / 1000.0
  }

  /** The hook's energy rule: (meterStop - meterStart) / 1000, from Wh to kWh. */
  function Kwh(meterStart: real, meterStop: real): (r: real)
    ensures r * 1000.0 == meterStop - meterStart
    ensures meterStart <= meterStop ==> 0.0 <= r
  {
    (meterStop - meterStart) / 1000.0
  }

  // ---------------------------------------------------------------------------------------
  // The pre-save hook

  /** The effect of the pre-save hook on the fields: each derived field is recomputed only when
      its inputs are truthy and is otherwise left as it was. */
  function Hook(c: CostFields): (h: CostFields)
    ensures h.meterStart == c.meterStart && h.meterStop == c.meterStop && h.pricePerKwh == c.pricePerKwh
    ensures h.connectionFee == c.connectionFee
    ensures h.transactionStartTime == c.transactionStartTime && h.transactionStopTime == c.transactionStopTime
    ensures TruthyReal(c.meterStop) && TruthyReal(c.meterStart)
            ==> h.energyConsumed == Some(Kwh(c.meterStart.value, c.meterStop.value))
    ensures !(TruthyReal(c.meterStop) && TruthyReal(c.meterStart)) ==> h.energyConsumed == c.energyConsumed
    ensures TruthyReal(c.pricePerKwh) && TruthyReal(h.energyConsumed)
            ==> h.energyCost == EnergyCost(h.energyConsumed.value, c.pricePerKwh)
                && h.totalCost == Some(h.energyCost.value + OrReal(c.connectionFee, 0.0))
    ensures !(TruthyReal(c.pricePerKwh) && TruthyReal(h.energyConsumed))
            ==> h.energyCost == c.energyCost && h.totalCost == c.totalCost
    ensures c.transactionStartTime.Some? && c.transactionStopTime.Some?
            ==> h.duration == Some(Seconds(c.transactionStartTime.value, c.transactionStopTime.value))
    ensures !(c.transactionStartTime.Some? && c.transactionStopTime.Some?) ==> h.duration == c.duration
  {
    var e := if TruthyReal(c.meterStop) && TruthyReal(c.meterStart)
             then Some(Kwh(c.meterStart.value, c.meterStop.value)) else c.energyConsumed;
    var costed := TruthyReal(c.pricePerKwh) && TruthyReal(e);
    var cost := if costed then EnergyCost(e.value, c.pricePerKwh) else c.energyCost;
    var total := if costed then Some(OrReal(cost, 0.0) + OrReal(c.connectionFee, 0.0)) else c.totalCost;
    var d := if c.transactionStartTime.Some? && c.transactionStopTime.Some?
             then Some(Seconds(c.transactionStartTime.value, c.transactionStopTime.value)) else c.duration;
    c.(energyConsumed := e, energyCost := cost, totalCost := total, duration := d)
  }

  /** The derived fields already agree with the inputs the hook computes them from. */
  predicate Settled(c: CostFields)
  {
    && (TruthyReal(c.meterStop) && TruthyReal(c.meterStart)
        ==> c.energyConsumed == Some(Kwh(c.meterStart.value, c.meterStop.value)))
    && (TruthyReal(c.pricePerKwh) && TruthyReal(c.energyConsumed)
        ==> c.energyCost == EnergyCost(c.energyConsumed.value, c.pricePerKwh)
            && c.totalCost == Some(c.energyCost.value + OrReal(c.connectionFee, 0.0)))
    && (c.transactionStartTime.Some? && c.transactionStopTime.Some?
        ==> c.duration == Some(Seconds(c.transactionStartTime.value, c.transactionStopTime.value)))
  }

  /** Saving leaves a document unchanged exactly when its derived fields are settled. */
  lemma HookFixpointIffSettled(c: CostFields)
    ensures Hook(c) == c <==> Settled(c)
  {
    var h := Hook(c);
    if Settled(c) && TruthyReal(c.pricePerKwh) && TruthyReal(c.energyConsumed) {
      ProductOfTruthy(c.energyConsumed.value, c.pricePerKwh.value);
    }
  }

  /** Every saved document is settled, so saving twice recomputes nothing new. */
  lemma HookIsIdempotent(c: CostFields)
    ensures Settled(Hook(c))
    ensures Hook(Hook(c)) == Hook(c)
  {
    var h := Hook(c);
    if TruthyReal(h.pricePerKwh) && TruthyReal(h.energyConsumed) {
      ProductOfTruthy(h.energyConsumed.value, h.pricePerKwh.value);
    }
    HookFixpointIffSettled(h);
  }

  lemma ProductOfTruthy(a: real, b: real)
    requires a != 0.0 && b != 0.0
    ensures a * b != 0.0
  {
  }

  /** A consumption document as the hook sees it: `this` with the fields it assigns in place. */
  class ConsumptionDoc {
    var meterStart: Option<real>
    var meterStop: Option<real>
    var energyConsumed: Option<real>
    var pricePerKwh: Option<real>
    var connectionFee: Option<real>
    var energyCost: Option<real>
    var totalCost: Option<real>
    var transactionStartTime: Option<int>
    var transactionStopTime: Option<int>
    var duration: Option<real>

    function Fields(): CostFields
      reads this
    {
      CostFields(meterStart, meterStop, energyConsumed, pricePerKwh, connectionFee, energyCost, totalCost,
                 transactionStartTime, transactionStopTime, duration)
    }

    constructor (c: CostFields)
      ensures Fields() == c
    {
      meterStart, meterStop, energyConsumed := c.meterStart, c.meterStop, c.energyConsumed;
      pricePerKwh, connectionFee := c.pricePerKwh, c.connectionFee;
      energyCost, totalCost := c.energyCost, c.totalCost;
      transactionStartTime, transactionStopTime, duration := c.transactionStartTime, c.transactionStopTime, c.duration;
    }

    /** The pre-save hook: three guarded recomputations, then `next()`. */
    method PreSave()
      modifies this
      ensures Fields() == Hook(old(Fields()))
    {
      if TruthyReal(meterStop) && TruthyReal(meterStart) {
        energyConsumed := Some(Kwh(meterStart.value, meterStop.value));
      }
      if TruthyReal(pricePerKwh) && TruthyReal(energyConsumed) {
        energyCost := EnergyCost(energyConsumed.value, pricePerKwh);
        totalCost := Some(OrReal(energyCost, 0.0) + OrReal(connectionFee, 0.0));
      }
      if transactionStartTime.Some? && transactionStopTime.Some? {
        duration := Some(Seconds(transactionStartTime.value, transactionStopTime.value));
      }
    }
  }

  /** `new Consumption(data)`: connectionFee defaults to 0 and currency to "USD"; tariffId is not
      a path of the schema, so the document never keeps it. */
  function WithDefaults(d: ConsumptionData): (r: ConsumptionData)
    ensures r.currency.Some? && r.cost.connectionFee.Some? && r.tariffId.None?
    ensures d.currency.Some? ==> r.currency == d.currency
    ensures d.currency.None? ==> r.currency == Some(DefaultCurrency)
    ensures d.cost.connectionFee.Some? ==> r.cost.connectionFee == d.cost.connectionFee
    ensures d.cost.connectionFee.None? ==> r.cost.connectionFee == Some(0.0)
    ensures r.(currency := d.currency, tariffId := d.tariffId, cost := r.cost.(connectionFee := d.cost.connectionFee)) == d
  {
    d.(currency := Some(d.currency.GetOr(DefaultCurrency)), tariffId := None,
       cost := d.cost.(connectionFee := Some(d.cost.connectionFee.GetOr(0.0))))
  }

  /** The schema's required fields; validation runs before the pre-save hook. */
  function ValidConsumption(d: ConsumptionData): (r: bool)
    ensures d.transactionId.None? || d.chargePointId == [] || d.connectorId.None? || d.idTag == [] ==> !r
    ensures d.timestamp.None? || d.cost.transactionStartTime.None? || d.cost.transactionStopTime.None? ==> !r
    ensures d.cost.meterStart.None? || d.cost.meterStop.None? || d.cost.energyConsumed.None? ==> !r
  {
    d.transactionId.Some? && d.chargePointId != [] && d.connectorId.Some? && d.idTag != []
    && d.cost.meterStart.Some? && d.cost.meterStop.Some? && d.cost.energyConsumed.Some?
    && d.cost.transactionStartTime.Some? && d.cost.transactionStopTime.Some? && d.timestamp.Some?
  }

  // ---------------------------------------------------------------------------------------
  // Price resolution

  /** `getTariffForTransaction`: the connector's tariff price at the given instant under the
      charge point's identity, else under its storage id when the charge point is known. */
  function TariffForTransaction(tariffs: seq<Tariff>, tx: Transaction, storageId: Option<string>, at: Moment)
    : (r: Option<PriceInfo>)
    ensures PriceForConnector(tariffs, tx.chargePointId, tx.connectorId, at).Some?
            ==> r == PriceForConnector(tariffs, tx.chargePointId, tx.connectorId, at)
    ensures r.Some? && r != PriceForConnector(tariffs, tx.chargePointId, tx.connectorId, at)
            ==> storageId.Some? && r == PriceForConnector(tariffs, storageId.value, tx.connectorId, at)
    ensures r.None? <==> PriceForConnector(tariffs, tx.chargePointId, tx.connectorId, at).None?
                         && (storageId.None? || PriceForConnector(tariffs, storageId.value, tx.connectorId, at).None?)
  {
    var byIdentity := PriceForConnector(tariffs, tx.chargePointId, tx.connectorId, at);
    if byIdentity.Some? then byIdentity
    else if storageId.Some? then PriceForConnector(tariffs, storageId.value, tx.connectorId, at)
    else None
  }

  /** What the price lookup of `createConsumptionFromTransaction` leaves in its locals. */
  datatype Quote = Quote(pricingId: Option<nat>, tariffId: Option<nat>, pricePerKwh: Option<real>,
                         connectionFee: real, currency: string)

  const NoQuote := Quote(None, None, None, 0.0, DefaultCurrency)

  /** The quote of `createConsumptionFromTransaction`'s try block: the connector tariff at
      startedAt (or now), else the charge-point pricing plan selected at that instant. With a
      plan but no startedAt, `getPriceForDateTime` throws and the throw is swallowed with
      pricingId already set; `lookupFault` is a store failure at the first lookup, which leaves
      the defaults. */
  function Quoted(tx: Transaction, tariffs: seq<Tariff>, plans: seq<PricingPlan>, storageId: Option<string>,
                  now: int, local: int -> Moment, lookupFault: bool): (q: Quote)
    ensures lookupFault ==> q == NoQuote
    ensures q.tariffId.Some? ==> q.pricingId.None? && q.pricePerKwh.Some?
    ensures q.pricePerKwh.Some? ==> q.tariffId.Some? || (q.pricingId.Some? && tx.startedAt.Some?)
    ensures q.pricePerKwh.None? ==> q.connectionFee == 0.0 && q.currency == DefaultCurrency
  {
    if lookupFault then NoQuote
    else
      var when := if tx.startedAt.Some? then tx.startedAt.value else now;
      var info := TariffForTransaction(tariffs, tx, storageId, local(when));
      var plan := ActivePricingForChargePoint(plans, tx.chargePointId, when);
      if info.Some? then
        Quote(None, Some(info.value.tariffId), Some(info.value.pricePerKwh),
              OrReal(Some(info.value.connectionFee), 0.0), OrString(info.value.currency, DefaultCurrency))
      else if plan.None? then NoQuote
      else if tx.startedAt.None? then NoQuote.(pricingId := Some(plan.value.id))
      else Quote(Some(plan.value.id), None,
                 Some(PriceForDateTime(plan.value.basePrice, plan.value.timeBasedPricing, local(tx.startedAt.value))),
                 OrReal(plan.value.connectionFee, 0.0), OrString(plan.value.currency, DefaultCurrency))
  }

  /** A quoted price is the connector tariff's price, or, only when no tariff applies, the
      price of the plan `getActivePricingForChargePoint` selects, at the transaction's start;
      a tariff quote never names a plan. */
  lemma QuotedPriceSource(tx: Transaction, tariffs: seq<Tariff>, plans: seq<PricingPlan>, storageId: Option<string>,
                          now: int, local: int -> Moment, lookupFault: bool)
    ensures var q := Quoted(tx, tariffs, plans, storageId, now, local, lookupFault);
            var when := if tx.startedAt.Some? then tx.startedAt.value else now;
            var info := TariffForTransaction(tariffs, tx, storageId, local(when));
            var plan := ActivePricingForChargePoint(plans, tx.chargePointId, when);
            && (q.pricePerKwh.Some? <==> !lookupFault && (info.Some? || (plan.Some? && tx.startedAt.Some?)))
            && (q.tariffId.Some? ==> q.pricingId.None?)
            && (q.pricePerKwh.Some? && info.Some? ==> q.pricePerKwh.value == info.value.pricePerKwh && q.tariffId == Some(info.value.tariffId))
            && (q.pricePerKwh.Some? && info.None? ==>
                  q.pricingId == Some(plan.value.id)
                  && q.pricePerKwh.value == PriceForDateTime(plan.value.basePrice, plan.value.timeBasedPricing, local(when)))
  {
  }

  /** Clock conversion: a local-time reading of every instant. */
  ghost predicate LocalClock(local: int -> Moment)
  {
    forall t :: local(t).ms == t
  }

  // ---------------------------------------------------------------------------------------
  // Costs

  /** energyCost is energy × price only when the price is truthy; totalCost adds the connection
      fee only when energyCost is truthy. */
  function EnergyCost(energy: real, price: Option<real>): (cost: Option<real>)
    ensures cost.Some? <==> TruthyReal(price)
    ensures cost.Some? ==> cost.value == energy * price.value
  {
    if TruthyReal(price) then Some(energy * price.value) else None
  }

  function TotalCost(energyCost: Option<real>, connectionFee: real): (total: Option<real>)
    ensures total.Some? <==> TruthyReal(energyCost)
    ensures total.Some? ==> total.value == energyCost.value + connectionFee
  {
    if TruthyReal(energyCost) then Some(energyCost.value + connectionFee) else None
  }

  /** The derived fields `createConsumptionFromTransaction` computes for a transaction and quote. */
  function ServiceCost(tx: Transaction, q: Quote): (c: CostFields)
    requires tx.meterStop.Some?
    ensures c.energyConsumed == Some(Kwh(tx.meterStart as real, tx.meterStop.value as real))
    ensures c.pricePerKwh == q.pricePerKwh && c.connectionFee == Some(q.connectionFee)
    ensures c.energyCost == EnergyCost(c.energyConsumed.value, q.pricePerKwh)
    ensures c.totalCost == TotalCost(c.energyCost, q.connectionFee)
    ensures c.duration.Some? <==> tx.startedAt.Some? && tx.stoppedAt.Some?
    ensures c.duration.Some? ==> c.duration.value == Seconds(tx.startedAt.value, tx.stoppedAt.value)
  {
    var energy := Kwh(tx.meterStart as real, tx.meterStop.value as real);
    var cost := EnergyCost(energy, q.pricePerKwh);
    CostFields(Some(tx.meterStart as real), Some(tx.meterStop.value as real), Some(energy), q.pricePerKwh,
               Some(q.connectionFee), cost, TotalCost(cost, q.connectionFee), tx.startedAt, tx.stoppedAt,
               if tx.stoppedAt.Some? && tx.startedAt.Some? then Some(Seconds(tx.startedAt.value, tx.stoppedAt.value)) else None)
  }

  /** The service computes exactly what the pre-save hook would: saving the record it builds
      changes none of its derived fields. */
  lemma ServiceCostIsHookFixpoint(tx: Transaction, q: Quote)
    requires tx.meterStop.Some?
    ensures Settled(ServiceCost(tx, q))
    ensures Hook(ServiceCost(tx, q)) == ServiceCost(tx, q)
  {
    var c := ServiceCost(tx, q);
    if TruthyReal(c.pricePerKwh) && TruthyReal(c.energyConsumed) {
      ProductOfTruthy(c.energyConsumed.value, c.pricePerKwh.value);
    }
    HookFixpointIffSettled(c);
  }

  // ---------------------------------------------------------------------------------------
  // Listing and statistics

  /** The filters shared by `getAllConsumption` and `getConsumptionStatistics`; "" and `None`
      are filters not given. A transactionId of 0 is not a filter (falsy). */
  datatype ConsumptionFilter = ConsumptionFilter(chargePointId: string, idTag: string, transactionId: int,
                                                 startDate: Option<int>, endDate: Option<int>)

  predicate Selected(c: ConsumptionRecord, f: ConsumptionFilter, useTransactionId: bool)
  {
    (f.chargePointId == [] || c.data.chargePointId == f.chargePointId)
    && (f.idTag == [] || c.data.idTag == f.idTag)
    && (!useTransactionId || f.transactionId == 0 || c.data.transactionId == Some(f.transactionId))
    && (f.startDate.None? || (c.data.timestamp.Some? && c.data.timestamp.value >= f.startDate.value))
    && (f.endDate.None? || (c.data.timestamp.Some? && c.data.timestamp.value <= f.endDate.value))
  }

  function RecordTimestamp(c: ConsumptionRecord): int
  {
    c.data.timestamp.GetOr(0)
  }

  /** `getAllConsumption`: the selected records, newest timestamp first, at most `limit || 100`. */
  function AllConsumption(rs: seq<ConsumptionRecord>, f: ConsumptionFilter, limit: nat): (r: seq<ConsumptionRecord>)
    ensures |r| <= (if limit == 0 then 100 else limit)
    ensures forall k :: 0 <= k < |r| ==> r[k] in rs && Selected(r[k], f, true)
    ensures SortedDesc(r, RecordTimestamp)
    ensures |r| == (if limit == 0 then 100 else limit)
            || forall k :: 0 <= k < |rs| && Selected(rs[k], f, true) ==> rs[k] in r
    ensures forall k, i :: 0 <= k < |rs| && Selected(rs[k], f, true) && rs[k] !in r && 0 <= i < |r|
                           ==> RecordTimestamp(rs[k]) <= RecordTimestamp(r[i])
    ensures multiset(r) <= multiset(Filter(rs, c => Selected(c, f, true)))
  {
    NewestMatches(rs, c => Selected(c, f, true), RecordTimestamp, if limit == 0 then 100 else limit)
  }

  /** The listing holds every selected record up to the limit: exactly `limit || 100` of them
      when more match. */
  lemma AllConsumptionLength(rs: seq<ConsumptionRecord>, f: ConsumptionFilter, limit: nat)
    ensures var n := if limit == 0 then 100 else limit;
            var matching := Count(rs, c => Selected(c, f, true));
            |AllConsumption(rs, f, limit)| == if matching <= n then matching else n
  {
  }

  /** `$sum` over a field: null values are ignored. */
  function SumPresent(xs: seq<Option<real>>): real
  {
    if xs == [] then 0.0 else (if xs[0].Some? then xs[0].value else 0.0) + SumPresent(xs[1..])
  }

  /** `$avg`'s divisor: the number of non-null values. */
  function CountPresent(xs: seq<Option<real>>): (n: nat)
    ensures n <= |xs|
  {
    if xs == [] then 0 else (if xs[0].Some? then 1 else 0) + CountPresent(xs[1..])
  }

  /** The divisor counts exactly the non-null values: it is `countDocuments` of "not null". */
  lemma {:induction false} CountPresentCountsNonNull(xs: seq<Option<real>>)
    ensures CountPresent(xs) == Count(xs, (x: Option<real>) => x.Some?)
  {
    if xs != [] {
      CountPresentCountsNonNull(xs[1..]);
    }
  }

  /** Every value is counted exactly when none is null. */
  lemma {:induction false} CountPresentAllIffNoNull(xs: seq<Option<real>>)
    ensures CountPresent(xs) == |xs| <==> forall k :: 0 <= k < |xs| ==> xs[k].Some?
  {
    if xs != [] {
      CountPresentAllIffNoNull(xs[1..]);
      assert forall k :: 1 <= k < |xs| ==> xs[k] == xs[1..][k - 1];
    }
  }

  /** `$avg` over a field: the mean of the non-null values, null when there are none. */
  function AvgPresent(xs: seq<Option<real>>): (a: Option<real>)
    ensures a.Some? <==> CountPresent(xs) > 0
    ensures a.Some? ==> a.value * CountPresent(xs) as real == SumPresent(xs)
  {
    if CountPresent(xs) == 0 then None else Some(SumPresent(xs) / CountPresent(xs) as real)
  }

  /** With no nulls the average lies between the least and the greatest value. */
  lemma {:induction false} SumBounds(xs: seq<Option<real>>, lo: real, hi: real)
    requires forall k :: 0 <= k < |xs| ==> xs[k].Some? && lo <= xs[k].value <= hi
    ensures CountPresent(xs) == |xs|
    ensures lo * |xs| as real <= SumPresent(xs) <= hi * |xs| as real
  {
    if xs != [] {
      SumBounds(xs[1..], lo, hi);
    }
  }

  /** An average over values that are all present lies between their least and greatest. */
  lemma AverageWithinBounds(xs: seq<Option<real>>, lo: real, hi: real)
    requires xs != []
    requires forall k :: 0 <= k < |xs| ==> xs[k].Some? && lo <= xs[k].value <= hi
    ensures AvgPresent(xs).Some? && lo <= AvgPresent(xs).value <= hi
  {
    SumBounds(xs, lo, hi);
    var n := |xs| as real;
    var a := AvgPresent(xs).value;
    CancelPositive(lo, a, n);
    CancelPositive(a, hi, n);
  }

  lemma CancelPositive(x: real, y: real, n: real)
    requires n > 0.0 && x * n <= y * n
    ensures x <= y
  {
  }

  /** The records the statistics `$match` stage keeps (the transactionId filter is not used). */
  function Matched(rs: seq<ConsumptionRecord>, f: ConsumptionFilter): (m: seq<ConsumptionRecord>)
    ensures forall k :: 0 <= k < |m| ==> m[k] in rs && Selected(m[k], f, false)
    ensures forall k :: 0 <= k < |rs| && Selected(rs[k], f, false) ==> rs[k] in m
  {
    Filter(rs, c => Selected(c, f, false))
  }

  datatype Statistics = Statistics(
    totalEnergyConsumed: real,
    totalCost: real,
    totalTransactions: nat,
    averageEnergyPerTransaction: Option<real>,
    averageCostPerTransaction: Option<real>,
    totalDuration: real)

  function Energies(rs: seq<ConsumptionRecord>): (xs: seq<Option<real>>)
    ensures |xs| == |rs| && forall k :: 0 <= k < |rs| ==> xs[k] == rs[k].data.cost.energyConsumed
  {
    if rs == [] then [] else [rs[0].data.cost.energyConsumed] + Energies(rs[1..])
  }

  function Totals(rs: seq<ConsumptionRecord>): (xs: seq<Option<real>>)
    ensures |xs| == |rs| && forall k :: 0 <= k < |rs| ==> xs[k] == rs[k].data.cost.totalCost
  {
    if rs == [] then [] else [rs[0].data.cost.totalCost] + Totals(rs[1..])
  }

  function Durations(rs: seq<ConsumptionRecord>): (xs: seq<Option<real>>)
    ensures |xs| == |rs| && forall k :: 0 <= k < |rs| ==> xs[k] == rs[k].data.cost.duration
  {
    if rs == [] then [] else [rs[0].data.cost.duration] + Durations(rs[1..])
  }

  /** `getConsumptionStatistics`: sums and averages over the selected records; an all-zero
      summary when nothing is selected. */
  function ConsumptionStatistics(rs: seq<ConsumptionRecord>, f: ConsumptionFilter): (s: Statistics)
    ensures s.totalTransactions == |Matched(rs, f)|
    ensures s.totalTransactions == 0 ==> s == Statistics(0.0, 0.0, 0, Some(0.0), Some(0.0), 0.0)
    ensures s.totalTransactions > 0 ==>
              && s.totalEnergyConsumed == SumPresent(Energies(Matched(rs, f)))
              && s.totalCost == SumPresent(Totals(Matched(rs, f)))
              && s.totalDuration == SumPresent(Durations(Matched(rs, f)))
              && s.averageEnergyPerTransaction == AvgPresent(Energies(Matched(rs, f)))
              && s.averageCostPerTransaction == AvgPresent(Totals(Matched(rs, f)))
  {
    var m := Matched(rs, f);
    if m == [] then Statistics(0.0, 0.0, 0, Some(0.0), Some(0.0), 0.0)
    else Statistics(SumPresent(Energies(m)), SumPresent(Totals(m)), |m|,
                    AvgPresent(Energies(m)), AvgPresent(Totals(m)), SumPresent(Durations(m)))
  }

  // ---------------------------------------------------------------------------------------
  // The consumption collection

  /** The `||` merge of `createConsumption` on an optional number (0 is falsy). */
  function OrInt(x: Option<int>, fallback: int): (r: Option<int>)
    ensures x.Some? && x.value != 0 ==> r == x
    ensures !(x.Some? && x.value != 0) ==> r == Some(fallback)
  {
    if x.Some? && x.value != 0 then x else Some(fallback)
  }

  /** The transaction `createConsumption` reads: the first with the given transactionId, only
      when that id is truthy. */
  function SourceTransaction(d: ConsumptionData, txs: seq<Transaction>): (t: Option<Transaction>)
    ensures t.Some? <==> d.transactionId.Some? && d.transactionId.value != 0
                         && exists k :: 0 <= k < |txs| && txs[k].transactionId == d.transactionId.value
    ensures t.Some? ==> t.value == txs[FirstIndex(txs, (x: Transaction) => x.transactionId == d.transactionId.value)]
  {
    if d.transactionId.None? || d.transactionId.value == 0 then None
    else
      var k := FirstIndex(txs, (x: Transaction) => x.transactionId == d.transactionId.value);
      if k == |txs| then None else Some(txs[k])
  }

  /** The document `createConsumption` saves: with a known transaction, the falsy fields taken
      from it and, when no truthy price was given, the price looked up at startedAt (or now),
      connector tariff first, then the charge point's pricing plan. */
  function Filled(d: ConsumptionData, txs: seq<Transaction>, tariffs: seq<Tariff>, plans: seq<PricingPlan>,
                  now: int, local: int -> Moment, lookupFault: bool): (m: ConsumptionData)
    ensures SourceTransaction(d, txs).None? ==> m == d
    ensures m.transactionId == d.transactionId && m.timestamp == d.timestamp
    ensures m.cost.(meterStart := d.cost.meterStart, transactionStartTime := d.cost.transactionStartTime,
                    pricePerKwh := d.cost.pricePerKwh, connectionFee := d.cost.connectionFee) == d.cost
    ensures var t := SourceTransaction(d, txs);
            t.Some? ==>
              var tx := t.value;
              && m.chargePointId == OrString(d.chargePointId, tx.chargePointId)
              && m.connectorId == OrInt(d.connectorId, tx.connectorId)
              && m.idTag == OrString(d.idTag, tx.idTag)
              && m.cost.meterStart == Some(OrReal(d.cost.meterStart, tx.meterStart as real))
              && m.cost.transactionStartTime
                 == (if d.cost.transactionStartTime.Some? then d.cost.transactionStartTime else tx.startedAt)
    ensures var t := SourceTransaction(d, txs);
            var looked := t.Some? && !TruthyReal(d.cost.pricePerKwh) && t.value.chargePointId != [] && !lookupFault;
            var when := if looked && t.value.startedAt.Some? then t.value.startedAt.value else now;
            var info := if looked then PriceForConnector(tariffs, t.value.chargePointId, t.value.connectorId, local(when)) else None;
            var plan := if looked then ActivePricingForChargePoint(plans, t.value.chargePointId, when) else None;
            if info.Some? then
              && m.tariffId == Some(info.value.tariffId) && m.pricingId == d.pricingId
              && m.cost.pricePerKwh == Some(info.value.pricePerKwh)
              && m.cost.connectionFee == Some(OrReal(Some(info.value.connectionFee), 0.0))
              && m.currency == Some(OrString(info.value.currency, DefaultCurrency))
            else if plan.Some? then
              && m.tariffId == d.tariffId && m.pricingId == Some(plan.value.id)
              && m.cost.pricePerKwh == Some(PriceForDateTime(plan.value.basePrice, plan.value.timeBasedPricing, local(when)))
              && m.cost.connectionFee == Some(OrReal(plan.value.connectionFee, 0.0))
              && m.currency == Some(OrString(plan.value.currency, DefaultCurrency))
            else
              && m.tariffId == d.tariffId && m.pricingId == d.pricingId && m.cost.pricePerKwh == d.cost.pricePerKwh
              && m.cost.connectionFee == d.cost.connectionFee && m.currency == d.currency
  {
    var t := SourceTransaction(d, txs);
    if t.None? then d
    else
      var tx := t.value;
      var merged := d.(chargePointId := OrString(d.chargePointId, tx.chargePointId),
                       connectorId := OrInt(d.connectorId, tx.connectorId),
                       idTag := OrString(d.idTag, tx.idTag),
                       cost := d.cost.(meterStart := Some(OrReal(d.cost.meterStart, tx.meterStart as real)),
                                       transactionStartTime := if d.cost.transactionStartTime.Some? then d.cost.transactionStartTime
                                                               else tx.startedAt));
      if TruthyReal(d.cost.pricePerKwh) || tx.chargePointId == [] || lookupFault then merged
      else
        var when := if tx.startedAt.Some? then tx.startedAt.value else now;
        var info := PriceForConnector(tariffs, tx.chargePointId, tx.connectorId, local(when));
        var plan := ActivePricingForChargePoint(plans, tx.chargePointId, when);
        if info.Some? then
          merged.(tariffId := Some(info.value.tariffId), currency := Some(OrString(info.value.currency, DefaultCurrency)),
                  cost := merged.cost.(pricePerKwh := Some(info.value.pricePerKwh),
                                       connectionFee := Some(OrReal(Some(info.value.connectionFee), 0.0))))
        else if plan.Some? then
          merged.(pricingId := Some(plan.value.id), currency := Some(OrString(plan.value.currency, DefaultCurrency)),
                  cost := merged.cost.(pricePerKwh := Some(PriceForDateTime(plan.value.basePrice, plan.value.timeBasedPricing, local(when))),
                                       connectionFee := Some(OrReal(plan.value.connectionFee, 0.0))))
        else merged
  }

  class ConsumptionStore {
    var records: seq<ConsumptionRecord>
    var nextId: nat

    ghost predicate Valid()
      reads this
    {
      forall k :: 0 <= k < |records| ==> records[k].id < nextId
    }

    constructor ()
      ensures Valid() && records == [] && nextId == 0
    {
      records := [];
      nextId := 0;
    }

    predicate HasRecordFor(transactionId: int)
      reads this
    {
      exists k :: 0 <= k < |records| && records[k].data.transactionId == Some(transactionId)
    }

    /** `new Consumption(data)` and `save()`: defaults, validation, the pre-save hook, insert. */
    method Save(d: ConsumptionData) returns (r: Result<ConsumptionRecord, ConsumptionError>)
      requires Valid()
      modifies this
      ensures Valid()
      ensures var w := WithDefaults(d);
              if ValidConsumption(w)
              then r == Ok(ConsumptionRecord(old(nextId), w.(cost := Hook(w.cost)))) && records == old(records) + [r.value]
              else r == Err(ConsumptionValidationFailed) && records == old(records)
    {
      var w := WithDefaults(d);
      if !ValidConsumption(w) {
        return Err(ConsumptionValidationFailed);
      }
      var doc := new ConsumptionDoc(w.cost);
      doc.PreSave();
      var rec := ConsumptionRecord(nextId, w.(cost := doc.Fields()));
      records := records + [rec];
      nextId := nextId + 1;
      return Ok(rec);
    }

    /** The price lookup of `createConsumptionFromTransaction` (its try block), which assigns
        the locals step by step. */
    static method LookUpQuote(tx: Transaction, tariffs: seq<Tariff>, plans: seq<PricingPlan>,
                              storageId: Option<string>, now: int, local: int -> Moment, lookupFault: bool)
      returns (q: Quote)
      requires LocalClock(local)
      ensures q == Quoted(tx, tariffs, plans, storageId, now, local, lookupFault)
    {
      var pricingId: Option<nat> := None;
      var tariffId: Option<nat> := None;
      var pricePerKwh: Option<real> := None;
      var connectionFee := 0.0;
      var currency := DefaultCurrency;
      if !lookupFault {
        var when := if tx.startedAt.Some? then tx.startedAt.value else now;
        var info := TariffForTransaction(tariffs, tx, storageId, local(when));
        if info.Some? {
          tariffId := Some(info.value.tariffId);
          pricePerKwh := Some(info.value.pricePerKwh);
          connectionFee := OrReal(Some(info.value.connectionFee), 0.0);
          currency := OrString(info.value.currency, DefaultCurrency);
        } else {
          var plan := ActivePricingForChargePoint(plans, tx.chargePointId, when);
          if plan.Some? {
            pricingId := Some(plan.value.id);
            if tx.startedAt.Some? {
              pricePerKwh := Some(PriceForDateTime(plan.value.basePrice, plan.value.timeBasedPricing,
                                                   local(tx.startedAt.value)));
              connectionFee := OrReal(plan.value.connectionFee, 0.0);
              currency := OrString(plan.value.currency, DefaultCurrency);
            }
          }
        }
      }
      q := Quote(pricingId, tariffId, pricePerKwh, connectionFee, currency);
    }

    /** `createConsumptionFromTransaction`. Errors in order: unknown transaction, falsy meterStop,
        an existing record for the transaction, then the schema validators (startedAt and
        stoppedAt are required as the record's start and stop times). */
    method CreateFromTransaction(transactionId: int, txs: seq<Transaction>, tariffs: seq<Tariff>,
                                 plans: seq<PricingPlan>, storageId: Option<string>, now: int,
                                 local: int -> Moment, lookupFault: bool)
      returns (r: Result<ConsumptionRecord, ConsumptionError>)
      requires Valid() && LocalClock(local)
      modifies this
      ensures Valid()
      ensures r.Err? ==> records == old(records)
      ensures r.Ok? ==> records == old(records) + [r.value] && r.value.id == old(nextId)
      ensures var k := FirstIndex(txs, (t: Transaction) => t.transactionId == transactionId);
              && (k == |txs| ==> r == Err(ConsumptionTransactionNotFound(transactionId)))
              && (k < |txs| && (txs[k].meterStop.None? || txs[k].meterStop.value == 0)
                  ==> r == Err(NoMeterStop(transactionId)))
              && (k < |txs| && txs[k].meterStop.Some? && txs[k].meterStop.value != 0 && old(HasRecordFor(transactionId))
                  ==> r == Err(ConsumptionExists(transactionId)))
              && (k < |txs| && txs[k].meterStop.Some? && txs[k].meterStop.value != 0 && !old(HasRecordFor(transactionId))
                  ==> (r.Ok? <==> txs[k].chargePointId != [] && txs[k].idTag != []
                                  && txs[k].startedAt.Some? && txs[k].stoppedAt.Some?)
                      && (r.Err? ==> r.error == ConsumptionValidationFailed))
      ensures r.Ok? ==> !old(HasRecordFor(transactionId)) && r.value.data.transactionId == Some(transactionId)
      ensures r.Ok? ==>
                var tx := txs[FirstIndex(txs, (t: Transaction) => t.transactionId == transactionId)];
                var q := Quoted(tx, tariffs, plans, storageId, now, local, lookupFault);
                tx.meterStop.Some?
                && r.value.data == ConsumptionData(Some(transactionId), tx.chargePointId, Some(tx.connectorId), tx.idTag,
                                                   q.pricingId, None, Some(q.currency), tx.stoppedAt, ServiceCost(tx, q))
      ensures r.Ok? ==>
                var tx := txs[FirstIndex(txs, (t: Transaction) => t.transactionId == transactionId)];
                tx.meterStop.Some? && tx.startedAt.Some? && tx.stoppedAt.Some?
                && r.value.data.cost.energyConsumed == Some(Kwh(tx.meterStart as real, tx.meterStop.value as real))
                && r.value.data.cost.duration == Some(Seconds(tx.startedAt.value, tx.stoppedAt.value))
                && r.value.data.timestamp == tx.stoppedAt
                && r.value.data.chargePointId == tx.chargePointId && r.value.data.idTag == tx.idTag
      ensures r.Ok? ==> var c := r.value.data.cost;
                        c.energyConsumed.Some? && c.connectionFee.Some?
                        && c.energyCost == EnergyCost(c.energyConsumed.value, c.pricePerKwh)
                        && c.totalCost == TotalCost(c.energyCost, c.connectionFee.value)
    {
      var k := FirstIndex(txs, (t: Transaction) => t.transactionId == transactionId);
      if k == |txs| {
        return Err(ConsumptionTransactionNotFound(transactionId));
      }
      var tx := txs[k];
      if tx.meterStop.None? || tx.meterStop.value == 0 {
        return Err(NoMeterStop(transactionId));
      }
      var q := LookUpQuote(tx, tariffs, plans, storageId, now, local, lookupFault);
      if HasRecordFor(transactionId) {
        return Err(ConsumptionExists(transactionId));
      }
      var cost := ServiceCost(tx, q);
      ServiceCostIsHookFixpoint(tx, q);
      var d := ConsumptionData(Some(tx.transactionId), tx.chargePointId, Some(tx.connectorId), tx.idTag,
                               q.pricingId, q.tariffId, Some(q.currency),
                               Some(if tx.stoppedAt.Some? then tx.stoppedAt.value else now), cost);
      r := Save(d);
    }

    /** `createConsumption`: with a truthy transactionId of a known transaction, missing (falsy)
        fields are taken from it and, when no truthy price is given, the price is looked up at
        startedAt (or now), tariff first, then pricing plan; `lookupFault` is a store failure in
        that lookup, which is swallowed. Then the document is saved. */
    method CreateManual(d: ConsumptionData, txs: seq<Transaction>, tariffs: seq<Tariff>, plans: seq<PricingPlan>,
                        now: int, local: int -> Moment, lookupFault: bool)
      returns (r: Result<ConsumptionRecord, ConsumptionError>)
      requires Valid() && LocalClock(local)
      modifies this
      ensures Valid()
      ensures r.Err? ==> r.error == ConsumptionValidationFailed && records == old(records)
      ensures r.Ok? ==> records == old(records) + [r.value]
      ensures var w := WithDefaults(Filled(d, txs, tariffs, plans, now, local, lookupFault));
              (r.Ok? <==> ValidConsumption(w))
              && (r.Ok? ==> r.value == ConsumptionRecord(old(nextId), w.(cost := Hook(w.cost))))
      ensures (d.transactionId.None? || d.transactionId.value == 0
               || FirstIndex(txs, (t: Transaction) => t.transactionId == d.transactionId.value) == |txs|)
              ==> (r.Ok? <==> ValidConsumption(WithDefaults(d)))
      ensures TruthyReal(d.cost.pricePerKwh) && r.Ok? ==> r.value.data.cost.pricePerKwh == d.cost.pricePerKwh
    {
      var data := d;
      if d.transactionId.Some? && d.transactionId.value != 0 {
        var k := FirstIndex(txs, (t: Transaction) => t.transactionId == d.transactionId.value);
        if k < |txs| {
          var tx := txs[k];
          data := data.(chargePointId := OrString(data.chargePointId, tx.chargePointId),
                        connectorId := OrInt(data.connectorId, tx.connectorId),
                        idTag := OrString(data.idTag, tx.idTag));
          data := data.(cost := data.cost.(
                          meterStart := Some(OrReal(data.cost.meterStart, tx.meterStart as real)),
                          transactionStartTime := if data.cost.transactionStartTime.Some? then data.cost.transactionStartTime
                                                  else tx.startedAt));
          if !TruthyReal(data.cost.pricePerKwh) && tx.chargePointId != [] && !lookupFault {
            var when := if tx.startedAt.Some? then tx.startedAt.value else now;
            var info := PriceForConnector(tariffs, tx.chargePointId, tx.connectorId, local(when));
            if info.Some? {
              data := data.(tariffId := Some(info.value.tariffId), currency := Some(OrString(info.value.currency, DefaultCurrency)),
                            cost := data.cost.(pricePerKwh := Some(info.value.pricePerKwh),
                                               connectionFee := Some(OrReal(Some(info.value.connectionFee), 0.0))));
            } else {
              var plan := ActivePricingForChargePoint(plans, tx.chargePointId, when);
              if plan.Some? {
                var price := PriceForDateTime(plan.value.basePrice, plan.value.timeBasedPricing, local(when));
                data := data.(pricingId := Some(plan.value.id), currency := Some(OrString(plan.value.currency, DefaultCurrency)),
                              cost := data.cost.(pricePerKwh := Some(price),
                                                 connectionFee := Some(OrReal(plan.value.connectionFee, 0.0))));
              }
            }
          }
        }
      }
      assert data == Filled(d, txs, tariffs, plans, now, local, lookupFault);
      r := Save(data);
    }
  }
}
