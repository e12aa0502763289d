/** Pricing plans (model/management/Pricing.js, service/management/pricingService.js): plans
    scoped to a list of charge points (empty = all), selection of the newest applicable plan and
    its time-of-day price, and the writes on the plan collection. */
module PricingService {
  import opened Common
  import opened TimeOfDay
  import opened Collections

  /** A stored plan. `userId` is not declared by the schema: it is kept here only because the
      user queries filter on it, and the store never writes one (see `PricingStore.Create`). */
  datatype PricingPlan = PricingPlan(
    id: nat,
    name: string,
    basePrice: real,
    currency: string,
    timeBasedPricing: seq<TimeRule>,
    connectionFee: Option<real>,
    minimumCharge: Option<real>,
    isActive: bool,
    chargePointIds: seq<string>,
    validFrom: int,
    validUntil: Option<int>,
    userId: Option<string>,
    createdAt: int,
    updatedAt: int)

  /** The data handed to `createPricing`; `None` is a field left undefined. */
  datatype PricingDraft = PricingDraft(
    name: string,
    basePrice: Option<real>,
    currency: Option<string>,
    timeBasedPricing: seq<TimeRule>,
    connectionFee: Option<real>,
    minimumCharge: Option<real>,
    isActive: Option<bool>,
    chargePointIds: seq<string>,
    validFrom: Option<int>,
    validUntil: Option<int>,
    userId: Option<string>)

  /** The fields an update sets; `None` leaves the stored value. */
  datatype PricingPatch = PricingPatch(
    name: Option<string>,
    basePrice: Option<real>,
    currency: Option<string>,
    timeBasedPricing: Option<seq<TimeRule>>,
    connectionFee: Option<real>,
    minimumCharge: Option<real>,
    isActive: Option<bool>,
    chargePointIds: Option<seq<string>>,
    validFrom: Option<int>,
    validUntil: Option<Option<int>>)

  datatype PricingError = NoActivePricing | PricingValidationFailed

  function CreatedAt(p: PricingPlan): int { p.createdAt }

  /** `chargePointIds: { $size: 0 }` or `chargePointIds: id` (array membership). */
  predicate AppliesTo(p: PricingPlan, chargePointId: string)
  {
    p.chargePointIds == [] || chargePointId in p.chargePointIds
  }

  /** validFrom <= t and (validUntil null or validUntil >= t). */
  predicate ValidAt(p: PricingPlan, t: int)
  {
    p.validFrom <= t && (p.validUntil.None? || p.validUntil.value >= t)
  }

  /** The query of `getActivePricingForChargePoint`. */
  predicate ActiveFor(p: PricingPlan, chargePointId: string, t: int)
  {
    p.isActive && ValidAt(p, t) && AppliesTo(p, chargePointId)
  }

  /** `getActivePricingForChargePoint`: the latest-created plan among those that are active,
      valid at t and scoped to the charge point. validFrom plays no part in the choice. */
  function ActivePricingForChargePoint(ps: seq<PricingPlan>, chargePointId: string, t: int): (r: Option<PricingPlan>)
    ensures r.None? <==> forall k :: 0 <= k < |ps| ==> !ActiveFor(ps[k], chargePointId, t)
    ensures r.Some? ==> r.value in ps && ActiveFor(r.value, chargePointId, t)
    ensures r.Some? ==> forall k :: 0 <= k < |ps| && ActiveFor(ps[k], chargePointId, t)
                                    ==> ps[k].createdAt <= r.value.createdAt
  {
    NewestMatch(ps, p => ActiveFor(p, chargePointId, t), CreatedAt)
  }

  /** `getPricePerKwh`: an error without an applicable plan, otherwise that plan's price at the instant. */
  function PricePerKwh(ps: seq<PricingPlan>, chargePointId: string, at: Moment): (r: Result<real, PricingError>)
    ensures r.Err? <==> ActivePricingForChargePoint(ps, chargePointId, at.ms).None?
    ensures r.Err? ==> r.error == NoActivePricing
    ensures r.Ok? ==> exists k :: 0 <= k < |ps| && ActiveFor(ps[k], chargePointId, at.ms)
                                  && r.value == PriceForDateTime(ps[k].basePrice, ps[k].timeBasedPricing, at)
    ensures r.Ok? ==> var p := ActivePricingForChargePoint(ps, chargePointId, at.ms).value;
                      r.value == PriceForDateTime(p.basePrice, p.timeBasedPricing, at)
  {
    match ActivePricingForChargePoint(ps, chargePointId, at.ms)
    case None => Err(NoActivePricing)
    case Some(p) =>
      var k :| 0 <= k < |ps| && ps[k] == p;
      Ok(PriceForDateTime(p.basePrice, p.timeBasedPricing, at))
  }

  /** The filter of `getAllPricing`: isActive only when given, and scope only when a charge point is given. */
  predicate ListedBy(p: PricingPlan, isActive: Option<bool>, chargePointId: string)
  {
    (isActive.None? || p.isActive == isActive.value) && (chargePointId == [] || AppliesTo(p, chargePointId))
  }

  /** `getAllPricing`: exactly the plans the filters admit, newest first. */
  function AllPricing(ps: seq<PricingPlan>, isActive: Option<bool>, chargePointId: string): (r: seq<PricingPlan>)
    ensures SortedDesc(r, CreatedAt)
    ensures multiset(r) == multiset(Filter(ps, p => ListedBy(p, isActive, chargePointId)))
    ensures forall k :: 0 <= k < |r| ==> r[k] in ps && ListedBy(r[k], isActive, chargePointId)
    ensures forall k :: 0 <= k < |ps| && ListedBy(ps[k], isActive, chargePointId) ==> ps[k] in r
  {
    SelectSorted(ps, p => ListedBy(p, isActive, chargePointId), CreatedAt)
  }

  /** The plan selected for a charge point is among the active plans listed for it. */
  lemma SelectedPlanIsListed(ps: seq<PricingPlan>, chargePointId: string, t: int)
    requires chargePointId != []
    requires ActivePricingForChargePoint(ps, chargePointId, t).Some?
    ensures ActivePricingForChargePoint(ps, chargePointId, t).value in AllPricing(ps, Some(true), chargePointId)
  {
    var p := ActivePricingForChargePoint(ps, chargePointId, t).value;
    var k :| 0 <= k < |ps| && ps[k] == p;
    assert ListedBy(ps[k], Some(true), chargePointId);
  }

  /** `getActivePricingForUser`: the latest-created active plan, valid now, carrying that userId. */
  function ActivePricingForUser(ps: seq<PricingPlan>, userId: string, now: int): (r: Option<PricingPlan>)
    ensures r.Some? ==> r.value in ps && r.value.userId == Some(userId) && r.value.isActive && ValidAt(r.value, now)
    ensures r.None? <==> forall k :: 0 <= k < |ps| ==>
                           !(ps[k].userId == Some(userId) && ps[k].isActive && ValidAt(ps[k], now))
    ensures r.Some? ==> forall k :: 0 <= k < |ps| && ps[k].userId == Some(userId) && ps[k].isActive && ValidAt(ps[k], now)
                                    ==> ps[k].createdAt <= r.value.createdAt
  {
    NewestMatch(ps, (p: PricingPlan) => p.userId == Some(userId) && p.isActive && ValidAt(p, now), CreatedAt)
  }

  /** `userHasActivePricing`. */
  function UserHasActivePricing(ps: seq<PricingPlan>, userId: string, now: int): (b: bool)
    ensures b <==> exists k :: 0 <= k < |ps| && ps[k].userId == Some(userId) && ps[k].isActive && ValidAt(ps[k], now)
  {
    ActivePricingForUser(ps, userId, now).Some?
  }

  /** Since the schema does not declare userId, plans saved through the store never carry one, so
      no user ever has an active plan. */
  lemma NoUserPricingInStore(ps: seq<PricingPlan>, userId: string, now: int)
    requires forall k :: 0 <= k < |ps| ==> ps[k].userId.None?
    ensures !UserHasActivePricing(ps, userId, now)
  {
  }

  /** The plan schema's checks: a name, a non-empty currency when one is given, and complete
      windows whose days lie in 0..6. */
  function ValidPlanDraft(d: PricingDraft): (r: bool)
    ensures d.name == [] || d.currency == Some([]) ==> !r
    ensures forall k :: 0 <= k < |d.timeBasedPricing| && d.timeBasedPricing[k].startTime == [] ==> !r
    ensures forall k :: 0 <= k < |d.timeBasedPricing| && d.timeBasedPricing[k].endTime == [] ==> !r
    ensures d.timeBasedPricing == [] ==> (r <==> d.name != [] && d.currency != Some([]))
  {
    d.name != [] && d.currency != Some([])
    && forall k :: 0 <= k < |d.timeBasedPricing| ==>
         d.timeBasedPricing[k].startTime != [] && d.timeBasedPricing[k].endTime != []
         && (d.timeBasedPricing[k].dayOfWeek.Day? ==> 0 <= d.timeBasedPricing[k].dayOfWeek.day <= 6)
  }

  /** `new Pricing(pricingData)`: schema defaults fill undefined fields, and the undeclared
      userId is dropped. */
  function PlanFromDraft(d: PricingDraft, id: nat, now: int): (p: PricingPlan)
    ensures p.id == id && p.createdAt == now && p.updatedAt == now && p.userId.None?
    ensures p.basePrice == (if d.basePrice.Some? then d.basePrice.value else 0.0)
    ensures p.currency == (if d.currency.Some? then d.currency.value else DefaultCurrency)
    ensures p.isActive == (d.isActive.None? || d.isActive.value)
    ensures p.validFrom == (if d.validFrom.Some? then d.validFrom.value else now)
  {
    PricingPlan(id, d.name, d.basePrice.GetOr(0.0), d.currency.GetOr(DefaultCurrency), d.timeBasedPricing,
                Some(d.connectionFee.GetOr(0.0)), Some(d.minimumCharge.GetOr(0.0)),
                d.isActive.GetOr(true), d.chargePointIds, d.validFrom.GetOr(now), d.validUntil, None, now, now)
  }

  /** A plan after `findByIdAndUpdate`: the supplied fields replace the stored ones and the
      schema's timestamps stamp updatedAt. */
  function PatchedPlan(p: PricingPlan, patch: PricingPatch, now: int): (u: PricingPlan)
    ensures u.id == p.id && u.createdAt == p.createdAt && u.userId == p.userId && u.updatedAt == now
    ensures u.name == (if patch.name.Some? then patch.name.value else p.name)
    ensures u.basePrice == (if patch.basePrice.Some? then patch.basePrice.value else p.basePrice)
    ensures u.currency == (if patch.currency.Some? then patch.currency.value else p.currency)
    ensures u.timeBasedPricing == (if patch.timeBasedPricing.Some? then patch.timeBasedPricing.value else p.timeBasedPricing)
    ensures u.connectionFee == (if patch.connectionFee.Some? then patch.connectionFee else p.connectionFee)
    ensures u.minimumCharge == (if patch.minimumCharge.Some? then patch.minimumCharge else p.minimumCharge)
    ensures u.isActive == (if patch.isActive.Some? then patch.isActive.value else p.isActive)
    ensures u.chargePointIds == (if patch.chargePointIds.Some? then patch.chargePointIds.value else p.chargePointIds)
    ensures u.validFrom == (if patch.validFrom.Some? then patch.validFrom.value else p.validFrom)
    ensures u.validUntil == (if patch.validUntil.Some? then patch.validUntil.value else p.validUntil)
  {
    p.(name := patch.name.GetOr(p.name),
       basePrice := patch.basePrice.GetOr(p.basePrice),
       currency := patch.currency.GetOr(p.currency),
       timeBasedPricing := patch.timeBasedPricing.GetOr(p.timeBasedPricing),
       connectionFee := if patch.connectionFee.Some? then patch.connectionFee else p.connectionFee,
       minimumCharge := if patch.minimumCharge.Some? then patch.minimumCharge else p.minimumCharge,
       isActive := patch.isActive.GetOr(p.isActive),
       chargePointIds := patch.chargePointIds.GetOr(p.chargePointIds),
       validFrom := patch.validFrom.GetOr(p.validFrom),
       validUntil := patch.validUntil.GetOr(p.validUntil),
       updatedAt := now)
  }

  /** The pricing collection. */
  class PricingStore {
    var plans: seq<PricingPlan>
    var nextId: nat

    ghost predicate Valid()
      reads this
    {
      (forall i, j :: 0 <= i < j < |plans| ==> plans[i].id != plans[j].id)
      && (forall k :: 0 <= k < |plans| ==> plans[k].id < nextId && plans[k].userId.None?)
    }

    constructor ()
      ensures Valid() && plans == [] && nextId == 0
    {
      plans := [];
      nextId := 0;
    }

    /** `createPricing`: a plan the validators accept is appended with the next id. */
    method Create(draft: PricingDraft, now: int) returns (r: Result<PricingPlan, PricingError>)
      requires Valid()
      modifies this
      ensures Valid()
      ensures r.Ok? <==> ValidPlanDraft(draft)
      ensures r.Ok? ==> r.value == PlanFromDraft(draft, old(nextId), now) && plans == old(plans) + [r.value]
      ensures r.Err? ==> r.error == PricingValidationFailed && plans == old(plans)
    {
      if !ValidPlanDraft(draft) {
        return Err(PricingValidationFailed);
      }
      var p := PlanFromDraft(draft, nextId, now);
      plans := plans + [p];
      nextId := nextId + 1;
      return Ok(p);
    }

    /** `updatePricing` (and activate/deactivate with their one-field patches): null for an
        unknown id, otherwise the patched plan. No validators run. */
    method Update(id: nat, patch: PricingPatch, now: int) returns (r: Option<PricingPlan>)
      requires Valid()
      modifies this
      ensures Valid() && nextId == old(nextId)
      ensures var k := FirstIndex(old(plans), (p: PricingPlan) => p.id == id);
              if k == |old(plans)| then r.None? && plans == old(plans)
              else r == Some(PatchedPlan(old(plans)[k], patch, now)) && plans == old(plans)[k := r.value]
    {
      var k := FirstIndex(plans, (p: PricingPlan) => p.id == id);
      if k == |plans| {
        return None;
      }
      var u := PatchedPlan(plans[k], patch, now);
      plans := plans[k := u];
      return Some(u);
    }

    /** `activatePricing` / `deactivatePricing`: only isActive (and the updatedAt timestamp) change. */
    method SetActive(id: nat, active: bool, now: int) returns (r: Option<PricingPlan>)
      requires Valid()
      modifies this
      ensures Valid() && nextId == old(nextId)
      ensures var k := FirstIndex(old(plans), (p: PricingPlan) => p.id == id);
              if k == |old(plans)| then r.None? && plans == old(plans)
              else r == Some(old(plans)[k].(isActive := active, updatedAt := now)) && plans == old(plans)[k := r.value]
    {
      r := Update(id, PricingPatch(None, None, None, None, None, None, Some(active), None, None, None), now);
    }

    /** `deletePricing`: removes the plan and returns it, or null for an unknown id. */
    method Delete(id: nat) returns (r: Option<PricingPlan>)
      requires Valid()
      modifies this
      ensures Valid() && nextId == old(nextId)
      ensures var k := FirstIndex(old(plans), (p: PricingPlan) => p.id == id);
              if k == |old(plans)| then r.None? && plans == old(plans)
              else r == Some(old(plans)[k]) && plans == old(plans)[..k] + old(plans)[k + 1..]
    {
      var k := FirstIndex(plans, (p: PricingPlan) => p.id == id);
      if k == |plans| {
        return None;
      }
      r := Some(plans[k]);
      plans := plans[..k] + plans[k + 1..];
    }
  }

  /** A deactivated plan is never selected for any charge point or instant. */
  lemma InactivePlanNeverSelected(ps: seq<PricingPlan>, k: nat, chargePointId: string, t: int)
    requires k < |ps| && !ps[k].isActive
    requires forall i, j :: 0 <= i < j < |ps| ==> ps[i].id != ps[j].id
    ensures var r := ActivePricingForChargePoint(ps, chargePointId, t);
            r.None? || r.value.id != ps[k].id
  {
    var r := ActivePricingForChargePoint(ps, chargePointId, t);
    if r.Some? {
      var m :| 0 <= m < |ps| && ps[m] == r.value;
      assert m != k;
    }
  }
}
