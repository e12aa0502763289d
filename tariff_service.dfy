/** Tariffs per charge point and connector (service/management/tariffService.js): the conflict
    rule between time-of-day windows, the store operations that enforce it, and the selection of
    the tariff and price that apply at an instant. */
module TariffService {
  import opened Common
  import opened Strings
  import opened TimeOfDay
  import opened Collections

  // ---------------------------------------------------------------------------------------
  // Conflict rule between windows

  /** `_timeRangesOverlap`: a missing (empty) bound on either window means no overlap;
      otherwise the inclusive test `start1 <= end2 && start2 <= end1` on strings. */
  function TimeRangesOverlap(start1: string, end1: string, start2: string, end2: string): (r: bool)
    ensures start1 == [] || end1 == [] || start2 == [] || end2 == [] ==> !r
    ensures r ==> LexLe(start1, end2) && LexLe(start2, end1)
    ensures start1 == start2 != [] && end1 != [] && end2 != [] && LexLe(start1, end1) && LexLe(start2, end2) ==> r
  {
    start1 != [] && end1 != [] && start2 != [] && end2 != []
    && LexLe(start1, end2) && LexLe(start2, end1)
  }

  /** `_daysOverlap`: undefined or null reads as "all days" and overlaps any day. */
  function DaysOverlap(day1: DaySelector, day2: DaySelector): (r: bool)
    ensures day1.Unset? || day1.Null? || day2.Unset? || day2.Null? ==> r
    ensures day1.Day? && day2.Day? ==> (r <==> day1.day == day2.day)
  {
    !day1.Day? || !day2.Day? || day1.day == day2.day
  }

  /** One new entry against one existing entry: same day and overlapping windows. */
  predicate EntriesOverlap(a: TimeRule, b: TimeRule)
  {
    DaysOverlap(a.dayOfWeek, b.dayOfWeek)
    && TimeRangesOverlap(a.startTime, a.endTime, b.startTime, b.endTime)
  }

  /** Two entry lists conflict when some pair (new, existing) overlaps on day and time. */
  function Conflicts(newEntries: seq<TimeRule>, existingEntries: seq<TimeRule>): (r: bool)
    ensures newEntries == [] || existingEntries == [] ==> !r
    ensures forall i, j :: 0 <= i < |newEntries| && 0 <= j < |existingEntries| && EntriesOverlap(newEntries[i], existingEntries[j]) ==> r
  {
    exists i, j :: 0 <= i < |newEntries| && 0 <= j < |existingEntries|
                   && EntriesOverlap(newEntries[i], existingEntries[j])
  }

  lemma TimeRangesOverlapSymmetric(s1: string, e1: string, s2: string, e2: string)
    ensures TimeRangesOverlap(s1, e1, s2, e2) == TimeRangesOverlap(s2, e2, s1, e1)
  {
  }

  lemma DaysOverlapSymmetric(d1: DaySelector, d2: DaySelector)
    ensures DaysOverlap(d1, d2) == DaysOverlap(d2, d1)
  {
  }

  /** For two well-formed windows (start <= end), the overlap test holds exactly when some
      time string lies inside both windows. */
  lemma OverlapIffCommonTime(s1: string, e1: string, s2: string, e2: string)
    requires s1 != [] && e1 != [] && s2 != [] && e2 != []
    requires LexLe(s1, e1) && LexLe(s2, e2)
    ensures TimeRangesOverlap(s1, e1, s2, e2) <==>
              exists t :: LexLe(s1, t) && LexLe(t, e1) && LexLe(s2, t) && LexLe(t, e2)
  {
    if TimeRangesOverlap(s1, e1, s2, e2) {
      var t := LexMax(s1, s2);
      assert LexLe(t, e1) && LexLe(t, e2) by {
        if t == s1 { } else { assert t == s2; }
      }
      assert LexLe(s1, t) && LexLe(t, e1) && LexLe(s2, t) && LexLe(t, e2);
      assert exists u :: LexLe(s1, u) && LexLe(u, e1) && LexLe(s2, u) && LexLe(u, e2);
    } else {
      forall t | LexLe(s1, t) && LexLe(t, e1) && LexLe(s2, t)
        ensures !LexLe(t, e2)
      {
        if LexLe(t, e2) {
          LexLeTransitive(s1, t, e2);
          LexLeTransitive(s2, t, e1);
        }
      }
    }
  }

  /** The conflict relation does not depend on which list is the new one. */
  lemma ConflictsSymmetric(a: seq<TimeRule>, b: seq<TimeRule>)
    ensures Conflicts(a, b) == Conflicts(b, a)
  {
    if Conflicts(a, b) {
      var i, j :| 0 <= i < |a| && 0 <= j < |b| && EntriesOverlap(a[i], b[j]);
      DaysOverlapSymmetric(a[i].dayOfWeek, b[j].dayOfWeek);
      assert EntriesOverlap(b[j], a[i]);
    }
    if Conflicts(b, a) {
      var j, i :| 0 <= j < |b| && 0 <= i < |a| && EntriesOverlap(b[j], a[i]);
      DaysOverlapSymmetric(a[i].dayOfWeek, b[j].dayOfWeek);
      assert EntriesOverlap(a[i], b[j]);
    }
  }

  /** The conflict rule is sound for pricing: two rules with non-empty bounds that would both
      price the same instant are reported as overlapping. */
  lemma SharedInstantMeansOverlap(a: TimeRule, b: TimeRule, at: Moment)
    requires a.startTime != [] && b.startTime != []
    requires RuleMatches(a, at) && RuleMatches(b, at)
    ensures EntriesOverlap(a, b)
  {
    NotLessIsReversedLe(Clock(at), a.startTime);
    NotLessIsReversedLe(Clock(at), b.startTime);
    LexLeTransitive(a.startTime, Clock(at), b.endTime);
    LexLeTransitive(b.startTime, Clock(at), a.endTime);
  }

  /** `_hasOverlappingTimeZones`: the nested scan with an early return. */
  method HasOverlappingTimeZones(newEntries: seq<TimeRule>, existingEntries: seq<TimeRule>)
    returns (conflict: bool)
    ensures conflict == Conflicts(newEntries, existingEntries)
    ensures newEntries == [] || existingEntries == [] ==> !conflict
  {
    if |newEntries| == 0 || |existingEntries| == 0 {
      return false;
    }
    var i := 0;
    while i < |newEntries|
      invariant 0 <= i <= |newEntries|
      invariant forall a, b :: 0 <= a < i && 0 <= b < |existingEntries| ==>
                  !EntriesOverlap(newEntries[a], existingEntries[b])
    {
      var j := 0;
      while j < |existingEntries|
        invariant 0 <= j <= |existingEntries|
        invariant forall b :: 0 <= b < j ==> !EntriesOverlap(newEntries[i], existingEntries[b])
      {
        var sameDay := DaysOverlap(newEntries[i].dayOfWeek, existingEntries[j].dayOfWeek);
        var timeOverlap := TimeRangesOverlap(newEntries[i].startTime, newEntries[i].endTime,
                                             existingEntries[j].startTime, existingEntries[j].endTime);
        if sameDay && timeOverlap {
          return true;
        }
        j := j + 1;
      }
      i := i + 1;
    }
    return false;
  }

  // ---------------------------------------------------------------------------------------
  // Tariff records

  /** A stored tariff. Instants are milliseconds since the epoch; `id` stands for `_id`. */
  datatype Tariff = Tariff(
    id: nat,
    name: string,
    companyId: string,
    chargePointId: string,
    connectorId: int,
    basePrice: real,
    currency: string,
    timeBasedPricing: seq<TimeRule>,
    connectionFee: Option<real>,
    minimumCharge: Option<real>,
    isActive: bool,
    validFrom: int,
    validUntil: Option<int>,
    createdAt: int,
    updatedAt: int)

  /** The data handed to `createTariff`; `None` is a field left undefined. */
  datatype TariffDraft = TariffDraft(
    name: string,
    companyId: string,
    chargePointId: string,
    connectorId: Option<int>,
    basePrice: Option<real>,
    currency: Option<string>,
    timeBasedPricing: seq<TimeRule>,
    connectionFee: Option<real>,
    minimumCharge: Option<real>,
    isActive: Option<bool>,
    validFrom: Option<int>,
    validUntil: Option<int>)

  /** The fields an update sets; `None` leaves the stored value. `validUntil: Some(None)` clears it. */
  datatype TariffPatch = TariffPatch(
    name: Option<string>,
    chargePointId: Option<string>,
    connectorId: Option<int>,
    basePrice: Option<real>,
    currency: Option<string>,
    timeBasedPricing: Option<seq<TimeRule>>,
    connectionFee: Option<real>,
    minimumCharge: Option<real>,
    isActive: Option<bool>,
    validFrom: Option<int>,
    validUntil: Option<Option<int>>)

  /** The update `deactivateTariff` sends: `{ isActive: false }`. */
  const DeactivatePatch := TariffPatch(None, None, None, None, None, None, None, None, Some(false), None, None)

  datatype TariffError =
    | TariffConflict          // an overlapping active tariff exists in the same scope
    | TariffNotFound(id: nat)
    | NoActiveTariff          // updateConnectorTariff found nothing to update
    | ValidationFailed        // the schema's validators reject the document

  /** The schema's rule-entry validators: both bounds required, dayOfWeek in 0..6 when a number. */
  predicate ValidRule(r: TimeRule)
  {
    r.startTime != [] && r.endTime != [] && (r.dayOfWeek.Day? ==> 0 <= r.dayOfWeek.day <= 6)
  }

  /** The schema's validators on a new document (required fields; a required string rejects ""). */
  function ValidDraft(d: TariffDraft): (r: bool)
    ensures d.name == [] || d.companyId == [] || d.chargePointId == [] || d.connectorId.None? ==> !r
    ensures d.currency == Some([]) ==> !r
    ensures forall k :: 0 <= k < |d.timeBasedPricing| && !ValidRule(d.timeBasedPricing[k]) ==> !r
  {
    d.name != [] && d.companyId != [] && d.chargePointId != [] && d.connectorId.Some?
    && d.currency != Some([])
    && forall k :: 0 <= k < |d.timeBasedPricing| ==> ValidRule(d.timeBasedPricing[k])
  }

  /** The update validators (`runValidators: true`) on the fields a patch sets. */
  function ValidPatch(p: TariffPatch): (r: bool)
    ensures p.name == Some([]) || p.chargePointId == Some([]) || p.currency == Some([]) ==> !r
    ensures p.timeBasedPricing.None? && p.name != Some([]) && p.chargePointId != Some([]) && p.currency != Some([]) ==> r
    ensures DeactivatePatch == p ==> r
  {
    p.name != Some([]) && p.chargePointId != Some([]) && p.currency != Some([])
    && (p.timeBasedPricing.Some? ==>
          forall k :: 0 <= k < |p.timeBasedPricing.value| ==> ValidRule(p.timeBasedPricing.value[k]))
  }

  /** `new Tariff(tariffData)`: the schema defaults fill the fields left undefined. */
  function FromDraft(d: TariffDraft, id: nat, now: int): (t: Tariff)
    requires d.connectorId.Some?
    ensures t.id == id && t.createdAt == now && t.updatedAt == now
    ensures t.basePrice == (if d.basePrice.Some? then d.basePrice.value else 0.0)
    ensures t.currency == (if d.currency.Some? then d.currency.value else DefaultCurrency)
    ensures t.isActive == (d.isActive.None? || d.isActive.value)
    ensures t.validFrom == (if d.validFrom.Some? then d.validFrom.value else now)
    ensures t.connectionFee == Some(d.connectionFee.GetOr(0.0))
    ensures t.minimumCharge == Some(d.minimumCharge.GetOr(0.0))
  {
    Tariff(id, d.name, d.companyId, d.chargePointId, d.connectorId.value,
           d.basePrice.GetOr(0.0), d.currency.GetOr(DefaultCurrency), d.timeBasedPricing,
           Some(d.connectionFee.GetOr(0.0)), Some(d.minimumCharge.GetOr(0.0)),
           d.isActive.GetOr(true), d.validFrom.GetOr(now), d.validUntil, now, now)
  }

  /** The stored tariff after an update: the supplied fields replace the stored ones and
      updatedAt is stamped; identity and creation time are kept. */
  function Patched(t: Tariff, p: TariffPatch, now: int): (u: Tariff)
    ensures u.id == t.id && u.createdAt == t.createdAt && u.companyId == t.companyId
    ensures u.updatedAt == now
    ensures u.name == (if p.name.Some? then p.name.value else t.name)
    ensures u.chargePointId == (if p.chargePointId.Some? then p.chargePointId.value else t.chargePointId)
    ensures u.connectorId == (if p.connectorId.Some? then p.connectorId.value else t.connectorId)
    ensures u.basePrice == (if p.basePrice.Some? then p.basePrice.value else t.basePrice)
    ensures u.currency == (if p.currency.Some? then p.currency.value else t.currency)
    ensures u.timeBasedPricing == (if p.timeBasedPricing.Some? then p.timeBasedPricing.value else t.timeBasedPricing)
    ensures u.connectionFee == (if p.connectionFee.Some? then p.connectionFee else t.connectionFee)
    ensures u.minimumCharge == (if p.minimumCharge.Some? then p.minimumCharge else t.minimumCharge)
    ensures u.isActive == (if p.isActive.Some? then p.isActive.value else t.isActive)
    ensures u.validFrom == (if p.validFrom.Some? then p.validFrom.value else t.validFrom)
    ensures u.validUntil == (if p.validUntil.Some? then p.validUntil.value else t.validUntil)
  {
    t.(name := p.name.GetOr(t.name),
       chargePointId := p.chargePointId.GetOr(t.chargePointId),
       connectorId := p.connectorId.GetOr(t.connectorId),
       basePrice := p.basePrice.GetOr(t.basePrice),
       currency := p.currency.GetOr(t.currency),
       timeBasedPricing := p.timeBasedPricing.GetOr(t.timeBasedPricing),
       connectionFee := if p.connectionFee.Some? then p.connectionFee else t.connectionFee,
       minimumCharge := if p.minimumCharge.Some? then p.minimumCharge else t.minimumCharge,
       isActive := p.isActive.GetOr(t.isActive),
       validFrom := p.validFrom.GetOr(t.validFrom),
       validUntil := p.validUntil.GetOr(t.validUntil),
       updatedAt := now)
  }

  // ---------------------------------------------------------------------------------------
  // Scope of the conflict check

  /** The query of `_assertNoTariffConflict`: active, same charge point and connector, and not
      the excluded id. */
  predicate InScope(t: Tariff, chargePointId: string, connectorId: Option<int>, exclude: Option<nat>)
  {
    t.isActive && t.chargePointId == chargePointId && connectorId == Some(t.connectorId)
    && (exclude.None? || t.id != exclude.value)
  }

  /** `_assertNoTariffConflict` throws exactly when the candidate has windows and some tariff in
      scope has a conflicting window list. */
  function ScopeConflict(ts: seq<Tariff>, chargePointId: string, connectorId: Option<int>,
                         windows: seq<TimeRule>, exclude: Option<nat>): (r: bool)
    ensures windows == [] ==> !r
    ensures (forall k :: 0 <= k < |ts| ==> !InScope(ts[k], chargePointId, connectorId, exclude)) ==> !r
    ensures r ==> exists k :: 0 <= k < |ts| && InScope(ts[k], chargePointId, connectorId, exclude)
                             && ts[k].timeBasedPricing != []
  {
    windows != []
    && exists k :: 0 <= k < |ts| && InScope(ts[k], chargePointId, connectorId, exclude)
                   && Conflicts(windows, ts[k].timeBasedPricing)
  }

  predicate SameScope(a: Tariff, b: Tariff)
  {
    a.chargePointId == b.chargePointId && a.connectorId == b.connectorId
  }

  /** The invariant the conflict check exists for: no two active tariffs of one connector have
      overlapping windows. */
  predicate NoActiveConflicts(ts: seq<Tariff>)
  {
    forall i, j ::
      0 <= i < |ts| && 0 <= j < |ts| && i != j && ts[i].isActive && ts[j].isActive && SameScope(ts[i], ts[j])
      ==> !Conflicts(ts[i].timeBasedPricing, ts[j].timeBasedPricing)
  }

  predicate UniqueIds(ts: seq<Tariff>)
  {
    forall i, j :: 0 <= i < j < |ts| ==> ts[i].id != ts[j].id
  }

  /** A tariff admitted by the conflict check keeps the invariant when appended. */
  lemma {:induction false} AppendKeepsNoActiveConflicts(ts: seq<Tariff>, t: Tariff)
    requires NoActiveConflicts(ts)
    requires !ScopeConflict(ts, t.chargePointId, Some(t.connectorId), t.timeBasedPricing, None)
    ensures NoActiveConflicts(ts + [t])
  {
    var us := ts + [t];
    forall i, j | 0 <= i < |us| && 0 <= j < |us| && i != j && us[i].isActive && us[j].isActive
                  && SameScope(us[i], us[j])
      ensures !Conflicts(us[i].timeBasedPricing, us[j].timeBasedPricing)
    {
      if i == |ts| {
        assert InScope(ts[j], t.chargePointId, Some(t.connectorId), None);
      } else if j == |ts| {
        assert InScope(ts[i], t.chargePointId, Some(t.connectorId), None);
        ConflictsSymmetric(us[i].timeBasedPricing, us[j].timeBasedPricing);
      } else {
        assert us[i] == ts[i] && us[j] == ts[j];
      }
    }
  }

  /** A replacement that keeps its id and was admitted by the check, run in its own (new)
      scope and excluding its own id, keeps the invariant. */
  lemma {:induction false} ReplaceKeepsNoActiveConflicts(ts: seq<Tariff>, k: nat, u: Tariff)
    requires k < |ts| && UniqueIds(ts) && NoActiveConflicts(ts)
    requires u.id == ts[k].id
    requires !ScopeConflict(ts, u.chargePointId, Some(u.connectorId), u.timeBasedPricing, Some(u.id))
    ensures NoActiveConflicts(ts[k := u])
  {
    var us := ts[k := u];
    forall i, j | 0 <= i < |us| && 0 <= j < |us| && i != j && us[i].isActive && us[j].isActive
                  && SameScope(us[i], us[j])
      ensures !Conflicts(us[i].timeBasedPricing, us[j].timeBasedPricing)
    {
      if i == k {
        assert ts[j].id != u.id by { assert j < k || k < j; }
        assert InScope(ts[j], u.chargePointId, Some(u.connectorId), Some(u.id));
      } else if j == k {
        assert ts[i].id != u.id by { assert i < k || k < i; }
        assert InScope(ts[i], u.chargePointId, Some(u.connectorId), Some(u.id));
        ConflictsSymmetric(us[i].timeBasedPricing, us[j].timeBasedPricing);
      }
    }
  }

  /** Turning a tariff inactive never creates a conflict between active tariffs. */
  lemma {:induction false} DeactivateKeepsNoActiveConflicts(ts: seq<Tariff>, k: nat, u: Tariff)
    requires k < |ts| && NoActiveConflicts(ts)
    requires u == ts[k].(isActive := false, updatedAt := u.updatedAt)
    ensures NoActiveConflicts(ts[k := u])
  {
    var us := ts[k := u];
    forall i, j | 0 <= i < |us| && 0 <= j < |us| && i != j && us[i].isActive && us[j].isActive
                  && SameScope(us[i], us[j])
      ensures !Conflicts(us[i].timeBasedPricing, us[j].timeBasedPricing)
    {
      assert i != k && j != k;
    }
  }

  /** An already-inactive tariff whose windows overlap those of an active tariff on the same
      connector, which creation allows since only active tariffs are checked against. Sending it
      `{ isActive: false }` through the update path reports a tariff conflict. */
  lemma DeactivatingInactiveTariffConflicts()
    ensures var rule := TimeRule("08:00", "10:00", Unset, 0.5);
            var old1 := Tariff(1, "night", "c", "CP1", 1, 0.2, "USD", [rule], Some(0.0), Some(0.0),
                               false, 0, None, 0, 0);
            var new2 := old1.(id := 2, isActive := true);
            var ts := [old1, new2];
            !ScopeConflict([old1], new2.chargePointId, Some(new2.connectorId), new2.timeBasedPricing, None)
            && ScopeConflict(ts, old1.chargePointId, Some(old1.connectorId),
                             Patched(old1, DeactivatePatch, 1).timeBasedPricing, Some(old1.id))
  {
    var rule := TimeRule("08:00", "10:00", Unset, 0.5);
    var old1 := Tariff(1, "night", "c", "CP1", 1, 0.2, "USD", [rule], Some(0.0), Some(0.0),
                       false, 0, None, 0, 0);
    var new2 := old1.(id := 2, isActive := true);
    var ts := [old1, new2];
    LexLeReflexive("10:00");
    assert LexLe("08:00", "10:00");
    assert EntriesOverlap(rule, rule);
    assert Conflicts([rule], [rule]) by { assert EntriesOverlap([rule][0], [rule][0]); }
    assert Patched(old1, DeactivatePatch, 1).timeBasedPricing == [rule];
    assert InScope(ts[1], old1.chargePointId, Some(old1.connectorId), Some(old1.id));
    assert ts[1].timeBasedPricing == [rule];
  }

  /** `updateTariff` checks the merged windows in the tariff's STORED scope, but the patch may
      move it to another charge point: two active tariffs with the same Monday window on CP1 and
      CP2 pass the check when the first is moved to CP2, and the move leaves two overlapping
      active tariffs on CP2's connector. */
  lemma UpdateMovesTariffIntoConflict()
    ensures var rule := TimeRule("08:00", "10:00", Day(1), 0.5);
            var t0 := Tariff(0, "day", "c", "CP1", 1, 0.2, "USD", [rule], Some(0.0), Some(0.0), true, 0, None, 0, 0);
            var t1 := t0.(id := 1, chargePointId := "CP2");
            var ts := [t0, t1];
            var patch := TariffPatch(None, Some("CP2"), None, None, None, None, None, None, None, None, None);
            && UniqueIds(ts) && NoActiveConflicts(ts)
            && !ScopeConflict(ts, t0.chargePointId, Some(t0.connectorId),
                              patch.timeBasedPricing.GetOr(t0.timeBasedPricing), Some(t0.id))
            && ValidPatch(patch)
            && !NoActiveConflicts(ts[0 := Patched(t0, patch, 1)])
  {
    var rule := TimeRule("08:00", "10:00", Day(1), 0.5);
    var t0 := Tariff(0, "day", "c", "CP1", 1, 0.2, "USD", [rule], Some(0.0), Some(0.0), true, 0, None, 0, 0);
    var t1 := t0.(id := 1, chargePointId := "CP2");
    var ts := [t0, t1];
    var patch := TariffPatch(None, Some("CP2"), None, None, None, None, None, None, None, None, None);
    SameWindowConflicts(ts[0 := Patched(t0, patch, 1)], rule);
  }

  /** `updateConnectorTariff` checks the newest active tariff of the connector but writes the
      first one in store order: with a Monday tariff stored first and a newer Tuesday tariff,
      moving the windows to Tuesday passes the check (the Tuesday tariff is excluded as the one
      being updated) and the Monday tariff, now on Tuesday, overlaps the Tuesday tariff. */
  lemma ConnectorUpdateWritesUncheckedTariff()
    ensures var monday := TimeRule("08:00", "10:00", Day(1), 0.5);
            var tuesday := TimeRule("08:00", "10:00", Day(2), 0.5);
            var a := Tariff(0, "mon", "c", "CP1", 1, 0.2, "USD", [monday], Some(0.0), Some(0.0), true, 0, None, 0, 0);
            var b := a.(id := 1, name := "tue", timeBasedPricing := [tuesday], createdAt := 1);
            var ts := [a, b];
            var patch := TariffPatch(None, None, None, None, None, Some([tuesday]), None, None, None, None, None);
            var scoped := Filter(ts, (x: Tariff) => InScope(x, "CP1", Some(1), None));
            && UniqueIds(ts) && NoActiveConflicts(ts)
            && Newest(scoped) == Some(b)
            && !ScopeConflict(ts, "CP1", Some(1), [tuesday], Some(b.id))
            && FirstIndex(ts, (x: Tariff) => InScope(x, "CP1", Some(1), None)) == 0
            && !NoActiveConflicts(ts[0 := Patched(a, patch, 2)])
  {
    var monday := TimeRule("08:00", "10:00", Day(1), 0.5);
    var tuesday := TimeRule("08:00", "10:00", Day(2), 0.5);
    var a := Tariff(0, "mon", "c", "CP1", 1, 0.2, "USD", [monday], Some(0.0), Some(0.0), true, 0, None, 0, 0);
    var b := a.(id := 1, name := "tue", timeBasedPricing := [tuesday], createdAt := 1);
    var patch := TariffPatch(None, None, None, None, None, Some([tuesday]), None, None, None, None, None);
    ConnectorStoreBefore(a, b, tuesday);
    NewestOfTwo(a, b, (x: Tariff) => InScope(x, "CP1", Some(1), None));
    ConnectorCheckPasses(a, b, tuesday);
    SameWindowConflicts([a, b][0 := Patched(a, patch, 2)], tuesday);
  }

  /** The check half of the example above: the Tuesday window conflicts with nothing else in scope. */
  lemma ConnectorCheckPasses(a: Tariff, b: Tariff, tuesday: TimeRule)
    requires tuesday == TimeRule("08:00", "10:00", Day(2), 0.5)
    requires a == Tariff(0, "mon", "c", "CP1", 1, 0.2, "USD", [TimeRule("08:00", "10:00", Day(1), 0.5)],
                         Some(0.0), Some(0.0), true, 0, None, 0, 0)
    requires b == a.(id := 1, name := "tue", timeBasedPricing := [tuesday], createdAt := 1)
    ensures !ScopeConflict([a, b], "CP1", Some(1), [tuesday], Some(b.id))
  {
    assert !Conflicts([tuesday], a.timeBasedPricing);
  }

  /** The store of that example has unique ids and no overlap. */
  lemma ConnectorStoreBefore(a: Tariff, b: Tariff, tuesday: TimeRule)
    requires tuesday == TimeRule("08:00", "10:00", Day(2), 0.5)
    requires a == Tariff(0, "mon", "c", "CP1", 1, 0.2, "USD", [TimeRule("08:00", "10:00", Day(1), 0.5)],
                         Some(0.0), Some(0.0), true, 0, None, 0, 0)
    requires b == a.(id := 1, name := "tue", timeBasedPricing := [tuesday], createdAt := 1)
    ensures UniqueIds([a, b]) && NoActiveConflicts([a, b])
  {
    assert !Conflicts(a.timeBasedPricing, b.timeBasedPricing);
    ConflictsSymmetric(a.timeBasedPricing, b.timeBasedPricing);
  }

  /** Of two matching tariffs, the later in the sort order is the newest. */
  lemma NewestOfTwo(a: Tariff, b: Tariff, p: Tariff -> bool)
    requires p(a) && p(b) && Newer(b, a)
    ensures Filter([a, b], p) == [a, b] && Newest(Filter([a, b], p)) == Some(b)
  {
    assert [a, b][1..] == [b] && [b][1..] == [];
  }

  /** Two active tariffs of one connector with the same well-formed window conflict. */
  lemma SameWindowConflicts(us: seq<Tariff>, rule: TimeRule)
    requires |us| == 2 && us[0].isActive && us[1].isActive && SameScope(us[0], us[1])
    requires us[0].timeBasedPricing == [rule] && us[1].timeBasedPricing == [rule]
    requires rule.startTime == "08:00" && rule.endTime == "10:00"
    ensures !NoActiveConflicts(us)
  {
    LexLeReflexive("10:00");
    assert LexLe("08:00", "10:00");
    assert EntriesOverlap([rule][0], [rule][0]);
    assert Conflicts(us[0].timeBasedPricing, us[1].timeBasedPricing);
  }

  // ---------------------------------------------------------------------------------------
  // Selection at an instant

  /** The query of `getTariffForConnector`: active, this connector, validFrom <= t and either no
      validUntil or validUntil >= t. */
  predicate Applicable(x: Tariff, chargePointId: string, connectorId: int, t: int)
  {
    x.isActive && x.chargePointId == chargePointId && x.connectorId == connectorId
    && x.validFrom <= t && (x.validUntil.None? || x.validUntil.value >= t)
  }

  /** `sort({ validFrom: -1, createdAt: -1 })`: `a` sorts before `b`. */
  predicate Newer(a: Tariff, b: Tariff)
  {
    a.validFrom > b.validFrom || (a.validFrom == b.validFrom && a.createdAt > b.createdAt)
  }

  /** The first tariff of the sort order; among equal keys the first in store order. */
  function Newest(ts: seq<Tariff>): (r: Option<Tariff>)
    ensures r.None? <==> ts == []
    ensures r.Some? ==> r.value in ts && forall k :: 0 <= k < |ts| ==> !Newer(ts[k], r.value)
  {
    if ts == [] then None
    else
      var rest := Newest(ts[1..]);
      if rest.Some? && Newer(rest.value, ts[0]) then rest else Some(ts[0])
  }

  /** `getTariffForConnector`. */
  function TariffForConnector(ts: seq<Tariff>, chargePointId: string, connectorId: int, t: int): (r: Option<Tariff>)
    ensures r.None? <==> forall k :: 0 <= k < |ts| ==> !Applicable(ts[k], chargePointId, connectorId, t)
    ensures r.Some? ==> r.value in ts && Applicable(r.value, chargePointId, connectorId, t)
    ensures r.Some? ==> forall k :: 0 <= k < |ts| && Applicable(ts[k], chargePointId, connectorId, t)
                                    ==> !Newer(ts[k], r.value)
  {
    var candidates := Filter(ts, x => Applicable(x, chargePointId, connectorId, t));
    assert forall k :: 0 <= k < |ts| && Applicable(ts[k], chargePointId, connectorId, t) ==> ts[k] in candidates;
    Newest(candidates)
  }

  /** The object `getPriceForConnector` returns. */
  datatype PriceInfo = PriceInfo(tariffId: nat, pricePerKwh: real, connectionFee: real,
                                 minimumCharge: real, currency: string)

  /** `getPriceForConnector`: null without an applicable tariff; otherwise the tariff's
      time-of-day price, with fees defaulting to 0 and currency to "USD". */
  function PriceForConnector(ts: seq<Tariff>, chargePointId: string, connectorId: int, at: Moment): (r: Option<PriceInfo>)
    ensures r.None? <==> TariffForConnector(ts, chargePointId, connectorId, at.ms).None?
    ensures r.Some? ==>
              var x := TariffForConnector(ts, chargePointId, connectorId, at.ms).value;
              && r.value.tariffId == x.id
              && r.value.pricePerKwh == PriceForDateTime(x.basePrice, x.timeBasedPricing, at)
              && r.value.connectionFee == OrReal(x.connectionFee, 0.0)
              && r.value.minimumCharge == OrReal(x.minimumCharge, 0.0)
              && r.value.currency == OrString(x.currency, DefaultCurrency)
  {
    match TariffForConnector(ts, chargePointId, connectorId, at.ms)
    case None => None
    case Some(x) =>
      Some(PriceInfo(x.id, PriceForDateTime(x.basePrice, x.timeBasedPricing, at),
                     OrReal(x.connectionFee, 0.0), OrReal(x.minimumCharge, 0.0),
                     OrString(x.currency, DefaultCurrency)))
  }

  /** The price quoted for a connector is the applicable tariff's base price or one of its rule
      prices, and the quoted currency is never empty. */
  lemma QuotedPriceComesFromTariff(ts: seq<Tariff>, chargePointId: string, connectorId: int, at: Moment)
    requires PriceForConnector(ts, chargePointId, connectorId, at).Some?
    ensures var q := PriceForConnector(ts, chargePointId, connectorId, at).value;
            exists k :: 0 <= k < |ts| && ts[k].id == q.tariffId
                        && Applicable(ts[k], chargePointId, connectorId, at.ms)
                        && (q.pricePerKwh == ts[k].basePrice
                            || exists j :: 0 <= j < |ts[k].timeBasedPricing|
                                           && q.pricePerKwh == ts[k].timeBasedPricing[j].pricePerKwh)
    ensures PriceForConnector(ts, chargePointId, connectorId, at).value.currency != []
  {
    var x := TariffForConnector(ts, chargePointId, connectorId, at.ms).value;
    var k :| 0 <= k < |ts| && ts[k] == x;
    assert ts[k].id == PriceForConnector(ts, chargePointId, connectorId, at).value.tariffId;
  }

  // ---------------------------------------------------------------------------------------
  // The tariff collection

  class TariffStore {
    var tariffs: seq<Tariff>
    var nextId: nat

    ghost predicate Valid()
      reads this
    {
      UniqueIds(tariffs) && forall k :: 0 <= k < |tariffs| ==> tariffs[k].id < nextId
    }

    constructor ()
      ensures Valid() && tariffs == [] && nextId == 0
    {
      tariffs := [];
      nextId := 0;
    }

    /** `_assertNoTariffConflict`, answering whether the candidate passes: the loop over the
        tariffs in scope stops at the first conflicting one. */
    method AssertNoTariffConflict(chargePointId: string, connectorId: Option<int>,
                                  windows: seq<TimeRule>, exclude: Option<nat>) returns (ok: bool)
      ensures ok == !ScopeConflict(tariffs, chargePointId, connectorId, windows, exclude)
    {
      if |windows| == 0 {
        return true;
      }
      var k := 0;
      while k < |tariffs|
        invariant 0 <= k <= |tariffs|
        invariant forall m :: 0 <= m < k && InScope(tariffs[m], chargePointId, connectorId, exclude)
                    ==> !Conflicts(windows, tariffs[m].timeBasedPricing)
      {
        if InScope(tariffs[k], chargePointId, connectorId, exclude) {
          var conflict := HasOverlappingTimeZones(windows, tariffs[k].timeBasedPricing);
          if conflict {
            return false;
          }
        }
        k := k + 1;
      }
      return true;
    }

    /** `createTariff`: the conflict check runs first, then the schema validators; only a
        document that passes both is stored. */
    method Create(draft: TariffDraft, now: int) returns (r: Result<Tariff, TariffError>)
      requires Valid()
      modifies this
      ensures Valid()
      ensures r.Ok? <==> !ScopeConflict(old(tariffs), draft.chargePointId, draft.connectorId,
                                        draft.timeBasedPricing, None) && ValidDraft(draft)
      ensures ScopeConflict(old(tariffs), draft.chargePointId, draft.connectorId, draft.timeBasedPricing, None)
              ==> r == Err(TariffConflict)
      ensures r.Ok? ==> r.value == FromDraft(draft, old(nextId), now)
                        && tariffs == old(tariffs) + [r.value]
      ensures r.Err? ==> tariffs == old(tariffs)
      ensures NoActiveConflicts(old(tariffs)) ==> NoActiveConflicts(tariffs)
    {
      var ok := AssertNoTariffConflict(draft.chargePointId, draft.connectorId, draft.timeBasedPricing, None);
      if !ok {
        return Err(TariffConflict);
      }
      if !ValidDraft(draft) {
        return Err(ValidationFailed);
      }
      var t := FromDraft(draft, nextId, now);
      if NoActiveConflicts(tariffs) {
        AppendKeepsNoActiveConflicts(tariffs, t);
      }
      tariffs := tariffs + [t];
      nextId := nextId + 1;
      return Ok(t);
    }

    /** `updateTariff`: unknown id is an error; the merged window list (the patch's, else the
        stored one) is checked against the other active tariffs of the STORED charge point and
        connector; then the update validators run and the patch is applied with updatedAt. */
    method Update(id: nat, patch: TariffPatch, now: int) returns (r: Result<Tariff, TariffError>)
      requires Valid()
      modifies this
      ensures Valid() && nextId == old(nextId)
      ensures var k := FirstIndex(old(tariffs), (x: Tariff) => x.id == id);
              if k == |old(tariffs)| then r == Err(TariffNotFound(id)) && tariffs == old(tariffs)
              else
                var existing := old(tariffs)[k];
                var merged := patch.timeBasedPricing.GetOr(existing.timeBasedPricing);
                if ScopeConflict(old(tariffs), existing.chargePointId, Some(existing.connectorId), merged, Some(id))
                then r == Err(TariffConflict) && tariffs == old(tariffs)
                else if !ValidPatch(patch) then r == Err(ValidationFailed) && tariffs == old(tariffs)
                else r == Ok(Patched(existing, patch, now)) && tariffs == old(tariffs)[k := r.value]
      ensures NoActiveConflicts(old(tariffs))
              && (r.Ok? ==> SameScope(r.value, old(tariffs)[FirstIndex(old(tariffs), (x: Tariff) => x.id == id)]))
              ==> NoActiveConflicts(tariffs)
    {
      var k := FirstIndex(tariffs, (x: Tariff) => x.id == id);
      if k == |tariffs| {
        return Err(TariffNotFound(id));
      }
      var existing := tariffs[k];
      var merged := if patch.timeBasedPricing.Some? then patch.timeBasedPricing.value else existing.timeBasedPricing;
      var ok := AssertNoTariffConflict(existing.chargePointId, Some(existing.connectorId), merged, Some(id));
      if !ok {
        return Err(TariffConflict);
      }
      if !ValidPatch(patch) {
        return Err(ValidationFailed);
      }
      var u := Patched(existing, patch, now);
      if NoActiveConflicts(tariffs) && SameScope(u, existing) {
        ReplaceKeepsNoActiveConflicts(tariffs, k, u);
      }
      tariffs := tariffs[k := u];
      return Ok(u);
    }

    /** `updateTariff` as intended: the merged windows are checked in the scope the tariff has
        AFTER the update, so that moving a tariff to another charge point or connector cannot
        create an overlap there. */
    method UpdateInNewScope(id: nat, patch: TariffPatch, now: int) returns (r: Result<Tariff, TariffError>)
      requires Valid()
      modifies this
      ensures Valid() && nextId == old(nextId)
      ensures var k := FirstIndex(old(tariffs), (x: Tariff) => x.id == id);
              if k == |old(tariffs)| then r == Err(TariffNotFound(id)) && tariffs == old(tariffs)
              else
                var u := Patched(old(tariffs)[k], patch, now);
                if ScopeConflict(old(tariffs), u.chargePointId, Some(u.connectorId), u.timeBasedPricing, Some(id))
                then r == Err(TariffConflict) && tariffs == old(tariffs)
                else if !ValidPatch(patch) then r == Err(ValidationFailed) && tariffs == old(tariffs)
                else r == Ok(u) && tariffs == old(tariffs)[k := u]
      ensures NoActiveConflicts(old(tariffs)) ==> NoActiveConflicts(tariffs)
    {
      var k := FirstIndex(tariffs, (x: Tariff) => x.id == id);
      if k == |tariffs| {
        return Err(TariffNotFound(id));
      }
      var u := Patched(tariffs[k], patch, now);
      var ok := AssertNoTariffConflict(u.chargePointId, Some(u.connectorId), u.timeBasedPricing, Some(id));
      if !ok {
        return Err(TariffConflict);
      }
      if !ValidPatch(patch) {
        return Err(ValidationFailed);
      }
      if NoActiveConflicts(tariffs) {
        ReplaceKeepsNoActiveConflicts(tariffs, k, u);
      }
      tariffs := tariffs[k := u];
      return Ok(u);
    }

    /** `deactivateTariff` as intended: a soft delete of an existing tariff, which cannot create
        a conflict and is therefore not subjected to the conflict check. */
    method Deactivate(id: nat, now: int) returns (r: Result<Tariff, TariffError>)
      requires Valid()
      modifies this
      ensures Valid() && nextId == old(nextId)
      ensures var k := FirstIndex(old(tariffs), (x: Tariff) => x.id == id);
              if k == |old(tariffs)| then r == Err(TariffNotFound(id)) && tariffs == old(tariffs)
              else r == Ok(Patched(old(tariffs)[k], DeactivatePatch, now)) && tariffs == old(tariffs)[k := r.value]
      ensures NoActiveConflicts(old(tariffs)) ==> NoActiveConflicts(tariffs)
    {
      var k := FirstIndex(tariffs, (x: Tariff) => x.id == id);
      if k == |tariffs| {
        return Err(TariffNotFound(id));
      }
      var u := Patched(tariffs[k], DeactivatePatch, now);
      if NoActiveConflicts(tariffs) {
        DeactivateKeepsNoActiveConflicts(tariffs, k, u);
      }
      tariffs := tariffs[k := u];
      return Ok(u);
    }

    /** `updateConnectorTariff`: the newest active tariff of the connector (no validity window)
        is looked up and its merged windows are checked excluding itself, but the update itself
        goes to the first matching tariff in store order, without validators; updatedAt is
        stamped by the schema's timestamps. */
    method UpdateConnectorTariff(chargePointId: string, connectorId: int, patch: TariffPatch, now: int)
      returns (r: Result<Tariff, TariffError>)
      requires Valid()
      modifies this
      ensures Valid() && nextId == old(nextId)
      ensures var scoped := Filter(old(tariffs), (x: Tariff) => InScope(x, chargePointId, Some(connectorId), None));
              if scoped == [] then r == Err(NoActiveTariff) && tariffs == old(tariffs)
              else
                var found := Newest(scoped).value;
                var merged := patch.timeBasedPricing.GetOr(found.timeBasedPricing);
                if ScopeConflict(old(tariffs), chargePointId, Some(connectorId), merged, Some(found.id))
                then r == Err(TariffConflict) && tariffs == old(tariffs)
                else
                  var k := FirstIndex(old(tariffs), (x: Tariff) => InScope(x, chargePointId, Some(connectorId), None));
                  k < |old(tariffs)| && r == Ok(Patched(old(tariffs)[k], patch, now))
                  && tariffs == old(tariffs)[k := r.value]
    {
      var scoped := Filter(tariffs, (x: Tariff) => InScope(x, chargePointId, Some(connectorId), None));
      if scoped == [] {
        return Err(NoActiveTariff);
      }
      var found := Newest(scoped).value;
      var merged := if patch.timeBasedPricing.Some? then patch.timeBasedPricing.value else found.timeBasedPricing;
      var ok := AssertNoTariffConflict(chargePointId, Some(connectorId), merged, Some(found.id));
      if !ok {
        return Err(TariffConflict);
      }
      var k := FirstIndex(tariffs, (x: Tariff) => InScope(x, chargePointId, Some(connectorId), None));
      assert found in tariffs;
      var u := Patched(tariffs[k], patch, now);
      tariffs := tariffs[k := u];
      return Ok(u);
    }

    /** `updateConnectorTariff` as intended: the tariff that is checked is the one written, and
        the check runs in the scope it has after the update. */
    method UpdateCheckedConnectorTariff(chargePointId: string, connectorId: int, patch: TariffPatch, now: int)
      returns (r: Result<Tariff, TariffError>)
      requires Valid()
      modifies this
      ensures Valid() && nextId == old(nextId)
      ensures var scoped := Filter(old(tariffs), (x: Tariff) => InScope(x, chargePointId, Some(connectorId), None));
              if scoped == [] then r == Err(NoActiveTariff) && tariffs == old(tariffs)
              else
                var found := Newest(scoped).value;
                var u := Patched(found, patch, now);
                if ScopeConflict(old(tariffs), u.chargePointId, Some(u.connectorId), u.timeBasedPricing, Some(found.id))
                then r == Err(TariffConflict) && tariffs == old(tariffs)
                else
                  var k := FirstIndex(old(tariffs), (x: Tariff) => x.id == found.id);
                  k < |old(tariffs)| && old(tariffs)[k] == found && r == Ok(u) && tariffs == old(tariffs)[k := u]
      ensures NoActiveConflicts(old(tariffs)) ==> NoActiveConflicts(tariffs)
    {
      var scoped := Filter(tariffs, (x: Tariff) => InScope(x, chargePointId, Some(connectorId), None));
      if scoped == [] {
        return Err(NoActiveTariff);
      }
      var found := Newest(scoped).value;
      var u := Patched(found, patch, now);
      var ok := AssertNoTariffConflict(u.chargePointId, Some(u.connectorId), u.timeBasedPricing, Some(found.id));
      if !ok {
        return Err(TariffConflict);
      }
      var k := FirstIndex(tariffs, (x: Tariff) => x.id == found.id);
      assert found in tariffs;
      var m :| 0 <= m < |tariffs| && tariffs[m] == found;
      assert k == m;
      if NoActiveConflicts(tariffs) {
        ReplaceKeepsNoActiveConflicts(tariffs, k, u);
      }
      tariffs := tariffs[k := u];
      return Ok(u);
    }

    /** `deleteTariff`: removes the tariff with that id, or reports it missing. */
    method Delete(id: nat) returns (r: Result<Tariff, TariffError>)
      requires Valid()
      modifies this
      ensures Valid() && nextId == old(nextId)
      ensures var k := FirstIndex(old(tariffs), (x: Tariff) => x.id == id);
              if k == |old(tariffs)| then r == Err(TariffNotFound(id)) && tariffs == old(tariffs)
              else r == Ok(old(tariffs)[k]) && tariffs == old(tariffs)[..k] + old(tariffs)[k + 1..]
      ensures forall m :: 0 <= m < |tariffs| ==> tariffs[m].id != id
    {
      var k := FirstIndex(tariffs, (x: Tariff) => x.id == id);
      if k == |tariffs| {
        return Err(TariffNotFound(id));
      }
      var removed := tariffs[k];
      tariffs := tariffs[..k] + tariffs[k + 1..];
      return Ok(removed);
    }
  }
}
