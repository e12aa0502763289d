/** The time-of-day price rules shared by tariffs (model/management/Tariff.js) and pricing plans
    (model/management/Pricing.js): both run the same first-match scan with a base-price fallback. */
module TimeOfDay {
  import opened Strings

  /** A rule's `dayOfWeek`: absent (undefined), stored as null, or a weekday (0 = Sunday). */
  datatype DaySelector = Unset | Null | Day(day: int)

  /** One entry of `timeBasedPricing`: an inclusive "HH:mm" window, a day selector and a price. */
  datatype TimeRule = TimeRule(startTime: string, endTime: string, dayOfWeek: DaySelector, pricePerKwh: real)

  datatype MomentFields = Moment(ms: int, weekday: nat, hour: nat, minute: nat)

  /** An instant: milliseconds since the epoch together with the local weekday, hour and minute
      that `getDay`, `getHours` and `getMinutes` report for it. */
  type Moment = m: MomentFields | m.weekday < 7 && m.hour < 24 && m.minute < 60
    witness Moment(0, 4, 0, 0)

  /** The "HH:mm" string the scan compares against. */
  function Clock(at: Moment): string
  {
    TimeString(at.hour, at.minute)
  }

  /** `timePrice.dayOfWeek === undefined || timePrice.dayOfWeek === dayOfWeek`. */
  predicate DayMatches(sel: DaySelector, weekday: nat)
  {
    sel.Unset? || (sel.Day? && sel.day == weekday)
  }

  /** `dayMatch && timeString >= start && timeString <= end`. */
  function RuleMatches(rule: TimeRule, at: Moment): (r: bool)
    ensures r <==> DayMatches(rule.dayOfWeek, at.weekday) && LexLe(rule.startTime, Clock(at)) && LexLe(Clock(at), rule.endTime)
  {
    NotLessIsReversedLe(Clock(at), rule.startTime);
    DayMatches(rule.dayOfWeek, at.weekday) && !LexLt(Clock(at), rule.startTime) && LexLe(Clock(at), rule.endTime)
  }

  /** Index of the first rule, in stored order, that matches `at`; |rules| when none does. */
  function FirstMatch(rules: seq<TimeRule>, at: Moment): (k: nat)
    ensures k <= |rules|
    ensures k < |rules| ==> RuleMatches(rules[k], at)
    ensures forall j :: 0 <= j < k ==> !RuleMatches(rules[j], at)
  {
    if rules == [] then 0
    else if RuleMatches(rules[0], at) then 0
    else 1 + FirstMatch(rules[1..], at)
  }

  /** `getPriceForDateTime`: the first matching rule's price, otherwise the base price. */
  function PriceForDateTime(basePrice: real, rules: seq<TimeRule>, at: Moment): (price: real)
    ensures price == basePrice || exists k :: 0 <= k < |rules| && price == rules[k].pricePerKwh
  {
    var k := FirstMatch(rules, at);
    if k < |rules| then rules[k].pricePerKwh else basePrice
  }

  /** The price is that of the first rule, in stored order, whose day and window match. */
  lemma FirstMatchingRuleWins(basePrice: real, rules: seq<TimeRule>, at: Moment, k: nat)
    requires k < |rules| && RuleMatches(rules[k], at)
    requires forall j :: 0 <= j < k ==> !RuleMatches(rules[j], at)
    ensures PriceForDateTime(basePrice, rules, at) == rules[k].pricePerKwh
  {
    var f := FirstMatch(rules, at);
    assert f == k;
  }

  /** With no matching rule, and in particular with no rules, the base price applies. */
  lemma NoMatchGivesBasePrice(basePrice: real, rules: seq<TimeRule>, at: Moment)
    requires forall k :: 0 <= k < |rules| ==> !RuleMatches(rules[k], at)
    ensures PriceForDateTime(basePrice, rules, at) == basePrice
  {
    var f := FirstMatch(rules, at);
    assert f == |rules|;
  }

  /** A window whose start is after its end never matches. */
  lemma InvertedWindowNeverMatches(rule: TimeRule, at: Moment)
    requires LexLt(rule.endTime, rule.startTime)
    ensures !RuleMatches(rule, at)
  {
    if RuleMatches(rule, at) {
      NotLessIsReversedLe(Clock(at), rule.startTime);
      LexLeTransitive(rule.startTime, Clock(at), rule.endTime);
      LexLeAntisymmetric(rule.startTime, rule.endTime);
    }
  }

  /** A rule whose dayOfWeek was stored as null is skipped on every day: the scan tests for
      `undefined` only, while the schema comment reads null as "all days". */
  lemma NullDayNeverMatches(rule: TimeRule, at: Moment)
    requires rule.dayOfWeek == Null
    ensures !RuleMatches(rule, at)
  {
  }

  /** On a rule whose bounds are themselves rendered "HH:mm" strings, matching is the inclusive
      comparison of minutes since midnight. */
  lemma WindowIsMinuteRange(rule: TimeRule, at: Moment, h1: nat, m1: nat, h2: nat, m2: nat)
    requires h1 < 24 && m1 < 60 && h2 < 24 && m2 < 60
    requires rule.startTime == TimeString(h1, m1) && rule.endTime == TimeString(h2, m2)
    ensures RuleMatches(rule, at) <==>
              DayMatches(rule.dayOfWeek, at.weekday)
              && h1 * 60 + m1 <= at.hour * 60 + at.minute <= h2 * 60 + m2
  {
    NotLessIsReversedLe(Clock(at), rule.startTime);
    TimeStringOrder(h1, m1, at.hour, at.minute);
    TimeStringOrder(at.hour, at.minute, h2, m2);
  }
}
