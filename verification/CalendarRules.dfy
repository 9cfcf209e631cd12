/**
  What the slots of a recurring rule are, on the wall clock of their zone: the instants that first show the
  rule's minute on a day of the rule.  A weekly rule counts its days from a Sunday, 4 January 1970.
*/
module CalendarRules {
  import opened Wrappers
  import opened Calendar

  /** 4 January 1970 was a Sunday, the third day after 1 January. */
  const SUNDAY := 3

  /** The day lies a whole number of weeks, and the rule's weekday, after that Sunday. */
  ghost predicate OnWeekday(rule: Rule, date: int) {
    rule.Weekly? ==> exists week: int :: date == SUNDAY + 7 * week + rule.weekday
  }

  /** The first instant that shows a wall reading. */
  ghost predicate FirstShown(z: Zone, w: int, t: int) {
    LocalMinute(z, t) == w && forall u :: LocalMinute(z, u) == w ==> t <= u
  }

  /** The wall clock shows the rule's minute on a day of the rule, for the first time. */
  ghost predicate IsRuleInstant(rule: Rule, z: Zone, t: int)
    requires !rule.Once?
  {
    OnWeekday(rule, DateAt(z, t)) && FirstShown(z, DateAt(z, t) * 1440 + rule.minute, t)
  }

  lemma RecursOnWeekday(rule: Rule, d: int)
    requires ValidRule(rule) && !rule.Once?
    ensures RecursOn(rule, d) <==> OnWeekday(rule, d)
  {
    if rule.Weekly? {
      if RecursOn(rule, d) {
        var week := (d + 4) / 7 - 1;
        assert d == SUNDAY + 7 * week + rule.weekday;
      }
      if week: int :| d == SUNDAY + 7 * week + rule.weekday {
        assert d + 4 == 7 * (week + 1) + rule.weekday;
      }
    }
  }

  lemma SearchFindsFirstShown(z: Zone, w: int, t: int)
    requires OrdinaryZone(z)
    ensures FirstLocalInstant(z, w) == Some(t) <==> FirstShown(z, w, t)
  {
    FirstLocalInstantIsExact(z, w);
    hide FirstLocalInstant, OrdinaryZone, LocalMinute;
  }

  lemma DaySlotIsRuleInstant(rule: Rule, z: Zone, t: int)
    requires ValidRule(rule) && !rule.Once? && OrdinaryZone(z)
    ensures DaySlot(rule, z, DateAt(z, t)) == Some(t) <==> IsRuleInstant(rule, z, t)
  {
    hide FirstLocalInstant, FirstShown, OnWeekday, OrdinaryZone, RecursOn, DateAt;
    RecursOnWeekday(rule, DateAt(z, t));
    SearchFindsFirstShown(z, DateAt(z, t) * 1440 + rule.minute, t);
  }

  /** The slots of a rule are exactly those instants. */
  lemma SlotsAreRuleInstants(rule: Rule, z: Zone, t: int)
    requires ValidRule(rule) && !rule.Once? && OrdinaryZone(z)
    ensures DaysOf(rule, z).IsSlot(t) <==> IsRuleInstant(rule, z, t)
  {
    hide DaySlot, IsRuleInstant, DateAt, OrdinaryZone;
    DaySlotIsRuleInstant(rule, z, t);
    assert DaysOf(rule, z).dateOf(t) == DateAt(z, t) && DaysOf(rule, z).slotOn(DateAt(z, t)) == DaySlot(rule, z, DateAt(z, t));
  }

  /** The next slot of a recurring rule is the least of them after the instant and off the skipped date. */
  lemma NextIsLeastRuleInstant(rule: Rule, z: Zone, after: int, skip: Option<int>)
    requires ValidRule(rule) && !rule.Once? && OrdinaryZone(z) && DatesNeverDecrease(z)
    ensures match NextTimeSlot(rule, z, after, skip)
            case Success(next) =>
              && next.Some? && after < next.value && skip != Some(DateAt(z, next.value)) && IsRuleInstant(rule, z, next.value)
              && forall t :: IsRuleInstant(rule, z, t) && after < t && skip != Some(DateAt(z, t)) ==> next.value <= t
            case Failure(_) =>
              forall t :: IsRuleInstant(rule, z, t) && after < t && skip != Some(DateAt(z, t)) ==> DateAt(z, after) + 16 <= DateAt(z, t)
  {
    var days := DaysOf(rule, z);
    DaysAreOrdered(rule, z);
    days.NextIsLeast(after, skip);
    forall t ensures days.IsSlot(t) <==> IsRuleInstant(rule, z, t) { SlotsAreRuleInstants(rule, z, t); }
    assert forall t :: days.dateOf(t) == DateAt(z, t);
    hide IsRuleInstant, Days.IsSlot, Days.Next, DaysOf, OrdinaryZone, DatesNeverDecrease, DateAt;
  }

  ghost function RuleInstants(rule: Rule, z: Zone, from: int, through: int): set<int>
    requires !rule.Once?
  {
    set t | from <= t <= through && IsRuleInstant(rule, z, t)
  }

  /** The summary counts exactly those of the closed interval and names the last of them. */
  lemma SummaryCountsRuleInstants(rule: Rule, z: Zone, from: int, through: int)
    requires ValidRule(rule) && !rule.Once? && OrdinaryZone(z) && DatesNeverDecrease(z) && from <= through
    ensures match SummarizeTimeSlots(rule, z, from, through)
            case Success(s) => s.Of(RuleInstants(rule, z, from, through))
            case Failure(_) => 100_000 < DateAt(z, through) - DateAt(z, from)
  {
    var days := DaysOf(rule, z);
    DaysAreOrdered(rule, z);
    days.SummaryIsExact(from, through);
    forall t ensures days.IsSlot(t) <==> IsRuleInstant(rule, z, t) { SlotsAreRuleInstants(rule, z, t); }
    assert days.SlotsBetween(from, through) == RuleInstants(rule, z, from, through);
    assert forall t :: days.dateOf(t) == DateAt(z, t);
    hide IsRuleInstant, Days.IsSlot, DaysOf, OrdinaryZone, DatesNeverDecrease, DateAt, Summary.Of;
  }
}
