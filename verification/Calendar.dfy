/**
  Wall-clock arithmetic of coordination-time.js.  An instant is a whole number of milliseconds.  A
  local date and time (at the minute resolution of the formatter) is one number, the minutes since
  local 1970-01-01 00:00, so that its date is that number divided by 1440.  A zone gives the offset
  in force at an instant; zone data is a parameter, and what a proof needs of it is a hypothesis.
*/
module Calendar {
  import opened Wrappers

  type Zone = int -> int

  datatype Rule = Once(at: int) | Daily(minute: int) | Weekly(minute: int, weekday: int)

  function LocalMinute(z: Zone, t: int): int {
    (t + z(t)) / 60_000
  }

  function DateAt(z: Zone, t: int): int {
    LocalMinute(z, t) / 1440
  }

  // ---------- Hypotheses about a zone ----------

  /** Offsets are whole minutes and change only when a minute begins. */
  ghost predicate WholeMinutes(z: Zone) {
    forall t :: z(t) % 60_000 == 0 && z(t) == z(t - t % 60_000)
  }

  ghost predicate AtMostThirtyHours(z: Zone) {
    forall t :: -108_000_000 <= z(t) <= 108_000_000
  }

  ghost predicate RegimeFrom(z: Zone, a: int, t: int) {
    a <= t < a + 21_600_000 && forall u :: a <= u < a + 21_600_000 ==> z(u) == z(t)
  }

  ghost predicate InRegime(z: Zone, t: int) {
    exists a :: RegimeFrom(z, a, t)
  }

  /** Every instant lies in a stretch of at least six hours with one offset. */
  ghost predicate LongRegimes(z: Zone) {
    forall t :: InRegime(z, t)
  }

  ghost predicate OrdinaryZone(z: Zone) {
    WholeMinutes(z) && AtMostThirtyHours(z) && LongRegimes(z)
  }

  ghost predicate DatesNeverDecrease(z: Zone) {
    forall t, u :: t <= u ==> DateAt(z, t) <= DateAt(z, u)
  }

  // ---------- The first instant that shows a local date and time ----------

  /** The least of the numbers that pass a test. */
  function LeastPassing(cs: seq<int>, ok: int -> bool): Option<int> {
    if cs == [] then None
    else
      var rest := LeastPassing(cs[1..], ok);
      if ok(cs[0]) && (rest.None? || cs[0] < rest.value) then Some(cs[0]) else rest
  }

  lemma {:induction false} LeastPassingIsLeast(cs: seq<int>, ok: int -> bool)
    ensures match LeastPassing(cs, ok)
            case None => forall c :: c in cs ==> !ok(c)
            case Some(least) => least in cs && ok(least) && forall c :: c in cs && ok(c) ==> least <= c
  {
    if cs != [] {
      LeastPassingIsLeast(cs[1..], ok);
      assert forall c :: c in cs <==> c == cs[0] || c in cs[1..];
    }
  }

  function Shows(z: Zone, w: int): int -> bool {
    t => LocalMinute(z, t) == w
  }

  /** Probes run from 36 hours before the wall reading to 36 hours after it, six hours apart. */
  function Probe(w: int, k: int): int {
    w * 60_000 + (k - 6) * 21_600_000
  }

  function OffsetRead(z: Zone, p: int): int {
    LocalMinute(z, p) * 60_000 - p
  }

  function Candidate(z: Zone, w: int, k: int): int {
    w * 60_000 - OffsetRead(z, Probe(w, k))
  }

  function Candidates(z: Zone, w: int): seq<int> {
    seq(13, k => Candidate(z, w, k))
  }

  function FirstLocalInstant(z: Zone, w: int): Option<int> {
    LeastPassing(Candidates(z, w), Shows(z, w))
  }

  lemma WholeMinuteSum(t: int, o: int)
    requires o % 60_000 == 0
    ensures (t - t % 60_000) % 60_000 == 0
    ensures (t - t % 60_000 + o) / 60_000 == (t + o) / 60_000
    ensures t % 60_000 == 0 ==> (t + o) / 60_000 * 60_000 == t + o
  {
    var q, p := t / 60_000, o / 60_000;
    assert t - t % 60_000 + o == (q + p) * 60_000;
    assert t + o == (q + p) * 60_000 + t % 60_000;
  }

  lemma ExactOffsetRead(z: Zone, t: int)
    requires WholeMinutes(z) && t % 60_000 == 0
    ensures OffsetRead(z, t) == z(t) && LocalMinute(z, t) * 60_000 == t + z(t)
  {
    WholeMinuteSum(t, z(t));
  }

  /** The probe number that falls into [a, a + 6h), given that w's wall reading is near a. */
  lemma GridHitsWindow(w: int, a: int) returns (k: nat)
    requires -129_600_000 <= a - w * 60_000 <= 108_000_000
    ensures k < 13 && a <= Probe(w, k) < a + 21_600_000
  {
    k := (a - w * 60_000 + 129_600_000 + 21_599_999) / 21_600_000;
  }

  lemma SomeProbeFinds(z: Zone, w: int, t: int)
    requires OrdinaryZone(z) && LocalMinute(z, t) == w && t % 60_000 == 0
    ensures t in Candidates(z, w)
  {
    ExactOffsetRead(z, t);
    assert InRegime(z, t);
    var a :| RegimeFrom(z, a, t);
    var k := GridHitsWindow(w, a);
    assert z(Probe(w, k)) == z(t);
    ProbeIsAligned(w, k);
    ExactOffsetRead(z, Probe(w, k));
    assert Candidates(z, w)[k] == t;
  }

  lemma ProbeIsAligned(w: int, k: int)
    ensures Probe(w, k) % 60_000 == 0
  {
    assert Probe(w, k) == (w + (k - 6) * 360) * 60_000;
  }

  lemma MinuteStartShowsTheSame(z: Zone, t: int) returns (m: int)
    requires WholeMinutes(z)
    ensures m % 60_000 == 0 && m <= t && LocalMinute(z, m) == LocalMinute(z, t)
  {
    m := t - t % 60_000;
    assert z(t) == z(m);
    WholeMinuteSum(t, z(t));
  }

  /**
    Thirteen probes over 36 hours either way decide the question for every ordinary zone: the
    answer is the least instant that shows `w`, and there is no answer exactly when no instant does.
  */
  lemma FirstLocalInstantIsExact(z: Zone, w: int)
    requires OrdinaryZone(z)
    ensures match FirstLocalInstant(z, w)
            case None => forall t :: LocalMinute(z, t) != w
            case Some(first) => LocalMinute(z, first) == w && forall t :: LocalMinute(z, t) == w ==> first <= t
  {
    LeastPassingIsLeast(Candidates(z, w), Shows(z, w));
    forall t | LocalMinute(z, t) == w
      ensures FirstLocalInstant(z, w).Some? && FirstLocalInstant(z, w).value <= t
    {
      var m := MinuteStartShowsTheSame(z, t);
      SomeProbeFinds(z, w, m);
      assert Shows(z, w)(m);
    }
  }

  /**
    A regime one minute shorter than six hours can hide between two probes: this zone shows the wall
    reading 0 at 00:01 UTC, in a regime of 5 h 59 min, and the search answers that nothing does.
  */
  lemma ShorterRegimeCanBeMissed()
    ensures LocalMinute(BRIEF, 60_000) == 0 && FirstLocalInstant(BRIEF, 0).None?
  {
    LeastPassingIsLeast(Candidates(BRIEF, 0), Shows(BRIEF, 0));
    forall k | 0 <= k < 13 ensures LocalMinute(BRIEF, Candidate(BRIEF, 0, k)) != 0 { BriefIsMissed(k); }
  }

  const BRIEF: Zone := t => if t < 60_000 then -25_200_000 else if t < 21_600_000 then -60_000 else 0

  lemma BriefIsMissed(k: nat)
    requires k < 13
    ensures LocalMinute(BRIEF, Candidate(BRIEF, 0, k)) != 0
  {
    var p := Probe(0, k);
    if k <= 6 {
      assert p <= 0 && OffsetRead(BRIEF, p) == -25_200_000;
    } else {
      assert p >= 21_600_000 && OffsetRead(BRIEF, p) == 0;
    }
  }

  method FindFirstLocalInstant(z: Zone, w: int) returns (r: Option<int>)
    ensures r == FirstLocalInstant(z, w)
  {
    hide FirstLocalInstant, Candidates, OffsetRead;
    var wall, shows := w * 60_000, Shows(z, w);
    var offsets := ReadOffsets(z, w);
    var matches := set o | o in offsets && shows(wall - o) :: wall - o;
    r := Minimum(matches);
    MatchesAreCandidates(z, w, offsets, matches);
    LeastMatchIsFirst(z, w, matches, r);
  }

  lemma MatchesAreCandidates(z: Zone, w: int, offsets: set<int>, matches: set<int>)
    requires forall o :: o in offsets <==> exists i :: 0 <= i < 13 && o == OffsetRead(z, Probe(w, i))
    requires matches == set o | o in offsets && Shows(z, w)(w * 60_000 - o) :: w * 60_000 - o
    ensures forall c :: c in matches <==> c in Candidates(z, w) && Shows(z, w)(c)
  {
    OffsetsAreCandidates(z, w, offsets);
    hide OffsetRead, Candidates, Shows;
    var wall := w * 60_000;
    forall c ensures c in matches <==> c in Candidates(z, w) && Shows(z, w)(c) { assert wall - (wall - c) == c; }
  }

  lemma LeastMatchIsFirst(z: Zone, w: int, matches: set<int>, r: Option<int>)
    requires forall c :: c in matches <==> c in Candidates(z, w) && Shows(z, w)(c)
    requires match r case None => matches == {} case Some(m) => m in matches && forall n :: n in matches ==> m <= n
    ensures r == FirstLocalInstant(z, w)
  {
    LeastPassingIsLeast(Candidates(z, w), Shows(z, w));
    hide Candidates, Shows, LeastPassing;
    if first :| FirstLocalInstant(z, w) == Some(first) { assert first in matches; }
  }

  method ReadOffsets(z: Zone, w: int) returns (offsets: set<int>)
    ensures forall o :: o in offsets <==> exists i :: 0 <= i < 13 && o == OffsetRead(z, Probe(w, i))
  {
    offsets := {};
    for k := 0 to 13
      invariant forall o :: o in offsets <==> exists i :: 0 <= i < k && o == OffsetRead(z, Probe(w, i))
    {
      offsets := offsets + {OffsetRead(z, Probe(w, k))};
    }
  }

  method Minimum(s: set<int>) returns (least: Option<int>)
    ensures match least
            case None => s == {}
            case Some(m) => m in s && forall n :: n in s ==> m <= n
    decreases s
  {
    if s == {} { return None; }
    var x := Pick(s);
    var rest := Minimum(s - {x});
    assert s == (s - {x}) + {x};
    return if rest.None? || x < rest.value then Some(x) else rest;
  }

  lemma OffsetsAreCandidates(z: Zone, w: int, offsets: set<int>)
    requires forall o :: o in offsets <==> exists i :: 0 <= i < 13 && o == OffsetRead(z, Probe(w, i))
    ensures forall c {:trigger c in Candidates(z, w)} :: c in Candidates(z, w) <==> w * 60_000 - c in offsets
  {
    var cs := Candidates(z, w);
    forall c | c in cs
      ensures w * 60_000 - c in offsets
    {
      var i :| 0 <= i < |cs| && cs[i] == c;
      assert w * 60_000 - c == OffsetRead(z, Probe(w, i));
    }
    forall c | w * 60_000 - c in offsets
      ensures c in cs
    {
      var i :| 0 <= i < 13 && w * 60_000 - c == OffsetRead(z, Probe(w, i));
      assert cs[i] == c;
    }
  }

  // ---------- Days and the slots on them ----------

  /** The slot of each day of a rule, and the date of each instant in its zone. */
  datatype Days = Days(slotOn: int -> Option<int>, dateOf: int -> int)
  {
    /** A day's slot falls on that day, and dates never decrease. */
    ghost predicate Ordered() {
      (forall d :: slotOn(d).Some? ==> dateOf(slotOn(d).value) == d)
      && (forall t, u :: t <= u ==> dateOf(t) <= dateOf(u))
    }

    predicate IsSlot(t: int) {
      slotOn(dateOf(t)) == Some(t)
    }

    ghost function SlotsBetween(from: int, through: int): set<int> {
      set t | from <= t <= through && IsSlot(t)
    }

    function NextFrom(after: int, skip: Option<int>, d: int, left: nat): (r: Result<int>)
      ensures r.Success? ==> after < r.value
      decreases left
    {
      if left == 0 then Failure("COORDINATION_TIME_HORIZON")
      else
        var slot := if skip == Some(d) then None else slotOn(d);
        if slot.Some? && after < slot.value then Success(slot.value)
        else NextFrom(after, skip, d + 1, left - 1)
    }

    lemma {:induction false} NextFromIsLeast(after: int, skip: Option<int>, d: int, left: nat)
      requires Ordered()
      ensures match NextFrom(after, skip, d, left)
              case Success(next) =>
                IsSlot(next) && skip != Some(dateOf(next)) && forall t :: IsSlot(t) && after < t && d <= dateOf(t) && skip != Some(dateOf(t)) ==> next <= t
              case Failure(_) =>
                forall t :: IsSlot(t) && after < t && skip != Some(dateOf(t)) ==> !(d <= dateOf(t) < d + left)
      decreases left
    {
      if left > 0 {
        NextFromIsLeast(after, skip, d + 1, left - 1);
      }
    }

    /** The summary of the first n days that start with day `first`. */
    function SummaryOfDays(from: int, through: int, first: int, n: nat): Summary {
      if n == 0 then Summary(None, 0)
      else
        var s := SummaryOfDays(from, through, first, n - 1);
        var slot := slotOn(first + n - 1);
        if slot.Some? && from <= slot.value <= through then Summary(slot, s.count + 1) else s
    }

    ghost function SlotsBefore(from: int, through: int, d: int): set<int> {
      set t | t in SlotsBetween(from, through) && dateOf(t) < d
    }

    lemma OneMoreDay(from: int, through: int, d: int)
      requires Ordered()
      ensures var slot := slotOn(d);
              SlotsBefore(from, through, d + 1)
              == (if slot.Some? && from <= slot.value <= through then SlotsBefore(from, through, d) + {slot.value}
                  else SlotsBefore(from, through, d))
              && forall t :: t in SlotsBefore(from, through, d) && slot.Some? ==> t < slot.value
    {
      var before, after := SlotsBefore(from, through, d), SlotsBefore(from, through, d + 1);
      forall t | t in after && t !in before
        ensures slotOn(d) == Some(t)
      {
      }
    }

    lemma {:induction false} SummaryOfDaysIsExact(from: int, through: int, first: int, n: nat)
      requires Ordered() && dateOf(from) == first
      ensures SummaryOfDays(from, through, first, n).Of(SlotsBefore(from, through, first + n))
    {
      if n == 0 {
        assert SlotsBefore(from, through, first) == {};
      } else {
        hide Ordered, SlotsBefore, Summary.Of;
        var d, s := first + n - 1, SummaryOfDays(from, through, first, n - 1);
        SummaryOfDaysIsExact(from, through, first, n - 1);
        var rest, all := SlotsBefore(from, through, d), SlotsBefore(from, through, d + 1);
        assert s.Of(rest);
        OneMoreDay(from, through, d);
        var slot := slotOn(d);
        var s' := SummaryOfDays(from, through, first, n);
        if slot.Some? && from <= slot.value <= through {
          s.Extend(rest, slot.value);
          assert s' == Summary(slot, s.count + 1) && all == rest + {slot.value};
        } else {
          assert s' == s && all == rest;
        }
        assert s'.Of(all);
      }
    }

    function Next(after: int, skip: Option<int>): (r: Result<int>)
      ensures r.Success? ==> after < r.value
    {
      NextFrom(after, skip, dateOf(after), 16)
    }

    /** The next slot is the least one after the given instant that is not on the skipped date. */
    lemma NextIsLeast(after: int, skip: Option<int>)
      requires Ordered()
      ensures match Next(after, skip)
              case Success(next) =>
                IsSlot(next) && skip != Some(dateOf(next)) && forall t :: IsSlot(t) && after < t && skip != Some(dateOf(t)) ==> next <= t
              case Failure(_) =>
                forall t :: IsSlot(t) && after < t && skip != Some(dateOf(t)) ==> dateOf(after) + 16 <= dateOf(t)
    {
      NextFromIsLeast(after, skip, dateOf(after), 16);
    }

    function SummaryBetween(from: int, through: int): Result<Summary> {
      var span := dateOf(through) - dateOf(from);
      if 100_000 < span then Failure("COORDINATION_TIME_HORIZON")
      else Success(SummaryOfDays(from, through, dateOf(from), if span < 0 then 0 else span + 1))
    }

    /** The summary counts every slot of the closed interval and names the last one. */
    lemma SummaryIsExact(from: int, through: int)
      requires Ordered() && from <= through
      ensures match SummaryBetween(from, through)
              case Success(s) => s.Of(SlotsBetween(from, through))
              case Failure(_) => 100_000 < dateOf(through) - dateOf(from)
    {
      var n := dateOf(through) - dateOf(from) + 1;
      SummaryOfDaysIsExact(from, through, dateOf(from), n);
      assert SlotsBetween(from, through) == SlotsBefore(from, through, dateOf(from) + n);
    }

    /** The slots after one instant and up to another, found by asking for the next one again and again. */
    function IterateNext(after: int, through: int): Result<seq<int>>
      decreases if after < through then through - after else 0
    {
      match Next(after, None)
      case Failure(code) => Failure(code)
      case Success(next) =>
        if through < next then Success([])
        else
          match IterateNext(next, through)
          case Failure(code) => Failure(code)
          case Success(rest) => Success([next] + rest)
    }

    lemma SplitAtNext(after: int, through: int, next: int)
      requires IsSlot(next) && after < next && forall t :: IsSlot(t) && after < t ==> next <= t
      ensures SlotsBetween(after + 1, through) == if through < next then {} else {next} + SlotsBetween(next + 1, through)
    {
    }

    lemma {:induction false} IterateNextIsExact(after: int, through: int)
      requires Ordered() && IterateNext(after, through).Success?
      ensures Tally(IterateNext(after, through).value).Of(SlotsBetween(after + 1, through))
      decreases if after < through then through - after else 0
    {
      NextIsLeast(after, None);
      var next := Next(after, None).value;
      SplitAtNext(after, through, next);
      if next <= through {
        IterateNextIsExact(next, through);
      }
    }

    /** Coalescing in one sweep of the days agrees with stepping from slot to slot. */
    lemma SummaryAgreesWithIteration(after: int, through: int)
      requires Ordered() && after < through
      requires IterateNext(after, through).Success? && SummaryBetween(after + 1, through).Success?
      ensures SummaryBetween(after + 1, through).value == Tally(IterateNext(after, through).value)
    {
      SummaryIsExact(after + 1, through);
      IterateNextIsExact(after, through);
    }
  }

  function Tally(ts: seq<int>): Summary {
    Summary(if ts == [] then None else Some(ts[|ts| - 1]), |ts|)
  }

  /** Exact count and latest member of a set of missed slots. */
  datatype Summary = Summary(latest: Option<int>, count: nat)
  {
    ghost predicate Of(slots: set<int>) {
      count == |slots|
      && match latest
         case None => slots == {}
         case Some(t) => t in slots && forall u :: u in slots ==> u <= t
    }

    lemma Extend(slots: set<int>, t: int)
      requires Of(slots) && forall u :: u in slots ==> u < t
      ensures Summary(Some(t), count + 1).Of(slots + {t})
    {
      assert t !in slots;
    }
  }

  // ---------- The calendar of a rule in a zone ----------

  predicate ValidRule(rule: Rule) {
    match rule
    case Once(at) => at % 1000 == 0
    case Daily(minute) => 0 <= minute < 1440
    case Weekly(minute, weekday) => 0 <= minute < 1440 && 0 <= weekday < 7
  }

  /** Day 0 is a Thursday, weekday 4 of a week that starts on Sunday. */
  predicate RecursOn(rule: Rule, d: int) {
    rule.Daily? || (rule.Weekly? && (d + 4) % 7 == rule.weekday)
  }

  function DaySlot(rule: Rule, z: Zone, d: int): Option<int> {
    if RecursOn(rule, d) then FirstLocalInstant(z, d * 1440 + rule.minute) else None
  }

  function DaysOf(rule: Rule, z: Zone): Days {
    Days(d => DaySlot(rule, z, d), t => DateAt(z, t))
  }

  lemma WallMinuteDate(d: int, minute: int)
    requires 0 <= minute < 1440
    ensures (d * 1440 + minute) / 1440 == d
  {
  }

  /** Every rule in a zone whose dates never decrease has ordered days. */
  lemma DaysAreOrdered(rule: Rule, z: Zone)
    requires ValidRule(rule) && DatesNeverDecrease(z)
    ensures DaysOf(rule, z).Ordered()
  {
    var days := DaysOf(rule, z);
    forall d | days.slotOn(d).Some?
      ensures days.dateOf(days.slotOn(d).value) == d
    {
      var w := d * 1440 + rule.minute;
      LeastPassingIsLeast(Candidates(z, w), Shows(z, w));
      WallMinuteDate(d, rule.minute);
    }
    assert forall t, u :: t <= u ==> days.dateOf(t) <= days.dateOf(u) by {
      assert forall t :: days.dateOf(t) == DateAt(z, t);
    }
  }

  /** `skip` is the local date that already had its slot; a rule that happens once may have no next. */
  function NextTimeSlot(rule: Rule, z: Zone, after: int, skip: Option<int>): Result<Option<int>> {
    if !ValidRule(rule) then Failure("COORDINATION_TIME_INVALID")
    else if rule.Once? then Success(if after < rule.at then Some(rule.at) else None)
    else
      match DaysOf(rule, z).Next(after, skip)
      case Success(t) => Success(Some(t))
      case Failure(code) => Failure(code)
  }

  function SummarizeTimeSlots(rule: Rule, z: Zone, from: int, through: int): Result<Summary> {
    if !ValidRule(rule) || through < from then Failure("COORDINATION_TIME_INVALID")
    else if rule.Once? then Success(if from <= rule.at <= through then Summary(Some(rule.at), 1) else Summary(None, 0))
    else DaysOf(rule, z).SummaryBetween(from, through)
  }

  method FindNextTimeSlot(rule: Rule, z: Zone, after: int, skip: Option<int>) returns (r: Result<Option<int>>)
    ensures r == NextTimeSlot(rule, z, after, skip)
  {
    if !ValidRule(rule) { return Failure("COORDINATION_TIME_INVALID"); }
    if rule.Once? { return Success(if after < rule.at then Some(rule.at) else None); }
    r := SearchDays(rule, z, after, skip, DateAt(z, after), 16);
  }

  method SearchDays(rule: Rule, z: Zone, after: int, skip: Option<int>, date: int, days: nat) returns (r: Result<Option<int>>)
    ensures match DaysOf(rule, z).NextFrom(after, skip, date, days)
            case Success(t) => r == Success(Some(t))
            case Failure(code) => r == Failure(code)
  {
    hide DaysOf;
    ghost var calendar := DaysOf(rule, z);
    for day := 0 to days
      invariant calendar.NextFrom(after, skip, date, days) == calendar.NextFrom(after, skip, date + day, days - day)
    {
      var candidate := FindDaySlot(rule, z, date + day);
      if skip != Some(date + day) && candidate.Some? && after < candidate.value { return Success(candidate); }
    }
    return Failure("COORDINATION_TIME_HORIZON");
  }

  method FindDaySlot(rule: Rule, z: Zone, d: int) returns (r: Option<int>)
    ensures r == DaysOf(rule, z).slotOn(d)
  {
    if !RecursOn(rule, d) { return None; }
    r := FindFirstLocalInstant(z, d * 1440 + rule.minute);
  }

  method CountTimeSlots(rule: Rule, z: Zone, from: int, through: int) returns (r: Result<Summary>)
    ensures r == SummarizeTimeSlots(rule, z, from, through)
  {
    if !ValidRule(rule) || through < from { return Failure("COORDINATION_TIME_INVALID"); }
    if rule.Once? {
      return Success(if from <= rule.at <= through then Summary(Some(rule.at), 1) else Summary(None, 0));
    }
    r := CountBetweenDates(rule, z, from, through, DateAt(z, from), DateAt(z, through));
  }

  method CountBetweenDates(rule: Rule, z: Zone, from: int, through: int, firstDate: int, lastDate: int)
    returns (r: Result<Summary>)
    requires DaysOf(rule, z).dateOf(from) == firstDate && DaysOf(rule, z).dateOf(through) == lastDate
    ensures r == DaysOf(rule, z).SummaryBetween(from, through)
  {
    if 100_000 < lastDate - firstDate { return Failure("COORDINATION_TIME_HORIZON"); }
    var days: nat := if lastDate < firstDate then 0 else lastDate - firstDate + 1;
    var s := SweepDays(rule, z, from, through, firstDate, days);
    return Success(s);
  }

  method SweepDays(rule: Rule, z: Zone, from: int, through: int, firstDate: int, days: nat) returns (s: Summary)
    ensures s == DaysOf(rule, z).SummaryOfDays(from, through, firstDate, days)
  {
    hide DaysOf;
    ghost var calendar := DaysOf(rule, z);
    s := Summary(None, 0);
    for day := 0 to days
      invariant s == calendar.SummaryOfDays(from, through, firstDate, day)
    {
      var instant := FindDaySlot(rule, z, firstDate + day);
      if instant.Some? && from <= instant.value <= through {
        s := Summary(instant, s.count + 1);
      }
    }
  }
}
