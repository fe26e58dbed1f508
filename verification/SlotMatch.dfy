/** Matching a visitor's words to a viewing slot (backend/app/ai/listing_user_assistant.py). Moments are
    microseconds since the epoch in UTC; the regular-expression matches are parameters. */
module SlotMatch {
  import opened Common

  const HOUR := 3_600_000_000
  const DAY := 24 * HOUR

  datatype Slot = Slot(startsAt: int, capacity: Option<int>, reserved: Option<int>)

  function DateOf(t: int): int { t / DAY }

  function HourOf(t: int): (h: int)
    ensures 0 <= h < 24
  {
    t % DAY / HOUR
  }

  /** Monday is 0; the epoch was a Thursday. */
  function WeekdayOf(t: int): int { (DateOf(t) + 3) % 7 }

  function OrZero(x: Option<int>): int { if x.Some? then x.value else 0 }

  predicate Free(s: Slot) { OrZero(s.reserved) < OrZero(s.capacity) }

  /** The calendar: the hour of a moment in the day, a Monday, and the weekday of the day after. */
  lemma CalendarMeans(day: int, hour: int, rest: int)
    requires 0 <= hour < 24 && 0 <= rest < HOUR
    ensures var t := day * DAY + hour * HOUR + rest;
            DateOf(t) == day && HourOf(t) == hour && WeekdayOf(t + DAY) == (WeekdayOf(t) + 1) % 7
    ensures WeekdayOf(19_723 * DAY) == 0  // 1 January 2024
  {
    var t := day * DAY + hour * HOUR + rest;
    assert t / DAY == day && t % DAY == hour * HOUR + rest;
    assert (t + DAY) / DAY == day + 1;
  }

  // ---- Preferences ----

  datatype Meridiem = Am | Pm

  /** A time found by one of the patterns: the hour as written and the am or pm after it. */
  datatype Clock = Clock(hour: nat, meridiem: Option<Meridiem>)

  /** What the patterns for "after", "before" and "around" found in the query. */
  datatype Clocks = Clocks(after: Option<Clock>, before: Option<Clock>, around: Option<Clock>)

  datatype Preferences = Preferences(
    targetDate: Option<int>,
    weekday: Option<int>,
    afterHour: Option<int>,
    beforeHour: Option<int>,
    aroundHour: Option<int>)

  function To24Hour(hour: int, meridiem: Option<Meridiem>, defaultToPm: bool): int {
    match meridiem
    case None => if defaultToPm && 1 <= hour <= 7 then hour + 12 else hour
    case Some(Pm) => if hour < 12 then hour + 12 else hour
    case Some(Am) => if hour == 12 then 0 else hour
  }

  /** Every hour of the day comes back from the way it is said on a twelve-hour clock. */
  lemma TwelveHourRoundTrip(h: int, defaultToPm: bool)
    requires 0 <= h < 24
    ensures To24Hour(if h % 12 == 0 then 12 else h % 12, Some(if h < 12 then Am else Pm), defaultToPm) == h
  {
  }

  /** An hour without am or pm: from 1 to 7 it is the afternoon's, unless the query speaks of the morning;
      any other stays as written. */
  lemma BareHour(hour: int)
    ensures 1 <= hour <= 7 ==> To24Hour(hour, None, true) == hour + 12
    ensures !(1 <= hour <= 7) ==> To24Hour(hour, None, true) == hour
    ensures To24Hour(hour, None, false) == hour
  {
  }

  predicate MatchesAt(text: string, word: string, i: nat) { i + |word| <= |text| && text[i..i + |word|] == word }

  predicate Mentions(text: string, word: string) { exists i :: 0 <= i <= |text| && MatchesAt(text, word, i) }

  const WEEKDAYS := ["monday", "tuesday", "wednesday", "thursday", "friday", "saturday", "sunday"]

  function HourFrom(c: Option<Clock>, text: string, otherwise: Option<int>): Option<int> {
    if c.Some?
    then Some(To24Hour(c.value.hour, c.value.meridiem, c.value.meridiem.None? && !Mentions(text, "morning")))
    else otherwise
  }

  /** The preferences are what the query says: the first day word, the first part-of-day word, and a stated
      hour before any part of day. */
  ghost predicate Says(lowered: string, clocks: Clocks, now: int, p: Preferences) {
    var part :=
      if Mentions(lowered, "morning") then (Some(6), Some(12))
      else if Mentions(lowered, "afternoon") then (Some(12), Some(17))
      else if Mentions(lowered, "evening") || Mentions(lowered, "tonight") then (Some(17), Some(21))
      else (None, None);
    && p.targetDate == (if Mentions(lowered, "tomorrow") then Some(DateOf(now) + 1)
                        else if Mentions(lowered, "today") then Some(DateOf(now)) else None)
    && (p.weekday.None? ==> forall k :: 0 <= k < 7 ==> !Mentions(lowered, WEEKDAYS[k]))
    && (p.weekday.Some? ==> 0 <= p.weekday.value < 7 && Mentions(lowered, WEEKDAYS[p.weekday.value])
                            && forall k :: 0 <= k < p.weekday.value ==> !Mentions(lowered, WEEKDAYS[k]))
    && p.afterHour == HourFrom(clocks.after, lowered, part.0)
    && p.beforeHour == HourFrom(clocks.before, lowered, part.1)
    && p.aroundHour == HourFrom(clocks.around, lowered, None)
  }

  method ParseTimePreferences(lowered: string, clocks: Clocks, now: int) returns (p: Preferences)
    ensures Says(lowered, clocks, now, p)
  {
    var targetDate: Option<int>, weekday: Option<int> := None, None;
    var afterHour: Option<int>, beforeHour: Option<int>, aroundHour: Option<int> := None, None, None;
    if Mentions(lowered, "tomorrow") {
      targetDate := Some(DateOf(now + DAY));
    } else if Mentions(lowered, "today") {
      targetDate := Some(DateOf(now));
    }
    for i := 0 to 7
      invariant weekday.None?
      invariant forall k :: 0 <= k < i ==> !Mentions(lowered, WEEKDAYS[k])
    {
      if Mentions(lowered, WEEKDAYS[i]) {
        weekday := Some(i);
        break;
      }
    }
    if Mentions(lowered, "morning") {
      afterHour, beforeHour := Some(6), Some(12);
    } else if Mentions(lowered, "afternoon") {
      afterHour, beforeHour := Some(12), Some(17);
    } else if Mentions(lowered, "evening") || Mentions(lowered, "tonight") {
      afterHour, beforeHour := Some(17), Some(21);
    }
    afterHour := HourFrom(clocks.after, lowered, afterHour);
    beforeHour := HourFrom(clocks.before, lowered, beforeHour);
    aroundHour := HourFrom(clocks.around, lowered, aroundHour);
    p := Preferences(targetDate, weekday, afterHour, beforeHour, aroundHour);
  }

  // ---- The declarative choice ----

  predicate Meets(s: Slot, p: Preferences, now: int) {
    && now <= s.startsAt && Free(s)
    && (p.targetDate.Some? ==> DateOf(s.startsAt) == p.targetDate.value)
    && (p.weekday.Some? ==> WeekdayOf(s.startsAt) == p.weekday.value)
    && (p.afterHour.Some? ==> p.afterHour.value <= HourOf(s.startsAt))
    && (p.beforeHour.Some? ==> HourOf(s.startsAt) <= p.beforeHour.value)
  }

  function Distance(a: int, b: int): nat { if a < b then b - a else a - b }

  /** What the choice minimises: the distance to the requested hour, or else the start. */
  function Cost(s: Slot, around: Option<int>): int {
    if around.Some? then Distance(HourOf(s.startsAt), around.value) else s.startsAt
  }

  /** Slot i is the one to offer: it meets every preference, and every other that does costs more, or as
      much and comes later in the list. */
  ghost predicate Choice(slots: seq<Slot>, p: Preferences, now: int, i: nat) {
    && i < |slots| && Meets(slots[i], p, now)
    && forall j :: 0 <= j < |slots| && Meets(slots[j], p, now) ==>
         Cost(slots[i], p.aroundHour) < Cost(slots[j], p.aroundHour)
         || (Cost(slots[i], p.aroundHour) == Cost(slots[j], p.aroundHour) && i <= j)
  }

  lemma ChoiceUnique(slots: seq<Slot>, p: Preferences, now: int, i: nat, j: nat)
    requires Choice(slots, p, now, i) && Choice(slots, p, now, j)
    ensures i == j
  {
  }

  /** The choice, read off the slot: it lies in the future, has a place left, is on the day, the weekday and
      within the hours asked for, and no other such slot is nearer to the requested hour or, without one,
      earlier. */
  lemma ChoiceMeans(slots: seq<Slot>, p: Preferences, now: int, i: nat, j: nat)
    requires Choice(slots, p, now, i) && j < |slots| && Meets(slots[j], p, now)
    ensures var s := slots[i];
            && s.startsAt >= now
            && (if s.reserved.Some? then s.reserved.value else 0) < (if s.capacity.Some? then s.capacity.value else 0)
            && (p.targetDate.Some? ==> s.startsAt / 86_400_000_000 == p.targetDate.value)
            && (p.weekday.Some? ==> (s.startsAt / 86_400_000_000 + 3) % 7 == p.weekday.value)
            && (p.afterHour.Some? ==> s.startsAt % 86_400_000_000 / 3_600_000_000 >= p.afterHour.value)
            && (p.beforeHour.Some? ==> s.startsAt % 86_400_000_000 / 3_600_000_000 <= p.beforeHour.value)
    ensures p.aroundHour.None? ==> slots[i].startsAt <= slots[j].startsAt
    ensures p.aroundHour.Some? ==>
              var h, h', a := HourOf(slots[i].startsAt), HourOf(slots[j].startsAt), p.aroundHour.value;
              (if h < a then a - h else h - a) <= (if h' < a then a - h' else h' - a)
  {
  }

  // ---- Narrowing step by step ----

  datatype Criterion = Open(now: int) | OnDate(date: int) | OnWeekday(day: int) | FromHour(h: int) | UpToHour(h: int)

  predicate Passes(s: Slot, c: Criterion) {
    match c
    case Open(now) => s.startsAt >= now && Free(s)
    case OnDate(date) => DateOf(s.startsAt) == date
    case OnWeekday(day) => WeekdayOf(s.startsAt) == day
    case FromHour(h) => HourOf(s.startsAt) >= h
    case UpToHour(h) => HourOf(s.startsAt) <= h
  }

  /** A list comprehension: the slots that pass, in list order. */
  function Narrow(slots: seq<Slot>, c: Criterion): seq<Slot> {
    if slots == [] then []
    else
      var kept, last := Narrow(slots[..|slots| - 1], c), slots[|slots| - 1];
      if Passes(last, c) then kept + [last] else kept
  }

  predicate PassesAll(s: Slot, cs: seq<Criterion>) { forall k :: 0 <= k < |cs| ==> Passes(s, cs[k]) }

  function NarrowAll(slots: seq<Slot>, cs: seq<Criterion>): seq<Slot> {
    if slots == [] then []
    else
      var kept, last := NarrowAll(slots[..|slots| - 1], cs), slots[|slots| - 1];
      if PassesAll(last, cs) then kept + [last] else kept
  }

  lemma {:induction false} NarrowNarrows(slots: seq<Slot>, cs: seq<Criterion>, c: Criterion)
    ensures Narrow(NarrowAll(slots, cs), c) == NarrowAll(slots, cs + [c])
  {
    if slots != [] {
      var rest, last := slots[..|slots| - 1], slots[|slots| - 1];
      NarrowNarrows(rest, cs, c);
      assert PassesAll(last, cs + [c]) <==> PassesAll(last, cs) && Passes(last, c) by {
        assert forall k :: 0 <= k < |cs| ==> (cs + [c])[k] == cs[k];
        assert (cs + [c])[|cs|] == c;
      }
      var kept := NarrowAll(rest, cs);
      assert (kept + [last])[..|kept|] == kept;
    }
  }

  /** Narrowing leaves nothing exactly when no slot passes every criterion. */
  lemma {:induction false} NarrowedAway(slots: seq<Slot>, cs: seq<Criterion>)
    ensures NarrowAll(slots, cs) == [] <==> forall i :: 0 <= i < |slots| ==> !PassesAll(slots[i], cs)
  {
    if slots != [] {
      NarrowedAway(slots[..|slots| - 1], cs);
    }
  }

  /** The five narrowing steps in the order they are taken; a step without a preference is skipped. */
  function Stage(p: Preferences, now: int, k: nat): Option<Criterion>
    requires k < 5
  {
    if k == 0 then Some(Open(now))
    else if k == 1 then if p.targetDate.Some? then Some(OnDate(p.targetDate.value)) else None
    else if k == 2 then if p.weekday.Some? then Some(OnWeekday(p.weekday.value)) else None
    else if k == 3 then if p.afterHour.Some? then Some(FromHour(p.afterHour.value)) else None
    else if p.beforeHour.Some? then Some(UpToHour(p.beforeHour.value)) else None
  }

  function Criteria(p: Preferences, now: int, k: nat): seq<Criterion>
    requires k <= 5
  {
    if k == 0 then []
    else if Stage(p, now, k - 1).None? then Criteria(p, now, k - 1)
    else Criteria(p, now, k - 1) + [Stage(p, now, k - 1).value]
  }

  predicate PassesStage(s: Slot, p: Preferences, now: int, k: nat)
    requires k < 5
  {
    Stage(p, now, k).Some? ==> Passes(s, Stage(p, now, k).value)
  }

  lemma {:induction false} PassesStages(s: Slot, p: Preferences, now: int, k: nat)
    requires k <= 5
    ensures PassesAll(s, Criteria(p, now, k)) <==> forall j :: 0 <= j < k ==> PassesStage(s, p, now, j)
  {
    if k > 0 {
      PassesStages(s, p, now, k - 1);
      var cs := Criteria(p, now, k - 1);
      assert PassesAll(s, Criteria(p, now, k)) <==> PassesAll(s, cs) && PassesStage(s, p, now, k - 1) by {
        if Stage(p, now, k - 1).Some? {
          assert forall j :: 0 <= j < |cs| ==> Criteria(p, now, k)[j] == cs[j];
          assert Criteria(p, now, k)[|cs|] == Stage(p, now, k - 1).value;
        }
      }
    }
  }

  lemma MeetsExactly(s: Slot, p: Preferences, now: int)
    ensures PassesAll(s, Criteria(p, now, 5)) <==> Meets(s, p, now)
  {
    PassesStages(s, p, now, 5);
    if PassesAll(s, Criteria(p, now, 5)) {
      assert PassesStage(s, p, now, 0) && PassesStage(s, p, now, 1) && PassesStage(s, p, now, 2)
        && PassesStage(s, p, now, 3) && PassesStage(s, p, now, 4);
    }
  }

  // ---- The least element, first in the list ----

  /** Python's `min` over a list: the first of the cheapest. */
  function FirstCheapest(slots: seq<Slot>, around: Option<int>): (k: nat)
    requires slots != []
    ensures k < |slots|
  {
    if |slots| == 1 then 0
    else
      var k := FirstCheapest(slots[..|slots| - 1], around);
      if Cost(slots[|slots| - 1], around) < Cost(slots[k], around) then |slots| - 1 else k
  }

  ghost predicate CheapestPassing(slots: seq<Slot>, cs: seq<Criterion>, around: Option<int>, i: nat) {
    && i < |slots| && PassesAll(slots[i], cs)
    && forall j :: 0 <= j < |slots| && PassesAll(slots[j], cs) ==>
         Cost(slots[i], around) < Cost(slots[j], around) || (Cost(slots[i], around) == Cost(slots[j], around) && i <= j)
  }

  /** The first cheapest of the narrowed list is the first cheapest passing slot of the whole list. */
  lemma {:induction false} CheapestSurvives(slots: seq<Slot>, cs: seq<Criterion>, around: Option<int>) returns (i: nat)
    requires NarrowAll(slots, cs) != []
    ensures CheapestPassing(slots, cs, around, i)
    ensures slots[i] == NarrowAll(slots, cs)[FirstCheapest(NarrowAll(slots, cs), around)]
  {
    var rest, n := slots[..|slots| - 1], |slots| - 1;
    var kept := NarrowAll(rest, cs);
    if kept == [] {
      NarrowedAway(rest, cs);
      assert forall j :: 0 <= j < n ==> slots[j] == rest[j];
      i := n;
    } else {
      i := CheapestSurvives(rest, cs, around);
      assert forall j :: 0 <= j < n ==> slots[j] == rest[j];
      if PassesAll(slots[n], cs) {
        assert (kept + [slots[n]])[..|kept|] == kept;
        if Cost(slots[n], around) < Cost(slots[i], around) {
          i := n;
        }
      }
    }
  }

  // ---- The method ----

  function NarrowIf(slots: seq<Slot>, c: Option<Criterion>): seq<Slot> {
    if c.Some? then Narrow(slots, c.value) else slots
  }

  /** One step: the candidates are what the criteria so far leave, and once nothing is left no slot meets
      all the preferences. */
  lemma StepNarrows(slots: seq<Slot>, p: Preferences, now: int, k: nat)
    requires k < 5
    ensures var kept := NarrowAll(slots, Criteria(p, now, k + 1));
            && NarrowIf(NarrowAll(slots, Criteria(p, now, k)), Stage(p, now, k)) == kept
            && (kept == [] ==> NoneMeets(slots, p, now))
  {
    if Stage(p, now, k).Some? {
      NarrowNarrows(slots, Criteria(p, now, k), Stage(p, now, k).value);
    }
    NarrowedAway(slots, Criteria(p, now, k + 1));
    forall i | 0 <= i < |slots| && Meets(slots[i], p, now) ensures PassesAll(slots[i], Criteria(p, now, k + 1)) {
      MeetsExactly(slots[i], p, now);
      PassesStages(slots[i], p, now, 5);
      PassesStages(slots[i], p, now, k + 1);
    }
  }

  predicate NoneMeets(slots: seq<Slot>, p: Preferences, now: int) {
    forall i :: 0 <= i < |slots| ==> !Meets(slots[i], p, now)
  }

  lemma {:induction false} NoCriteria(slots: seq<Slot>)
    ensures NarrowAll(slots, []) == slots
  {
    if slots != [] {
      NoCriteria(slots[..|slots| - 1]);
    }
  }

  /** The first cheapest of what all the steps leave is the declarative choice. */
  lemma CheapestIsChoice(slots: seq<Slot>, p: Preferences, now: int) returns (i: nat)
    requires NarrowAll(slots, Criteria(p, now, 5)) != []
    ensures Choice(slots, p, now, i)
    ensures var kept := NarrowAll(slots, Criteria(p, now, 5)); slots[i] == kept[FirstCheapest(kept, p.aroundHour)]
  {
    forall j | 0 <= j < |slots| ensures PassesAll(slots[j], Criteria(p, now, 5)) <==> Meets(slots[j], p, now) {
      MeetsExactly(slots[j], p, now);
    }
    i := CheapestSurvives(slots, Criteria(p, now, 5), p.aroundHour);
  }

  /** `_match_slot`: no slot exactly when none is free, in the future and meets every preference; otherwise
      the declarative choice. */
  method MatchSlot(lowered: string, clocks: Clocks, slots: seq<Slot>, now: int) returns (p: Preferences, r: Option<Slot>)
    ensures Says(lowered, clocks, now, p)
    ensures r.None? <==> NoneMeets(slots, p, now)
    ensures r.Some? ==> exists i: nat :: Choice(slots, p, now, i) && r.value == slots[i]
  {
    p := ParseTimePreferences(lowered, clocks, now);
    r := Narrowed(slots, p, now);
  }

  method Narrowed(slots: seq<Slot>, p: Preferences, now: int) returns (r: Option<Slot>)
    ensures r.None? <==> NoneMeets(slots, p, now)
    ensures r.Some? ==> exists i: nat :: Choice(slots, p, now, i) && r.value == slots[i]
  {
    NoCriteria(slots);
    StepNarrows(slots, p, now, 0);
    var candidates := Narrow(slots, Open(now));
    if candidates == [] { return None; }
    StepNarrows(slots, p, now, 1);
    candidates := NarrowIf(candidates, Stage(p, now, 1));
    if candidates == [] { return None; }
    StepNarrows(slots, p, now, 2);
    candidates := NarrowIf(candidates, Stage(p, now, 2));
    if candidates == [] { return None; }
    StepNarrows(slots, p, now, 3);
    candidates := NarrowIf(candidates, Stage(p, now, 3));
    if candidates == [] { return None; }
    StepNarrows(slots, p, now, 4);
    candidates := NarrowIf(candidates, Stage(p, now, 4));
    if candidates == [] { return None; }
    r := Some(candidates[FirstCheapest(candidates, p.aroundHour)]);
    ghost var i := CheapestIsChoice(slots, p, now);
  }
}
