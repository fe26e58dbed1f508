/** Requeueing stuck leads (backend/scripts/repair_stuck_lead_processing.py). */
module LeadRepair {
  import opened Common
  import O = Outbox

  /** The two idempotency keys a lead's `lead.created` events can carry. */
  datatype Kind = Original | Repair

  /** One `lead.created` event of a lead, as the script reads it. */
  datatype Ev = Ev(kind: Kind, status: O.EventStatus, retryCount: int, availableAt: real, processedAt: Option<real>, updatedAt: real)

  type Events = seq<Ev>

  const STALE_AFTER := 600.0

  datatype Branch = SkipRepair | RequeueDead | RequeueStale | SkipActive | CreateRepair

  predicate IsDead(e: Ev) { e.kind.Original? && e.status.DeadLetter? }

  predicate IsStale(e: Ev, now: real) {
    e.kind.Original? && e.status.Processing? && e.updatedAt < now - STALE_AFTER
  }

  predicate IsActive(e: Ev) { e.status.Pending? || e.status.Processing? }

  predicate LiveRepair(e: Ev) { e.kind.Repair? && !e.status.DeadLetter? }

  function Requeued(e: Ev, now: real): Ev {
    e.(status := O.Pending, retryCount := 0, processedAt := None, availableAt := now, updatedAt := now)
  }

  function NewRepair(now: real): Ev { Ev(Repair, O.Pending, 0, now, None, now) }

  /** Each idempotency key is unique in the table. */
  predicate UniqueKeys(es: Events) {
    forall i, j :: 0 <= i < j < |es| ==> es[i].kind != es[j].kind
  }

  ghost predicate Any(es: Events, p: Ev -> bool) { exists e :: e in es && p(e) }

  /** What the script decides for one lead, stated without the order in which events are read. */
  ghost function Decide(es: Events, now: real): Branch {
    if Any(es, LiveRepair) then SkipRepair
    else if Any(es, IsDead) then RequeueDead
    else if Any(es, e => IsStale(e, now)) then RequeueStale
    else if Any(es, IsActive) then SkipActive
    else CreateRepair
  }

  /** The events of the lead after an applied run. */
  ghost function Repaired(es: Events, now: real): Events {
    match Decide(es, now)
    case RequeueDead => seq(|es|, i requires 0 <= i < |es| => if IsDead(es[i]) then Requeued(es[i], now) else es[i])
    case RequeueStale => seq(|es|, i requires 0 <= i < |es| => if IsStale(es[i], now) then Requeued(es[i], now) else es[i])
    case CreateRepair => [NewRepair(now)] + es
    case _ => es
  }

  /** Publishing a repair event when the lead already has one violates the unique key. */
  ghost predicate Collides(es: Events, now: real) {
    Decide(es, now).CreateRepair? && exists e :: e in es && e.kind.Repair?
  }

  /** The collision, spelled out: a dead-lettered repair event, and an original event that is neither
      dead-lettered, nor stale, nor pending or in processing. */
  lemma CollidesExactlyWhen(es: Events, now: real)
    ensures Collides(es, now) <==>
            && (exists e :: e in es && e.kind.Repair?)
            && (forall e :: e in es && e.kind.Repair? ==> e.status.DeadLetter?)
            && (forall e :: e in es && e.kind.Original? ==> e.status.Delivered?)
  {
    assert forall e :: e in es ==>
      ((LiveRepair(e) || IsDead(e) || IsStale(e, now) || IsActive(e)) <==>
       !(if e.kind.Repair? then e.status.DeadLetter? else e.status.Delivered?));
    if Decide(es, now).CreateRepair? {
      forall e | e in es ensures !LiveRepair(e) && !IsDead(e) && !IsStale(e, now) && !IsActive(e) {
        assert LiveRepair(e) ==> Any(es, LiveRepair);
        assert IsStale(e, now) ==> Any(es, e' => IsStale(e', now));
      }
    }
  }

  /** The decision, read off the events: a repair event that is pending, in processing or delivered, or else
      a dead-lettered original, or else an original in processing untouched for more than ten minutes, or
      else anything pending or in processing, or else none of these. */
  lemma DecisionMeans(es: Events, now: real)
    ensures var live := exists e :: e in es && e.kind.Repair? && (e.status.Pending? || e.status.Processing? || e.status.Delivered?);
            var dead := exists e :: e in es && e.kind.Original? && e.status.DeadLetter?;
            var stale := exists e :: e in es && e.kind.Original? && e.status.Processing? && now - e.updatedAt > 600.0;
            var active := exists e :: e in es && (e.status.Pending? || e.status.Processing?);
            && (Decide(es, now).SkipRepair? <==> live)
            && (Decide(es, now).RequeueDead? <==> !live && dead)
            && (Decide(es, now).RequeueStale? <==> !live && !dead && stale)
            && (Decide(es, now).SkipActive? <==> !live && !dead && !stale && active)
            && (Decide(es, now).CreateRepair? <==> !live && !dead && !stale && !active)
  {
    var staleNow := (e: Ev) => IsStale(e, now);
    assert forall e :: e in es && LiveRepair(e) ==> Any(es, LiveRepair);
    assert forall e :: e in es && IsDead(e) ==> Any(es, IsDead);
    assert forall e :: e in es && staleNow(e) ==> Any(es, staleNow);
    assert forall e :: e in es && IsActive(e) ==> Any(es, IsActive);
    assert Any(es, staleNow) <==> Any(es, e => IsStale(e, now));
  }

  lemma RepairKeepsKeysUnique(es: Events, now: real)
    requires UniqueKeys(es) && !Collides(es, now)
    ensures UniqueKeys(Repaired(es, now))
  {
    if Decide(es, now).CreateRepair? {
      forall j | 0 <= j < |es| ensures es[j].kind != Repair {
        assert es[j] in es;
      }
    }
  }

  /** What the repaired events hold: an active event, or a repair event that has been delivered. */
  lemma RepairedHolds(es: Events, now: real) returns (e: Ev)
    requires !Collides(es, now)
    ensures e in Repaired(es, now) && (IsActive(e) || (e.kind.Repair? && e.status.Delivered?))
    ensures Decide(es, now).RequeueDead? || Decide(es, now).RequeueStale? ==> e.kind.Original? && !IsStale(e, now)
    ensures Decide(es, now).CreateRepair? || Decide(es, now).SkipRepair? ==> LiveRepair(e)
  {
    var es' := Repaired(es, now);
    match Decide(es, now) {
      case RequeueDead =>
        var i :| 0 <= i < |es| && IsDead(es[i]);
        e := es'[i];
      case RequeueStale =>
        var i :| 0 <= i < |es| && IsStale(es[i], now);
        e := es'[i];
      case CreateRepair => e := es'[0];
      case SkipRepair => e :| e in es && LiveRepair(e);
      case SkipActive => e :| e in es && IsActive(e);
    }
  }

  /** A repaired lead is being taken care of: some event of it is pending or in processing, or its repair
      event has been delivered; keys stay unique; and deciding again at the same moment skips it. */
  lemma RepairWorks(es: Events, now: real)
    requires UniqueKeys(es) && !Collides(es, now)
    ensures UniqueKeys(Repaired(es, now))
    ensures Any(Repaired(es, now), e => IsActive(e) || (e.kind.Repair? && e.status.Delivered?))
    ensures Decide(Repaired(es, now), now) in {SkipRepair, SkipActive}
    ensures Repaired(Repaired(es, now), now) == Repaired(es, now)
  {
    RepairKeepsKeysUnique(es, now);
    var e := RepairedHolds(es, now);
    var es' := Repaired(es, now);
    assert Any(es', IsActive) || Any(es', LiveRepair);
    if Decide(es, now).RequeueDead? || Decide(es, now).RequeueStale? {
      OnlyOriginal(es', e);
    }
  }

  /** With unique keys an original event is the only one. */
  lemma OnlyOriginal(es: Events, e: Ev)
    requires UniqueKeys(es) && e in es && e.kind.Original?
    ensures forall other :: other in es && other.kind.Original? ==> other == e
  {
  }

  /** Claimable at once, with all its retries. */
  predicate AsNew(e: Ev, now: real) {
    e.status.Pending? && e.retryCount == 0 && e.processedAt.None? && e.availableAt <= now
  }

  /** Whatever is requeued or published starts as new, and every other event of the lead stays as it was. */
  lemma RequeuesAsNew(es: Events, now: real)
    ensures Decide(es, now) in {RequeueDead, RequeueStale, CreateRepair} ==> Any(Repaired(es, now), e => AsNew(e, now))
    ensures forall e :: e in Repaired(es, now) ==> e in es || AsNew(e, now)
    ensures forall e :: e in es && !IsDead(e) && !IsStale(e, now) ==> e in Repaired(es, now)
  {
    var es' := Repaired(es, now);
    match Decide(es, now) {
      case RequeueDead =>
        var i :| 0 <= i < |es| && IsDead(es[i]);
        assert es'[i] in es' && AsNew(es'[i], now);
      case RequeueStale =>
        var i :| 0 <= i < |es| && IsStale(es[i], now);
        assert es'[i] in es' && AsNew(es'[i], now);
      case CreateRepair => assert es'[0] in es' && AsNew(es'[0], now);
      case _ =>
    }
    forall e | e in es && !IsDead(e) && !IsStale(e, now) ensures e in es' {
      var i :| 0 <= i < |es| && es[i] == e;
      if !Decide(es, now).CreateRepair? { assert es'[i] == e; }
    }
  }

  // ---- The whole run ----

  ghost function RepairAll(events: map<Id, Events>, scan: seq<Id>, now: real): map<Id, Events> {
    map l | l in events :: if l in scan then Repaired(events[l], now) else events[l]
  }

  datatype Summary = Summary(
    requeuedDead: nat, requeuedStale: nat, created: nat, skippedPending: nat, skippedRepair: nat)
  {
    function Total(): nat { requeuedDead + requeuedStale + created + skippedPending + skippedRepair }
  }

  function Count(sum: Summary, b: Branch): Summary {
    match b
    case SkipRepair => sum.(skippedRepair := sum.skippedRepair + 1)
    case RequeueDead => sum.(requeuedDead := sum.requeuedDead + 1)
    case RequeueStale => sum.(requeuedStale := sum.requeuedStale + 1)
    case SkipActive => sum.(skippedPending := sum.skippedPending + 1)
    case CreateRepair => sum.(created := sum.created + 1)
  }

  /** What the script decides for each scanned lead, from the tables before the run. */
  ghost function Decisions(events: map<Id, Events>, scan: seq<Id>, now: real): seq<Branch>
    requires forall l :: l in scan ==> l in events
  {
    seq(|scan|, i requires 0 <= i < |scan| => assert scan[i] in scan; Decide(events[scan[i]], now))
  }

  /** The counters after the first n decisions. */
  ghost function Tally(decisions: seq<Branch>, n: nat): Summary
    requires n <= |decisions|
  {
    if n == 0 then Summary(0, 0, 0, 0, 0) else Count(Tally(decisions, n - 1), decisions[n - 1])
  }

  /** The leads, among the first n, for which the script decided so. */
  ghost function Deciding(decisions: seq<Branch>, n: nat, b: Branch): set<int>
    requires n <= |decisions|
  {
    set i | 0 <= i < n && decisions[i] == b
  }

  lemma DecidingNext(decisions: seq<Branch>, n: nat, b: Branch)
    requires n < |decisions|
    ensures |Deciding(decisions, n + 1, b)| == |Deciding(decisions, n, b)| + if decisions[n] == b then 1 else 0
  {
    var before, after := Deciding(decisions, n, b), Deciding(decisions, n + 1, b);
    assert after == if decisions[n] == b then before + {n} else before;
  }

  /** Each counter is the number of leads decided that way. */
  lemma {:induction false} CountersMean(decisions: seq<Branch>, n: nat)
    requires n <= |decisions|
    ensures var sum := Tally(decisions, n);
            && sum.requeuedDead == |Deciding(decisions, n, RequeueDead)|
            && sum.requeuedStale == |Deciding(decisions, n, RequeueStale)|
            && sum.created == |Deciding(decisions, n, CreateRepair)|
            && sum.skippedPending == |Deciding(decisions, n, SkipActive)|
            && sum.skippedRepair == |Deciding(decisions, n, SkipRepair)|
  {
    if n > 0 {
      CountersMean(decisions, n - 1);
      DecidingNext(decisions, n - 1, RequeueDead);
      DecidingNext(decisions, n - 1, RequeueStale);
      DecidingNext(decisions, n - 1, CreateRepair);
      DecidingNext(decisions, n - 1, SkipActive);
      DecidingNext(decisions, n - 1, SkipRepair);
    }
  }

  lemma {:induction false} TallyTotal(decisions: seq<Branch>, n: nat)
    requires n <= |decisions|
    ensures Tally(decisions, n).Total() == n
  {
    if n > 0 {
      TallyTotal(decisions, n - 1);
    }
  }

  ghost predicate NoCollision(events: map<Id, Events>, scan: seq<Id>, now: real) {
    forall l :: l in scan && l in events ==> !Collides(events[l], now)
  }

  /** Nothing is left to do for a lead. */
  ghost predicate Settled(es: Events, now: real) {
    Decide(es, now) in {SkipRepair, SkipActive} && Repaired(es, now) == es && !Collides(es, now)
  }

  lemma RepairSettles(es: Events, now: real)
    requires UniqueKeys(es) && !Collides(es, now)
    ensures Settled(Repaired(es, now), now)
  {
    RepairWorks(es, now);
  }

  lemma SettledStays(events: map<Id, Events>, scan: seq<Id>, now: real)
    requires forall l :: l in scan ==> l in events && Settled(events[l], now)
    ensures RepairAll(events, scan, now) == events && NoCollision(events, scan, now)
  {
  }

  lemma SettledSkips(events: map<Id, Events>, scan: seq<Id>, now: real)
    requires forall l :: l in scan ==> l in events && Settled(events[l], now)
    ensures var counters := Tally(Decisions(events, scan, now), |scan|);
            counters.skippedPending + counters.skippedRepair == |scan|
  {
    forall i | 0 <= i < |scan| ensures Decisions(events, scan, now)[i] in {SkipRepair, SkipActive} {
      assert scan[i] in scan;
    }
    OnlySkips(Decisions(events, scan, now), |scan|);
  }

  /** A second run at the same moment changes nothing and only skips. */
  lemma RepairIsIdempotent(events: map<Id, Events>, once: map<Id, Events>, scan: seq<Id>, now: real)
    requires forall l :: l in scan ==> l in events && UniqueKeys(events[l])
    requires NoCollision(events, scan, now) && once == RepairAll(events, scan, now)
    ensures RepairAll(once, scan, now) == once && NoCollision(once, scan, now)
    ensures forall l :: l in scan ==> l in once
    ensures var counters := Tally(Decisions(once, scan, now), |scan|);
            counters.skippedPending + counters.skippedRepair == |scan|
  {
    forall l | l in scan ensures l in once && Settled(once[l], now) {
      RepairSettles(events[l], now);
    }
    SettledStays(once, scan, now);
    SettledSkips(once, scan, now);
  }

  lemma {:induction false} OnlySkips(decisions: seq<Branch>, n: nat)
    requires n <= |decisions| && forall i :: 0 <= i < |decisions| ==> decisions[i] in {SkipRepair, SkipActive}
    ensures Tally(decisions, n).skippedPending + Tally(decisions, n).skippedRepair == n
  {
    if n > 0 {
      OnlySkips(decisions, n - 1);
    }
  }

  lemma RepairAllSnoc(events: map<Id, Events>, scan: seq<Id>, l: Id, now: real)
    requires l in events && l !in scan
    ensures RepairAll(events, scan, now)[l] == events[l]
    ensures RepairAll(events, scan + [l], now) == RepairAll(events, scan, now)[l := Repaired(events[l], now)]
    ensures NoCollision(events, scan + [l], now) <==> NoCollision(events, scan, now) && !Collides(events[l], now)
  {
    assert forall k :: k in scan + [l] <==> k in scan || k == l;
  }

  /** The scanned leads: each once, with their events. */
  ghost predicate ScanOk(events: map<Id, Events>, scan: seq<Id>) {
    && (forall l :: l in scan ==> l in events && UniqueKeys(events[l]))
    && (forall i, j :: 0 <= i < j < |scan| ==> scan[i] != scan[j])
  }

  /** Where the run is after n leads without a failure. */
  ghost predicate RunTo(saved: map<Id, Events>, events: map<Id, Events>, scan: seq<Id>, n: nat, sum: Summary, apply: bool, now: real)
    requires ScanOk(saved, scan) && n <= |scan|
  {
    && events == (if apply then RepairAll(saved, scan[..n], now) else saved)
    && sum == Tally(Decisions(saved, scan, now), n)
    && (apply ==> NoCollision(saved, scan[..n], now))
  }

  lemma RunStep(saved: map<Id, Events>, events1: map<Id, Events>, events2: map<Id, Events>, scan: seq<Id>, i: nat,
                sum1: Summary, sum2: Summary, apply: bool, now: real)
    requires ScanOk(saved, scan) && i < |scan| && scan[i] in saved && RunTo(saved, events1, scan, i, sum1, apply, now)
    requires sum2 == Count(sum1, Decide(saved[scan[i]], now)) && !(apply && Collides(saved[scan[i]], now))
    requires events2 == if apply then events1[scan[i] := Repaired(saved[scan[i]], now)] else events1
    ensures RunTo(saved, events2, scan, i + 1, sum2, apply, now)
  {
    assert scan[..i + 1] == scan[..i] + [scan[i]];
    RepairAllSnoc(saved, scan[..i], scan[i], now);
    assert Decisions(saved, scan, now)[i] == Decide(saved[scan[i]], now);
  }

  lemma RunDone(saved: map<Id, Events>, events: map<Id, Events>, scan: seq<Id>, sum: Summary, apply: bool, now: real)
    requires ScanOk(saved, scan) && RunTo(saved, events, scan, |scan|, sum, apply, now)
    ensures apply ==> NoCollision(saved, scan, now)
    ensures sum == Tally(Decisions(saved, scan, now), |scan|) && sum.Total() == |scan|
    ensures events == if apply then RepairAll(saved, scan, now) else saved
  {
    assert scan[..|scan|] == scan;
    TallyTotal(Decisions(saved, scan, now), |scan|);
  }

  class RepairScript {
    var events: map<Id, Events>

    constructor (events: map<Id, Events>)
      ensures this.events == events
    {
      this.events := events;
    }

    /** `next((event for event in events if p(event)), None)`. */
    static method First(es: Events, p: Ev -> bool) returns (found: Option<nat>)
      ensures found.Some? ==> found.value < |es| && p(es[found.value])
      ensures found.Some? <==> Any(es, p)
    {
      var i := 0;
      while i < |es|
        invariant 0 <= i <= |es| && forall j :: 0 <= j < i ==> !p(es[j])
      {
        if p(es[i]) {
          return Some(i);
        }
        i := i + 1;
      }
      found := None;
    }

    /** One turn of the loop. A repair event that violates the unique key is reported as `false`. */
    method RepairOne(l: Id, apply: bool, now: real, before: Summary) returns (sum: Summary, ok: bool)
      requires l in events && UniqueKeys(events[l])
      modifies this
      ensures sum == Count(before, Decide(old(events)[l], now))
      ensures ok <==> !(apply && Collides(old(events)[l], now))
      ensures events == if apply && ok then old(events)[l := Repaired(old(events)[l], now)] else old(events)
    {
      var es := events[l];
      sum, ok := before, true;
      assert events[l := es] == events;
      var found := First(es, LiveRepair);
      if found.Some? {
        sum := sum.(skippedRepair := sum.skippedRepair + 1);
        return;
      }
      found := First(es, IsDead);
      if found.Some? {
        sum := sum.(requeuedDead := sum.requeuedDead + 1);
        if apply {
          var i := found.value;
          events := events[l := es[i := Requeued(es[i], now)]];
          assert events[l] == Repaired(es, now);
        }
        return;
      }
      found := First(es, e => IsStale(e, now));
      if found.Some? {
        sum := sum.(requeuedStale := sum.requeuedStale + 1);
        if apply {
          var i := found.value;
          events := events[l := es[i := Requeued(es[i], now)]];
          assert events[l] == Repaired(es, now);
        }
        return;
      }
      found := First(es, IsActive);
      if found.Some? {
        sum := sum.(skippedPending := sum.skippedPending + 1);
        return;
      }
      sum := sum.(created := sum.created + 1);
      var repair := First(es, (e: Ev) => e.kind.Repair?);
      ok := !apply || repair.None?;
      if apply && ok {
        events := events[l := [NewRepair(now)] + es];
      }
    }

    /** The i-th turn, as a step of the whole run. */
    method RepairNext(ghost saved: map<Id, Events>, scan: seq<Id>, i: nat, apply: bool, now: real, before: Summary)
      returns (sum: Summary, ok: bool)
      requires ScanOk(saved, scan) && i < |scan| && RunTo(saved, events, scan, i, before, apply, now)
      modifies this
      ensures scan[i] in saved && (ok <==> !(apply && Collides(saved[scan[i]], now)))
      ensures ok ==> RunTo(saved, events, scan, i + 1, sum, apply, now)
    {
      ghost var events1 := events;
      assert scan[i] in scan;
      RepairAllSnoc(saved, scan[..i], scan[i], now);
      sum, ok := RepairOne(scan[i], apply, now, before);
      if ok {
        RunStep(saved, events1, events, scan, i, before, sum, apply, now);
      }
    }

    /** `repair_stuck_lead_processing` over the scanned leads. The transaction fails exactly when applying
        and some scanned lead collides; then, as in a dry run, nothing changes. */
    method RepairStuck(scan: seq<Id>, apply: bool, now: real) returns (r: Result<Summary, ()>)
      requires ScanOk(events, scan)
      modifies this
      ensures r.Ok? <==> !apply || NoCollision(old(events), scan, now)
      ensures r.Ok? ==> r.value == Tally(Decisions(old(events), scan, now), |scan|) && r.value.Total() == |scan|
      ensures events == if apply && r.Ok? then RepairAll(old(events), scan, now) else old(events)
    {
      var saved := events;
      var sum := Summary(0, 0, 0, 0, 0);
      var i := 0;
      assert RepairAll(saved, scan[..0], now) == saved;
      while i < |scan|
        invariant 0 <= i <= |scan| && RunTo(saved, events, scan, i, sum, apply, now)
      {
        var ok;
        sum, ok := RepairNext(saved, scan, i, apply, now, sum);
        if !ok {
          assert scan[i] in scan;
          events := saved;
          return Err(());
        }
        i := i + 1;
      }
      RunDone(saved, events, scan, sum, apply, now);
      r := Ok(sum);
    }
  }
}
