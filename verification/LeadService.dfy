/** The lead tables updated in place: inquiry creation, the callback endpoint, and the backfill of legacy
    leads (backend/app/leads/service.py, backend/app/leads/repository.py,
    backend/scripts/backfill_legacy_lead_processing.py). */
module LeadService {
  import opened Common
  import opened LeadRecords
  import O = Outbox

  type Leads = map<Id, LeadRecord>
  type Events = map<O.EventKey, O.OutboxRow>

  datatype Listing = Listing(tenant: Id, active: bool)

  datatype CreateError = ListingNotFound | UserNotFound | ProfileIncomplete | EmptyMessage | DuplicateKey

  function LeadEvent(id: Id, tenant: Id, message: string, now: real): O.OutboxRow {
    O.PublishedRow(O.LeadCreatedEvent, id, O.Payload(id, tenant, message), now)
  }

  /** What an inquiry stores, field by field: an unreviewed lead of the listing's tenant waiting for its spam
      verdict, a pending row without a key on each side, and an event that can be claimed at once and carries
      the lead, the tenant and the message. */
  predicate InquiryStored(rec: LeadRecord, row: O.OutboxRow, id: Id, tenant: Id, message: string, now: real) {
    && rec.tenant == tenant && rec.message == message && rec.processing == PendingSpam && rec.review == New
    && |rec.spam| == 1 && rec.spam[0].status == Pending && rec.spam[0].key.None? && rec.spam[0].tag.None?
    && |rec.level| == 1 && rec.level[0].status == Pending && rec.level[0].key.None? && rec.level[0].tag.None?
    && row.name == O.LeadCreatedEvent && row.aggregate == id
    && row.payload.lead == id && row.payload.tenant == tenant && row.payload.message == message
    && O.Claimable(row, now) && row.retryCount == 0 && row.maxRetries == 3
  }

  /** At most one row per stage and lead, and a lead waiting for its spam verdict has both rows and its event. */
  ghost predicate RowInv(leads: Leads, events: Events) {
    forall l :: l in leads ==> LeadRows(l, leads[l], events)
  }

  predicate LeadRows(l: Id, rec: LeadRecord, events: Events) {
    && |rec.spam| <= 1 && |rec.level| <= 1
    && (rec.processing.PendingSpam? ==>
          |rec.spam| == 1 && |rec.level| == 1 && O.LeadCreated(l) in events)
  }

  /** No callback, whatever its fields, can break the row invariant or trip over duplicate rows. */
  lemma CallbackKeepsRows(rec: LeadRecord, cb: Callback, events: Events)
    requires LeadRows(cb.lead, rec, events) && cb.tenant == rec.tenant
    ensures CallbackOnRecord(rec, cb).Ok? && LeadRows(cb.lead, CallbackOnRecord(rec, cb).value, events)
  {
    var rows := RowsOf(rec, cb.stage);
    if rows != [] {
      assert rows == [rows[0]];
      OneRowLookup(rows[0], KeyOf(cb));
    }
  }

  // ---- Backfill of legacy leads ----

  /** The record and the event a legacy lead has afterwards. */
  function Backfilled(l: Id, rec: LeadRecord, emptyIsSpam: bool): LeadRecord {
    if IsBlank(rec.message) && emptyIsSpam then
      var row := ResultRow(Completed, Some(Spam), Some(1.0), Some("empty_message_legacy_backfill"),
                           if rec.spam == [] then 0 else rec.spam[0].retryCount, Some(LegacyEmptyKey(l)));
      rec.(spam := [row], processing := Completed)
    else
      rec.(spam := if rec.spam == [] then [PENDING_ROW] else rec.spam,
           level := if rec.level == [] then [PENDING_ROW] else rec.level,
           processing := PendingSpam)
  }

  predicate Queues(rec: LeadRecord, emptyIsSpam: bool) { !(IsBlank(rec.message) && emptyIsSpam) }

  function BackfillLeads(leads: Leads, scan: seq<Id>, emptyIsSpam: bool): Leads {
    map l | l in leads :: if l in scan then Backfilled(l, leads[l], emptyIsSpam) else leads[l]
  }

  ghost predicate BackfillEvents(leads: Leads, events: Events, events': Events, scan: seq<Id>, emptyIsSpam: bool, now: real) {
    && (forall k :: k in events ==> k in events' && events'[k] == events[k])
    && (forall l :: l in scan && l in leads && Queues(leads[l], emptyIsSpam) ==> O.LeadCreated(l) in events')
    && (forall k :: k in events' && k !in events ==>
          && k.LeadCreated? && k.lead in scan && k.lead in leads && Queues(leads[k.lead], emptyIsSpam)
          && events'[k] == LeadEvent(k.lead, leads[k.lead].tenant, leads[k.lead].message, now))
  }

  /** The query's result: every legacy lead once. */
  ghost predicate LegacyScan(leads: Leads, scan: seq<Id>) {
    && (forall l :: l in scan <==> l in leads && leads[l].processing.Pending?)
    && (forall i, j :: 0 <= i < j < |scan| ==> scan[i] != scan[j])
  }

  /** Where a backfilled lead ends: a blank one, when empty messages count as spam, is completed with a spam
      row that says so and gains no level row; any other waits for its spam verdict with its old rows, or
      pending ones where it had none. Nothing else about the lead changes. */
  lemma BackfilledMeans(l: Id, rec: LeadRecord, emptyIsSpam: bool)
    ensures var rec' := Backfilled(l, rec, emptyIsSpam);
            && rec'.tenant == rec.tenant && rec'.message == rec.message && rec'.review == rec.review
            && (IsBlank(rec.message) && emptyIsSpam ==>
                  && rec'.processing == Completed && rec'.level == rec.level && |rec'.spam| == 1
                  && rec'.spam[0].status == Completed && rec'.spam[0].tag == Some(Spam) && rec'.spam[0].score == Some(1.0)
                  && rec'.spam[0].key == Some(LegacyEmptyKey(l)))
            && (!(IsBlank(rec.message) && emptyIsSpam) ==>
                  && rec'.processing == PendingSpam
                  && (rec.spam != [] ==> rec'.spam == rec.spam) && (rec.level != [] ==> rec'.level == rec.level)
                  && (rec.spam == [] ==> |rec'.spam| == 1 && rec'.spam[0].status == Pending && rec'.spam[0].key.None?)
                  && (rec.level == [] ==> |rec'.level| == 1 && rec'.level[0].status == Pending && rec'.level[0].key.None?))
  {
  }

  /** After an applied backfill no lead is in the legacy status, and the row invariant holds again. */
  lemma BackfillKeepsRows(leads: Leads, events: Events, events': Events, scan: seq<Id>, emptyIsSpam: bool, now: real)
    requires RowInv(leads, events) && LegacyScan(leads, scan)
    requires BackfillEvents(leads, events, events', scan, emptyIsSpam, now)
    ensures RowInv(BackfillLeads(leads, scan, emptyIsSpam), events')
    ensures forall l :: l in leads ==> !BackfillLeads(leads, scan, emptyIsSpam)[l].processing.Pending?
    ensures forall l :: l in leads && !leads[l].processing.Pending? ==> BackfillLeads(leads, scan, emptyIsSpam)[l] == leads[l]
  {
    forall l | l in leads ensures LeadRows(l, BackfillLeads(leads, scan, emptyIsSpam)[l], events') {
      assert LeadRows(l, leads[l], events);
    }
  }

  datatype BackfillSummary = BackfillSummary(
    emptyCompleted: nat, nonEmptyQueued: nat, spamRows: nat, levelRows: nat, outboxRows: nat)

  function One(b: bool): nat { if b then 1 else 0 }

  /** What a legacy lead needs: to be queued or completed, and which rows. */
  datatype Needs = Needs(queues: bool, spamRow: bool, levelRow: bool, event: bool)

  function NeedsOf(l: Id, rec: LeadRecord, events: Events, emptyIsSpam: bool): Needs {
    var queues := Queues(rec, emptyIsSpam);
    Needs(queues, rec.spam == [], queues && rec.level == [], queues && O.LeadCreated(l) !in events)
  }

  /** The counters after one more scanned lead. */
  function Counted(sum: BackfillSummary, needs: Needs): BackfillSummary {
    BackfillSummary(
      sum.emptyCompleted + One(!needs.queues),
      sum.nonEmptyQueued + One(needs.queues),
      sum.spamRows + One(needs.spamRow),
      sum.levelRows + One(needs.levelRow),
      sum.outboxRows + One(needs.event))
  }

  /** What the scanned leads need, from the tables before the run. */
  function AllNeeds(leads: Leads, events: Events, scan: seq<Id>, emptyIsSpam: bool): seq<Needs>
    requires forall l :: l in scan ==> l in leads
  {
    seq(|scan|, i requires 0 <= i < |scan| => assert scan[i] in scan; NeedsOf(scan[i], leads[scan[i]], events, emptyIsSpam))
  }

  /** What the counters should be after the first n leads. */
  function Tally(needs: seq<Needs>, n: nat): BackfillSummary
    requires n <= |needs|
  {
    if n == 0 then BackfillSummary(0, 0, 0, 0, 0) else Counted(Tally(needs, n - 1), needs[n - 1])
  }

  datatype Counter = EmptyCompleted | NonEmptyQueued | SpamRows | LevelRows | OutboxRows

  function Value(sum: BackfillSummary, c: Counter): nat {
    match c
    case EmptyCompleted => sum.emptyCompleted
    case NonEmptyQueued => sum.nonEmptyQueued
    case SpamRows => sum.spamRows
    case LevelRows => sum.levelRows
    case OutboxRows => sum.outboxRows
  }

  /** Whether the counter is there to count this lead. */
  predicate Counts(c: Counter, needs: Needs) {
    match c
    case EmptyCompleted => !needs.queues
    case NonEmptyQueued => needs.queues
    case SpamRows => needs.spamRow
    case LevelRows => needs.levelRow
    case OutboxRows => needs.event
  }

  function Counting(needs: seq<Needs>, n: nat, c: Counter): set<int>
    requires n <= |needs|
  {
    set i | 0 <= i < n && Counts(c, needs[i])
  }

  lemma CountingNext(needs: seq<Needs>, n: nat, c: Counter)
    requires n < |needs|
    ensures |Counting(needs, n + 1, c)| == |Counting(needs, n, c)| + One(Counts(c, needs[n]))
  {
    var before := Counting(needs, n, c);
    assert Counting(needs, n + 1, c) == if Counts(c, needs[n]) then before + {n} else before;
  }

  lemma CountedNext(sum: BackfillSummary, needs: Needs, c: Counter)
    ensures Value(Counted(sum, needs), c) == Value(sum, c) + One(Counts(c, needs))
  {
  }

  /** Each counter is the number of leads it is there to count. */
  lemma {:induction false} CountersMean(needs: seq<Needs>, n: nat, c: Counter)
    requires n <= |needs|
    ensures Value(Tally(needs, n), c) == |Counting(needs, n, c)|
  {
    if n > 0 {
      CountersMean(needs, n - 1, c);
      CountedNext(Tally(needs, n - 1), needs[n - 1], c);
      CountingNext(needs, n - 1, c);
    }
  }

  /** Said of the leads themselves: blank ones are completed when empty messages count as spam and queued
      otherwise; a spam row is created for every lead without one, a level row and an event for every queued
      lead without one. */
  lemma CountersOfLeads(leads: Leads, events: Events, scan: seq<Id>, emptyIsSpam: bool, i: nat)
    requires i < |scan| && forall l :: l in scan ==> l in leads
    ensures scan[i] in leads
    ensures var needs, rec := AllNeeds(leads, events, scan, emptyIsSpam)[i], leads[scan[i]];
            && (Counts(EmptyCompleted, needs) <==> emptyIsSpam && forall c :: c in rec.message ==> IsSpace(c))
            && (Counts(NonEmptyQueued, needs) <==> !Counts(EmptyCompleted, needs))
            && (Counts(SpamRows, needs) <==> |rec.spam| == 0)
            && (Counts(LevelRows, needs) <==> |rec.level| == 0 && !Counts(EmptyCompleted, needs))
            && (Counts(OutboxRows, needs) <==> O.LeadCreated(scan[i]) !in events && !Counts(EmptyCompleted, needs))
  {
    assert scan[i] in scan;
  }

  /** One turn of the loop, from one state of the tables to the next. */
  predicate Turn(leads: Leads, events: Events, leads': Leads, events': Events, l: Id, emptyIsSpam: bool, apply: bool, now: real)
    requires l in leads
  {
    var rec, key := leads[l], O.LeadCreated(l);
    if !apply then leads' == leads && events' == events
    else
      && leads' == leads[l := Backfilled(l, rec, emptyIsSpam)]
      && events' == (if Queues(rec, emptyIsSpam) && key !in events
                     then events[key := LeadEvent(l, rec.tenant, rec.message, now)] else events)
  }

  /** The tables after the loop has handled the leads of `scan`. */
  ghost predicate Done(leads: Leads, events: Events, leads': Leads, events': Events, scan: seq<Id>, emptyIsSpam: bool, apply: bool, now: real) {
    if !apply then leads' == leads && events' == events
    else leads' == BackfillLeads(leads, scan, emptyIsSpam) && BackfillEvents(leads, events, events', scan, emptyIsSpam, now)
  }

  /** The loop has not yet touched a lead it has not reached. */
  lemma Untouched(leads: Leads, events: Events, leads1: Leads, events1: Events, scan: seq<Id>, l: Id, emptyIsSpam: bool, apply: bool, now: real)
    requires Done(leads, events, leads1, events1, scan, emptyIsSpam, apply, now) && l in leads && l !in scan
    ensures l in leads1 && leads1[l] == leads[l] && (O.LeadCreated(l) in events1 <==> O.LeadCreated(l) in events)
  {
  }

  lemma BackfillTurn(leads: Leads, events: Events, leads1: Leads, events1: Events, leads2: Leads, events2: Events,
                     scan: seq<Id>, l: Id, emptyIsSpam: bool, apply: bool, now: real)
    requires Done(leads, events, leads1, events1, scan, emptyIsSpam, apply, now) && l in leads && l !in scan && l in leads1
    requires Turn(leads1, events1, leads2, events2, l, emptyIsSpam, apply, now)
    ensures Done(leads, events, leads2, events2, scan + [l], emptyIsSpam, apply, now)
  {
    Untouched(leads, events, leads1, events1, scan, l, emptyIsSpam, apply, now);
    assert forall k :: k in scan + [l] <==> k in scan || k == l;
  }

  /** Before a turn: the loop meets the next lead as it was, with at most one row per stage. */
  lemma TurnReady(leads: Leads, events: Events, leads1: Leads, events1: Events, scan: seq<Id>, i: nat, emptyIsSpam: bool, apply: bool, now: real)
    requires LegacyScan(leads, scan) && RowInv(leads, events) && i < |scan|
    requires Done(leads, events, leads1, events1, scan[..i], emptyIsSpam, apply, now)
    ensures var l := scan[i];
            && l in leads && l !in scan[..i] && LeadRows(l, leads[l], events)
            && l in leads1 && leads1[l] == leads[l] && (O.LeadCreated(l) in events1 <==> O.LeadCreated(l) in events)
  {
    assert scan[i] in scan;
    Untouched(leads, events, leads1, events1, scan[..i], scan[i], emptyIsSpam, apply, now);
  }

  /** After a turn: one more lead is done and counted. */
  lemma TurnDone(leads: Leads, events: Events, leads1: Leads, events1: Events, leads2: Leads, events2: Events,
                 scan: seq<Id>, i: nat, emptyIsSpam: bool, apply: bool, now: real)
    requires LegacyScan(leads, scan) && RowInv(leads, events) && i < |scan| && scan[i] in leads1
    requires Done(leads, events, leads1, events1, scan[..i], emptyIsSpam, apply, now)
    requires Turn(leads1, events1, leads2, events2, scan[i], emptyIsSpam, apply, now)
    ensures Done(leads, events, leads2, events2, scan[..i + 1], emptyIsSpam, apply, now)
  {
    assert scan[..i + 1] == scan[..i] + [scan[i]];
    TurnReady(leads, events, leads1, events1, scan, i, emptyIsSpam, apply, now);
    BackfillTurn(leads, events, leads1, events1, leads2, events2, scan[..i], scan[i], emptyIsSpam, apply, now);
  }

  /** After the loop. */
  lemma BackfillComplete(leads: Leads, events: Events, leads1: Leads, events1: Events, scan: seq<Id>, emptyIsSpam: bool, apply: bool, now: real)
    requires RowInv(leads, events) && LegacyScan(leads, scan) && Done(leads, events, leads1, events1, scan, emptyIsSpam, apply, now)
    ensures RowInv(leads1, events1)
    ensures apply ==> forall l :: l in leads1 ==> !leads1[l].processing.Pending?
    ensures apply ==> leads1.Keys == leads.Keys
    ensures apply ==> forall l :: l in scan ==> l in leads1 && LegacyResolved(l, leads[l], leads1[l], events1, emptyIsSpam)
  {
    if apply {
      BackfillKeepsRows(leads, events, events1, scan, emptyIsSpam, now);
      forall l | l in scan ensures l in leads1 && LegacyResolved(l, leads[l], leads1[l], events1, emptyIsSpam) {
        BackfilledMeans(l, leads[l], emptyIsSpam);
      }
    }
  }

  /** A legacy lead is completed as spam, or waits for its verdict with an event to be claimed. */
  predicate LegacyResolved(l: Id, rec: LeadRecord, rec': LeadRecord, events: Events, emptyIsSpam: bool) {
    if IsBlank(rec.message) && emptyIsSpam then
      rec'.processing == Completed && |rec'.spam| == 1 && rec'.spam[0].status == Completed && rec'.spam[0].tag == Some(Spam)
    else
      rec'.processing == PendingSpam && rec'.message == rec.message && |rec'.spam| == 1 && |rec'.level| == 1
      && O.LeadCreated(l) in events
  }

  /** Where the loop is after n leads. */
  ghost predicate BackfillTo(leads: Leads, events: Events, leads': Leads, events': Events, scan: seq<Id>, n: nat,
                             sum: BackfillSummary, emptyIsSpam: bool, apply: bool, now: real)
    requires n <= |scan| && forall l :: l in scan ==> l in leads
  {
    && Done(leads, events, leads', events', scan[..n], emptyIsSpam, apply, now)
    && sum == Tally(AllNeeds(leads, events, scan, emptyIsSpam), n)
  }

  lemma ScanKnown(leads: Leads, scan: seq<Id>)
    requires LegacyScan(leads, scan)
    ensures forall l :: l in scan ==> l in leads
  {
  }

  class Backend {
    var leads: Leads
    var events: Events

    constructor ()
      ensures leads == map[] && events == map[]
    {
      leads, events := map[], map[];
    }

    /** `create_inquiry`. `missingFields` says whether the user's profile lacks a required field and `id`
        is the identifier drawn for the new lead. */
    method CreateInquiry(id: Id, listing: Option<Listing>, userExists: bool, missingFields: bool, message: Option<string>, now: real)
      returns (r: Result<Id, CreateError>)
      requires id !in leads && RowInv(leads, events)
      modifies this
      ensures RowInv(leads, events)
      ensures r.Ok? <==>
        && listing.Some? && listing.value.active && userExists && !missingFields
        && message.Some? && !IsBlank(message.value) && O.LeadCreated(id) !in old(events)
      ensures r.Err? ==> leads == old(leads) && events == old(events)
      ensures r.Ok? ==>
        var text := Strip(message.value);
        && leads == old(leads)[id := NewLead(listing.value.tenant, text)]
        && events == old(events)[O.LeadCreated(id) := LeadEvent(id, listing.value.tenant, text, now)]
        && !IsBlank(text) && InquiryStored(leads[id], events[O.LeadCreated(id)], id, listing.value.tenant, text, now)
    {
      if listing.None? || !listing.value.active {
        return Err(ListingNotFound);
      }
      if !userExists {
        return Err(UserNotFound);
      }
      if missingFields {
        return Err(ProfileIncomplete);
      }
      var text := Strip(if message.Some? then message.value else "");
      StripBlank(if message.Some? then message.value else "");
      if text == "" {
        return Err(EmptyMessage);
      }
      if O.LeadCreated(id) in events {
        return Err(DuplicateKey);
      }
      var tenant := listing.value.tenant;
      leads := leads[id := LeadRecord(tenant, text, PendingSpam, New, [], [])];
      CreatePending(id, SpamStage);
      CreatePending(id, LevelStage);
      assert leads[id] == NewLead(tenant, text);
      events := events[O.LeadCreated(id) := LeadEvent(id, tenant, text, now)];
      r := Ok(id);
    }

    method CreatePending(id: Id, stage: Stage)
      requires id in leads
      modifies this`leads
      ensures leads == old(leads)[id := SetRows(old(leads)[id], stage, RowsOf(old(leads)[id], stage) + [PENDING_ROW])]
    {
      var rec := leads[id];
      leads := leads[id := SetRows(rec, stage, RowsOf(rec, stage) + [PENDING_ROW])];
    }

    /** `get_by_idempotency`: a lookup that fails when several rows match. */
    method GetByIdempotency(id: Id, stage: Stage, key: RowKey) returns (r: Result<Option<ResultRow>, CallbackError>)
      requires id in leads
      ensures var found := WithKey(RowsOf(leads[id], stage), key);
              r == if |found| > 1 then Err(MultipleRows) else if |found| == 1 then Ok(Some(found[0])) else Ok(None)
    {
      var found := WithKey(RowsOf(leads[id], stage), key);
      if |found| > 1 {
        r := Err(MultipleRows);
      } else if |found| == 1 {
        r := Ok(Some(found[0]));
      } else {
        r := Ok(None);
      }
    }

    /** `upsert_result`: inserts the lead's row or overwrites the fields the callback carries. */
    method UpsertResult(cb: Callback) returns (r: Result<ResultRow, CallbackError>)
      requires cb.lead in leads
      modifies this`leads
      ensures var rec := old(leads)[cb.lead];
              var rows := RowsOf(rec, cb.stage);
              && (r.Err? <==> |rows| > 1)
              && (r.Err? ==> r == Err(MultipleRows) && leads == old(leads))
              && (r.Ok? ==>
                    && r.value == (if rows == [] then InsertedRow(cb) else UpdatedRow(rows[0], cb))
                    && leads == old(leads)[cb.lead := SetRows(rec, cb.stage, [r.value])])
      ensures r.Ok? ==> Carries(r.value, cb, RowsOf(old(leads)[cb.lead], cb.stage))
    {
      var rec := leads[cb.lead];
      var rows := RowsOf(rec, cb.stage);
      if |rows| > 1 {
        return Err(MultipleRows);
      }
      var row;
      if |rows| == 0 {
        row := ResultRow(cb.status, cb.tag, cb.score, cb.details, cb.retryCount, Some(KeyOf(cb)));
      } else {
        row := rows[0].(status := cb.status);
        if cb.tag.Some? { row := row.(tag := cb.tag); }
        if cb.score.Some? { row := row.(score := cb.score); }
        if cb.details.Some? { row := row.(details := cb.details); }
        row := row.(retryCount := cb.retryCount, key := Some(KeyOf(cb)));
      }
      leads := leads[cb.lead := SetRows(rec, cb.stage, [row])];
      r := Ok(row);
    }

    method SetProcessing(id: Id, status: Status)
      requires id in leads
      modifies this`leads
      ensures leads == old(leads)[id := old(leads)[id].(processing := status)]
    {
      leads := leads[id := leads[id].(processing := status)];
    }

    /** `process_spam_callback` and `process_level_callback`, which differ only in the rows they touch and
        in the status they set; an error rolls the transaction back. */
    method ClassificationCallback(cb: Callback) returns (r: Result<ResultRow, CallbackError>)
      modifies this`leads
      ensures r.Ok? <==> ApplyCallback(old(leads), cb).Ok?
      ensures r.Ok? ==> leads == ApplyCallback(old(leads), cb).value
      ensures r.Err? ==> leads == old(leads) && r.error == ApplyCallback(old(leads), cb).error
      ensures RowInv(old(leads), events) ==> RowInv(leads, events)
      ensures r.Ok? ==>
        var before, after := RowsOf(old(leads)[cb.lead], cb.stage), RowsOf(leads[cb.lead], cb.stage);
        WithKey(before, KeyOf(cb)) == [] ==> after == [r.value] && Carries(r.value, cb, before)
    {
      if cb.lead !in leads {
        return Err(LeadNotFound);
      }
      if leads[cb.lead].tenant != cb.tenant {
        return Err(TenantMismatch);
      }
      if RowInv(leads, events) {
        CallbackKeepsRows(leads[cb.lead], cb, events);
      }
      var existing := GetByIdempotency(cb.lead, cb.stage, KeyOf(cb));
      match existing {
        case Err(e) => return Err(e);
        case Ok(Some(row)) =>
          assert leads[cb.lead := leads[cb.lead]] == leads;
          return Ok(row);
        case Ok(None) =>
      }
      r := UpsertResult(cb);
      if r.Err? {
        return;
      }
      if cb.stage.SpamStage? {
        if cb.status.Completed? {
          SetProcessing(cb.lead, if cb.tag == Some(Spam) then Completed else PendingLevel);
        } else if cb.status.Failed? {
          SetProcessing(cb.lead, Failed);
        }
      } else {
        if cb.status.Completed? {
          SetProcessing(cb.lead, Completed);
        } else if cb.status.Failed? {
          SetProcessing(cb.lead, Failed);
        }
      }
    }

    /** One turn of the backfill loop. */
    method BackfillOne(l: Id, emptyIsSpam: bool, apply: bool, now: real, before: BackfillSummary) returns (sum: BackfillSummary)
      requires l in leads && |leads[l].spam| <= 1 && |leads[l].level| <= 1
      modifies this
      ensures sum == Counted(before, NeedsOf(l, old(leads)[l], old(events), emptyIsSpam))
      ensures Turn(old(leads), old(events), leads, events, l, emptyIsSpam, apply, now)
    {
      sum := before;
      var rec := leads[l];
      if rec.spam == [] {
        sum := sum.(spamRows := sum.spamRows + 1);
      }
      if IsBlank(rec.message) && emptyIsSpam {
        sum := sum.(emptyCompleted := sum.emptyCompleted + 1);
        if apply {
          var row := (if rec.spam == [] then PENDING_ROW else rec.spam[0]).(
            status := Completed, tag := Some(Spam), score := Some(1.0),
            details := Some("empty_message_legacy_backfill"), key := Some(LegacyEmptyKey(l)));
          leads := leads[l := rec.(spam := [row], processing := Completed)];
        }
        return;
      }
      sum := sum.(nonEmptyQueued := sum.nonEmptyQueued + 1);
      if rec.level == [] {
        sum := sum.(levelRows := sum.levelRows + 1);
      }
      if O.LeadCreated(l) !in events {
        sum := sum.(outboxRows := sum.outboxRows + 1);
        if apply {
          events := events[O.LeadCreated(l) := LeadEvent(l, rec.tenant, rec.message, now)];
        }
      }
      if apply {
        var spam := if rec.spam == [] then [PENDING_ROW] else rec.spam;
        var level := if rec.level == [] then [PENDING_ROW] else rec.level;
        leads := leads[l := rec.(spam := spam, level := level, processing := PendingSpam)];
      }
    }

    /** The i-th turn, as a step of the whole run. */
    method BackfillNext(ghost leads0: Leads, ghost events0: Events, scan: seq<Id>, i: nat, emptyIsSpam: bool, apply: bool, now: real,
                        before: BackfillSummary) returns (sum: BackfillSummary)
      requires i < |scan| && LegacyScan(leads0, scan) && RowInv(leads0, events0)
      requires BackfillTo(leads0, events0, leads, events, scan, i, before, emptyIsSpam, apply, now)
      modifies this
      ensures BackfillTo(leads0, events0, leads, events, scan, i + 1, sum, emptyIsSpam, apply, now)
    {
      ghost var leads1, events1 := leads, events;
      TurnReady(leads0, events0, leads, events, scan, i, emptyIsSpam, apply, now);
      sum := BackfillOne(scan[i], emptyIsSpam, apply, now, before);
      TurnDone(leads0, events0, leads1, events1, leads, events, scan, i, emptyIsSpam, apply, now);
    }

    /** `backfill_legacy_lead_processing` over the scanned leads. Without `apply` nothing is kept, and the
        counters are the same either way. */
    method BackfillLegacy(scan: seq<Id>, emptyIsSpam: bool, apply: bool, now: real) returns (sum: BackfillSummary)
      requires LegacyScan(leads, scan) && RowInv(leads, events)
      modifies this
      ensures RowInv(leads, events)
      ensures sum == Tally(AllNeeds(old(leads), old(events), scan, emptyIsSpam), |scan|)
      ensures Done(old(leads), old(events), leads, events, scan, emptyIsSpam, apply, now)
      ensures apply ==> forall l :: l in leads ==> !leads[l].processing.Pending?
      ensures apply ==> leads.Keys == old(leads).Keys
      ensures apply ==> forall l :: l in scan ==> l in leads && LegacyResolved(l, old(leads)[l], leads[l], events, emptyIsSpam)
    {
      sum := BackfillSummary(0, 0, 0, 0, 0);
      ghost var leads0, events0 := leads, events;
      ScanKnown(leads, scan);
      var i := 0;
      while i < |scan|
        invariant 0 <= i <= |scan|
        invariant BackfillTo(leads0, events0, leads, events, scan, i, sum, emptyIsSpam, apply, now)
      {
        sum := BackfillNext(leads0, events0, scan, i, emptyIsSpam, apply, now, sum);
        i := i + 1;
      }
      assert scan[..|scan|] == scan;
      BackfillComplete(leads0, events0, leads, events, scan, emptyIsSpam, apply, now);
    }
  }
}
