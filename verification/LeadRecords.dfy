/** The lead tables as values, and the effect of one classification callback on them
    (backend/app/leads/service.py, backend/app/leads/repository.py, backend/app/leads/router.py). */
module LeadRecords {
  import opened Common

  /** `Lead.processing_status`; the result rows use the same words for their own status. */
  datatype Status = Pending | PendingSpam | PendingLevel | Completed | Failed

  predicate Terminal(status: Status) { status.Completed? || status.Failed? }

  datatype Stage = SpamStage | LevelStage

  datatype Label = Spam | NotSpam | Hot | Normal | OtherLabel(text: string)

  /** Idempotency keys written into result rows. */
  datatype RowKey =
    | CallbackKey(lead: Id, stage: Stage, retryCount: int)
    | LegacyEmptyKey(lead: Id)

  datatype ResultRow = ResultRow(
    status: Status,
    tag: Option<Label>,
    score: Option<real>,
    details: Option<string>,
    retryCount: int,
    key: Option<RowKey>)

  datatype Review = New | Reviewed | Closed

  /** A lead with the spam rows and level rows that point at it. The tables carry no uniqueness
      constraint on the lead, so each side is a sequence. */
  datatype LeadRecord = LeadRecord(
    tenant: Id,
    message: string,
    processing: Status,
    review: Review,
    spam: seq<ResultRow>,
    level: seq<ResultRow>)

  datatype Callback = Callback(
    lead: Id,
    tenant: Id,
    stage: Stage,
    status: Status,
    tag: Option<Label>,
    score: Option<real>,
    details: Option<string>,
    retryCount: int)

  datatype CallbackError = LeadNotFound | TenantMismatch | MultipleRows

  /** The row `create_pending` inserts. */
  const PENDING_ROW := ResultRow(Pending, None, None, None, 0, None)

  /** A lead as `create_inquiry` commits it. */
  function NewLead(tenant: Id, message: string): LeadRecord {
    LeadRecord(tenant, message, PendingSpam, New, [PENDING_ROW], [PENDING_ROW])
  }

  /** The key the callback endpoint derives from the request. */
  function KeyOf(cb: Callback): RowKey { CallbackKey(cb.lead, cb.stage, cb.retryCount) }

  function Keep<T>(given: Option<T>, stored: Option<T>): Option<T> {
    if given.Some? then given else stored
  }

  function InsertedRow(cb: Callback): ResultRow {
    ResultRow(cb.status, cb.tag, cb.score, cb.details, cb.retryCount, Some(KeyOf(cb)))
  }

  function UpdatedRow(row: ResultRow, cb: Callback): ResultRow {
    ResultRow(cb.status, Keep(cb.tag, row.tag), Keep(cb.score, row.score),
              Keep(cb.details, row.details), cb.retryCount, Some(KeyOf(cb)))
  }

  /** The rows a lookup by idempotency key selects. */
  function WithKey(rows: seq<ResultRow>, key: RowKey): seq<ResultRow> {
    if rows == [] then []
    else if rows[0].key == Some(key) then [rows[0]] + WithKey(rows[1..], key)
    else WithKey(rows[1..], key)
  }

  function StatusAfterSpam(cb: Callback, current: Status): Status {
    match cb.status
    case Completed => if cb.tag == Some(Spam) then Completed else PendingLevel
    case Failed => Failed
    case _ => current
  }

  function StatusAfterLevel(cb: Callback, current: Status): Status {
    if Terminal(cb.status) then cb.status else current
  }

  function RowsOf(rec: LeadRecord, stage: Stage): seq<ResultRow> {
    if stage.SpamStage? then rec.spam else rec.level
  }

  function SetRows(rec: LeadRecord, stage: Stage, rows: seq<ResultRow>): LeadRecord {
    if stage.SpamStage? then rec.(spam := rows) else rec.(level := rows)
  }

  function StatusAfter(cb: Callback, current: Status): Status {
    if cb.stage.SpamStage? then StatusAfterSpam(cb, current) else StatusAfterLevel(cb, current)
  }

  /** One callback against one lead: tenant check, key lookup, upsert, status update. */
  function CallbackOnRecord(rec: LeadRecord, cb: Callback): Result<LeadRecord, CallbackError> {
    var rows := RowsOf(rec, cb.stage);
    var known := WithKey(rows, KeyOf(cb));
    if rec.tenant != cb.tenant then Err(TenantMismatch)
    else if |known| > 1 then Err(MultipleRows)
    else if |known| == 1 then Ok(rec)
    else if |rows| > 1 then Err(MultipleRows)
    else
      var rows' := if rows == [] then [InsertedRow(cb)] else [UpdatedRow(rows[0], cb)];
      Ok(SetRows(rec, cb.stage, rows').(processing := StatusAfter(cb, rec.processing)))
  }

  /** The endpoint's transaction on the whole table. */
  function ApplyCallback(leads: map<Id, LeadRecord>, cb: Callback): Result<map<Id, LeadRecord>, CallbackError> {
    if cb.lead !in leads then Err(LeadNotFound)
    else match CallbackOnRecord(leads[cb.lead], cb)
      case Ok(rec) => Ok(leads[cb.lead := rec])
      case Err(e) => Err(e)
  }

  // ---- What a lead looks like while every callback carries retry count 0 ----

  predicate SpamSettled(rec: LeadRecord) { |rec.spam| == 1 && rec.spam[0].key.Some? }

  predicate LevelSettled(rec: LeadRecord) { |rec.level| == 1 && rec.level[0].key.Some? }

  predicate Settled(rec: LeadRecord, stage: Stage) {
    if stage.SpamStage? then SpamSettled(rec) else LevelSettled(rec)
  }

  /** The recorded spam row is a completed verdict other than spam. */
  predicate RecordedNotSpam(rec: LeadRecord) {
    SpamSettled(rec) && rec.spam[0].status.Completed? && rec.spam[0].tag != Some(Spam)
  }

  /** The processing status, read off the two result rows alone. */
  function StatusOfRows(spam: ResultRow, level: ResultRow): Status {
    if level.key.Some? then level.status
    else if spam.key.None? then PendingSpam
    else if spam.status.Failed? then Failed
    else if spam.tag == Some(Spam) then Completed
    else PendingLevel
  }

  /** The invariant of one lead: exactly one row per stage, keys that can only be the retry-0 callback
      keys, a level verdict only after a spam verdict, and a status determined by the rows. */
  predicate RecordOk(id: Id, rec: LeadRecord) {
    && |rec.spam| == 1 && |rec.level| == 1
    && rec.spam[0].key in {None, Some(CallbackKey(id, SpamStage, 0))}
    && rec.level[0].key in {None, Some(CallbackKey(id, LevelStage, 0))}
    && (SpamSettled(rec) ==> SpamVerdictRow(rec.spam[0]))
    && (!SpamSettled(rec) ==> rec.spam[0] == PENDING_ROW)
    && (!LevelSettled(rec) ==> rec.level[0] == PENDING_ROW)
    && (LevelSettled(rec) ==> SpamSettled(rec) && Terminal(rec.level[0].status))
    && rec.processing == StatusOfRows(rec.spam[0], rec.level[0])
  }

  predicate SpamVerdictRow(row: ResultRow) {
    || (row.status.Completed? && row.tag in {Some(Spam), Some(NotSpam)})
    || (row.status.Failed? && row.tag.None?)
  }

  /** The callbacks the model service and the fail-open path can build. */
  predicate WellFormed(cb: Callback) {
    && cb.retryCount == 0
    && (cb.stage.SpamStage? ==>
          || (cb.status.Completed? && cb.tag in {Some(Spam), Some(NotSpam)})
          || (cb.status.Failed? && cb.tag.None?))
    && (cb.stage.LevelStage? ==> Terminal(cb.status))
  }

  /** What every callback, in any order, leaves in place. */
  predicate Advances(rec: LeadRecord, rec': LeadRecord) {
    && rec'.tenant == rec.tenant && rec'.message == rec.message && rec'.review == rec.review
    && (SpamSettled(rec) ==> rec'.spam == rec.spam)
    && (LevelSettled(rec) ==> rec'.level == rec.level)
    && (Terminal(rec.processing) ==> Terminal(rec'.processing))
  }

  /** A lookup in a table with one row for the lead. */
  lemma OneRowLookup(row: ResultRow, key: RowKey)
    ensures WithKey([row], key) == if row.key == Some(key) then [row] else []
  {
    assert [row][1..] == [];
  }

  /** A well-formed callback is always accepted, keeps the lead's invariant, settles its own stage,
      never rewrites a settled row, never leaves a terminal status and never touches the review. */
  lemma CallbackKeepsRecord(rec: LeadRecord, cb: Callback)
    requires RecordOk(cb.lead, rec) && WellFormed(cb) && cb.tenant == rec.tenant
    requires cb.stage.LevelStage? ==> SpamSettled(rec)
    ensures CallbackOnRecord(rec, cb).Ok?
    ensures var rec' := CallbackOnRecord(rec, cb).value;
            RecordOk(cb.lead, rec') && Settled(rec', cb.stage) && Advances(rec, rec')
  {
    var rows := RowsOf(rec, cb.stage);
    assert rows == [rows[0]];
    OneRowLookup(rows[0], KeyOf(cb));
  }

  /** The row has the callback's status, retry count and key; a tag, score or details it carries is stored,
      and one it leaves out is what the rows held before. */
  predicate Carries(row: ResultRow, cb: Callback, before: seq<ResultRow>) {
    && row.status == cb.status && row.retryCount == cb.retryCount
    && row.key == Some(CallbackKey(cb.lead, cb.stage, cb.retryCount))
    && row.tag == (if cb.tag.Some? then cb.tag else if before == [] then None else before[0].tag)
    && row.score == (if cb.score.Some? then cb.score else if before == [] then None else before[0].score)
    && row.details == (if cb.details.Some? then cb.details else if before == [] then None else before[0].details)
  }

  /** What is on record once a callback that is not a repetition has been accepted: the stage has one row
      and it carries the callback. The other stage, the message, the tenant and the review stay. */
  lemma CallbackIsRecorded(rec: LeadRecord, cb: Callback)
    requires rec.tenant == cb.tenant && |RowsOf(rec, cb.stage)| <= 1
    requires forall row :: row in RowsOf(rec, cb.stage) ==> row.key != Some(CallbackKey(cb.lead, cb.stage, cb.retryCount))
    ensures CallbackOnRecord(rec, cb).Ok?
    ensures var rec' := CallbackOnRecord(rec, cb).value;
            var before, after := if cb.stage.SpamStage? then rec.spam else rec.level, if cb.stage.SpamStage? then rec'.spam else rec'.level;
            && |after| == 1 && Carries(after[0], cb, before)
            && (cb.stage.SpamStage? ==> rec'.level == rec.level) && (cb.stage.LevelStage? ==> rec'.spam == rec.spam)
            && rec'.tenant == rec.tenant && rec'.message == rec.message && rec'.review == rec.review
  {
    var rows := RowsOf(rec, cb.stage);
    if rows != [] {
      assert rows == [rows[0]] && rows[0] in rows;
      OneRowLookup(rows[0], KeyOf(cb));
    }
  }

  /** The status it leaves the lead in. */
  lemma CallbackMovesLead(rec: LeadRecord, cb: Callback)
    requires rec.tenant == cb.tenant && |RowsOf(rec, cb.stage)| <= 1
    requires forall row :: row in RowsOf(rec, cb.stage) ==> row.key != Some(CallbackKey(cb.lead, cb.stage, cb.retryCount))
    ensures CallbackOnRecord(rec, cb).Ok?
    ensures var status := CallbackOnRecord(rec, cb).value.processing;
            && (cb.status.Failed? ==> status == Failed)
            && (cb.status.Completed? && cb.stage.LevelStage? ==> status == Completed)
            && (cb.status.Completed? && cb.stage.SpamStage? && cb.tag == Some(Spam) ==> status == Completed)
            && (cb.status.Completed? && cb.stage.SpamStage? && cb.tag != Some(Spam) ==> status == PendingLevel)
            && (!cb.status.Failed? && !cb.status.Completed? ==> status == rec.processing)
  {
    CallbackIsRecorded(rec, cb);
    var rows := RowsOf(rec, cb.stage);
    if rows != [] {
      assert rows == [rows[0]] && rows[0] in rows;
      OneRowLookup(rows[0], KeyOf(cb));
    }
  }

  /** A repetition of the callback stored last, one for another tenant, and one that meets several rows
      change nothing; only the first of these succeeds. */
  lemma CallbackRefused(rec: LeadRecord, cb: Callback)
    ensures rec.tenant != cb.tenant ==> CallbackOnRecord(rec, cb) == Err(TenantMismatch)
    ensures rec.tenant == cb.tenant && |RowsOf(rec, cb.stage)| > 1 && WithKey(RowsOf(rec, cb.stage), KeyOf(cb)) == [] ==>
              CallbackOnRecord(rec, cb) == Err(MultipleRows)
    ensures rec.tenant == cb.tenant && |RowsOf(rec, cb.stage)| == 1
            && RowsOf(rec, cb.stage)[0].key == Some(CallbackKey(cb.lead, cb.stage, cb.retryCount)) ==>
              CallbackOnRecord(rec, cb) == Ok(rec)
  {
    var rows := RowsOf(rec, cb.stage);
    if |rows| == 1 {
      assert rows == [rows[0]];
      OneRowLookup(rows[0], KeyOf(cb));
    }
  }

  /** Whatever the retry counts: a callback takes a terminal lead back to a pending status exactly when
      it is a completed non-spam spam callback whose key is not the one stored last. */
  lemma ReopensExactlyWhen(rec: LeadRecord, cb: Callback)
    requires |rec.spam| == 1 && |rec.level| == 1 && cb.tenant == rec.tenant && Terminal(rec.processing)
    ensures CallbackOnRecord(rec, cb).Ok?
    ensures !Terminal(CallbackOnRecord(rec, cb).value.processing) <==>
            && cb.stage.SpamStage? && cb.status.Completed? && cb.tag != Some(Spam)
            && rec.spam[0].key != Some(KeyOf(cb))
  {
    var rows := RowsOf(rec, cb.stage);
    assert rows == [rows[0]];
    OneRowLookup(rows[0], KeyOf(cb));
  }

  /** Such a callback can repeat an earlier one, because only the last key is remembered: spam
      callbacks with retry counts 0, 1, 0 leave a completed lead in `pending_level`. */
  lemma AlternatingRetryCountsReopen(id: Id, rec: LeadRecord, first: Callback, second: Callback)
    requires RecordOk(id, rec) && rec.processing == PendingSpam
    requires first == Callback(id, rec.tenant, SpamStage, Completed, Some(NotSpam), None, None, 0)
    requires second == first.(tag := Some(Spam), retryCount := 1)
    ensures CallbackOnRecord(rec, first).Ok?
    ensures var rec1 := CallbackOnRecord(rec, first).value;
            CallbackOnRecord(rec1, second).Ok?
    ensures var rec1 := CallbackOnRecord(rec, first).value;
            var rec2 := CallbackOnRecord(rec1, second).value;
            && rec2.processing == Completed
            && CallbackOnRecord(rec2, first).Ok?
            && CallbackOnRecord(rec2, first).value.processing == PendingLevel
  {
    assert rec.spam == [rec.spam[0]];
    OneRowLookup(rec.spam[0], KeyOf(first));
    var rec1 := CallbackOnRecord(rec, first).value;
    OneRowLookup(rec1.spam[0], KeyOf(second));
    var rec2 := CallbackOnRecord(rec1, second).value;
    OneRowLookup(rec2.spam[0], KeyOf(first));
  }
}
