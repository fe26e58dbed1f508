/** The transactional outbox (workers/outbox.py, backend/app/common/events.py): rows, claims, delivery,
    retry with backoff and dead-lettering. Times are in seconds. */
module Outbox {
  import opened Common

  datatype EventStatus = Pending | Processing | Delivered | DeadLetter

  /** The unique idempotency keys under which lead events are published. */
  datatype EventKey =
    | LeadCreated(lead: Id)
    | RepairLeadCreated(lead: Id)
    | OtherKey(text: string)

  datatype EventName = LeadCreatedEvent | OtherEvent(text: string)

  datatype Payload = Payload(lead: Id, tenant: Id, message: string)

  datatype OutboxRow = OutboxRow(
    name: EventName,
    aggregate: Id,
    payload: Payload,
    status: EventStatus,
    retryCount: int,
    maxRetries: int,
    lastError: Option<string>,
    createdAt: real,
    availableAt: real,
    processedAt: Option<real>,
    updatedAt: real)

  const DEFAULT_MAX_RETRIES := 3

  /** The row `publish_outbox_event_in_session` adds. */
  function PublishedRow(name: EventName, aggregate: Id, payload: Payload, now: real): OutboxRow {
    OutboxRow(name, aggregate, payload, Pending, 0, DEFAULT_MAX_RETRIES, None, now, now, None, now)
  }

  /** A published event can be claimed at once and has all its retries before it. */
  lemma PublishedIsClaimable(name: EventName, aggregate: Id, payload: Payload, now: real)
    ensures var row := PublishedRow(name, aggregate, payload, now);
            && Claimable(row, now) && row.retryCount == 0 && row.maxRetries == 3
            && row.name == name && row.aggregate == aggregate && row.payload == payload
            && row.lastError.None? && row.processedAt.None?
  {
  }

  predicate Final(status: EventStatus) { status.Delivered? || status.DeadLetter? }

  predicate Claimable(row: OutboxRow, now: real) {
    row.status.Pending? && row.availableAt <= now
  }

  function ClaimRow(row: OutboxRow, now: real): OutboxRow {
    row.(status := Processing, updatedAt := now)
  }

  function DeliverRow(row: OutboxRow, now: real): OutboxRow {
    row.(status := Delivered, processedAt := Some(now), updatedAt := now)
  }

  function Pow2(n: nat): nat { if n == 0 then 1 else 2 * Pow2(n - 1) }

  const MAX_DELAY := 300

  /** The delay before the jitter. */
  function BaseDelay(retryCount: int): int {
    Min(MAX_DELAY, 5 * Pow2(Max(0, retryCount)))
  }

  /** A random number in [0, 1]. */
  type Draw = d: real | 0.0 <= d <= 1.0

  /** `random.uniform(low, high)`, with the random number as a parameter. */
  function Uniform(low: real, high: real, draw: Draw): real { low + (high - low) * draw }

  function JitteredDelay(retryCount: int, draw: Draw): real {
    var base := BaseDelay(retryCount) as real;
    Uniform(base * 0.75, base * 1.25, draw)
  }

  function RetryRow(row: OutboxRow, retryCount: int, maxRetries: int, error: string, now: real, draw: Draw): OutboxRow
  {
    var failed := row.(retryCount := retryCount + 1, lastError := Some(error), updatedAt := now);
    if retryCount + 1 >= maxRetries then failed.(status := DeadLetter, availableAt := now)
    else failed.(status := Pending, availableAt := now + JitteredDelay(retryCount, draw))
  }

  // ---- The table, updated in place ----

  datatype HandlerOutcome = Succeeds | Raises(error: string)

  /** The row that `ORDER BY available_at LIMIT 1` over the claimable rows may return. */
  ghost predicate Earliest(rows: map<EventKey, OutboxRow>, key: EventKey, now: real) {
    && key in rows && Claimable(rows[key], now)
    && forall other :: other in rows && Claimable(rows[other], now) ==> rows[key].availableAt <= rows[other].availableAt
  }

  /** The row a whole dispatch leaves behind. */
  function DispatchedRow(row: OutboxRow, known: bool, outcome: HandlerOutcome, claimedAt: real, doneAt: real, draw: Draw): OutboxRow
  {
    var claimed := ClaimRow(row, claimedAt);
    if !known then RetryRow(claimed, row.retryCount, row.maxRetries, "no handler registered", doneAt, draw)
    else match outcome
      case Succeeds => DeliverRow(claimed, doneAt)
      case Raises(error) => RetryRow(claimed, row.retryCount, row.maxRetries, error, doneAt, draw)
  }

  /** The row after a dispatch, read off its fields: delivered with the time, or one more failure, and then
      dead-lettered when that was the last one allowed, and otherwise out of reach for between three and
      five quarters of 5 * 2^r seconds, at most 300, r being the number of earlier failures. */
  predicate DispatchRecorded(row: OutboxRow, row': OutboxRow, delivered: bool, now: real) {
    && row'.name == row.name && row'.aggregate == row.aggregate && row'.payload == row.payload
    && row'.maxRetries == row.maxRetries && row'.createdAt == row.createdAt && row'.updatedAt == now
    && if delivered then
         row'.status.Delivered? && row'.processedAt == Some(now) && row'.retryCount == row.retryCount
       else
         && row'.retryCount == row.retryCount + 1 && row'.lastError.Some? && row'.processedAt == row.processedAt
         && (row'.status.DeadLetter? <==> row.retryCount + 1 >= row.maxRetries)
         && (row'.status.DeadLetter? || Rescheduled(row', row.retryCount, now))
  }

  predicate Rescheduled(row: OutboxRow, retryCount: int, now: real) {
    var base := (if 5 * Pow2(Max(0, retryCount)) < 300 then 5 * Pow2(Max(0, retryCount)) else 300) as real;
    && row.status.Pending? && !Claimable(row, now)
    && base * 0.75 <= row.availableAt - now <= base * 1.25
  }

  lemma EarliestExists(rows: map<EventKey, OutboxRow>, keys: set<EventKey>, now: real) returns (key: EventKey)
    requires keys != {} && keys <= rows.Keys
    requires forall k :: k in keys ==> Claimable(rows[k], now)
    ensures key in keys && forall k :: k in keys ==> rows[key].availableAt <= rows[k].availableAt
  {
    key :| key in keys;
    if keys != {key} {
      var rest := EarliestExists(rows, keys - {key}, now);
      if rows[rest].availableAt < rows[key].availableAt {
        key := rest;
      }
    }
  }

  /** A failed attempt that was not the last one puts the event out of reach for its backoff. */
  lemma RetryIsDelayed(row: OutboxRow, retryCount: int, maxRetries: int, error: string, now: real, draw: Draw)
    requires retryCount + 1 < maxRetries
    ensures Rescheduled(RetryRow(row, retryCount, maxRetries, error, now, draw), retryCount, now)
  {
    Pow2Grows(0, Max(0, retryCount));
    var base := BaseDelay(retryCount) as real;
    assert base >= 5.0;
    UniformBounds(base * 0.75, base * 1.25, draw);
  }

  lemma Dispatched(row: OutboxRow, known: bool, outcome: HandlerOutcome, claimedAt: real, doneAt: real, draw: Draw)
    ensures DispatchRecorded(row, DispatchedRow(row, known, outcome, claimedAt, doneAt, draw), known && outcome.Succeeds?, doneAt)
  {
    if row.retryCount + 1 < row.maxRetries {
      var error := if outcome.Raises? && known then outcome.error else "no handler registered";
      RetryIsDelayed(ClaimRow(row, claimedAt), row.retryCount, row.maxRetries, error, doneAt, draw);
    }
  }

  class OutboxTable {
    var rows: map<EventKey, OutboxRow>

    constructor ()
      ensures rows == map[]
    {
      rows := map[];
    }

    /** Claims one earliest claimable row, or reports that there is none. */
    method ClaimPendingEvent(now: real) returns (claimed: Option<EventKey>)
      modifies this
      ensures claimed.None? ==> rows == old(rows) && forall k :: k in rows ==> !Claimable(rows[k], now)
      ensures claimed.Some? ==>
        Earliest(old(rows), claimed.value, now)
        && rows == old(rows)[claimed.value := ClaimRow(old(rows)[claimed.value], now)]
    {
      var candidates := set k | k in rows && Claimable(rows[k], now);
      if candidates == {} {
        assert forall k :: k in rows && Claimable(rows[k], now) ==> k in candidates;
        return None;
      }
      ghost var earliest := EarliestExists(rows, candidates, now);
      assert earliest in candidates;
      var key :| key in candidates && forall k :: k in candidates ==> rows[key].availableAt <= rows[k].availableAt;
      rows := rows[key := ClaimRow(rows[key], now)];
      claimed := Some(key);
    }

    method MarkDelivered(key: EventKey, now: real)
      modifies this
      ensures rows == if key in old(rows) then old(rows)[key := DeliverRow(old(rows)[key], now)] else old(rows)
    {
      if key in rows {
        rows := rows[key := rows[key].(status := Delivered, processedAt := Some(now), updatedAt := now)];
      }
    }

    method MarkRetry(key: EventKey, retryCount: int, maxRetries: int, error: string, now: real, draw: Draw)
        modifies this
      ensures rows == if key in old(rows) then old(rows)[key := RetryRow(old(rows)[key], retryCount, maxRetries, error, now, draw)]
                      else old(rows)
      ensures key in old(rows) ==>
        && rows[key].retryCount == retryCount + 1 && rows[key].lastError == Some(error)
        && (if retryCount + 1 >= maxRetries then rows[key].status.DeadLetter? else Rescheduled(rows[key], retryCount, now))
    {
      if retryCount + 1 < maxRetries && key in rows {
        RetryIsDelayed(rows[key], retryCount, maxRetries, error, now, draw);
      }
      var newRetry := retryCount + 1;
      var status, availableAt := Pending, now;
      if newRetry >= maxRetries {
        status := DeadLetter;
      } else {
        var delay := Min(MAX_DELAY, 5 * Pow2(Max(0, retryCount))) as real;
        assert delay == BaseDelay(retryCount) as real;
        availableAt := now + Uniform(delay * 0.75, delay * 1.25, draw);
      }
      if key in rows {
        var row := rows[key].(status := status, retryCount := newRetry, lastError := Some(error),
                              availableAt := availableAt, updatedAt := now);
        assert row == RetryRow(rows[key], retryCount, maxRetries, error, now, draw);
        rows := rows[key := row];
      }
    }

    /** One turn of the polling loop. `handlers` are the registered event names and `outcome` is what the
        handler does when it is called. */
    method ClaimAndDispatch(handlers: set<EventName>, outcome: HandlerOutcome, claimedAt: real, doneAt: real, draw: Draw)
      returns (event: Option<EventKey>)
        modifies this
      ensures event.None? <==> forall k :: k in old(rows) ==> !Claimable(old(rows)[k], claimedAt)
      ensures event.None? ==> rows == old(rows)
      ensures event.Some? ==>
        Earliest(old(rows), event.value, claimedAt)
        && var row := old(rows)[event.value];
           && rows == old(rows)[event.value := DispatchedRow(row, row.name in handlers, outcome, claimedAt, doneAt, draw)]
           && DispatchRecorded(row, rows[event.value], row.name in handlers && outcome.Succeeds?, doneAt)
    {
      event := ClaimPendingEvent(claimedAt);
      if event.None? {
        return;
      }
      var key := event.value;
      ghost var row := old(rows)[key];
      Dispatched(row, row.name in handlers, outcome, claimedAt, doneAt, draw);
      var retries, maxRetries := rows[key].retryCount, rows[key].maxRetries;
      if rows[key].name !in handlers {
        MarkRetry(key, retries, maxRetries, "no handler registered", doneAt, draw);
      } else {
        match outcome {
          case Succeeds => MarkDelivered(key, doneAt);
          case Raises(error) => MarkRetry(key, retries, maxRetries, error, doneAt, draw);
        }
      }
    }
  }

  // ---- Backoff arithmetic ----

  lemma {:induction false} Pow2Grows(m: nat, n: nat)
    requires m <= n
    ensures 1 <= Pow2(m) <= Pow2(n)
  {
    if m < n {
      Pow2Grows(m, n - 1);
    } else if m > 0 {
      Pow2Grows(m - 1, n - 1);
    }
  }

  lemma Scaled(width: real, draw: Draw, part: real)
    requires 0.0 <= width && part == width * draw
    ensures 0.0 <= part <= width
  {
  }

  lemma UniformBounds(low: real, high: real, draw: Draw)
    requires low <= high
    ensures low <= Uniform(low, high, draw) <= high
  {
    Scaled(high - low, draw, Uniform(low, high, draw) - low);
  }

  lemma BaseGrows(retryCount: nat, later: nat)
    requires retryCount <= later
    ensures 5 <= BaseDelay(retryCount) <= BaseDelay(later) <= MAX_DELAY
  {
    Pow2Grows(0, retryCount);
    Pow2Grows(retryCount, later);
  }

  /** Every reschedule lies between 0.75 and 1.25 of the base, and the base never shrinks. */
  lemma BackoffBounds(retryCount: nat, later: nat, draw: Draw)
    requires retryCount <= later
    ensures BaseDelay(retryCount) as real * 0.75 <= JitteredDelay(retryCount, draw) <= BaseDelay(retryCount) as real * 1.25
    ensures 5 <= BaseDelay(retryCount) <= BaseDelay(later) <= MAX_DELAY
  {
    BaseGrows(retryCount, later);
    var base := BaseDelay(retryCount) as real;
    UniformBounds(base * 0.75, base * 1.25, draw);
  }

  /** The base starts at five seconds and doubles up to the limit. */
  lemma BaseDoubles(retryCount: nat)
    ensures BaseDelay(0) == 5
    ensures BaseDelay(retryCount + 1) == if 2 * BaseDelay(retryCount) < 300 then 2 * BaseDelay(retryCount) else 300
  {
    BaseGrows(retryCount, retryCount + 1);
  }

  /** The waiting time before the first `|draws|` retries. */
  function TotalDelay(draws: seq<Draw>): real
  {
    if draws == [] then 0.0
    else
      var n := |draws| - 1;
      TotalDelay(draws[..n]) + JitteredDelay(n, draws[n])
  }

  /** Over m retries the total wait is at most 1.25 times the smaller of 5 * (2^m - 1) and 300 * m,
      and at least 0.75 times 5 * m. */
  lemma {:induction false} TotalBackoffBound(draws: seq<Draw>)
    ensures TotalDelay(draws) <= 1.25 * Min(5 * (Pow2(|draws|) - 1), MAX_DELAY * |draws|) as real
    ensures TotalDelay(draws) >= 0.75 * (5 * |draws|) as real
  {
    if draws != [] {
      var n := |draws| - 1;
      TotalBackoffBound(draws[..n]);
      BackoffBounds(n, n, draws[n]);
      assert BaseDelay(n) <= 5 * Pow2(n);
    }
  }
}
