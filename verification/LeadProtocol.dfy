/** The lead-processing protocol as a step system: any number of workers claiming `lead.created` events,
    HTTP attempts that can be lost or time out, classification runs that outlive the attempt that started
    them, callbacks that are delivered late or several times, and workers that crash at any point.
    No repair script runs here. */
module LeadProtocol {
  import opened Common
  import opened LeadRecords
  import O = Outbox

  type WorkerId = nat
  type RunId = nat
  type PostId = nat

  /** What `classify_spam` can return. */
  datatype SpamVerdict = SaysSpam | SaysNotSpam | SpamFailed

  /** What `classify_level` can return. */
  datatype LevelVerdict = SaysHot | SaysNormal | LevelFailed

  datatype Info = Info(score: Option<real>, details: Option<string>)

  /** One `/classify` request being served by the model service. */
  datatype RunPhase =
    | Started
    | SpamPosted(post: PostId, verdict: SpamVerdict)
    | LevelPosted(post: PostId, verdict: SpamVerdict)
    | Finished(verdict: SpamVerdict)
    | Broken

  datatype Run = Run(lead: Id, tenant: Id, phase: RunPhase)

  /** A callback request on the network. `applied` says that the backend has answered it with success at
      least once; only then can its sender see an acknowledgement. */
  datatype Post = Post(cb: Callback, applied: bool)

  /** How `handle_lead_created` returned normally. */
  datatype Outcome = SkippedBlank | Classified(run: RunId) | FailedOpen

  datatype Phase =
    | Claimed
    | Calling(posts: nat, waiting: Option<RunId>)
    | FailOpenSpam(post: PostId)
    | FailOpenLevel(post: PostId)
    | Returned(outcome: Outcome)
    | Raised

  /** A worker between its claim and its final mark; the retry numbers are those the claim returned. */
  datatype Attempt = Attempt(lead: Id, retryCount: int, maxRetries: int, phase: Phase)

  /** An outbox row with its history: who holds it, whether its holder crashed, how often its handler
      was entered and failed, and by which outcome it was delivered. */
  datatype Event = Event(
    row: O.OutboxRow,
    claimant: Option<WorkerId>,
    abandoned: bool,
    starts: nat,
    failures: nat,
    via: Option<Outcome>)

  datatype System = System(
    maxAttempts: int,
    leads: map<Id, LeadRecord>,
    events: map<Id, Event>,       // the row with key lead.created.<id>
    workers: map<WorkerId, Attempt>,
    runs: seq<Run>,
    net: seq<Post>)

  datatype Action =
    | Create(lead: Id, tenant: Id, message: string, maxRetries: int, now: real)
    | Claim(worker: WorkerId, lead: Id, now: real)
    | Begin(worker: WorkerId)
    | NoHandler(worker: WorkerId)
    | PostClassify(worker: WorkerId)
    | AttemptFails(worker: WorkerId)
    | AttemptAnswered(worker: WorkerId)
    | StartFailOpen(worker: WorkerId, info: Info)
    | FailOpenAcked(worker: WorkerId, info: Info)
    | FailOpenFails(worker: WorkerId)
    | MarkDelivered(worker: WorkerId, now: real)
    | MarkRetry(worker: WorkerId, error: string, now: real, draw: O.Draw)
    | Crash(worker: WorkerId)
    | ClassifySpam(run: RunId, spam: SpamVerdict, info: Info)
    | SpamAcked(run: RunId, level: LevelVerdict, info: Info)
    | LevelAcked(run: RunId)
    | RunFails(run: RunId)
    | Deliver(post: PostId)

  function Init(maxAttempts: int): System {
    System(maxAttempts, map[], map[], map[], [], [])
  }

  // ---- The callbacks that are ever built ----

  function SpamCallback(lead: Id, tenant: Id, verdict: SpamVerdict, info: Info): Callback {
    var status := if verdict.SpamFailed? then Failed else Completed;
    var tag := match verdict case SaysSpam => Some(Spam) case SaysNotSpam => Some(NotSpam) case SpamFailed => None;
    Callback(lead, tenant, SpamStage, status, tag, info.score, info.details, 0)
  }

  function LevelCallback(lead: Id, tenant: Id, verdict: LevelVerdict, info: Info): Callback {
    var status := if verdict.LevelFailed? then Failed else Completed;
    var tag := match verdict case SaysHot => Some(Hot) case SaysNormal => Some(Normal) case LevelFailed => None;
    Callback(lead, tenant, LevelStage, status, tag, info.score, info.details, 0)
  }

  // ---- What a recorded row says, field by field ----

  predicate SpamReads(row: ResultRow, verdict: SpamVerdict, info: Info) {
    && (verdict.SaysSpam? ==> row.status == Completed && row.tag == Some(Spam))
    && (verdict.SaysNotSpam? ==> row.status == Completed && row.tag == Some(NotSpam))
    && (verdict.SpamFailed? ==> row.status == Failed && row.tag == None)
    && row.score == info.score && row.details == info.details && row.retryCount == 0
  }

  predicate LevelReads(row: ResultRow, verdict: LevelVerdict, info: Info) {
    && (verdict.SaysHot? ==> row.status == Completed && row.tag == Some(Hot))
    && (verdict.SaysNormal? ==> row.status == Completed && row.tag == Some(Normal))
    && (verdict.LevelFailed? ==> row.status == Failed && row.tag == None)
    && row.score == info.score && row.details == info.details && row.retryCount == 0
  }

  /** The first spam callback to arrive is the one on record. */
  lemma SpamRecorded(lead: Id, rec: LeadRecord, verdict: SpamVerdict, info: Info)
    requires RecordOk(lead, rec) && !SpamSettled(rec)
    ensures CallbackOnRecord(rec, SpamCallback(lead, rec.tenant, verdict, info)).Ok?
    ensures var rec' := CallbackOnRecord(rec, SpamCallback(lead, rec.tenant, verdict, info)).value;
            |rec'.spam| == 1 && SpamReads(rec'.spam[0], verdict, info)
  {
    CallbackIsRecorded(rec, SpamCallback(lead, rec.tenant, verdict, info));
  }

  lemma LevelRecorded(lead: Id, rec: LeadRecord, verdict: LevelVerdict, info: Info)
    requires RecordOk(lead, rec) && !LevelSettled(rec)
    ensures CallbackOnRecord(rec, LevelCallback(lead, rec.tenant, verdict, info)).Ok?
    ensures var rec' := CallbackOnRecord(rec, LevelCallback(lead, rec.tenant, verdict, info)).value;
            |rec'.level| == 1 && LevelReads(rec'.level[0], verdict, info)
  {
    CallbackIsRecorded(rec, LevelCallback(lead, rec.tenant, verdict, info));
  }

  // ---- The steps ----

  function NewEvent(lead: Id, tenant: Id, message: string, maxRetries: int, now: real): Event {
    var row := O.PublishedRow(O.LeadCreatedEvent, lead, O.Payload(lead, tenant, message), now).(maxRetries := maxRetries);
    Event(row, None, false, 0, 0, None)
  }

  function DoCreate(s: System, a: Action): Option<System>
    requires a.Create?
  {
    var message := Strip(a.message);
    if a.lead in s.leads || a.lead in s.events || message == "" then None
    else Some(s.(
      leads := s.leads[a.lead := NewLead(a.tenant, message)],
      events := s.events[a.lead := NewEvent(a.lead, a.tenant, message, a.maxRetries, a.now)]))
  }

  function DoClaim(s: System, w: WorkerId, l: Id, now: real): Option<System> {
    if w in s.workers || l !in s.events || !O.Claimable(s.events[l].row, now) then None
    else
      var e := s.events[l];
      Some(s.(
        events := s.events[l := e.(row := O.ClaimRow(e.row, now), claimant := Some(w))],
        workers := s.workers[w := Attempt(l, e.row.retryCount, e.row.maxRetries, Claimed)]))
  }

  function SetPhase(s: System, w: WorkerId, phase: Phase): System
    requires w in s.workers
  {
    s.(workers := s.workers[w := s.workers[w].(phase := phase)])
  }

  function DoBegin(s: System, w: WorkerId): Option<System> {
    if w !in s.workers || s.workers[w].lead !in s.events || !s.workers[w].phase.Claimed? then None
    else
      var l := s.workers[w].lead;
      var e := s.events[l];
      var phase := if IsBlank(e.row.payload.message) then Returned(SkippedBlank) else Calling(0, None);
      Some(SetPhase(s.(events := s.events[l := e.(starts := e.starts + 1)]), w, phase))
  }

  function DoNoHandler(s: System, w: WorkerId): Option<System> {
    if w !in s.workers || !s.workers[w].phase.Claimed? then None else Some(SetPhase(s, w, Raised))
  }

  /** One pass of the retry loop: the request goes out and a run may start serving it. */
  function DoPostClassify(s: System, w: WorkerId): Option<System> {
    if w !in s.workers || s.workers[w].lead !in s.events || !s.workers[w].phase.Calling? then None
    else
      var Calling(posts, waiting) := s.workers[w].phase;
      if waiting.Some? || posts >= s.maxAttempts then None
      else
        var p := s.events[s.workers[w].lead].row.payload;
        Some(SetPhase(s.(runs := s.runs + [Run(p.lead, p.tenant, Started)]), w, Calling(posts + 1, Some(|s.runs|))))
  }

  /** Time-out, connection error or error status: the attempt is over, the run may go on. */
  function DoAttemptFails(s: System, w: WorkerId): Option<System> {
    if w !in s.workers || !s.workers[w].phase.Calling? || s.workers[w].phase.waiting.None? then None
    else Some(SetPhase(s, w, s.workers[w].phase.(waiting := None)))
  }

  function DoAttemptAnswered(s: System, w: WorkerId): Option<System> {
    if w !in s.workers || !s.workers[w].phase.Calling? || s.workers[w].phase.waiting.None? then None
    else
      var r := s.workers[w].phase.waiting.value;
      if r >= |s.runs| || !s.runs[r].phase.Finished? then None else Some(SetPhase(s, w, Returned(Classified(r))))
  }

  /** Every attempt failed: the spam half of the fail-open pair goes out. */
  function DoStartFailOpen(s: System, w: WorkerId, info: Info): Option<System> {
    if w !in s.workers || s.workers[w].lead !in s.events || !s.workers[w].phase.Calling? then None
    else
      var Calling(posts, waiting) := s.workers[w].phase;
      if waiting.Some? || posts < s.maxAttempts then None
      else
        var p := s.events[s.workers[w].lead].row.payload;
        var cb := SpamCallback(p.lead, p.tenant, SaysNotSpam, info);
        Some(SetPhase(s.(net := s.net + [Post(cb, false)]), w, FailOpenSpam(|s.net|)))
  }

  predicate Acked(s: System, post: PostId) { post < |s.net| && s.net[post].applied }

  function DoFailOpenAcked(s: System, w: WorkerId, info: Info): Option<System> {
    if w !in s.workers || s.workers[w].lead !in s.events then None
    else match s.workers[w].phase
      case FailOpenSpam(post) =>
        if !Acked(s, post) then None
        else
          var p := s.events[s.workers[w].lead].row.payload;
          var cb := LevelCallback(p.lead, p.tenant, SaysNormal, info);
          Some(SetPhase(s.(net := s.net + [Post(cb, false)]), w, FailOpenLevel(|s.net|)))
      case FailOpenLevel(post) =>
        if !Acked(s, post) then None else Some(SetPhase(s, w, Returned(FailedOpen)))
      case _ => None
  }

  function DoFailOpenFails(s: System, w: WorkerId): Option<System> {
    if w !in s.workers || !(s.workers[w].phase.FailOpenSpam? || s.workers[w].phase.FailOpenLevel?) then None
    else Some(SetPhase(s, w, Raised))
  }

  function DoMarkDelivered(s: System, w: WorkerId, now: real): Option<System> {
    if w !in s.workers || s.workers[w].lead !in s.events || !s.workers[w].phase.Returned? then None
    else
      var l := s.workers[w].lead;
      var e := s.events[l];
      Some(s.(
        events := s.events[l := e.(row := O.DeliverRow(e.row, now), claimant := None, via := Some(s.workers[w].phase.outcome))],
        workers := s.workers - {w}))
  }

  /** After a raise; also after a normal return whose `_mark_delivered` statement failed. */
  function DoMarkRetry(s: System, w: WorkerId, error: string, now: real, draw: O.Draw): Option<System> {
    if w !in s.workers || s.workers[w].lead !in s.events || !(s.workers[w].phase.Raised? || s.workers[w].phase.Returned?) then None
    else
      var t := s.workers[w];
      var e := s.events[t.lead];
      Some(s.(
        events := s.events[t.lead := e.(row := O.RetryRow(e.row, t.retryCount, t.maxRetries, error, now, draw),
                                        claimant := None, failures := e.failures + 1)],
        workers := s.workers - {w}))
  }

  function DoCrash(s: System, w: WorkerId): Option<System> {
    if w !in s.workers || s.workers[w].lead !in s.events then None
    else
      var l := s.workers[w].lead;
      Some(s.(
        events := s.events[l := s.events[l].(claimant := None, abandoned := true)],
        workers := s.workers - {w}))
  }

  function SetRun(s: System, r: RunId, phase: RunPhase): System
    requires r < |s.runs|
  {
    s.(runs := s.runs[r := s.runs[r].(phase := phase)])
  }

  function DoClassifySpam(s: System, r: RunId, verdict: SpamVerdict, info: Info): Option<System> {
    if r >= |s.runs| || !s.runs[r].phase.Started? then None
    else
      var cb := SpamCallback(s.runs[r].lead, s.runs[r].tenant, verdict, info);
      Some(SetRun(s.(net := s.net + [Post(cb, false)]), r, SpamPosted(|s.net|, verdict)))
  }

  /** The spam callback is acknowledged; unless the label is spam the level callback follows. */
  function DoSpamAcked(s: System, r: RunId, level: LevelVerdict, info: Info): Option<System> {
    if r >= |s.runs| || !s.runs[r].phase.SpamPosted? || !Acked(s, s.runs[r].phase.post) then None
    else
      var verdict := s.runs[r].phase.verdict;
      if verdict.SaysSpam? then Some(SetRun(s, r, Finished(verdict)))
      else
        var cb := LevelCallback(s.runs[r].lead, s.runs[r].tenant, level, info);
        Some(SetRun(s.(net := s.net + [Post(cb, false)]), r, LevelPosted(|s.net|, verdict)))
  }

  function DoLevelAcked(s: System, r: RunId): Option<System> {
    if r >= |s.runs| || !s.runs[r].phase.LevelPosted? || !Acked(s, s.runs[r].phase.post) then None
    else Some(SetRun(s, r, Finished(s.runs[r].phase.verdict)))
  }

  function DoRunFails(s: System, r: RunId): Option<System> {
    if r >= |s.runs| || s.runs[r].phase.Finished? then None else Some(SetRun(s, r, Broken))
  }

  /** The backend handles a posted callback, possibly not for the first time. */
  function DoDeliver(s: System, i: PostId): Option<System> {
    if i >= |s.net| then None
    else match ApplyCallback(s.leads, s.net[i].cb)
      case Err(_) => Some(s)
      case Ok(leads) => Some(s.(leads := leads, net := s.net[i := s.net[i].(applied := true)]))
  }

  /** The state after an action, or None when the action is not enabled. */
  function Next(s: System, a: Action): Option<System> {
    match a
    case Create(_, _, _, _, _) => DoCreate(s, a)
    case Claim(w, l, now) => DoClaim(s, w, l, now)
    case Begin(w) => DoBegin(s, w)
    case NoHandler(w) => DoNoHandler(s, w)
    case PostClassify(w) => DoPostClassify(s, w)
    case AttemptFails(w) => DoAttemptFails(s, w)
    case AttemptAnswered(w) => DoAttemptAnswered(s, w)
    case StartFailOpen(w, info) => DoStartFailOpen(s, w, info)
    case FailOpenAcked(w, info) => DoFailOpenAcked(s, w, info)
    case FailOpenFails(w) => DoFailOpenFails(s, w)
    case MarkDelivered(w, now) => DoMarkDelivered(s, w, now)
    case MarkRetry(w, error, now, draw) => DoMarkRetry(s, w, error, now, draw)
    case Crash(w) => DoCrash(s, w)
    case ClassifySpam(r, verdict, info) => DoClassifySpam(s, r, verdict, info)
    case SpamAcked(r, level, info) => DoSpamAcked(s, r, level, info)
    case LevelAcked(r) => DoLevelAcked(s, r)
    case RunFails(r) => DoRunFails(s, r)
    case Deliver(i) => DoDeliver(s, i)
  }

  /** The state after a whole run, or None when one of its actions was not enabled. */
  function Exec(s: System, actions: seq<Action>): Option<System>
    decreases |actions|
  {
    if actions == [] then Some(s)
    else match Next(s, actions[0])
      case None => None
      case Some(s') => Exec(s', actions[1..])
  }

  // ---- The invariant, part by part ----

  type Leads = map<Id, LeadRecord>

  ghost predicate LeadsOk(leads: Leads) {
    forall l :: l in leads ==> RecordOk(l, leads[l])
  }

  predicate KnownLead(leads: Leads, l: Id, tenant: Id) { l in leads && leads[l].tenant == tenant }

  predicate PostOk(leads: Leads, p: Post) {
    && KnownLead(leads, p.cb.lead, p.cb.tenant)
    && WellFormed(p.cb)
    && (p.cb.stage.LevelStage? ==> SpamSettled(leads[p.cb.lead]))
    && (p.applied ==> Settled(leads[p.cb.lead], p.cb.stage))
  }

  ghost predicate PostsOk(leads: Leads, net: seq<Post>) {
    forall i :: 0 <= i < |net| ==> PostOk(leads, net[i])
  }

  /** Post `i` is a callback of this stage for this lead. */
  predicate IsPost(net: seq<Post>, i: PostId, lead: Id, stage: Stage) {
    i < |net| && net[i].cb.lead == lead && net[i].cb.stage == stage
  }

  /** What a finished run has achieved. */
  predicate VerdictOk(leads: Leads, lead: Id, verdict: SpamVerdict) {
    lead in leads && SpamSettled(leads[lead]) && (verdict.SaysSpam? || LevelSettled(leads[lead]))
  }

  predicate RunOk(leads: Leads, net: seq<Post>, run: Run) {
    && KnownLead(leads, run.lead, run.tenant)
    && match run.phase
       case SpamPosted(post, _) => IsPost(net, post, run.lead, SpamStage)
       case LevelPosted(post, verdict) => IsPost(net, post, run.lead, LevelStage) && !verdict.SaysSpam?
       case Finished(verdict) => VerdictOk(leads, run.lead, verdict)
       case _ => true
  }

  ghost predicate RunsOk(leads: Leads, net: seq<Post>, runs: seq<Run>) {
    forall r :: 0 <= r < |runs| ==> RunOk(leads, net, runs[r])
  }

  predicate OutcomeOk(leads: Leads, runs: seq<Run>, lead: Id, outcome: Outcome) {
    match outcome
    case SkippedBlank => false
    case Classified(r) => r < |runs| && runs[r].lead == lead && runs[r].phase.Finished?
    case FailedOpen => lead in leads && LevelSettled(leads[lead])
  }

  predicate PhaseOk(s: System, lead: Id, phase: Phase) {
    match phase
    case Calling(posts, waiting) =>
      && posts <= Max(0, s.maxAttempts)
      && (waiting.Some? ==> waiting.value < |s.runs| && s.runs[waiting.value].lead == lead)
    case FailOpenSpam(post) => IsPost(s.net, post, lead, SpamStage)
    case FailOpenLevel(post) => IsPost(s.net, post, lead, LevelStage)
    case Returned(outcome) => OutcomeOk(s.leads, s.runs, lead, outcome)
    case _ => true
  }

  ghost predicate PhasesOk(s: System) {
    forall w :: w in s.workers ==> PhaseOk(s, s.workers[w].lead, s.workers[w].phase)
  }

  /** The counters and statuses of one event agree with its history. */
  predicate EventOk(l: Id, e: Event) {
    && e.row.payload.lead == l
    && !IsBlank(e.row.payload.message)
    && e.row.retryCount == e.failures
    && e.starts <= e.failures + (if e.row.status.Processing? || e.row.status.Delivered? then 1 else 0)
    && (!e.row.status.DeadLetter? ==> e.failures == 0 || e.failures < e.row.maxRetries)
    && (e.row.status.DeadLetter? ==> e.failures == Max(1, e.row.maxRetries))
    && (e.row.status.Processing? <==> e.claimant.Some? || e.abandoned)
    && !(e.claimant.Some? && e.abandoned)
    && (e.row.status.Delivered? ==> e.via.Some?)
  }

  ghost predicate EventsOk(leads: Leads, events: map<Id, Event>) {
    && events.Keys == leads.Keys
    && forall l :: l in events ==> EventOk(l, events[l]) && leads[l].tenant == events[l].row.payload.tenant
  }

  ghost predicate DeliveriesOk(s: System) {
    forall l :: l in s.events && s.events[l].row.status.Delivered? ==>
      s.events[l].via.Some? && OutcomeOk(s.leads, s.runs, l, s.events[l].via.value)
  }

  /** The worker is the recorded claimant of its event and still knows its retry numbers. */
  predicate HoldsEvent(events: map<Id, Event>, w: WorkerId, t: Attempt) {
    && t.lead in events
    && events[t.lead].claimant == Some(w)
    && t.retryCount == events[t.lead].row.retryCount
    && t.maxRetries == events[t.lead].row.maxRetries
    && (t.phase.Claimed? ==> events[t.lead].starts <= events[t.lead].failures)
  }

  /** Claims agree on both sides, so an event has at most one claimant. */
  ghost predicate ClaimsOk(events: map<Id, Event>, workers: map<WorkerId, Attempt>) {
    && (forall w :: w in workers ==> HoldsEvent(events, w, workers[w]))
    && (forall l :: l in events && events[l].claimant.Some? ==>
          events[l].claimant.value in workers && workers[events[l].claimant.value].lead == l)
  }

  ghost predicate Inv(s: System) {
    && LeadsOk(s.leads)
    && EventsOk(s.leads, s.events)
    && PostsOk(s.leads, s.net)
    && RunsOk(s.leads, s.net, s.runs)
    && PhasesOk(s)
    && DeliveriesOk(s)
    && ClaimsOk(s.events, s.workers)
  }
}
