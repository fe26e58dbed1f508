/** Every step of the protocol keeps the invariant. */
module LeadSafety {
  import opened Common
  import opened LeadRecords
  import opened LeadProtocol
  import O = Outbox

  // ---- Growth: a later state knows at least as much as an earlier one ----

  predicate LeadGrows(rec: LeadRecord, rec': LeadRecord) {
    && rec'.tenant == rec.tenant
    && (SpamSettled(rec) ==> SpamSettled(rec'))
    && (LevelSettled(rec) ==> LevelSettled(rec'))
  }

  ghost predicate LeadsGrow(leads: Leads, leads': Leads) {
    forall l :: l in leads ==> l in leads' && LeadGrows(leads[l], leads'[l])
  }

  ghost predicate NetGrows(net: seq<Post>, net': seq<Post>) {
    |net| <= |net'| && forall i :: 0 <= i < |net| ==> net'[i].cb == net[i].cb
  }

  predicate RunGrows(run: Run, run': Run) {
    run'.lead == run.lead && (run.phase.Finished? ==> run' == run)
  }

  ghost predicate RunsGrow(runs: seq<Run>, runs': seq<Run>) {
    |runs| <= |runs'| && forall r :: 0 <= r < |runs| ==> RunGrows(runs[r], runs'[r])
  }

  ghost predicate Grows(s: System, s': System) {
    s'.maxAttempts == s.maxAttempts && LeadsGrow(s.leads, s'.leads) && NetGrows(s.net, s'.net) && RunsGrow(s.runs, s'.runs)
  }

  lemma PostsGrow(leads: Leads, leads': Leads, net: seq<Post>)
    requires PostsOk(leads, net) && LeadsGrow(leads, leads')
    ensures PostsOk(leads', net)
  {
    forall i | 0 <= i < |net| ensures PostOk(leads', net[i]) {
      assert PostOk(leads, net[i]);
      assert LeadGrows(leads[net[i].cb.lead], leads'[net[i].cb.lead]);
    }
  }

  lemma RunGrowsOk(leads: Leads, leads': Leads, net: seq<Post>, net': seq<Post>, run: Run)
    requires RunOk(leads, net, run) && LeadsGrow(leads, leads') && NetGrows(net, net')
    ensures RunOk(leads', net', run)
  {
    assert LeadGrows(leads[run.lead], leads'[run.lead]);
  }

  lemma RunsGrowOk(leads: Leads, leads': Leads, net: seq<Post>, net': seq<Post>, runs: seq<Run>)
    requires RunsOk(leads, net, runs) && LeadsGrow(leads, leads') && NetGrows(net, net')
    ensures RunsOk(leads', net', runs)
  {
    forall r | 0 <= r < |runs| ensures RunOk(leads', net', runs[r]) {
      RunGrowsOk(leads, leads', net, net', runs[r]);
    }
  }

  lemma OutcomeGrows(leads: Leads, leads': Leads, runs: seq<Run>, runs': seq<Run>, lead: Id, outcome: Outcome)
    requires OutcomeOk(leads, runs, lead, outcome) && LeadsGrow(leads, leads') && RunsGrow(runs, runs')
    ensures OutcomeOk(leads', runs', lead, outcome)
  {
    match outcome {
      case SkippedBlank =>
      case Classified(r) => assert RunGrows(runs[r], runs'[r]);
      case FailedOpen => assert LeadGrows(leads[lead], leads'[lead]);
    }
  }

  lemma PhaseGrows(s: System, s': System, lead: Id, phase: Phase)
    requires PhaseOk(s, lead, phase) && Grows(s, s')
    ensures PhaseOk(s', lead, phase)
  {
    match phase {
      case Calling(_, waiting) =>
        if waiting.Some? { assert RunGrows(s.runs[waiting.value], s'.runs[waiting.value]); }
      case Returned(outcome) => OutcomeGrows(s.leads, s'.leads, s.runs, s'.runs, lead, outcome);
      case _ =>
    }
  }

  /** Attempts and deliveries that were justified stay justified. */
  lemma KnowledgeKept(s: System, s': System)
    requires PhasesOk(s) && DeliveriesOk(s) && Grows(s, s')
    ensures forall w :: w in s.workers ==> PhaseOk(s', s.workers[w].lead, s.workers[w].phase)
    ensures forall l :: l in s.events && s.events[l].row.status.Delivered? ==>
              s.events[l].via.Some? && OutcomeOk(s'.leads, s'.runs, l, s.events[l].via.value)
  {
    forall w | w in s.workers ensures PhaseOk(s', s.workers[w].lead, s.workers[w].phase) {
      PhaseGrows(s, s', s.workers[w].lead, s.workers[w].phase);
    }
    forall l | l in s.events && s.events[l].row.status.Delivered?
      ensures s.events[l].via.Some? && OutcomeOk(s'.leads, s'.runs, l, s.events[l].via.value)
    {
      OutcomeGrows(s.leads, s'.leads, s.runs, s'.runs, l, s.events[l].via.value);
    }
  }

  /** Only worker w and event l may differ, and both are justified in the new state. */
  lemma OthersKept(s: System, s': System, w: WorkerId, l: Id)
    requires PhasesOk(s) && DeliveriesOk(s) && Grows(s, s')
    requires forall v :: v in s'.workers && v != w ==> v in s.workers && s'.workers[v] == s.workers[v]
    requires w in s'.workers ==> PhaseOk(s', s'.workers[w].lead, s'.workers[w].phase)
    requires forall k :: k in s'.events && k != l ==> k in s.events && s'.events[k] == s.events[k]
    requires l in s'.events && s'.events[l].row.status.Delivered? ==>
               s'.events[l].via.Some? && OutcomeOk(s'.leads, s'.runs, l, s'.events[l].via.value)
    ensures PhasesOk(s') && DeliveriesOk(s')
  {
    KnowledgeKept(s, s');
  }

  // ---- One lemma per kind of step ----

  lemma EventsAfterUpdate(leads: Leads, events: map<Id, Event>, l: Id, e: Event)
    requires EventsOk(leads, events) && l in events && EventOk(l, e)
    requires e.row.payload == events[l].row.payload
    ensures EventsOk(leads, events[l := e])
  {
    assert EventOk(l, events[l]);
  }

  lemma LeadsAfterCreate(leads: Leads, l: Id, rec: LeadRecord)
    requires LeadsOk(leads) && l !in leads && RecordOk(l, rec)
    ensures LeadsOk(leads[l := rec]) && LeadsGrow(leads, leads[l := rec])
  {
  }

  lemma EventsAfterCreate(leads: Leads, events: map<Id, Event>, l: Id, rec: LeadRecord, e: Event)
    requires EventsOk(leads, events) && l !in events && EventOk(l, e) && e.row.payload.tenant == rec.tenant
    ensures EventsOk(leads[l := rec], events[l := e])
  {
  }

  lemma ClaimsAfterCreate(events: map<Id, Event>, workers: map<WorkerId, Attempt>, l: Id, e: Event)
    requires ClaimsOk(events, workers) && l !in events && e.claimant.None?
    ensures ClaimsOk(events[l := e], workers)
  {
    forall w | w in workers ensures HoldsEvent(events[l := e], w, workers[w]) {
      assert HoldsEvent(events, w, workers[w]);
    }
  }

  lemma CreateKeeps(s: System, a: Action)
    requires Inv(s) && a.Create? && DoCreate(s, a).Some?
    ensures Inv(DoCreate(s, a).value) && Grows(s, DoCreate(s, a).value)
  {
    var message := Strip(a.message);
    StripBlank(a.message);
    var rec, e := NewLead(a.tenant, message), NewEvent(a.lead, a.tenant, message, a.maxRetries, a.now);
    var s' := DoCreate(s, a).value;
    LeadsAfterCreate(s.leads, a.lead, rec);
    EventsAfterCreate(s.leads, s.events, a.lead, rec, e);
    ClaimsAfterCreate(s.events, s.workers, a.lead, e);
    PostsGrow(s.leads, s'.leads, s.net);
    RunsGrowOk(s.leads, s'.leads, s.net, s.net, s.runs);
    KnowledgeKept(s, s');
  }

  lemma ClaimsAfterClaim(events: map<Id, Event>, workers: map<WorkerId, Attempt>, w: WorkerId, l: Id, e: Event, t: Attempt)
    requires ClaimsOk(events, workers) && w !in workers && l in events && events[l].claimant.None?
    requires t.lead == l && e.claimant == Some(w) && HoldsEvent(events[l := e], w, t)
    ensures ClaimsOk(events[l := e], workers[w := t])
  {
    forall v | v in workers ensures HoldsEvent(events[l := e], v, workers[v]) {
      assert HoldsEvent(events, v, workers[v]);
    }
  }

  lemma ClaimKeeps(s: System, w: WorkerId, l: Id, now: real)
    requires Inv(s) && DoClaim(s, w, l, now).Some?
    ensures Inv(DoClaim(s, w, l, now).value) && Grows(s, DoClaim(s, w, l, now).value)
  {
    var e := s.events[l];
    assert EventOk(l, e);
    NewHolderKeeps(s, DoClaim(s, w, l, now).value, w, l, e.(row := O.ClaimRow(e.row, now), claimant := Some(w)));
  }

  lemma NewHolderKeeps(s: System, s': System, w: WorkerId, l: Id, e: Event)
    requires Inv(s) && w !in s.workers && l in s.events && s.events[l].claimant.None?
    requires EventOk(l, e) && e.claimant == Some(w) && e.row.payload == s.events[l].row.payload && !e.row.status.Delivered?
    requires e.starts <= e.failures
    requires s' == s.(events := s.events[l := e],
                      workers := s.workers[w := Attempt(l, e.row.retryCount, e.row.maxRetries, Claimed)])
    ensures Inv(s')
  {
    EventsAfterUpdate(s.leads, s.events, l, e);
    ClaimsAfterClaim(s.events, s.workers, w, l, e, s'.workers[w]);
    UpdateKeepsOthers(s, s', w, l, e, s'.workers[w]);
  }

  /** A worker and its undelivered event change; what the others know stays justified. */
  lemma UpdateKeepsOthers(s: System, s': System, w: WorkerId, l: Id, e: Event, t: Attempt)
    requires PhasesOk(s) && DeliveriesOk(s) && !e.row.status.Delivered?
    requires PhaseOk(s, t.lead, t.phase)
    requires s' == s.(events := s.events[l := e], workers := s.workers[w := t])
    ensures PhasesOk(s') && DeliveriesOk(s')
  {
    OthersKept(s, s', w, l);
  }

  lemma ClaimsAfterUpdate(events: map<Id, Event>, workers: map<WorkerId, Attempt>, w: WorkerId, e: Event, t: Attempt)
    requires ClaimsOk(events, workers) && w in workers && t.lead == workers[w].lead
    requires HoldsEvent(events[t.lead := e], w, t)
    ensures ClaimsOk(events[t.lead := e], workers[w := t])
  {
    assert HoldsEvent(events, w, workers[w]);
    forall v | v in workers && v != w ensures HoldsEvent(events[t.lead := e], v, workers[v]) {
      assert HoldsEvent(events, v, workers[v]);
    }
  }

  lemma StartTables(leads: Leads, events: map<Id, Event>, workers: map<WorkerId, Attempt>, w: WorkerId, e: Event, t: Attempt)
    requires EventsOk(leads, events) && ClaimsOk(events, workers) && w in workers && t.lead in events
    requires workers[w].phase.Claimed? && t == workers[w].(phase := Calling(0, None))
    requires e == events[t.lead].(starts := events[t.lead].starts + 1)
    ensures EventsOk(leads, events[t.lead := e]) && ClaimsOk(events[t.lead := e], workers[w := t])
    ensures !e.row.status.Delivered?
  {
    assert HoldsEvent(events, w, workers[w]) && EventOk(t.lead, events[t.lead]);
    EventsAfterUpdate(leads, events, t.lead, e);
    ClaimsAfterUpdate(events, workers, w, e, t);
  }

  /** The handler of a claimed event is entered. */
  lemma StartKeeps(s: System, s': System, w: WorkerId, e: Event, t: Attempt)
    requires Inv(s) && s' == s.(events := s.events[t.lead := e], workers := s.workers[w := t])
    requires EventsOk(s.leads, s'.events) && ClaimsOk(s'.events, s'.workers)
    requires !e.row.status.Delivered? && t.phase == Calling(0, None)
    ensures Inv(s')
  {
    UpdateKeepsOthers(s, s', w, t.lead, e, t);
  }

  lemma BeginKeeps(s: System, w: WorkerId)
    requires Inv(s) && DoBegin(s, w).Some?
    ensures Inv(DoBegin(s, w).value) && Grows(s, DoBegin(s, w).value)
  {
    var t := s.workers[w].(phase := Calling(0, None));
    assert EventOk(t.lead, s.events[t.lead]);
    var s' := DoBegin(s, w).value;
    StartTables(s.leads, s.events, s.workers, w, s'.events[t.lead], t);
    StartKeeps(s, s', w, s'.events[t.lead], t);
  }

  /** A worker moves to another phase while posts and runs may be appended. */
  lemma PhaseStepKeeps(s: System, s': System, w: WorkerId)
    requires Inv(s) && Grows(s, s') && w in s.workers && w in s'.workers
    requires !s'.workers[w].phase.Claimed? && PhaseOk(s', s.workers[w].lead, s'.workers[w].phase)
    requires s'.workers == s.workers[w := s.workers[w].(phase := s'.workers[w].phase)]
    requires s'.leads == s.leads && s'.events == s.events
    requires PostsOk(s'.leads, s'.net) && RunsOk(s'.leads, s'.net, s'.runs)
    ensures Inv(s')
  {
    var l := s.workers[w].lead;
    assert HoldsEvent(s.events, w, s.workers[w]);
    assert s.events[l := s.events[l]] == s.events;
    ClaimsAfterUpdate(s.events, s.workers, w, s.events[l], s'.workers[w]);
    assert s.events[l].claimant == Some(w) && EventOk(l, s.events[l]);
    OthersKept(s, s', w, l);
  }

  lemma CallKeeps(s: System, a: Action)
    requires Inv(s) && Next(s, a).Some?
    requires a.NoHandler? || a.AttemptFails? || a.AttemptAnswered? || a.FailOpenFails?
    ensures Inv(Next(s, a).value) && Grows(s, Next(s, a).value)
  {
    var s' := Next(s, a).value;
    assert PhaseOk(s, s.workers[a.worker].lead, s.workers[a.worker].phase);
    PhaseStepKeeps(s, s', a.worker);
  }

  lemma PostClassifyKeeps(s: System, w: WorkerId)
    requires Inv(s) && DoPostClassify(s, w).Some?
    ensures Inv(DoPostClassify(s, w).value) && Grows(s, DoPostClassify(s, w).value)
  {
    var s' := DoPostClassify(s, w).value;
    var l := s.workers[w].lead;
    assert EventOk(l, s.events[l]);
    assert PhaseOk(s, l, s.workers[w].phase);
    assert RunsOk(s'.leads, s'.net, s'.runs);
    PhaseStepKeeps(s, s', w);
  }

  /** A worker appends one callback and waits for its acknowledgement. */
  lemma PostKeeps(s: System, s': System, w: WorkerId, cb: Callback, phase: Phase)
    requires Inv(s) && w in s.workers && PostOk(s.leads, Post(cb, false)) && !phase.Claimed?
    requires s' == s.(net := s.net + [Post(cb, false)], workers := s.workers[w := s.workers[w].(phase := phase)])
    requires PhaseOk(s', s.workers[w].lead, phase)
    ensures Inv(s') && Grows(s, s')
  {
    assert PostsOk(s'.leads, s'.net);
    RunsGrowOk(s.leads, s'.leads, s.net, s'.net, s.runs);
    PhaseStepKeeps(s, s', w);
  }

  lemma StartFailOpenKeeps(s: System, w: WorkerId, info: Info)
    requires Inv(s) && DoStartFailOpen(s, w, info).Some?
    ensures Inv(DoStartFailOpen(s, w, info).value) && Grows(s, DoStartFailOpen(s, w, info).value)
  {
    var l := s.workers[w].lead;
    assert EventOk(l, s.events[l]);
    var cb := SpamCallback(l, s.leads[l].tenant, SaysNotSpam, info);
    PostKeeps(s, DoStartFailOpen(s, w, info).value, w, cb, FailOpenSpam(|s.net|));
  }

  lemma FailOpenAckedKeeps(s: System, w: WorkerId, info: Info)
    requires Inv(s) && DoFailOpenAcked(s, w, info).Some?
    ensures Inv(DoFailOpenAcked(s, w, info).value) && Grows(s, DoFailOpenAcked(s, w, info).value)
  {
    var l, s' := s.workers[w].lead, DoFailOpenAcked(s, w, info).value;
    assert EventOk(l, s.events[l]);
    assert PhaseOk(s, l, s.workers[w].phase) && PostOk(s.leads, s.net[s.workers[w].phase.post]);
    if s.workers[w].phase.FailOpenSpam? {
      PostKeeps(s, s', w, LevelCallback(l, s.leads[l].tenant, SaysNormal, info), FailOpenLevel(|s.net|));
    } else {
      PhaseStepKeeps(s, s', w);
    }
  }

  lemma ClaimsAfterRelease(events: map<Id, Event>, workers: map<WorkerId, Attempt>, w: WorkerId, e: Event)
    requires ClaimsOk(events, workers) && w in workers && e.claimant.None?
    ensures ClaimsOk(events[workers[w].lead := e], workers - {w})
  {
    assert HoldsEvent(events, w, workers[w]);
    forall v | v in workers && v != w ensures HoldsEvent(events[workers[w].lead := e], v, workers[v]) {
      assert HoldsEvent(events, v, workers[v]);
    }
  }

  /** A worker lets go of its event. */
  lemma ReleaseKeeps(s: System, w: WorkerId, e: Event)
    requires Inv(s) && w in s.workers && s.workers[w].lead in s.events
    requires var l := s.workers[w].lead;
             && EventOk(l, e) && e.claimant.None? && e.row.payload == s.events[l].row.payload
             && (e.row.status.Delivered? ==> OutcomeOk(s.leads, s.runs, l, e.via.value))
    ensures Inv(s.(events := s.events[s.workers[w].lead := e], workers := s.workers - {w}))
  {
    ClaimsAfterRelease(s.events, s.workers, w, e);
    EventsAfterUpdate(s.leads, s.events, s.workers[w].lead, e);
    OthersKept(s, s.(events := s.events[s.workers[w].lead := e], workers := s.workers - {w}), w, s.workers[w].lead);
  }

  lemma MarkDeliveredKeeps(s: System, w: WorkerId, now: real)
    requires Inv(s) && DoMarkDelivered(s, w, now).Some?
    ensures Inv(DoMarkDelivered(s, w, now).value) && Grows(s, DoMarkDelivered(s, w, now).value)
  {
    var l := s.workers[w].lead;
    assert HoldsEvent(s.events, w, s.workers[w]) && EventOk(l, s.events[l]);
    assert PhaseOk(s, l, s.workers[w].phase);
    ReleaseKeeps(s, w, DoMarkDelivered(s, w, now).value.events[l]);
  }

  lemma MarkRetryKeeps(s: System, w: WorkerId, error: string, now: real, draw: O.Draw)
    requires Inv(s) && DoMarkRetry(s, w, error, now, draw).Some?
    ensures Inv(DoMarkRetry(s, w, error, now, draw).value) && Grows(s, DoMarkRetry(s, w, error, now, draw).value)
  {
    var l := s.workers[w].lead;
    assert HoldsEvent(s.events, w, s.workers[w]) && EventOk(l, s.events[l]);
    ReleaseKeeps(s, w, DoMarkRetry(s, w, error, now, draw).value.events[l]);
  }

  lemma CrashKeeps(s: System, w: WorkerId)
    requires Inv(s) && DoCrash(s, w).Some?
    ensures Inv(DoCrash(s, w).value) && Grows(s, DoCrash(s, w).value)
  {
    var l := s.workers[w].lead;
    assert HoldsEvent(s.events, w, s.workers[w]) && EventOk(l, s.events[l]);
    ReleaseKeeps(s, w, DoCrash(s, w).value.events[l]);
  }

  /** A run moves to another phase while one post may be appended. */
  lemma RunStepKeeps(s: System, r: RunId, phase: RunPhase, net: seq<Post>)
    requires Inv(s) && r < |s.runs| && !s.runs[r].phase.Finished?
    requires NetGrows(s.net, net) && PostsOk(s.leads, net)
    requires RunOk(s.leads, net, s.runs[r].(phase := phase))
    ensures Inv(SetRun(s.(net := net), r, phase)) && Grows(s, SetRun(s.(net := net), r, phase))
  {
    var s' := SetRun(s.(net := net), r, phase);
    RunsGrowOk(s.leads, s.leads, s.net, net, s.runs);
    KnowledgeKept(s, s');
  }

  lemma ClassifySpamKeeps(s: System, r: RunId, verdict: SpamVerdict, info: Info)
    requires Inv(s) && DoClassifySpam(s, r, verdict, info).Some?
    ensures Inv(DoClassifySpam(s, r, verdict, info).value) && Grows(s, DoClassifySpam(s, r, verdict, info).value)
  {
    var run := s.runs[r];
    assert RunOk(s.leads, s.net, run);
    var post := Post(SpamCallback(run.lead, run.tenant, verdict, info), false);
    assert PostOk(s.leads, post);
    RunStepKeeps(s, r, SpamPosted(|s.net|, verdict), s.net + [post]);
  }

  lemma SpamAckedKeeps(s: System, r: RunId, level: LevelVerdict, info: Info)
    requires Inv(s) && DoSpamAcked(s, r, level, info).Some?
    ensures Inv(DoSpamAcked(s, r, level, info).value) && Grows(s, DoSpamAcked(s, r, level, info).value)
  {
    var run := s.runs[r];
    assert RunOk(s.leads, s.net, run) && PostOk(s.leads, s.net[run.phase.post]);
    var verdict := run.phase.verdict;
    if verdict.SaysSpam? {
      RunStepKeeps(s, r, Finished(verdict), s.net);
    } else {
      var post := Post(LevelCallback(run.lead, run.tenant, level, info), false);
      assert PostOk(s.leads, post);
      RunStepKeeps(s, r, LevelPosted(|s.net|, verdict), s.net + [post]);
    }
  }

  lemma LevelAckedKeeps(s: System, r: RunId)
    requires Inv(s) && DoLevelAcked(s, r).Some?
    ensures Inv(DoLevelAcked(s, r).value) && Grows(s, DoLevelAcked(s, r).value)
  {
    var run := s.runs[r];
    assert RunOk(s.leads, s.net, run) && PostOk(s.leads, s.net[run.phase.post]);
    RunStepKeeps(s, r, Finished(run.phase.verdict), s.net);
  }

  lemma RunFailsKeeps(s: System, r: RunId)
    requires Inv(s) && DoRunFails(s, r).Some?
    ensures Inv(DoRunFails(s, r).value) && Grows(s, DoRunFails(s, r).value)
  {
    assert RunOk(s.leads, s.net, s.runs[r]);
    RunStepKeeps(s, r, Broken, s.net);
  }

  lemma LeadsAfterUpdate(leads: Leads, events: map<Id, Event>, l: Id, rec: LeadRecord)
    requires LeadsOk(leads) && EventsOk(leads, events) && l in leads && RecordOk(l, rec) && Advances(leads[l], rec)
    ensures LeadsOk(leads[l := rec]) && EventsOk(leads[l := rec], events) && LeadsGrow(leads, leads[l := rec])
  {
  }

  lemma PostsAfterDelivery(leads: Leads, net: seq<Post>, i: PostId)
    requires PostsOk(leads, net) && i < |net| && Settled(leads[net[i].cb.lead], net[i].cb.stage)
    ensures PostsOk(leads, net[i := net[i].(applied := true)])
  {
    assert PostOk(leads, net[i]);
  }

  lemma DeliverIs(s: System, i: PostId)
    requires LeadsOk(s.leads) && PostsOk(s.leads, s.net) && DoDeliver(s, i).Some?
    ensures var cb := s.net[i].cb;
            && cb.lead in s.leads
            && CallbackOnRecord(s.leads[cb.lead], cb).Ok?
            && var rec := CallbackOnRecord(s.leads[cb.lead], cb).value;
            && Advances(s.leads[cb.lead], rec) && RecordOk(cb.lead, rec) && Settled(rec, cb.stage)
            && DoDeliver(s, i).value == s.(leads := s.leads[cb.lead := rec], net := s.net[i := s.net[i].(applied := true)])
  {
    var cb := s.net[i].cb;
    assert PostOk(s.leads, s.net[i]);
    CallbackKeepsRecord(s.leads[cb.lead], cb);
  }

  lemma RecordKeeps(s: System, s': System, i: PostId, l: Id, rec: LeadRecord)
    requires Inv(s) && i < |s.net| && l in s.leads && s.net[i].cb.lead == l
    requires RecordOk(l, rec) && Advances(s.leads[l], rec) && Settled(rec, s.net[i].cb.stage)
    requires s' == s.(leads := s.leads[l := rec], net := s.net[i := s.net[i].(applied := true)])
    ensures Inv(s') && Grows(s, s')
  {
    LeadsAfterUpdate(s.leads, s.events, l, rec);
    PostsGrow(s.leads, s'.leads, s.net);
    PostsAfterDelivery(s'.leads, s.net, i);
    RunsGrowOk(s.leads, s'.leads, s.net, s'.net, s.runs);
    KnowledgeKept(s, s');
  }

  lemma DeliverKeeps(s: System, i: PostId)
    requires Inv(s) && DoDeliver(s, i).Some?
    ensures Inv(DoDeliver(s, i).value) && Grows(s, DoDeliver(s, i).value)
  {
    DeliverIs(s, i);
    var cb := s.net[i].cb;
    RecordKeeps(s, DoDeliver(s, i).value, i, cb.lead, CallbackOnRecord(s.leads[cb.lead], cb).value);
  }

  /** The inductive step over every action. */
  lemma StepKeeps(s: System, a: Action)
    requires Inv(s) && Next(s, a).Some?
    ensures Inv(Next(s, a).value) && Grows(s, Next(s, a).value)
  {
    match a
    case Create(_, _, _, _, _) => CreateKeeps(s, a);
    case Claim(w, l, now) => ClaimKeeps(s, w, l, now);
    case Begin(w) => BeginKeeps(s, w);
    case NoHandler(_) => CallKeeps(s, a);
    case PostClassify(w) => PostClassifyKeeps(s, w);
    case AttemptFails(_) => CallKeeps(s, a);
    case AttemptAnswered(_) => CallKeeps(s, a);
    case StartFailOpen(w, info) => StartFailOpenKeeps(s, w, info);
    case FailOpenAcked(w, info) => FailOpenAckedKeeps(s, w, info);
    case FailOpenFails(_) => CallKeeps(s, a);
    case MarkDelivered(w, now) => MarkDeliveredKeeps(s, w, now);
    case MarkRetry(w, error, now, draw) => MarkRetryKeeps(s, w, error, now, draw);
    case Crash(w) => CrashKeeps(s, w);
    case ClassifySpam(r, verdict, info) => ClassifySpamKeeps(s, r, verdict, info);
    case SpamAcked(r, level, info) => SpamAckedKeeps(s, r, level, info);
    case LevelAcked(r) => LevelAckedKeeps(s, r);
    case RunFails(r) => RunFailsKeeps(s, r);
    case Deliver(i) => DeliverKeeps(s, i);
  }

  /** The invariant holds in every reachable state. */
  lemma {:induction false} ReachableOk(s: System, actions: seq<Action>)
    requires Inv(s) && Exec(s, actions).Some?
    ensures Inv(Exec(s, actions).value)
    decreases |actions|
  {
    if actions != [] {
      StepKeeps(s, actions[0]);
      ReachableOk(Next(s, actions[0]).value, actions[1..]);
    }
  }
}
