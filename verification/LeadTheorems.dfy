/** The promises of the lead pipeline, for every run of the protocol. */
module LeadTheorems {
  import opened Common
  import opened LeadRecords
  import opened LeadProtocol
  import opened LeadSafety
  import O = Outbox

  /** Some run of the protocol leads from the empty system to `s`. */
  ghost predicate Reachable(s: System, actions: seq<Action>) {
    Exec(Init(s.maxAttempts), actions) == Some(s)
  }

  lemma ReachableInv(s: System, actions: seq<Action>)
    requires Reachable(s, actions)
    ensures Inv(s)
  {
    assert Inv(Init(s.maxAttempts));
    ReachableOk(Init(s.maxAttempts), actions);
  }

  // ---- No lead is lost ----

  /** The one way in which an event can be delivered and its lead stay open: the delivering attempt's
      classifier said spam, while an earlier verdict on record is a completed non-spam one. */
  predicate SpamOverNotSpam(s: System, l: Id, outcome: Outcome) {
    && l in s.leads
    && outcome.Classified? && outcome.run < |s.runs|
    && s.runs[outcome.run].phase == Finished(SaysSpam)
    && RecordedNotSpam(s.leads[l]) && !LevelSettled(s.leads[l])
  }

  /** A lead that is not completed or failed still has its event pending, being processed or
      dead-lettered, or else the event was delivered over a recorded non-spam verdict. */
  lemma NoLostLead(s: System, actions: seq<Action>, l: Id)
    requires Reachable(s, actions) && l in s.leads && !Terminal(s.leads[l].processing)
    ensures l in s.events
    ensures s.events[l].row.status.Delivered? ==>
              s.events[l].via.Some? && SpamOverNotSpam(s, l, s.events[l].via.value)
  {
    ReachableInv(s, actions);
    if s.events[l].row.status.Delivered? {
      OutcomeDecides(s, l, s.events[l].via.value);
    }
  }

  /** A justified outcome leaves the lead open exactly in the spam-over-non-spam case. */
  lemma OutcomeDecides(s: System, l: Id, outcome: Outcome)
    requires LeadsOk(s.leads) && RunsOk(s.leads, s.net, s.runs)
    requires l in s.leads && OutcomeOk(s.leads, s.runs, l, outcome)
    ensures !Terminal(s.leads[l].processing) <==> SpamOverNotSpam(s, l, outcome)
  {
    assert RecordOk(l, s.leads[l]);
    if outcome.Classified? {
      assert RunOk(s.leads, s.net, s.runs[outcome.run]);
    }
  }

  /** When the handler has returned normally, whatever else is going on, the lead is completed or
      failed, except exactly in the spam-over-non-spam case. */
  lemma HandlerPostcondition(s: System, actions: seq<Action>, w: WorkerId)
    requires Reachable(s, actions) && w in s.workers && s.workers[w].phase.Returned?
    ensures s.workers[w].lead in s.leads
    ensures !Terminal(s.leads[s.workers[w].lead].processing) <==>
            SpamOverNotSpam(s, s.workers[w].lead, s.workers[w].phase.outcome)
  {
    ReachableInv(s, actions);
    assert HoldsEvent(s.events, w, s.workers[w]);
    assert PhaseOk(s, s.workers[w].lead, s.workers[w].phase);
    OutcomeDecides(s, s.workers[w].lead, s.workers[w].phase.outcome);
  }

  // ---- Terminal is absorbing ----

  /** Leads and events as they may change over time. */
  ghost predicate History(s: System, s': System) {
    && (forall l :: l in s.leads ==> l in s'.leads && Advances(s.leads[l], s'.leads[l]))
    && (forall l :: l in s.events ==> l in s'.events && EventHistory(s.events[l], s'.events[l]))
  }

  predicate EventHistory(e: Event, e': Event) {
    && (O.Final(e.row.status) ==> e' == e)
    && e'.row.payload == e.row.payload && e'.row.maxRetries == e.row.maxRetries
    && e.failures <= e'.failures && e.starts <= e'.starts
    && (e.abandoned ==> e'.abandoned)
  }

  predicate TouchesEvents(a: Action) {
    a.Create? || a.Claim? || a.Begin? || a.MarkDelivered? || a.MarkRetry? || a.Crash?
  }

  lemma QuietStep(s: System, a: Action)
    requires Next(s, a).Some?
    ensures !TouchesEvents(a) ==> Next(s, a).value.events == s.events
    ensures !a.Create? && !a.Deliver? ==> Next(s, a).value.leads == s.leads
  {
  }

  lemma DeliverLead(s: System, i: PostId, l: Id)
    requires LeadsOk(s.leads) && PostsOk(s.leads, s.net) && DoDeliver(s, i).Some? && l in s.leads
    ensures l in DoDeliver(s, i).value.leads && Advances(s.leads[l], DoDeliver(s, i).value.leads[l])
  {
    DeliverIs(s, i);
  }

  lemma CreateStep(s: System, a: Action)
    requires a.Create? && DoCreate(s, a).Some?
    ensures var s' := DoCreate(s, a).value;
            && (forall l :: l in s.leads ==> l in s'.leads && s'.leads[l] == s.leads[l])
            && (forall l :: l in s.events ==> l in s'.events && s'.events[l] == s.events[l])
  {
  }

  lemma LeadStep(s: System, a: Action, s': System, l: Id)
    requires Inv(s) && Next(s, a) == Some(s') && l in s.leads
    ensures l in s'.leads && Advances(s.leads[l], s'.leads[l])
  {
    if a.Deliver? {
      DeliverLead(s, a.post, l);
    } else if a.Create? {
      CreateStep(s, a);
    } else {
      QuietStep(s, a);
    }
  }

  lemma HolderStep(s: System, a: Action, s': System, l: Id)
    requires Next(s, a) == Some(s') && (a.Begin? || a.MarkDelivered? || a.MarkRetry? || a.Crash?)
    requires a.worker in s.workers && HoldsEvent(s.events, a.worker, s.workers[a.worker])
    requires l in s.events && EventOk(l, s.events[l])
    ensures l in s'.events && EventHistory(s.events[l], s'.events[l])
  {
  }

  lemma ClaimStep(s: System, a: Action, l: Id)
    requires a.Claim? && DoClaim(s, a.worker, a.lead, a.now).Some? && l in s.events
    ensures var s' := DoClaim(s, a.worker, a.lead, a.now).value;
            l in s'.events && EventHistory(s.events[l], s'.events[l])
  {
  }

  lemma EventStep(s: System, a: Action, s': System, l: Id)
    requires ClaimsOk(s.events, s.workers) && Next(s, a) == Some(s') && l in s.events && EventOk(l, s.events[l])
    ensures l in s'.events && EventHistory(s.events[l], s'.events[l])
  {
    if a.Create? {
      CreateStep(s, a);
    } else if a.Claim? {
      ClaimStep(s, a, l);
    } else if TouchesEvents(a) {
      HolderStep(s, a, s', l);
    } else {
      QuietStep(s, a);
    }
  }

  lemma StepHistory(s: System, a: Action)
    requires Inv(s) && Next(s, a).Some?
    ensures History(s, Next(s, a).value)
  {
    var s' := Next(s, a).value;
    forall l | l in s.leads ensures l in s'.leads && Advances(s.leads[l], s'.leads[l]) {
      LeadStep(s, a, s', l);
    }
    forall l | l in s.events ensures l in s'.events && EventHistory(s.events[l], s'.events[l]) {
      EventStep(s, a, s', l);
    }
  }

  /** Over any stretch of any run: a recorded spam verdict never changes, a completed or failed lead
      never returns to a pending status, the review state is never touched, and a delivered or
      dead-lettered event never changes again. */
  lemma {:induction false} HistoryHolds(s: System, actions: seq<Action>)
    requires Inv(s) && Exec(s, actions).Some?
    ensures History(s, Exec(s, actions).value)
    decreases |actions|
  {
    if actions != [] {
      var s1 := Next(s, actions[0]).value;
      StepKeeps(s, actions[0]);
      StepHistory(s, actions[0]);
      HistoryHolds(s1, actions[1..]);
      HistoryChains(s, s1, Exec(s, actions).value);
    }
  }

  lemma HistoryChains(s: System, s1: System, s2: System)
    requires History(s, s1) && History(s1, s2)
    ensures History(s, s2)
  {
    forall l | l in s.leads ensures l in s2.leads && Advances(s.leads[l], s2.leads[l]) {
      assert Advances(s.leads[l], s1.leads[l]) && Advances(s1.leads[l], s2.leads[l]);
    }
    forall l | l in s.events ensures l in s2.events && EventHistory(s.events[l], s2.events[l]) {
      assert EventHistory(s.events[l], s1.events[l]) && EventHistory(s1.events[l], s2.events[l]);
    }
  }

  // ---- Outbox safety ----

  /** In every reachable state an event in processing has at most one claimant, its retry count is the
      number of its failed attempts, its handler has been entered at most max(1, max_retries) times, and
      a dead-lettered event has failed exactly that often. */
  lemma OutboxSafety(s: System, actions: seq<Action>, l: Id, w1: WorkerId, w2: WorkerId)
    requires Reachable(s, actions) && l in s.events
    ensures w1 in s.workers && w2 in s.workers && s.workers[w1].lead == l && s.workers[w2].lead == l ==> w1 == w2
    ensures w1 in s.workers && s.workers[w1].lead == l ==> s.events[l].row.status.Processing?
    ensures var e := s.events[l];
            && e.row.retryCount == e.failures
            && e.starts <= Max(1, e.row.maxRetries)
            && e.failures <= Max(1, e.row.maxRetries)
            && (e.row.status.DeadLetter? <==> e.failures == Max(1, e.row.maxRetries))
  {
    ReachableInv(s, actions);
    assert EventOk(l, s.events[l]);
    assert w1 in s.workers ==> HoldsEvent(s.events, w1, s.workers[w1]);
    assert w2 in s.workers ==> HoldsEvent(s.events, w2, s.workers[w2]);
  }
}
