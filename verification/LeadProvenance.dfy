/** Whatever a lead's rows say, some classifier said it of that lead, or a worker gave up on it. */
module LeadProvenance {
  import opened Common
  import opened LeadRecords
  import opened LeadProtocol
  import opened LeadSafety
  import opened LeadTheorems

  /** A verdict a classifier returned for a lead, or the one a worker posted after its attempts failed. */
  datatype Cause =
    | SpamSaid(lead: Id, spam: SpamVerdict, info: Info)
    | LevelSaid(lead: Id, level: LevelVerdict, info: Info)
    | GaveUpSpam(lead: Id, info: Info)
    | GaveUpLevel(lead: Id, info: Info)

  /** What a step says. */
  function Said(s: System, a: Action): set<Cause> {
    match a
    case ClassifySpam(r, verdict, info) => if r < |s.runs| then {SpamSaid(s.runs[r].lead, verdict, info)} else {}
    case SpamAcked(r, level, info) =>
      if r < |s.runs| && s.runs[r].phase.SpamPosted? && !s.runs[r].phase.verdict.SaysSpam?
      then {LevelSaid(s.runs[r].lead, level, info)} else {}
    case StartFailOpen(w, info) => if w in s.workers then {GaveUpSpam(s.workers[w].lead, info)} else {}
    case FailOpenAcked(w, info) =>
      if w in s.workers && s.workers[w].phase.FailOpenSpam? then {GaveUpLevel(s.workers[w].lead, info)} else {}
    case _ => {}
  }

  /** What the steps of a run say. */
  function AllSaid(s: System, actions: seq<Action>): set<Cause>
    requires Exec(s, actions).Some?
    decreases |actions|
  {
    if actions == [] then {} else Said(s, actions[0]) + AllSaid(Next(s, actions[0]).value, actions[1..])
  }

  /** The callback was built from this cause. */
  predicate Builds(c: Cause, cb: Callback) {
    cb == match c
      case SpamSaid(lead, verdict, info) => SpamCallback(lead, cb.tenant, verdict, info)
      case LevelSaid(lead, verdict, info) => LevelCallback(lead, cb.tenant, verdict, info)
      case GaveUpSpam(lead, info) => SpamCallback(lead, cb.tenant, SaysNotSpam, info)
      case GaveUpLevel(lead, info) => LevelCallback(lead, cb.tenant, SaysNormal, info)
  }

  /** The row of this stage says what the cause says. */
  predicate Explains(c: Cause, stage: Stage, row: ResultRow) {
    match c
    case SpamSaid(_, verdict, info) => stage.SpamStage? && SpamReads(row, verdict, info)
    case LevelSaid(_, verdict, info) => stage.LevelStage? && LevelReads(row, verdict, info)
    case GaveUpSpam(_, info) => stage.SpamStage? && SpamReads(row, SaysNotSpam, info)
    case GaveUpLevel(_, info) => stage.LevelStage? && LevelReads(row, SaysNormal, info)
  }

  ghost predicate Posted(said: set<Cause>, cb: Callback) { exists c :: c in said && Builds(c, cb) }

  ghost predicate NetBacked(said: set<Cause>, net: seq<Post>) {
    forall i :: 0 <= i < |net| ==> Posted(said, net[i].cb)
  }

  ghost predicate RowBacked(said: set<Cause>, lead: Id, stage: Stage, row: ResultRow) {
    exists c :: c in said && c.lead == lead && Explains(c, stage, row)
  }

  ghost predicate RecordBacked(said: set<Cause>, l: Id, rec: LeadRecord) {
    && (SpamSettled(rec) ==> RowBacked(said, l, SpamStage, rec.spam[0]))
    && (LevelSettled(rec) ==> RowBacked(said, l, LevelStage, rec.level[0]))
  }

  ghost predicate Backed(said: set<Cause>, s: System) {
    && NetBacked(said, s.net)
    && forall l :: l in s.leads ==> RecordBacked(said, l, s.leads[l])
  }

  // ---- One step ----

  lemma RecordStaysBacked(said: set<Cause>, more: set<Cause>, l: Id, rec: LeadRecord)
    requires RecordBacked(said, l, rec) && said <= more
    ensures RecordBacked(more, l, rec)
  {
  }

  lemma NetStaysBacked(said: set<Cause>, more: set<Cause>, net: seq<Post>, net': seq<Post>)
    requires NetBacked(said, net) && said <= more && NetGrows(net, net')
    requires |net'| <= |net| + 1 && (|net'| > |net| ==> Posted(more, net'[|net|].cb))
    ensures NetBacked(more, net')
  {
    forall i | 0 <= i < |net'| ensures Posted(more, net'[i].cb) {
      if i < |net| {
        assert Posted(said, net[i].cb);
      }
    }
  }

  lemma QuietNet(s: System, a: Action, s': System)
    requires Next(s, a) == Some(s') && !a.ClassifySpam? && !a.SpamAcked? && !a.StartFailOpen? && !a.FailOpenAcked?
    ensures |s'.net| == |s.net|
  {
  }

  lemma GivingUpPosts(s: System, w: WorkerId, info: Info)
    requires EventsOk(s.leads, s.events) && DoStartFailOpen(s, w, info).Some?
    ensures var net := DoStartFailOpen(s, w, info).value.net;
            |net| == |s.net| + 1 && Builds(GaveUpSpam(s.workers[w].lead, info), net[|s.net|].cb)
  {
    var l := s.workers[w].lead;
    assert EventOk(l, s.events[l]);
  }

  lemma GivenUpPosts(s: System, w: WorkerId, info: Info)
    requires EventsOk(s.leads, s.events) && DoFailOpenAcked(s, w, info).Some?
    ensures var net := DoFailOpenAcked(s, w, info).value.net;
            && |net| == |s.net| + (if s.workers[w].phase.FailOpenSpam? then 1 else 0)
            && (s.workers[w].phase.FailOpenSpam? ==> Builds(GaveUpLevel(s.workers[w].lead, info), net[|s.net|].cb))
  {
    var l := s.workers[w].lead;
    assert EventOk(l, s.events[l]);
  }

  lemma ClassifierPosts(s: System, r: RunId, verdict: SpamVerdict, info: Info)
    requires DoClassifySpam(s, r, verdict, info).Some?
    ensures var net := DoClassifySpam(s, r, verdict, info).value.net;
            |net| == |s.net| + 1 && Builds(SpamSaid(s.runs[r].lead, verdict, info), net[|s.net|].cb)
  {
  }

  lemma LevelPosts(s: System, r: RunId, level: LevelVerdict, info: Info)
    requires DoSpamAcked(s, r, level, info).Some?
    ensures var net := DoSpamAcked(s, r, level, info).value.net;
            && |net| == |s.net| + (if s.runs[r].phase.verdict.SaysSpam? then 0 else 1)
            && (!s.runs[r].phase.verdict.SaysSpam? ==> Builds(LevelSaid(s.runs[r].lead, level, info), net[|s.net|].cb))
  {
  }

  /** A step appends at most one post, and what it says builds it. */
  lemma StepPosts(s: System, a: Action, s': System)
    requires EventsOk(s.leads, s.events) && Next(s, a) == Some(s')
    ensures |s'.net| <= |s.net| + 1
    ensures |s'.net| > |s.net| ==> Posted(Said(s, a), s'.net[|s.net|].cb)
  {
    if a.ClassifySpam? {
      ClassifierPosts(s, a.run, a.spam, a.info);
    } else if a.SpamAcked? {
      LevelPosts(s, a.run, a.level, a.info);
    } else if a.StartFailOpen? {
      GivingUpPosts(s, a.worker, a.info);
    } else if a.FailOpenAcked? {
      GivenUpPosts(s, a.worker, a.info);
    } else {
      QuietNet(s, a, s');
    }
  }

  /** A delivered callback puts on record what its cause says, unless the stage has a verdict already. */
  lemma DeliveryBacked(said: set<Cause>, rec: LeadRecord, cb: Callback)
    requires RecordOk(cb.lead, rec) && WellFormed(cb) && cb.tenant == rec.tenant && Posted(said, cb)
    requires cb.stage.LevelStage? ==> SpamSettled(rec)
    requires RecordBacked(said, cb.lead, rec)
    ensures CallbackOnRecord(rec, cb).Ok? && RecordBacked(said, cb.lead, CallbackOnRecord(rec, cb).value)
  {
    CallbackKeepsRecord(rec, cb);
    var c :| c in said && Builds(c, cb);
    if cb.stage.SpamStage? {
      if !SpamSettled(rec) {
        SpamRecorded(cb.lead, rec, if c.SpamSaid? then c.spam else SaysNotSpam, c.info);
      }
    } else if !LevelSettled(rec) {
      LevelRecorded(cb.lead, rec, if c.LevelSaid? then c.level else SaysNormal, c.info);
    }
  }

  lemma LeadsStayBacked(said: set<Cause>, more: set<Cause>, s: System, a: Action, s': System, l: Id)
    requires Inv(s) && Next(s, a) == Some(s') && Backed(said, s) && said <= more && l in s'.leads
    ensures RecordBacked(more, l, s'.leads[l])
  {
    if a.Deliver? {
      DeliverIs(s, a.post);
      var cb := s.net[a.post].cb;
      assert PostOk(s.leads, s.net[a.post]) && Posted(said, cb);
      if l == cb.lead {
        DeliveryBacked(said, s.leads[l], cb);
      }
      RecordStaysBacked(said, more, l, s'.leads[l]);
    } else if a.Create? {
      if l in s.leads {
        CreateStep(s, a);
        RecordStaysBacked(said, more, l, s.leads[l]);
      }
    } else {
      QuietStep(s, a);
      RecordStaysBacked(said, more, l, s.leads[l]);
    }
  }

  lemma StepBacked(said: set<Cause>, s: System, a: Action, s': System)
    requires Inv(s) && Next(s, a) == Some(s') && Backed(said, s)
    ensures Backed(said + Said(s, a), s')
  {
    var more := said + Said(s, a);
    StepKeeps(s, a);
    StepPosts(s, a, s');
    assert |s'.net| > |s.net| ==> Posted(more, s'.net[|s.net|].cb);
    NetStaysBacked(said, more, s.net, s'.net);
    forall l | l in s'.leads ensures RecordBacked(more, l, s'.leads[l]) {
      LeadsStayBacked(said, more, s, a, s', l);
    }
  }

  lemma {:induction false} RunBacked(said: set<Cause>, s: System, actions: seq<Action>)
    requires Inv(s) && Exec(s, actions).Some? && Backed(said, s)
    ensures Backed(said + AllSaid(s, actions), Exec(s, actions).value)
    decreases |actions|
  {
    if actions == [] {
      assert said + AllSaid(s, actions) == said;
    } else {
      var s1 := Next(s, actions[0]).value;
      StepKeeps(s, actions[0]);
      StepBacked(said, s, actions[0], s1);
      RunBacked(said + Said(s, actions[0]), s1, actions[1..]);
      assert said + AllSaid(s, actions) == said + Said(s, actions[0]) + AllSaid(s1, actions[1..]);
    }
  }

  /** In every reachable state: a recorded spam verdict, with its score and details, is one a classifier
      returned for that lead in this run, or the "not spam" of a worker whose attempts on it had all failed;
      a recorded level verdict likewise, with "normal". */
  lemma VerdictsHaveCauses(s: System, actions: seq<Action>, l: Id)
    requires Reachable(s, actions) && l in s.leads
    ensures var said := AllSaid(Init(s.maxAttempts), actions);
            && (SpamSettled(s.leads[l]) ==> exists c :: c in said && c.lead == l && Explains(c, SpamStage, s.leads[l].spam[0]))
            && (LevelSettled(s.leads[l]) ==> exists c :: c in said && c.lead == l && Explains(c, LevelStage, s.leads[l].level[0]))
  {
    var s0 := Init(s.maxAttempts);
    assert Inv(s0) && Backed({}, s0);
    RunBacked({}, s0, actions);
    assert {} + AllSaid(s0, actions) == AllSaid(s0, actions);
    assert RecordBacked(AllSaid(s0, actions), l, s.leads[l]);
  }
}
