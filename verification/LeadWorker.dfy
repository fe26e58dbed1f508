/** The worker's side and the model service's side of one classification, run without interference from
    other workers (workers/handlers/leads.py, workers/handlers/lead_processing_client.py,
    model-service/app/service.py). The network and the classifiers are parameters. */
module LeadWorker {
  import opened Common
  import opened LeadRecords
  import opened LeadService
  import opened LeadProtocol
  import O = Outbox

  /** What happens to one callback request. */
  datatype Delivery = Answered | AnswerLost | RequestLost

  /** What happens to one attempt to reach the model service: whether the request arrives, what the
      classifiers say, what becomes of the two callbacks, and whether the answer comes back. */
  datatype AttemptScript = AttemptScript(
    reaches: bool, verdict: SpamVerdict, spamInfo: Info, spamNet: Delivery,
    level: LevelVerdict, levelInfo: Info, levelNet: Delivery, answered: bool)

  datatype HandlerResult = Skipped | ClassifiedAs(verdict: SpamVerdict) | FailOpenCompleted | HandlerRaised

  /** One lead went through callbacks of its own only; every other lead is untouched. */
  ghost predicate OnlyLead(leads: map<Id, LeadRecord>, leads': map<Id, LeadRecord>, lead: Id) {
    && lead in leads && leads'.Keys == leads.Keys
    && (forall l :: l in leads && l != lead ==> leads'[l] == leads[l])
    && RecordOk(lead, leads'[lead]) && Advances(leads[lead], leads'[lead])
  }

  /** One callback post; an answer with an error status raises, which here is `false`. */
  method SendCallback(backend: Backend, cb: Callback, net: Delivery) returns (acked: bool)
    requires cb.lead in backend.leads && RecordOk(cb.lead, backend.leads[cb.lead])
    requires WellFormed(cb) && cb.tenant == backend.leads[cb.lead].tenant
    requires cb.stage.LevelStage? ==> SpamSettled(backend.leads[cb.lead])
    modifies backend`leads
    ensures OnlyLead(old(backend.leads), backend.leads, cb.lead)
    ensures acked <==> net.Answered?
    ensures !net.RequestLost? ==>
      && Settled(backend.leads[cb.lead], cb.stage)
      && CallbackOnRecord(old(backend.leads)[cb.lead], cb) == Ok(backend.leads[cb.lead])
    ensures net.RequestLost? ==> backend.leads == old(backend.leads)
    ensures cb.stage.SpamStage? ==> backend.leads[cb.lead].level == old(backend.leads)[cb.lead].level
    ensures cb.stage.LevelStage? ==> backend.leads[cb.lead].spam == old(backend.leads)[cb.lead].spam
  {
    CallbackKeepsRecord(backend.leads[cb.lead], cb);
    if net.RequestLost? {
      return false;
    }
    var r := backend.ClassificationCallback(cb);
    acked := r.Ok? && net.Answered?;
  }

  /** The model service gets as far as posting its level callback. */
  predicate PostsLevel(a: AttemptScript) { a.spamNet.Answered? && !a.verdict.SaysSpam? }

  /** `classify_lead`: spam callback first, level callback only after it is acknowledged and only when
      the label is not spam. The result says whether it returned normally. Each callback that arrives at a
      stage without a verdict puts on record what its classifier said. */
  method ClassifyLead(backend: Backend, lead: Id, tenant: Id, a: AttemptScript) returns (returned: bool)
    requires lead in backend.leads && RecordOk(lead, backend.leads[lead]) && tenant == backend.leads[lead].tenant
    modifies backend`leads
    ensures OnlyLead(old(backend.leads), backend.leads, lead)
    ensures returned <==> a.spamNet.Answered? && (a.verdict.SaysSpam? || a.levelNet.Answered?)
    ensures returned ==> VerdictOk(backend.leads, lead, a.verdict)
    ensures a.spamNet.RequestLost? ==> backend.leads == old(backend.leads)
    ensures !a.spamNet.RequestLost? && !SpamSettled(old(backend.leads)[lead]) ==>
      SpamSettled(backend.leads[lead]) && SpamReads(backend.leads[lead].spam[0], a.verdict, a.spamInfo)
    ensures !(PostsLevel(a) && !a.levelNet.RequestLost?) ==> backend.leads[lead].level == old(backend.leads)[lead].level
    ensures PostsLevel(a) && !a.levelNet.RequestLost? && !LevelSettled(old(backend.leads)[lead]) ==>
      LevelSettled(backend.leads[lead]) && LevelReads(backend.leads[lead].level[0], a.level, a.levelInfo)
  {
    ghost var rec := backend.leads[lead];
    if !SpamSettled(rec) {
      SpamRecorded(lead, rec, a.verdict, a.spamInfo);
    }
    var acked := SendCallback(backend, SpamCallback(lead, tenant, a.verdict, a.spamInfo), a.spamNet);
    if !acked {
      return false;
    }
    if !a.verdict.SaysSpam? {
      if !LevelSettled(rec) {
        LevelRecorded(lead, backend.leads[lead], a.level, a.levelInfo);
      }
      acked := SendCallback(backend, LevelCallback(lead, tenant, a.level, a.levelInfo), a.levelNet);
    }
    returned := acked;
  }

  // ---- The retry loop ----

  /** `_compute_delay`. */
  function ClientDelay(attempt: int, base: int, cap: int): int {
    Min(base * O.Pow2(Max(0, attempt - 1)), cap)
  }

  /** The delay starts at the base and doubles up to the cap. */
  lemma DelayDoubles(attempt: nat, base: nat, cap: nat)
    requires attempt >= 1
    ensures ClientDelay(1, base, cap) == if base < cap then base else cap
    ensures ClientDelay(attempt + 1, base, cap)
            == if 2 * ClientDelay(attempt, base, cap) < cap then 2 * ClientDelay(attempt, base, cap) else cap
  {
    var p := O.Pow2(attempt - 1);
    assert O.Pow2(attempt) == 2 * p;
    assert base * (2 * p) == 2 * (base * p);
    assert base * p >= 0;
  }

  /** The sleeps between `attempts` attempts. */
  function SleepBetween(attempts: nat, base: int, cap: int): int {
    if attempts <= 1 then 0 else SleepBetween(attempts - 1, base, cap) + ClientDelay(attempts - 1, base, cap)
  }

  /** Sleeping never takes longer than the cap between any two attempts. */
  lemma {:induction false} SleepBound(attempts: nat, base: nat, cap: nat)
    ensures 0 <= SleepBetween(attempts, base, cap)
    ensures SleepBetween(attempts, base, cap) <= cap * Max(0, attempts - 1)
    ensures SleepBetween(attempts, base, cap) <= base * (O.Pow2(Max(0, attempts - 1)) - 1)
  {
    if attempts > 1 {
      SleepBound(attempts - 1, base, cap);
      O.Pow2Grows(0, attempts - 2);
      DoublingStep(base, O.Pow2(attempts - 2));
      assert cap * (attempts - 1) == cap * (attempts - 2) + cap;
    }
  }

  lemma DoublingStep(base: nat, p: nat)
    ensures base * (2 * p - 1) == base * (p - 1) + base * p && base * p >= 0
  {
  }

  /** The attempt returns an answer to the worker. */
  predicate Succeeds(a: AttemptScript) {
    a.reaches && a.spamNet.Answered? && (a.verdict.SaysSpam? || a.levelNet.Answered?) && a.answered
  }

  /** Its spam callback, or its level callback, arrives at the backend. */
  predicate SpamArrives(a: AttemptScript) { a.reaches && !a.spamNet.RequestLost? }

  predicate LevelArrives(a: AttemptScript) { a.reaches && PostsLevel(a) && !a.levelNet.RequestLost? }

  /** No spam callback of the first n attempts arrives; no level callback. */
  predicate NoSpamArrives(scripts: seq<AttemptScript>, n: nat)
    requires n <= |scripts|
  {
    forall k :: 0 <= k < n ==> !SpamArrives(scripts[k])
  }

  predicate NoLevelArrives(scripts: seq<AttemptScript>, n: nat)
    requires n <= |scripts|
  {
    forall k :: 0 <= k < n ==> !LevelArrives(scripts[k])
  }

  predicate NoneSucceeds(scripts: seq<AttemptScript>, n: nat)
    requires n <= |scripts|
  {
    forall k :: 0 <= k < n ==> !Succeeds(scripts[k])
  }

  /** What n attempts leave of a lead: a stage that had no verdict has the one of the first callback to
      arrive, and none if none arrived. */
  ghost predicate Recorded(rec: LeadRecord, rec': LeadRecord, scripts: seq<AttemptScript>, n: nat)
    requires n <= |scripts| && |rec'.spam| == 1 && |rec'.level| == 1
  {
    && (NoSpamArrives(scripts, n) ==> rec' == rec)
    && (NoLevelArrives(scripts, n) ==> rec'.level == rec.level)
    && (!SpamSettled(rec) ==> forall k :: 0 <= k < n && SpamArrives(scripts[k]) && NoSpamArrives(scripts, k) ==>
          SpamReads(rec'.spam[0], scripts[k].verdict, scripts[k].spamInfo))
    && (!LevelSettled(rec) ==> forall k :: 0 <= k < n && LevelArrives(scripts[k]) && NoLevelArrives(scripts, k) ==>
          LevelReads(rec'.level[0], scripts[k].level, scripts[k].levelInfo))
    && (!NoSpamArrives(scripts, n) ==> SpamSettled(rec'))
    && (!NoLevelArrives(scripts, n) ==> LevelSettled(rec'))
  }

  /** One attempt, as `classify_lead` leaves the lead. */
  ghost predicate Attempted(rec: LeadRecord, rec': LeadRecord, a: AttemptScript)
    requires |rec'.spam| == 1 && |rec'.level| == 1
  {
    && Advances(rec, rec')
    && (!SpamArrives(a) ==> rec' == rec)
    && (!LevelArrives(a) ==> rec'.level == rec.level)
    && (SpamArrives(a) ==> SpamSettled(rec'))
    && (LevelArrives(a) ==> LevelSettled(rec'))
    && (SpamArrives(a) && !SpamSettled(rec) ==> SpamReads(rec'.spam[0], a.verdict, a.spamInfo))
    && (LevelArrives(a) && !LevelSettled(rec) ==> LevelReads(rec'.level[0], a.level, a.levelInfo))
  }

  lemma RecordedNext(rec: LeadRecord, rec1: LeadRecord, rec2: LeadRecord, scripts: seq<AttemptScript>, n: nat)
    requires n < |scripts| && |rec1.spam| == |rec1.level| == |rec2.spam| == |rec2.level| == 1
    requires Recorded(rec, rec1, scripts, n) && Attempted(rec1, rec2, scripts[n])
    ensures Recorded(rec, rec2, scripts, n + 1)
  {
    assert NoSpamArrives(scripts, n + 1) <==> NoSpamArrives(scripts, n) && !SpamArrives(scripts[n]);
    assert NoLevelArrives(scripts, n + 1) <==> NoLevelArrives(scripts, n) && !LevelArrives(scripts[n]);
  }

  /** One post to the model service; an error of any kind is `false`. */
  method Attempt(backend: Backend, p: O.Payload, a: AttemptScript) returns (returned: bool)
    requires p.lead in backend.leads && RecordOk(p.lead, backend.leads[p.lead]) && p.tenant == backend.leads[p.lead].tenant
    modifies backend`leads
    ensures OnlyLead(old(backend.leads), backend.leads, p.lead)
    ensures returned <==> Succeeds(a)
    ensures returned ==> VerdictOk(backend.leads, p.lead, a.verdict)
    ensures Attempted(old(backend.leads)[p.lead], backend.leads[p.lead], a)
  {
    if !a.reaches {
      return false;
    }
    returned := ClassifyLead(backend, p.lead, p.tenant, a);
    returned := returned && a.answered;
  }

  /** The same as the (n + 1)-th attempt for the lead. */
  method AttemptNext(backend: Backend, p: O.Payload, scripts: seq<AttemptScript>, n: nat, ghost leads: map<Id, LeadRecord>)
    returns (returned: bool)
    requires n < |scripts| && OnlyLead(leads, backend.leads, p.lead) && p.tenant == leads[p.lead].tenant
    requires Recorded(leads[p.lead], backend.leads[p.lead], scripts, n)
    modifies backend`leads
    ensures OnlyLead(leads, backend.leads, p.lead)
    ensures returned <==> Succeeds(scripts[n])
    ensures returned ==> VerdictOk(backend.leads, p.lead, scripts[n].verdict)
    ensures Recorded(leads[p.lead], backend.leads[p.lead], scripts, n + 1)
  {
    ghost var before := backend.leads[p.lead];
    returned := Attempt(backend, p, scripts[n]);
    RecordedNext(leads[p.lead], before, backend.leads[p.lead], scripts, n);
  }

  /** `forward_to_model_service`: up to `maxAttempts` posts with capped exponential sleeps in between.
      `scripts[k]` is what happens to attempt k + 1. The answer is that of the first attempt to succeed. */
  method ForwardToModelService(backend: Backend, p: O.Payload, maxAttempts: int, base: int, cap: int, scripts: seq<AttemptScript>)
    returns (answer: Option<SpamVerdict>, posts: nat, slept: int)
    requires |scripts| >= maxAttempts
    requires p.lead in backend.leads && RecordOk(p.lead, backend.leads[p.lead]) && p.tenant == backend.leads[p.lead].tenant
    modifies backend`leads
    ensures OnlyLead(old(backend.leads), backend.leads, p.lead)
    ensures posts <= Max(0, maxAttempts)
    ensures answer.None? ==> posts == Max(0, maxAttempts)
    ensures slept == SleepBetween(posts, base, cap)
    ensures answer.None? ==> NoneSucceeds(scripts, posts)
    ensures answer.Some? ==>
      && posts > 0 && Succeeds(scripts[posts - 1]) && NoneSucceeds(scripts, posts - 1)
      && scripts[posts - 1].verdict == answer.value && VerdictOk(backend.leads, p.lead, answer.value)
    ensures Recorded(old(backend.leads)[p.lead], backend.leads[p.lead], scripts, posts)
  {
    answer, posts, slept := None, 0, 0;
    ghost var leads := backend.leads;
    var attempt := 1;
    while attempt <= maxAttempts
      invariant attempt == posts + 1 && posts <= Max(0, maxAttempts)
      invariant OnlyLead(leads, backend.leads, p.lead)
      invariant slept == SleepBetween(if posts == 0 || posts == maxAttempts then posts else posts + 1, base, cap)
      invariant NoneSucceeds(scripts, posts)
      invariant Recorded(leads[p.lead], backend.leads[p.lead], scripts, posts)
    {
      var returned := AttemptNext(backend, p, scripts, posts, leads);
      posts := posts + 1;
      if returned {
        return Some(scripts[attempt - 1].verdict), posts, slept;
      }
      if attempt < maxAttempts {
        slept := slept + ClientDelay(attempt, base, cap);
      }
      attempt := attempt + 1;
    }
  }

  // ---- The handler ----

  /** The two fail-open callbacks, the second only after the first is acknowledged. A stage without a
      verdict gets "not spam" and "normal". */
  method PostFailOpen(backend: Backend, p: O.Payload, spamNet: Delivery, levelNet: Delivery, info: Info) returns (completed: bool)
    requires p.lead in backend.leads && RecordOk(p.lead, backend.leads[p.lead]) && p.tenant == backend.leads[p.lead].tenant
    modifies backend`leads
    ensures OnlyLead(old(backend.leads), backend.leads, p.lead)
    ensures completed <==> spamNet.Answered? && levelNet.Answered?
    ensures completed ==> SpamSettled(backend.leads[p.lead]) && LevelSettled(backend.leads[p.lead])
    ensures completed && !SpamSettled(old(backend.leads)[p.lead]) ==> SpamReads(backend.leads[p.lead].spam[0], SaysNotSpam, info)
    ensures completed && !LevelSettled(old(backend.leads)[p.lead]) ==> LevelReads(backend.leads[p.lead].level[0], SaysNormal, info)
  {
    ghost var rec := backend.leads[p.lead];
    if !SpamSettled(rec) {
      SpamRecorded(p.lead, rec, SaysNotSpam, info);
    }
    var acked := SendCallback(backend, SpamCallback(p.lead, p.tenant, SaysNotSpam, info), spamNet);
    if !acked {
      return false;
    }
    if !LevelSettled(rec) {
      LevelRecorded(p.lead, backend.leads[p.lead], SaysNormal, info);
    }
    completed := SendCallback(backend, LevelCallback(p.lead, p.tenant, SaysNormal, info), levelNet);
  }

  /** `handle_lead_created`: which of its four ends it comes to, and what is on record then. When it returns
      normally on a non-blank message the lead is completed or failed, except exactly when the attempt said
      spam over a recorded non-spam verdict that no level verdict has followed. */
  method HandleLeadCreated(backend: Backend, p: O.Payload, maxAttempts: int, base: int, cap: int,
                           scripts: seq<AttemptScript>, spamNet: Delivery, levelNet: Delivery, info: Info)
    returns (r: HandlerResult)
    requires |scripts| >= maxAttempts
    requires p.lead in backend.leads && RecordOk(p.lead, backend.leads[p.lead]) && p.tenant == backend.leads[p.lead].tenant
    modifies backend`leads
    ensures OnlyLead(old(backend.leads), backend.leads, p.lead)
    ensures r.Skipped? <==> IsBlank(p.message)
    ensures r.Skipped? ==> backend.leads == old(backend.leads)
    ensures var fails := NoneSucceeds(scripts, Max(0, maxAttempts));
      && (r.ClassifiedAs? <==> !IsBlank(p.message) && !fails)
      && (r.FailOpenCompleted? <==> !IsBlank(p.message) && fails && spamNet.Answered? && levelNet.Answered?)
    ensures r.ClassifiedAs? ==>
      exists k :: 0 <= k < maxAttempts && Succeeds(scripts[k]) && NoneSucceeds(scripts, k)
        && r.verdict == scripts[k].verdict && Recorded(old(backend.leads)[p.lead], backend.leads[p.lead], scripts, k + 1)
    ensures (r.FailOpenCompleted? || r.HandlerRaised?) && !SpamSettled(old(backend.leads)[p.lead]) ==>
      forall k :: 0 <= k < maxAttempts && SpamArrives(scripts[k]) && NoSpamArrives(scripts, k) ==>
        SpamReads(backend.leads[p.lead].spam[0], scripts[k].verdict, scripts[k].spamInfo)
    ensures (r.FailOpenCompleted? || r.HandlerRaised?) && !LevelSettled(old(backend.leads)[p.lead]) ==>
      forall k :: 0 <= k < maxAttempts && LevelArrives(scripts[k]) && NoLevelArrives(scripts, k) ==>
        LevelReads(backend.leads[p.lead].level[0], scripts[k].level, scripts[k].levelInfo)
    ensures r.FailOpenCompleted? && !SpamSettled(old(backend.leads)[p.lead]) && NoSpamArrives(scripts, Max(0, maxAttempts)) ==>
      SpamReads(backend.leads[p.lead].spam[0], SaysNotSpam, info)
    ensures r.FailOpenCompleted? && !LevelSettled(old(backend.leads)[p.lead]) && NoLevelArrives(scripts, Max(0, maxAttempts)) ==>
      LevelReads(backend.leads[p.lead].level[0], SaysNormal, info)
    ensures r.ClassifiedAs? || r.FailOpenCompleted? ==>
      var rec := backend.leads[p.lead];
      (!Terminal(rec.processing) <==> r == ClassifiedAs(SaysSpam) && RecordedNotSpam(rec) && !LevelSettled(rec))
  {
    if IsBlank(p.message) {
      return Skipped;
    }
    var answer, posts, _ := ForwardToModelService(backend, p, maxAttempts, base, cap, scripts);
    if answer.Some? {
      return ClassifiedAs(answer.value);
    }
    var completed := PostFailOpen(backend, p, spamNet, levelNet, info);
    r := if completed then FailOpenCompleted else HandlerRaised;
  }
}
