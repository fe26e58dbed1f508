/** The work a lead's event can still cause is bounded, and without a crash it never gets stuck. */
module LeadTermination {
  import opened Common
  import opened LeadRecords
  import opened LeadProtocol
  import opened LeadSafety
  import opened LeadTheorems
  import O = Outbox

  /** The action is a worker's, and it works on the event of lead `l`. */
  predicate ActsOn(s: System, a: Action, l: Id) {
    match a
    case Claim(_, k, _) => k == l
    case Begin(w) => Holds(s, w, l)
    case NoHandler(w) => Holds(s, w, l)
    case PostClassify(w) => Holds(s, w, l)
    case AttemptFails(w) => Holds(s, w, l)
    case AttemptAnswered(w) => Holds(s, w, l)
    case StartFailOpen(w, _) => Holds(s, w, l)
    case FailOpenAcked(w, _) => Holds(s, w, l)
    case FailOpenFails(w) => Holds(s, w, l)
    case MarkDelivered(w, _) => Holds(s, w, l)
    case MarkRetry(w, _, _, _) => Holds(s, w, l)
    case Crash(w) => Holds(s, w, l)
    case _ => false
  }

  predicate Holds(s: System, w: WorkerId, l: Id) { w in s.workers && s.workers[w].lead == l }

  /** An upper bound on the steps a worker takes between its claim and its final mark. */
  function PerClaim(maxAttempts: int): nat { 2 * Max(0, maxAttempts) + 8 }

  function PhaseBudget(maxAttempts: int, phase: Phase): nat {
    var total := Max(0, maxAttempts);
    match phase
    case Claimed => 2 * total + 7
    case Calling(posts, waiting) => 2 * Max(0, total - posts) + (if waiting.Some? then 6 else 5)
    case FailOpenSpam(_) => 4
    case FailOpenLevel(_) => 3
    case Returned(_) => 1
    case Raised => 1
  }

  function ClaimsLeft(e: Event): int { Max(1, e.row.maxRetries) - e.failures }

  /** How many worker steps the event of lead `l` can still cause. */
  function WorkLeft(s: System, l: Id): int {
    if l !in s.events then 0
    else
      var e := s.events[l];
      match e.row.status
      case Pending => ClaimsLeft(e) * PerClaim(s.maxAttempts)
      case Processing =>
        if e.claimant.None? || e.claimant.value !in s.workers then 0
        else (ClaimsLeft(e) - 1) * PerClaim(s.maxAttempts) + PhaseBudget(s.maxAttempts, s.workers[e.claimant.value].phase)
      case _ => 0
  }

  lemma WorkLeftZero(s: System, l: Id)
    requires Inv(s) && l in s.events
    ensures 0 <= WorkLeft(s, l)
    ensures WorkLeft(s, l) == 0 <==> O.Final(s.events[l].row.status) || s.events[l].abandoned
  {
    var e := s.events[l];
    assert EventOk(l, e);
    if !O.Final(e.row.status) {
      assert ClaimsLeft(e) >= 1;
      OneMoreClaim(ClaimsLeft(e), PerClaim(s.maxAttempts));
    }
  }

  lemma OneMoreClaim(left: int, perClaim: nat)
    requires left >= 1
    ensures left * perClaim == (left - 1) * perClaim + perClaim && (left - 1) * perClaim >= 0
  {
  }

  /** A step on another event, or of the model service or the network, leaves the work of `l` alone. */
  lemma OtherStep(s: System, a: Action, s': System, l: Id)
    requires ClaimsOk(s.events, s.workers) && Next(s, a) == Some(s') && l in s.events && !ActsOn(s, a, l)
    requires s'.maxAttempts == s.maxAttempts
    ensures WorkLeft(s', l) == WorkLeft(s, l)
  {
    SameEvent(s, a, s', l);
    var holder := s.events[l].claimant;
    if holder.Some? {
      assert holder.value in s.workers && s.workers[holder.value].lead == l;
      SameWorker(s, a, s', l, holder.value);
    }
  }

  lemma SameEvent(s: System, a: Action, s': System, l: Id)
    requires ClaimsOk(s.events, s.workers) && Next(s, a) == Some(s') && l in s.events && !ActsOn(s, a, l)
    ensures l in s'.events && s'.events[l] == s.events[l]
  {
    if a.Create? {
      CreateStep(s, a);
    } else if !TouchesEvents(a) {
      QuietStep(s, a);
    }
  }

  lemma SameWorker(s: System, a: Action, s': System, l: Id, w: WorkerId)
    requires Next(s, a) == Some(s') && Holds(s, w, l) && !ActsOn(s, a, l)
    ensures w in s'.workers && s'.workers[w] == s.workers[w]
  {
  }

  /** A worker's step between its claim and its final mark. */
  predicate HandlerStep(a: Action, w: WorkerId) {
    && (a.Begin? || a.NoHandler? || a.PostClassify? || a.AttemptFails? || a.AttemptAnswered?
        || a.StartFailOpen? || a.FailOpenAcked? || a.FailOpenFails?)
    && a.worker == w
  }

  /** It uses up budget and leaves the event's row and claimant alone. */
  lemma PhaseBudgetDrops(s: System, a: Action, s': System, w: WorkerId)
    requires Next(s, a) == Some(s') && HandlerStep(a, w)
    requires w in s.workers && PhaseOk(s, s.workers[w].lead, s.workers[w].phase)
    ensures w in s'.workers && s'.workers[w].lead == s.workers[w].lead
    ensures PhaseBudget(s.maxAttempts, s'.workers[w].phase) < PhaseBudget(s.maxAttempts, s.workers[w].phase)
    ensures s'.maxAttempts == s.maxAttempts
  {
  }

  lemma HandlerStepEvent(s: System, a: Action, s': System, w: WorkerId, l: Id)
    requires Next(s, a) == Some(s') && HandlerStep(a, w) && l in s.events
    ensures l in s'.events && s'.events[l].row == s.events[l].row
    ensures s'.events[l].claimant == s.events[l].claimant && s'.events[l].failures == s.events[l].failures
  {
    if !a.Begin? { QuietStep(s, a); }
  }

  lemma HandlerStepWorks(s: System, a: Action, s': System, w: WorkerId)
    requires Next(s, a) == Some(s') && w in s.workers && HandlerStep(a, w)
    requires PhaseOk(s, s.workers[w].lead, s.workers[w].phase)
    requires HoldsEvent(s.events, w, s.workers[w]) && s.events[s.workers[w].lead].row.status.Processing?
    ensures WorkLeft(s', s.workers[w].lead) < WorkLeft(s, s.workers[w].lead)
  {
    PhaseBudgetDrops(s, a, s', w);
    HandlerStepEvent(s, a, s', w, s.workers[w].lead);
  }

  lemma ClaimWorks(s: System, a: Action, s': System)
    requires a.Claim? && Next(s, a) == Some(s')
    ensures WorkLeft(s', a.lead) < WorkLeft(s, a.lead)
  {
    assert DoClaim(s, a.worker, a.lead, a.now) == Some(s');
    var left, k := ClaimsLeft(s.events[a.lead]), PerClaim(s.maxAttempts);
    assert left * k == (left - 1) * k + k;
  }

  lemma ReleaseWorks(s: System, a: Action, s': System, w: WorkerId)
    requires (a.MarkDelivered? && a.worker == w) || (a.MarkRetry? && a.worker == w) || a == Crash(w)
    requires Next(s, a) == Some(s') && w in s.workers && HoldsEvent(s.events, w, s.workers[w])
    requires EventOk(s.workers[w].lead, s.events[s.workers[w].lead]) && WorkLeft(s, s.workers[w].lead) > 0
    ensures WorkLeft(s', s.workers[w].lead) < WorkLeft(s, s.workers[w].lead)
  {
    var l := s.workers[w].lead;
    var e, e' := s.events[l], s'.events[l];
    if a.MarkRetry? {
      assert DoMarkRetry(s, w, a.error, a.now, a.draw) == Some(s');
      assert ClaimsLeft(e') == ClaimsLeft(e) - 1;
    }
  }

  /** Every worker step on the event uses up work; nothing adds any. */
  lemma WorkStep(s: System, a: Action, s': System, l: Id)
    requires Inv(s) && Next(s, a) == Some(s') && l in s.events
    ensures ActsOn(s, a, l) ==> WorkLeft(s', l) < WorkLeft(s, l)
    ensures !ActsOn(s, a, l) ==> WorkLeft(s', l) == WorkLeft(s, l)
  {
    if !ActsOn(s, a, l) {
      StepKeeps(s, a);
      OtherStep(s, a, s', l);
    } else if a.Claim? {
      ClaimWorks(s, a, s');
    } else {
      var w := a.worker;
      assert HoldsEvent(s.events, w, s.workers[w]) && EventOk(l, s.events[l]);
      assert PhaseOk(s, l, s.workers[w].phase);
      if a.MarkDelivered? || a.MarkRetry? || a.Crash? {
        WorkLeftZero(s, l);
        ReleaseWorks(s, a, s', w);
      } else {
        HandlerStepWorks(s, a, s', w);
      }
    }
  }

  /** The number of worker steps on the event of `l` in a run. */
  function StepsOn(s: System, actions: seq<Action>, l: Id): nat
    requires Exec(s, actions).Some?
    decreases |actions|
  {
    if actions == [] then 0
    else (if ActsOn(s, actions[0], l) then 1 else 0) + StepsOn(Next(s, actions[0]).value, actions[1..], l)
  }

  /** In any stretch of any run the workers take at most WorkLeft steps on an event. Once they have taken
      that many, the event is delivered or dead-lettered, unless a worker crashed while holding it. */
  lemma {:induction false} WorkBound(s: System, actions: seq<Action>, l: Id)
    requires Inv(s) && Exec(s, actions).Some? && l in s.events
    ensures l in Exec(s, actions).value.events
    ensures 0 <= WorkLeft(Exec(s, actions).value, l) <= WorkLeft(s, l) - StepsOn(s, actions, l)
    ensures StepsOn(s, actions, l) >= WorkLeft(s, l) ==>
              var e := Exec(s, actions).value.events[l];
              O.Final(e.row.status) || e.abandoned
    decreases |actions|
  {
    if actions == [] {
      WorkLeftZero(s, l);
    } else {
      StepKeeps(s, actions[0]);
      WorkStep(s, actions[0], Next(s, actions[0]).value, l);
      StepHistory(s, actions[0]);
      WorkBound(Next(s, actions[0]).value, actions[1..], l);
      ReachableOk(s, actions);
      WorkLeftZero(Exec(s, actions).value, l);
    }
  }

  lemma NewEventWork(s: System, a: Action)
    requires a.Create? && DoCreate(s, a).Some?
    ensures a.lead in DoCreate(s, a).value.events
    ensures WorkLeft(DoCreate(s, a).value, a.lead) == Max(1, a.maxRetries) * (2 * Max(0, s.maxAttempts) + 8)
  {
    var s' := DoCreate(s, a).value;
    assert ClaimsLeft(s'.events[a.lead]) == Max(1, a.maxRetries) && s'.maxAttempts == s.maxAttempts;
  }

  /** Over everything that can follow its creation, the workers take at most max(1, max_retries) times
      (2 * max_attempts + 8) steps on an event. */
  lemma LifetimeBound(s: System, a: Action, actions: seq<Action>)
    requires Inv(s) && a.Create? && DoCreate(s, a).Some? && Exec(DoCreate(s, a).value, actions).Some?
    ensures StepsOn(DoCreate(s, a).value, actions, a.lead) <= Max(1, a.maxRetries) * (2 * Max(0, s.maxAttempts) + 8)
  {
    CreateKeeps(s, a);
    NewEventWork(s, a);
    WorkBound(DoCreate(s, a).value, actions, a.lead);
  }

  /** An event that is neither final nor abandoned always has a worker step that is not a crash: an idle
      worker can claim it, or its claimant can go on. */
  lemma Progress(s: System, l: Id, idle: WorkerId) returns (a: Action)
    requires Inv(s) && l in s.events && idle !in s.workers
    requires !O.Final(s.events[l].row.status) && !s.events[l].abandoned
    ensures Next(s, a).Some? && ActsOn(s, a, l) && !a.Crash?
  {
    var e := s.events[l];
    assert EventOk(l, e);
    if e.row.status.Pending? {
      a := Claim(idle, l, e.row.availableAt);
    } else {
      var w := e.claimant.value;
      assert Holds(s, w, l);
      match s.workers[w].phase {
        case Claimed => a := Begin(w);
        case Calling(posts, waiting) =>
          a := if waiting.Some? then AttemptFails(w)
               else if posts < s.maxAttempts then PostClassify(w)
               else StartFailOpen(w, Info(None, None));
        case FailOpenSpam(_) => a := FailOpenFails(w);
        case FailOpenLevel(_) => a := FailOpenFails(w);
        case Returned(_) => a := MarkDelivered(w, e.row.updatedAt);
        case Raised => a := MarkRetry(w, "", e.row.updatedAt, 0.0);
      }
    }
  }
}
