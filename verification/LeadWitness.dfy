/** A run in which an event is delivered while its lead stays in `pending_level`: the exception in
    LeadTheorems.NoLostLead is real. */
module LeadWitness {
  import opened Common
  import opened LeadRecords
  import opened LeadProtocol
  import opened LeadTheorems
  import O = Outbox

  lemma {:induction false} ExecSnoc(s: System, actions: seq<Action>, a: Action)
    requires Exec(s, actions).Some?
    ensures Exec(s, actions + [a]) == Next(Exec(s, actions).value, a)
    decreases |actions|
  {
    if actions == [] {
      assert (actions + [a])[1..] == [];
    } else {
      assert (actions + [a])[1..] == actions[1..] + [a];
      ExecSnoc(Next(s, actions[0]).value, actions[1..], a);
    }
  }

  /** One more action of a run. */
  lemma Step(s0: System, actions: seq<Action>, s: System, a: Action) returns (actions': seq<Action>, s': System)
    requires Exec(s0, actions) == Some(s) && Next(s, a).Some?
    ensures actions' == actions + [a] && s' == Next(s, a).value && Exec(s0, actions') == Some(s')
  {
    ExecSnoc(s0, actions, a);
    actions', s' := actions + [a], Next(s, a).value;
  }

  const NOTHING := Info(None, None)

  predicate Working(s: System, l: Id, posts: nat) {
    && l in s.leads && l in s.events && s.leads[l].tenant == 0
    && s.events[l].row.payload.lead == l && s.events[l].row.payload.tenant == 0
    && s.workers == map[0 := Attempt(l, 0, 3, Calling(posts, None))]
  }

  lemma Opening(maxAttempts: int, l: Id, message: string) returns (actions: seq<Action>, s: System)
    requires !IsBlank(message)
    ensures Exec(Init(maxAttempts), actions) == Some(s)
    ensures s.maxAttempts == maxAttempts && s.runs == [] && s.net == [] && Working(s, l, 0)
    ensures s.leads[l] == NewLead(0, Strip(message))
  {
    StripBlank(message);
    var s0 := Init(maxAttempts);
    actions, s := Step(s0, [], s0, Create(l, 0, message, 3, 0.0));
    actions, s := Step(s0, actions, s, Claim(0, l, 0.0));
    actions, s := Step(s0, actions, s, Begin(0));
  }

  /** The worker posts to the model service, which classifies and posts its spam callback. */
  lemma Request(s0: System, actions: seq<Action>, s: System, l: Id, posts: nat, verdict: SpamVerdict)
    returns (actions': seq<Action>, s': System)
    requires Exec(s0, actions) == Some(s) && Working(s, l, posts) && posts < s.maxAttempts
    ensures Exec(s0, actions') == Some(s')
    ensures s' == s.(workers := map[0 := Attempt(l, 0, 3, Calling(posts + 1, Some(|s.runs|)))],
                     runs := s.runs + [Run(l, 0, SpamPosted(|s.net|, verdict))],
                     net := s.net + [Post(SpamCallback(l, 0, verdict, NOTHING), false)])
  {
    var r := |s.runs|;
    actions', s' := Step(s0, actions, s, PostClassify(0));
    assert s'.workers == map[0 := Attempt(l, 0, 3, Calling(posts + 1, Some(r)))];
    actions', s' := Step(s0, actions', s', ClassifySpam(r, verdict, NOTHING));
    assert s'.runs == s.runs + [Run(l, 0, SpamPosted(|s.net|, verdict))];
  }

  /** That callback is delivered. */
  lemma Classify(s0: System, actions: seq<Action>, s: System, l: Id, posts: nat, verdict: SpamVerdict)
    returns (actions': seq<Action>, s': System)
    requires Exec(s0, actions) == Some(s) && Working(s, l, posts) && posts < s.maxAttempts
    requires CallbackOnRecord(s.leads[l], SpamCallback(l, 0, verdict, NOTHING)).Ok?
    ensures Exec(s0, actions') == Some(s')
    ensures var cb := SpamCallback(l, 0, verdict, NOTHING);
            s' == s.(leads := s.leads[l := CallbackOnRecord(s.leads[l], cb).value],
                     workers := map[0 := Attempt(l, 0, 3, Calling(posts + 1, Some(|s.runs|)))],
                     runs := s.runs + [Run(l, 0, SpamPosted(|s.net|, verdict))],
                     net := s.net + [Post(cb, true)])
  {
    actions', s' := Request(s0, actions, s, l, posts, verdict);
    actions', s' := Step(s0, actions', s', Deliver(|s.net|));
    assert s'.net == s.net + [Post(SpamCallback(l, 0, verdict, NOTHING), true)];
  }

  /** The first classification says not spam and its callback is recorded, but the acknowledgement is
      lost and the request fails. */
  lemma FirstAttempt(maxAttempts: int, l: Id, message: string) returns (actions: seq<Action>, s: System)
    requires maxAttempts >= 2 && !IsBlank(message)
    ensures Exec(Init(maxAttempts), actions) == Some(s)
    ensures s.maxAttempts == maxAttempts && Working(s, l, 1)
    ensures s.leads[l].processing == PendingLevel
    ensures |s.leads[l].spam| == 1 && s.leads[l].spam[0].key == Some(CallbackKey(l, SpamStage, 0))
  {
    var s0 := Init(maxAttempts);
    actions, s := Opening(maxAttempts, l, message);
    OneRowLookup(PENDING_ROW, CallbackKey(l, SpamStage, 0));
    actions, s := Classify(s0, actions, s, l, 0, SaysNotSpam);
    actions, s := Step(s0, actions, s, RunFails(0));
    actions, s := Step(s0, actions, s, AttemptFails(0));
  }

  /** A run that said spam is acknowledged, answers, and its worker marks the event delivered. */
  lemma SpamFinishes(s0: System, actions: seq<Action>, s: System, l: Id, r: RunId, posts: nat)
    returns (actions': seq<Action>, s': System)
    requires Exec(s0, actions) == Some(s) && l in s.events
    requires s.workers == map[0 := Attempt(l, 0, 3, Calling(posts, Some(r)))]
    requires r < |s.runs| && s.runs[r].phase.SpamPosted? && s.runs[r].phase.verdict.SaysSpam? && Acked(s, s.runs[r].phase.post)
    ensures Exec(s0, actions') == Some(s')
    ensures s'.leads == s.leads && s'.maxAttempts == s.maxAttempts
    ensures l in s'.events && s'.events[l].row.status.Delivered?
  {
    actions', s' := Step(s0, actions, s, SpamAcked(r, SaysNormal, NOTHING));
    actions', s' := Step(s0, actions', s', AttemptAnswered(0));
    actions', s' := Step(s0, actions', s', MarkDelivered(0, 1.0));
  }

  /** The second classification says spam; its callback is a duplicate and changes nothing, the level
      stage is skipped, and the event is delivered. */
  lemma DeliveredButOpen(maxAttempts: int, l: Id, message: string) returns (actions: seq<Action>, s: System)
    requires maxAttempts >= 2 && !IsBlank(message)
    ensures Reachable(s, actions)
    ensures l in s.events && s.events[l].row.status.Delivered?
    ensures l in s.leads && s.leads[l].processing == PendingLevel
  {
    var s0 := Init(maxAttempts);
    actions, s := FirstAttempt(maxAttempts, l, message);
    var r := |s.runs|;
    assert s.leads[l].spam == [s.leads[l].spam[0]];
    OneRowLookup(s.leads[l].spam[0], CallbackKey(l, SpamStage, 0));
    actions, s := Classify(s0, actions, s, l, 1, SaysSpam);
    assert s.runs[r] == Run(l, 0, SpamPosted(|s.net| - 1, SaysSpam));
    actions, s := SpamFinishes(s0, actions, s, l, r, 2);
  }
}
