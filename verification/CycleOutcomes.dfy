/** What each transaction leaves in the row of a cycle whose plan loads, step by step. */
module CycleOutcomes {
  import opened Wrappers
  import opened ActivityPlans
  import opened CycleRows
  import opened CycleRuns
  import Skills
  import Runs = ActivityPlanRuns

  /** The claim holds and the event is no older than the row: a later sequence, or the row's own event again. */
  predicate InTime(row: Row, d: Delivery) {
    && d.locked.Some?
    && var l := d.locked.value;
       && l.processing && l.token == d.event.token && l.generation == d.event.generation
       && l.claimedFence == d.event.fence && l.fence == d.event.fence
       && row.cycle != CycleEnded
       && (row.lastSequence.None? || row.lastSequence.value < d.event.sequence
           || (row.lastSequence == Some(d.event.sequence) && row.lastEvent == Some(d.event.rowId)))
  }

  /** The plan and its columns are stored, marked with the event. */
  predicate Holds(row: Row, plan: Plan, e: Event) {
    && row.body == Some(plan) && row.planId == Some(plan.planId) && row.version == plan.version
    && row.goal == Some((plan.goalId, plan.goalSummary)) && row.phase == Some(plan.phase)
    && row.status == Some(plan.status) && row.current == plan.current
    && row.lastEvent == Some(e.rowId) && row.lastSequence == Some(e.sequence)
  }

  // ---- Preparing a plan ----

  lemma CurrentOf(p: Plan)
    requires ValidPlan(p) && p.current.Some?
    ensures CurrentStep(p).Ok? && p.current == Some(CurrentStep(p).value.stepId)
  {
  }

  /** Over no plan, an inactive one, or an active one that the proposal supersedes by another id or a higher version, a
      valid proposal with a current step is stored one version above the row and reported, with its current step. */
  lemma PrepareInstalls(row: Row, d: Delivery, q: Plan)
    requires InTime(row, d) && d.op == Prepare(Some(q))
    requires row.body.Some? ==> ValidPlan(row.body.value)
    requires || row.body.None? || row.body.value.status != Active
             || q.planId != row.body.value.planId || q.version > row.body.value.version
    requires ValidPlan(q.(version := row.version + 1)) && q.current.Some?
    ensures var stored := q.(version := row.version + 1);
            && Holds(After(row, d), stored, d.event) && After(row, d).cycle == row.cycle
            && Transact(row, d) == Ok((After(row, d), Prepared(stored, Binding(q.planId, q.current.value))))
  {
    CurrentOf(q.(version := row.version + 1));
  }

  /** An active plan stays when nothing is proposed, or its own id at no higher version: it is reported, with its
      current step, and only the mark moves. */
  lemma PrepareKeeps(row: Row, d: Delivery, p: Plan)
    requires InTime(row, d) && d.op.Prepare? && row.body == Some(p) && ValidPlan(p) && p.status == Active
    requires d.op.proposed.Some? ==> d.op.proposed.value.planId == p.planId && d.op.proposed.value.version <= p.version
    requires ColumnsAgree(row)
    ensures After(row, d) == if row.lastSequence == Some(d.event.sequence)
                                || (row.lastSequence.None? && d.event.sequence <= 0)
                             then row
                             else row.(lastEvent := Some(d.event.rowId), lastSequence := Some(d.event.sequence))
    ensures Transact(row, d) == Ok((After(row, d), Prepared(p, Binding(p.planId, p.current.value))))
  {
    CurrentOf(p);
  }

  /** Over no plan or an inactive one nothing proposed is an error; so is a superseding proposal that is invalid or has
      no current step; and an error leaves the row as it is. */
  lemma PrepareFails(row: Row, d: Delivery)
    requires InTime(row, d) && d.op.Prepare? && (row.body.Some? ==> ValidPlan(row.body.value))
    requires if d.op.proposed.None? then row.body.None? || row.body.value.status != Active
             else
               var q := d.op.proposed.value;
               && (|| row.body.None? || row.body.value.status != Active
                   || q.planId != row.body.value.planId || q.version > row.body.value.version)
               && (!ValidPlan(q.(version := row.version + 1)) || q.current.None?)
    ensures Transact(row, d) == Err(Unavailable) && After(row, d) == row
  {
  }

  // ---- Steps ----

  /** The plan is active at its `i`-th step, which the event is bound to. */
  predicate At(row: Row, p: Plan, i: nat, bound: Option<Binding>) {
    && row.body == Some(p) && ValidPlan(p) && p.status == Active
    && i < |p.steps| && p.current == Some(p.steps[i].stepId)
    && bound == Some(Binding(p.planId, p.steps[i].stepId))
  }

  /** The plan with one step rewritten. */
  predicate Rewrites(p: Plan, i: nat, s: Step, q: Plan)
    requires i < |p.steps|
  {
    q == p.(steps := p.steps[i := s])
  }

  /** The plan with one step done: the next step is current, in its phase, or the plan is complete. */
  predicate Passes(p: Plan, i: nat, s: Step, q: Plan)
    requires i < |p.steps|
  {
    if i + 1 < |p.steps| then
      q == p.(steps := p.steps[i := s], phase := p.steps[i + 1].phase, current := Some(p.steps[i + 1].stepId))
    else q == p.(steps := p.steps[i := s], status := Completed, current := None)
  }

  /** The attempt that an event about the step belongs to. */
  function Attempt(s: Step): int {
    if s.status == Started then s.attempts else s.attempts + 1
  }

  lemma AtCurrent(row: Row, p: Plan, i: nat, bound: Option<Binding>)
    requires At(row, p, i, bound)
    ensures CurrentStep(p) == Ok(p.steps[i]) && UniqueIds(Slots(p.steps)) && Targets(row, bound)
  {
    Runs.IndexOfUnique(p.steps, i);
  }

  lemma RewriteOne(p: Plan, i: nat, s: Step)
    requires UniqueIds(Slots(p.steps)) && i < |p.steps| && s.stepId == p.steps[i].stepId && s.skill == p.steps[i].skill
    ensures Rewrites(p, i, s, p.(steps := ReplaceStep(p.steps, s)))
  {
    Runs.ReplaceOne(p.steps, i, s);
  }

  lemma PassOne(p: Plan, i: nat, s: Step)
    requires UniqueIds(Slots(p.steps)) && i < |p.steps| && s.stepId == p.steps[i].stepId && s.skill == p.steps[i].skill
    ensures IndexOf(p.steps, s.stepId).Some? && Passes(p, i, s, AdvanceAfterTerminal(p, s))
  {
    Runs.AdvanceIsNext(p, i, s);
  }

  /** A transition of a plan that holds the row's body is stored with the event's mark. */
  lemma Stored(row: Row, d: Delivery, q: Plan)
    requires InTime(row, d)
    ensures WriteState(row, d.event, q).Ok? && Holds(WriteState(row, d.event, q).value, q, d.event)
  {
  }

  /** A started skill: the step is under way, at its next attempt, or at the one already under way. */
  lemma StartRecorded(row: Row, d: Delivery, p: Plan, i: nat)
    requires InTime(row, d) && d.op.SkillStarted? && At(row, p, i, d.op.bound)
    requires p.steps[i].skill.Some? && (p.steps[i].status == Pending || p.steps[i].status == Started)
    ensures var s, next := p.steps[i], After(row, d);
            && next.body.Some? && Holds(next, next.body.value, d.event)
            && Rewrites(p, i, s.(status := Started, attempts := Attempt(s)), next.body.value)
    ensures Transact(row, d) == Ok((After(row, d), Done))
  {
    AtCurrent(row, p, i, d.op.bound);
    RewriteOne(p, i, p.steps[i].(status := Started, attempts := Attempt(p.steps[i])));
  }

  lemma StartRefused(row: Row, d: Delivery, p: Plan, i: nat)
    requires InTime(row, d) && d.op.SkillStarted? && At(row, p, i, d.op.bound)
    requires p.steps[i].skill.None? || !(p.steps[i].status == Pending || p.steps[i].status == Started)
    ensures Transact(row, d) == Err(Unavailable) && After(row, d) == row
  {
    AtCurrent(row, p, i, d.op.bound);
  }

  /** A transition that the plan accepts is what the row holds next. */
  lemma TransitionStored(row: Row, d: Delivery, p: Plan, i: nat, q: Plan)
    requires InTime(row, d) && (d.op.SkillFinished? || d.op.DecisionRejected?) && At(row, p, i, d.op.bound)
    requires BoundTransition(p, p.steps[i].stepId, d.op) == Ok(q)
    ensures After(row, d).body == Some(q) && Holds(After(row, d), q, d.event)
    ensures Transact(row, d) == Ok((After(row, d), Done))
  {
    Stored(row, d, q);
  }

  /** What a terminal report makes of the current step's plan. */
  predicate Ends(p: Plan, i: nat, succeeded: bool, again: bool, q: Plan)
    requires i < |p.steps|
  {
    var s := p.steps[i];
    if succeeded then Passes(p, i, s.(status := Succeeded, attempts := Attempt(s)), q)
    else if again && Attempt(s) < s.maxAttempts then
      Rewrites(p, i, s.(status := Pending, attempts := Attempt(s)), q)
    else Passes(p, i, s.(status := Skipped, attempts := Attempt(s)), q)
  }

  lemma TerminalEnds(row: Row, p: Plan, i: nat, bound: Option<Binding>, succeeded: bool, retryable: bool,
                     corrected: bool)
    requires At(row, p, i, bound) && p.steps[i].skill.Some?
    ensures RecordStepTerminal(p, p.steps[i].stepId, succeeded, retryable, corrected).Ok?
    ensures Ends(p, i, succeeded, retryable || corrected,
                 RecordStepTerminal(p, p.steps[i].stepId, succeeded, retryable, corrected).value)
  {
    var s := p.steps[i];
    AtCurrent(row, p, i, bound);
    if succeeded {
      PassOne(p, i, s.(status := Succeeded, attempts := Attempt(s)));
    } else if (retryable || corrected) && Attempt(s) < s.maxAttempts {
      RewriteOne(p, i, s.(status := Pending, attempts := Attempt(s)));
    } else {
      PassOne(p, i, s.(status := Skipped, attempts := Attempt(s)));
    }
  }

  /** A finished skill: a success moves on; a failure that may be retried, or was corrected, with an attempt left,
      leaves the step pending; any other failure skips it. */
  lemma FinishRecorded(row: Row, d: Delivery, p: Plan, i: nat)
    requires InTime(row, d) && d.op.SkillFinished? && At(row, p, i, d.op.bound) && p.steps[i].skill.Some?
    ensures var next := After(row, d);
            && next.body.Some? && Holds(next, next.body.value, d.event)
            && Ends(p, i, d.op.succeeded, d.op.retryable || d.op.corrected, next.body.value)
    ensures Transact(row, d) == Ok((After(row, d), Done))
  {
    var corrected := !d.op.succeeded && d.op.corrected;
    TerminalEnds(row, p, i, d.op.bound, d.op.succeeded, d.op.retryable, corrected);
    TransitionStored(row, d, p, i,
                     RecordStepTerminal(p, p.steps[i].stepId, d.op.succeeded, d.op.retryable, corrected).value);
  }

  /** A rejected decision: a move whose target was rejected loses it and an attempt, up to the last; any other step is
      skipped. */
  lemma RejectionRecorded(row: Row, d: Delivery, p: Plan, i: nat)
    requires InTime(row, d) && d.op.DecisionRejected? && At(row, p, i, d.op.bound) && p.steps[i].skill.Some?
    ensures var s, next := p.steps[i], After(row, d);
            && next.body.Some? && Holds(next, next.body.value, d.event)
            && (if d.op.targetRejected && s.skill == Some(Skills.MoveTo) then
                  Rewrites(p, i, Untargeted(s), next.body.value)
                else Passes(p, i, s.(status := Skipped, attempts := Attempt(s)), next.body.value))
    ensures Transact(row, d) == Ok((After(row, d), Done))
  {
    var s, id := p.steps[i], p.steps[i].stepId;
    AtCurrent(row, p, i, d.op.bound);
    if d.op.targetRejected && s.skill == Some(Skills.MoveTo) {
      RewriteOne(p, i, Untargeted(s));
      TransitionStored(row, d, p, i, p.(steps := ReplaceStep(p.steps, Untargeted(s))));
    } else {
      TerminalEnds(row, p, i, d.op.bound, false, false, false);
      TransitionStored(row, d, p, i, RecordStepTerminal(p, id, false, false, false).value);
    }
  }

  function Untargeted(s: Step): Step {
    s.(target := None, status := Pending,
       attempts := if s.attempts < s.maxAttempts then s.attempts + 1 else s.maxAttempts)
  }

  /** A skill or rejection event about anything but the current step of the active plan is done and changes nothing. */
  lemma UnboundIsIgnored(row: Row, d: Delivery)
    requires InTime(row, d) && (d.op.SkillStarted? || d.op.SkillFinished? || d.op.DecisionRejected?)
    requires row.body.Some? ==>
               && ValidPlan(row.body.value)
               && (|| row.body.value.status != Active || d.op.bound.None?
                   || d.op.bound.value.planId != row.body.value.planId
                   || row.body.value.current != Some(d.op.bound.value.stepId))
    ensures Transact(row, d) == Ok((row, Done))
  {
  }

  /** At the social step, a passive completion or a chat opportunity moves on; the chat's carries no mark. */
  lemma SocialRecorded(row: Row, d: Delivery, p: Plan, i: nat)
    requires InTime(row, d) && (d.op.PassiveStep? || d.op.ChatOpportunity?) && i < |p.steps|
    requires At(row, p, i, Some(Binding(p.planId, p.steps[i].stepId))) && p.steps[i].skill.None?
    ensures var next := After(row, d);
            && next.body.Some? && Passes(p, i, p.steps[i].(status := Succeeded), next.body.value)
            && (d.op.PassiveStep? ==> Holds(next, next.body.value, d.event))
            && (d.op.ChatOpportunity? ==> next == Columns(row, next.body.value))
    ensures Transact(row, d) == Ok((After(row, d), Done))
  {
    AtCurrent(row, p, i, Some(Binding(p.planId, p.steps[i].stepId)));
    PassOne(p, i, p.steps[i].(status := Succeeded));
  }

  /** Anywhere else neither changes anything. */
  lemma SocialElsewhere(row: Row, d: Delivery)
    requires InTime(row, d) && (d.op.PassiveStep? || d.op.ChatOpportunity?)
    requires row.body.Some? ==>
               && ValidPlan(row.body.value)
               && (row.body.value.status != Active
                   || forall i :: 0 <= i < |row.body.value.steps|
                                  && row.body.value.current == Some(row.body.value.steps[i].stepId) ==>
                        row.body.value.steps[i].skill.Some?)
    ensures Transact(row, d) == Ok((row, Done))
  {
  }

  // ---- Closing ----

  /** Closing pauses the stored plan, wherever it stands; without a plan it changes nothing. */
  lemma CloseRecorded(row: Row, d: Delivery)
    requires InTime(row, d) && d.op.Close? && (row.body.Some? ==> ValidPlan(row.body.value))
    ensures row.body.Some? ==> Holds(After(row, d), row.body.value.(status := Paused), d.event)
    ensures row.body.None? ==> After(row, d) == row
    ensures Transact(row, d) == Ok((After(row, d), Done))
  {
  }

  lemma PausedStep(row: Row, d: Delivery)
    requires row.body.Some? && row.body.value.status == Paused && !d.op.Prepare?
    ensures After(row, d).body == row.body
  {
  }

  /** A paused plan stays as it is until `prepare` replaces it, whatever else is delivered. */
  lemma {:induction false} PausedStays(row: Row, ds: seq<Delivery>)
    requires row.body.Some? && row.body.value.status == Paused
    requires forall d :: d in ds ==> !d.op.Prepare?
    ensures RunRow(row, ds).body == row.body
    decreases |ds|
  {
    if ds != [] {
      assert ds[0] in ds;
      PausedStep(row, ds[0]);
      PausedStays(After(row, ds[0]), ds[1..]);
    }
  }

  /** So after a close no skill event, rejection or chat changes the plan. */
  lemma ClosedIsInert(row: Row, d: Delivery, ds: seq<Delivery>)
    requires InTime(row, d) && d.op.Close? && row.body.Some? && ValidPlan(row.body.value)
    requires forall e :: e in ds ==> !e.op.Prepare?
    ensures RunRow(After(row, d), ds).body == Some(row.body.value.(status := Paused))
  {
    CloseRecorded(row, d);
    PausedStays(After(row, d), ds);
  }
}
