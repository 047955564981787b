/** What planning decides for each situation, stage by stage, and what reaches the store. */
module DecisionOutcomes {
  import opened Wrappers
  import opened Skills
  import opened Orders
  import opened Lists
  import opened ArgumentPaths
  import opened LeasePermissions
  import opened DecisionPlanning
  import ActivityPlans
  import ActivityCapacities
  import CycleRows

  /** Waiting, else doing nothing, else stopping, as far as the lease allows any of them. */
  predicate IsSafe(c: Context, choice: Option<Action>, reason: Reason) {
    if WaitKind in c.allowed then choice == Some(Wait(reason, 1000))
    else if NoOpKind in c.allowed then choice == Some(NoOp(reason))
    else if StopHostingKind in c.allowed then choice == Some(StopHosting(reason))
    else choice.None?
  }

  /** The choice is this safe action under this activity, or this stop when the lease allows none. */
  predicate SafeOr(c: Context, choice: Choice, reason: Reason, activity: Option<ActivityContext>, stop: PlanResult) {
    && (WaitKind in c.allowed ==> choice == Act(Wait(reason, 1000), activity))
    && (WaitKind !in c.allowed && NoOpKind in c.allowed ==> choice == Act(NoOp(reason), activity))
    && (WaitKind !in c.allowed && NoOpKind !in c.allowed ==>
          choice == if StopHostingKind in c.allowed then Act(StopHosting(reason), activity) else Stop(stop))
  }

  // ---- The model ----

  /** No room transition, nothing forced, and no plan step that says what to do: there is no plan, or it waits for an
      opportunity and the lease allows neither waiting nor doing nothing. */
  predicate Undecided(c: Context, cfg: Config, w: World) {
    && RoomAction(c, cfg, w).None? && cfg.forceSkills == [] && !cfg.forceWait
    && var plan := if !cfg.coordinator then None else if w.deadlineReached then w.resumed else w.prepared;
       plan.None? || (plan.value.step.skill.None? && WaitKind !in c.allowed && NoOpKind !in c.allowed)
  }

  lemma UndecidedPassesOn(c: Context, cfg: Config, w: World)
    requires StepHasSchema(ActivityFor(c, cfg, w))
    ensures Undecided(c, cfg, w) <==> Deterministic(c, cfg, w).PassOn?
  {
  }

  /** So no call that the stages after it choose gives way to the plan. */
  lemma UndecidedOverrides(c: Context, cfg: Config, w: World, a: Action)
    requires StepHasSchema(ActivityFor(c, cfg, w)) && Undecided(c, cfg, w) && Authorised(c, a)
    ensures Override(c, ActivityFor(c, cfg, w), a) == a
  {
  }

  function PlanBefore(cfg: Config, w: World): Option<ActivityContext> {
    if cfg.coordinator then w.prepared else None
  }

  lemma ModelStage(c: Context, cfg: Config, w: World)
    requires StepHasSchema(ActivityFor(c, cfg, w)) && Begins(c, w) && !w.deadlineReached && Undecided(c, cfg, w)
    ensures var v := AskedModel(c, w);
            Chosen(c, cfg, w) == if v.Take? then Act(v.action, PlanBefore(cfg, w)) else Stop(v.result)
  {
    UndecidedPassesOn(c, cfg, w);
    if AskedModel(c, w).Take? {
      UndecidedOverrides(c, cfg, w, AskedModel(c, w).action);
    }
  }

  lemma {:induction false} SelectionFirst(c: Context, candidates: seq<Action>, i: nat)
    requires FirstAuthorised(c, candidates, i)
    ensures Selection(c, candidates) == Some(Normalize(c, candidates[i]))
    decreases |candidates|
  {
    if i > 0 {
      assert !Authorised(c, Normalize(c, candidates[0]));
      assert forall j :: 0 <= j < i - 1 ==> candidates[1..][j] == candidates[j + 1];
      SelectionFirst(c, candidates[1..], i - 1);
    }
  }

  lemma {:induction false} SelectionNone(c: Context, candidates: seq<Action>)
    requires forall i :: 0 <= i < |candidates| ==> !Authorised(c, Normalize(c, candidates[i]))
    ensures IsSafe(c, Selection(c, candidates), NoAuthorizedCandidate)
    decreases |candidates|
  {
    if candidates != [] {
      assert !Authorised(c, Normalize(c, candidates[0]));
      assert forall j :: 0 <= j < |candidates| - 1 ==> candidates[1..][j] == candidates[j + 1];
      SelectionNone(c, candidates[1..]);
    }
  }

  predicate WellFormed(candidates: seq<Action>) {
    candidates != [] && forall i :: 0 <= i < |candidates| ==> ValidAction(candidates[i])
  }

  /** The model is asked with a current fence, and answers. Without a candidate, or with a malformed one, planning
      reports an error of the graph; else the first candidate authorised once normalised is chosen, and with none the
      first of waiting, doing nothing and stopping that the lease allows. */
  lemma ModelAnswers(c: Context, cfg: Config, w: World)
    requires StepHasSchema(ActivityFor(c, cfg, w)) && Begins(c, w) && !w.deadlineReached && Undecided(c, cfg, w)
    requires w.fenceCurrent && w.decided.Answered?
    ensures var candidates, choice := w.decided.candidates, Chosen(c, cfg, w);
            && (!WellFormed(candidates) ==> choice == Stop(Retryable(Agent(OtherFailure("node_error")))))
            && (WellFormed(candidates) ==>
                  forall i: nat :: FirstAuthorised(c, candidates, i) ==>
                    choice == Act(Normalize(c, candidates[i]), PlanBefore(cfg, w)))
            && (WellFormed(candidates)
                && (forall i :: 0 <= i < |candidates| ==> !Authorised(c, Normalize(c, candidates[i]))) ==>
                  SafeOr(c, choice, NoAuthorizedCandidate, PlanBefore(cfg, w),
                         Retryable(Agent(OtherFailure("node_error")))))
  {
    var candidates := w.decided.candidates;
    ModelStage(c, cfg, w);
    if WellFormed(candidates) {
      forall i: nat | FirstAuthorised(c, candidates, i)
        ensures Selection(c, candidates) == Some(Normalize(c, candidates[i]))
      {
        SelectionFirst(c, candidates, i);
      }
      if forall i :: 0 <= i < |candidates| ==> !Authorised(c, Normalize(c, candidates[i])) {
        SelectionNone(c, candidates);
      }
    }
  }

  /** A model that timed out, is overloaded or answered late gives way to the first local activity, else to the
      staggered wait; any other failure, or no leave to wait, is reported. */
  lemma ModelUnreachable(c: Context, cfg: Config, w: World)
    requires StepHasSchema(ActivityFor(c, cfg, w)) && Begins(c, w) && !w.deadlineReached && Undecided(c, cfg, w)
    requires w.fenceCurrent && w.decided.AgentError?
    ensures var failure, local := w.decided.failure, LocalFound(c, w, false, None, 1, {}, LocalWhileSaturated);
            Chosen(c, cfg, w)
            == if failure in {TimedOut, Overloaded, LateAnswer} && local.Some? then Act(local.value, PlanBefore(cfg, w))
               else if failure in {TimedOut, Overloaded, LateAnswer} && WaitKind in c.allowed then
                 Act(Wait(AgentUnavailable, w.staggeredWaitMs), PlanBefore(cfg, w))
               else Stop(Retryable(Agent(failure)))
  {
    ModelStage(c, cfg, w);
  }

  /** Planning ends with a skipped model call exactly when the model would be asked under a stale fence. */
  lemma SkippedIff(c: Context, cfg: Config, w: World)
    requires StepHasSchema(ActivityFor(c, cfg, w))
    ensures Chosen(c, cfg, w) == Stop(Manual(ModelCallSkipped))
       <==> Begins(c, w) && Undecided(c, cfg, w) && !w.deadlineReached && !w.fenceCurrent
  {
    UndecidedPassesOn(c, cfg, w);
  }

  /** Planning begins unless the event has a decision, no account is named, or the lease is a conversation. */
  lemma BeginsIff(c: Context, cfg: Config, w: World)
    requires StepHasSchema(ActivityFor(c, cfg, w))
    ensures Begins(c, w)
       <==> && !w.existing && c.leaseKind != Conversation
            && c.accountId.Some? && exists i :: 0 <= i < |c.accountId.value| && !Space(c.accountId.value[i])
    ensures w.existing ==> Chosen(c, cfg, w) == Stop(Succeeded)
    ensures !w.existing && !HasAccount(c) ==> Chosen(c, cfg, w) == Stop(Manual(MissingAccount))
    ensures !w.existing && HasAccount(c) && c.leaseKind == Conversation ==>
              Chosen(c, cfg, w) == Stop(Manual(ConversationUnsupported))
  {
  }

  // ---- The deadline ----

  /** Past the deadline the model is not asked: the first local activity, else the staggered wait, else nothing to do,
      under the resumed plan. */
  lemma LateDecides(c: Context, cfg: Config, w: World)
    requires StepHasSchema(ActivityFor(c, cfg, w)) && Begins(c, w) && w.deadlineReached && Undecided(c, cfg, w)
    ensures var local := LocalFound(c, w, false, None, 1, {}, LocalAfterDelay);
            var plan := if cfg.coordinator then w.resumed else None;
            Chosen(c, cfg, w)
            == if local.Some? then Act(local.value, plan)
               else if WaitKind in c.allowed then Act(Wait(DeadlinePassed, w.staggeredWaitMs), plan)
               else if NoOpKind in c.allowed then Act(NoOp(DeadlinePassed), plan)
               else Stop(Retryable(DeadlineExceeded))
  {
    UndecidedPassesOn(c, cfg, w);
    if PastDeadline(c, w).Take? {
      UndecidedOverrides(c, cfg, w, PastDeadline(c, w).action);
    }
  }

  // ---- The deterministic stage ----

  predicate FirstPublished(available: seq<(Skill, string)>, s: Skill, i: nat) {
    i < |available| && available[i].0 == s && forall j :: 0 <= j < i ==> available[j].0 != s
  }

  lemma {:induction false} FirstSchemaIs(available: seq<(Skill, string)>, s: Skill)
    ensures forall i: nat :: FirstPublished(available, s, i) ==> FirstSchema(available, s) == Some(available[i].1)
    ensures FirstSchema(available, s).None? <==> forall i :: 0 <= i < |available| ==> available[i].0 != s
    decreases |available|
  {
    if available != [] {
      var rest := available[1..];
      FirstSchemaIs(rest, s);
      forall i: nat | FirstPublished(available, s, i) && i > 0 ensures FirstPublished(rest, s, i - 1) {
        assert forall j :: 0 <= j < i - 1 ==> rest[j] == available[j + 1];
      }
      assert forall i :: 0 < i < |available| ==> available[i] == rest[i - 1];
    }
  }

  /** The call that leaves the initial room, in the first schema the gateway publishes for it. */
  function Leaving(schema: string): Action {
    CallSkill(SceneTornado, schema, Object([]), InitialRoom, None)
  }

  /** The room transition is called exactly in the initial room, on an observation lease that permits it, before the
      deadline or under a forced wait. */
  lemma RoomActionIff(c: Context, cfg: Config, w: World, i: nat)
    requires FirstPublished(c.available, SceneTornado, i)
    ensures RoomAction(c, cfg, w)
         == if (w.deadlineReached && !cfg.forceWait) || c.leaseKind != Observation || !w.inInitialRoom
               || !Authorised(c, Leaving(c.available[i].1))
            then None else Some(Leaving(c.available[i].1))
  {
    FirstSchemaIs(c.available, SceneTornado);
    EmptyCall(SceneTornado);
  }

  lemma EmptyCall(s: Skill)
    requires s != PlayAction && s != MoveTo
    ensures ValidCall(s, Object([]))
  {
  }

  lemma UnpublishedRoom(c: Context, cfg: Config, w: World)
    requires forall i :: 0 <= i < |c.available| ==> c.available[i].0 != SceneTornado
    ensures RoomAction(c, cfg, w).None?
  {
    FirstSchemaIs(c.available, SceneTornado);
  }

  /** The room transition is chosen, unless the deterministic plan's step is another skill and the lease allows waiting
      or doing nothing instead. */
  lemma RoomDecides(c: Context, cfg: Config, w: World)
    requires StepHasSchema(ActivityFor(c, cfg, w)) && Begins(c, w) && RoomAction(c, cfg, w).Some?
    ensures var plan := if cfg.forceSkills != [] || cfg.forceWait || !cfg.coordinator then None else w.deterministic;
            Chosen(c, cfg, w)
            == if plan.None? || plan.value.step.skill == Some(SceneTornado) then Act(RoomAction(c, cfg, w).value, plan)
               else if WaitKind in c.allowed then Act(Wait(PlanMismatch, 1000), plan)
               else if NoOpKind in c.allowed then Act(NoOp(PlanMismatch), plan)
               else Act(RoomAction(c, cfg, w).value, plan)
  {
    ChosenFirst(c, cfg, w);
  }

  /** The first forced skill, counted round the list from the starting one, that can be called. */
  predicate FirstForced(c: Context, w: World, skills: seq<Skill>, i: nat) {
    && i < |skills| && ForcedAction(c, w, Round(skills, w.forcedStart, i)).Some?
    && forall j :: 0 <= j < i ==> ForcedAction(c, w, Round(skills, w.forcedStart, j)).None?
  }

  lemma {:induction false} FirstActionAt(skills: seq<Skill>, attempt: Skill -> Option<Action>, i: nat)
    requires i < |skills| && attempt(skills[i]).Some? && forall j :: 0 <= j < i ==> attempt(skills[j]).None?
    ensures FirstAction(skills, attempt) == attempt(skills[i])
    decreases |skills|
  {
    if i > 0 {
      assert forall j :: 0 <= j < i - 1 ==> skills[1..][j] == skills[j + 1];
      FirstActionAt(skills[1..], attempt, i - 1);
    }
  }

  lemma ForcedIs(c: Context, w: World, skills: seq<Skill>, i: nat)
    requires FirstForced(c, w, skills, i)
    ensures Forced(c, w, skills) == ForcedAction(c, w, Round(skills, w.forcedStart, i))
  {
    var order := Rotate(skills, w.forcedStart % |skills|);
    forall j | 0 <= j <= i ensures order[j] == Round(skills, w.forcedStart, j) {
      RotateIsRound(skills, w.forcedStart, j);
    }
    FirstActionAt(order, s => ForcedAction(c, w, s), i);
  }

  lemma NoneForced(c: Context, w: World, skills: seq<Skill>)
    requires skills != [] && forall s :: s in skills ==> ForcedAction(c, w, s).None?
    ensures IsSafe(c, Forced(c, w, skills), ForcedSkillsUnauthorized)
  {
  }

  /** Forced skills: the first that can be called, from the starting position round the list, else a safe wait. */
  lemma ForcedSkillDecides(c: Context, cfg: Config, w: World, i: nat)
    requires StepHasSchema(ActivityFor(c, cfg, w)) && Begins(c, w) && RoomAction(c, cfg, w).None?
    requires FirstForced(c, w, cfg.forceSkills, i)
    ensures Chosen(c, cfg, w) == Act(ForcedAction(c, w, Round(cfg.forceSkills, w.forcedStart, i)).value, None)
  {
    ForcedIs(c, w, cfg.forceSkills, i);
  }

  lemma NoForcedSkill(c: Context, cfg: Config, w: World)
    requires StepHasSchema(ActivityFor(c, cfg, w)) && Begins(c, w) && RoomAction(c, cfg, w).None?
    requires cfg.forceSkills != [] && forall s :: s in cfg.forceSkills ==> ForcedAction(c, w, s).None?
    ensures SafeOr(c, Chosen(c, cfg, w), ForcedSkillsUnauthorized, None, Raised(NoPermittedDecision))
  {
    NoneForced(c, w, cfg.forceSkills);
  }

  lemma ForcedWaitDecides(c: Context, cfg: Config, w: World)
    requires StepHasSchema(ActivityFor(c, cfg, w)) && Begins(c, w) && RoomAction(c, cfg, w).None?
    requires cfg.forceSkills == [] && cfg.forceWait
    ensures Chosen(c, cfg, w) == if WaitKind in c.allowed then Act(Wait(ForcedWaitTest, cfg.forceWaitMs), None)
                                 else if NoOpKind in c.allowed then Act(NoOp(ForcedWaitTest), None)
                                 else Stop(Manual(ForcedActionUnauthorized))
  {
  }

  /** The plan step decides: its own skill when it can be called, else a safe wait; at the social step, a wait. */
  lemma StepDecides(c: Context, cfg: Config, w: World)
    requires Begins(c, w) && RoomAction(c, cfg, w).None? && cfg.forceSkills == [] && !cfg.forceWait && cfg.coordinator
    requires StepHasSchema(if w.deadlineReached then w.resumed else w.prepared)
    requires (if w.deadlineReached then w.resumed else w.prepared).Some?
    ensures var plan := if w.deadlineReached then w.resumed else w.prepared;
            var step, choice := plan.value.step, Chosen(c, cfg, w);
            && (step.skill.Some? ==>
                  var called := SkillAction(c, w, step.skill.value, step.schema.value, Told(step.intent), cfg.catalog,
                                            step.target);
                  if called.Some? then choice == Act(called.value, plan)
                  else SafeOr(c, choice, PlanUnresolvable, plan, Retryable(StepUnresolvable)))
            && (step.skill.None? && WaitKind in c.allowed ==> choice == Act(Wait(PlanOpportunity, 1000), plan))
            && (step.skill.None? && WaitKind !in c.allowed && NoOpKind in c.allowed ==>
                  choice == Act(NoOp(PlanOpportunity), plan))
  {
  }

  // ---- Calls ----

  /** A call goes out when it is well formed and the lease permits it. */
  function IfPermitted(c: Context, a: Action): Option<Action>
    requires a.CallSkill?
  {
    if ValidCall(a.skill, a.arguments) && SkillIsPermitted(c, a) then Some(a) else None
  }

  predicate FirstHintAt(hints: seq<Hint>, s: Skill, schema: string, i: nat) {
    && i < |hints| && hints[i].skill == s && hints[i].schema == schema
    && forall j :: 0 <= j < i ==> !(hints[j].skill == s && hints[j].schema == schema)
  }

  lemma {:induction false} FirstHintIs(hints: seq<Hint>, s: Skill, schema: string, i: nat)
    requires FirstHintAt(hints, s, schema, i)
    ensures FirstHint(hints, s, schema) == Some(hints[i])
    decreases |hints|
  {
    if i > 0 {
      assert forall j :: 0 <= j < i - 1 ==> hints[1..][j] == hints[j + 1];
      FirstHintIs(hints[1..], s, schema, i - 1);
    }
  }

  lemma {:induction false} NoHint(hints: seq<Hint>, s: Skill, schema: string)
    requires forall j :: 0 <= j < |hints| ==> !(hints[j].skill == s && hints[j].schema == schema)
    ensures FirstHint(hints, s, schema).None?
    decreases |hints|
  {
    if hints != [] {
      NoHint(hints[1..], s, schema);
    }
  }

  /** The skills whose arguments the service builds are called with those, under schema v1 only. */
  lemma GeneratedCall(c: Context, w: World, s: Skill, schema: string, reason: Reason, catalog: bool,
                      target: Option<string>)
    requires s in {PaperPlaneAutoSchedule, DartsAutoSchedule, ShootingAutoSchedule, DanceAutoSchedule}
    ensures SkillAction(c, w, s, schema, reason, catalog, target)
         == if schema == "v1" then IfPermitted(c, CallSkill(s, schema, c.generated(s), reason, None)) else None
  {
  }

  /** With a catalogue a move goes to the coordinates of its target, which must be in the current scene. */
  lemma CatalogueMove(c: Context, w: World, schema: string, reason: Reason, target: Option<string>)
    ensures SkillAction(c, w, MoveTo, schema, reason, true, target)
         == if target.Some? && w.movementTarget(target.value).Some?
               && w.sceneId == Some(w.movementTarget(target.value).value.0)
            then var coordinates := w.movementTarget(target.value).value.1;
                 IfPermitted(c, CallSkill(MoveTo, schema, Object([Field("target", coordinates)]), reason, None))
            else None
  {
  }

  /** Any other call takes the first hint's suggested arguments. */
  lemma HintedCall(c: Context, w: World, s: Skill, schema: string, reason: Reason, catalog: bool,
                   target: Option<string>, i: nat)
    requires s !in {PaperPlaneAutoSchedule, DartsAutoSchedule, ShootingAutoSchedule, DanceAutoSchedule}
    requires (s == MoveTo ==> !catalog) && FirstHintAt(c.hints, s, schema, i)
    ensures SkillAction(c, w, s, schema, reason, catalog, target)
         == IfPermitted(c, CallSkill(s, schema, c.hints[i].suggested, reason, None))
  {
    FirstHintIs(c.hints, s, schema, i);
  }

  /** And none without a hint. */
  lemma PlainCall(c: Context, w: World, s: Skill, schema: string, reason: Reason, catalog: bool, target: Option<string>)
    requires s !in {PaperPlaneAutoSchedule, DartsAutoSchedule, ShootingAutoSchedule, DanceAutoSchedule}
    requires s == MoveTo ==> !catalog
    requires forall j :: 0 <= j < |c.hints| ==> !(c.hints[j].skill == s && c.hints[j].schema == schema)
    ensures SkillAction(c, w, s, schema, reason, catalog, target)
         == IfPermitted(c, CallSkill(s, schema, Object([]), reason, None))
  {
    NoHint(c.hints, s, schema);
  }

  // ---- Local activities ----

  /** A local activity is tried for the skills of the fixed order, and for moving under a capacity snapshot: published,
      not excluded, with room, and not the last one called. */
  lemma LocalOrderHas(c: Context, w: World, capacity: Option<ActivityCapacities.Snapshot>, excluded: set<Skill>,
                      s: Skill)
    requires capacity.Some? ==> ActivityCapacities.ValidSnapshot(capacity.value)
    ensures s in LocalSequence(c, w, capacity, excluded)
       <==> && (s in LOCAL_ORDER || (capacity.Some? && s == MoveTo))
            && (s, "v1") in c.available && s !in excluded && w.lastSkill != Some(s)
            && (capacity.Some? ==> ActivityCapacities.IsAvailable(capacity.value, s))
  {
    LocalSequenceMembers(c, w, capacity, excluded);
  }

  /** Without a snapshot they are tried round the fixed order from the bucket's place; with one, by rank. */
  lemma LocalOrderIs(c: Context, w: World, capacity: Option<ActivityCapacities.Snapshot>, excluded: set<Skill>, i: nat)
    requires capacity.Some? ==> ActivityCapacities.ValidSnapshot(capacity.value)
    requires i < |LocalCandidates(c, w, capacity, excluded)|
    ensures var candidates, order := LocalCandidates(c, w, capacity, excluded), LocalSequence(c, w, capacity, excluded);
            if capacity.None? then |order| == |candidates| && order[i] == Round(candidates, w.bucket, i)
            else order == ActivityCapacities.WeightedOrder(capacity.value, w.score, candidates)
  {
    RotateIsRound(LocalCandidates(c, w, capacity, excluded), w.bucket, i);
  }

  /** On an observation lease with calls allowed, the first skill in that order that can be called. */
  lemma LocalFoundIs(c: Context, w: World, catalog: bool, capacity: Option<ActivityCapacities.Snapshot>, version: int,
                     excluded: set<Skill>, reason: Reason, i: nat)
    requires capacity.Some? ==> ActivityCapacities.ValidSnapshot(capacity.value)
    requires c.leaseKind == Observation && CallSkillKind in c.allowed
    requires var order := LocalSequence(c, w, capacity, excluded);
             i < |order| && LocalAction(c, w, catalog, version, reason, order[i]).Some?
             && forall j :: 0 <= j < i ==> LocalAction(c, w, catalog, version, reason, order[j]).None?
    ensures LocalFound(c, w, catalog, capacity, version, excluded, reason)
         == LocalAction(c, w, catalog, version, reason, LocalSequence(c, w, capacity, excluded)[i])
  {
    FirstActionAt(LocalSequence(c, w, capacity, excluded), LocalAttempt(c, w, catalog, version, reason), i);
  }

  lemma NoLocal(c: Context, w: World, catalog: bool, capacity: Option<ActivityCapacities.Snapshot>, version: int,
                excluded: set<Skill>, reason: Reason)
    requires capacity.Some? ==> ActivityCapacities.ValidSnapshot(capacity.value)
    ensures LocalFound(c, w, catalog, capacity, version, excluded, reason).None?
       <==> c.leaseKind != Observation || CallSkillKind !in c.allowed
            || forall s :: s in LocalSequence(c, w, capacity, excluded) ==>
                 LocalAction(c, w, catalog, version, reason, s).None?
  {
    LocalFoundFirst(c, w, catalog, capacity, version, excluded, reason);
    NoneFound(LocalSequence(c, w, capacity, excluded), LocalAttempt(c, w, catalog, version, reason));
  }

  lemma NoneFound(skills: seq<Skill>, attempt: Skill -> Option<Action>)
    ensures FirstAction(skills, attempt).None? <==> forall s :: s in skills ==> attempt(s).None?
  {
    var from := FirstActionOf(skills, attempt);
  }

  lemma LocalFoundFirst(c: Context, w: World, catalog: bool, capacity: Option<ActivityCapacities.Snapshot>,
                        version: int, excluded: set<Skill>, reason: Reason)
    requires capacity.Some? ==> ActivityCapacities.ValidSnapshot(capacity.value)
    ensures LocalFound(c, w, catalog, capacity, version, excluded, reason)
         == if c.leaseKind == Observation && CallSkillKind in c.allowed
            then FirstAction(LocalSequence(c, w, capacity, excluded), LocalAttempt(c, w, catalog, version, reason))
            else None
  {
  }

  /** A local move goes to the catalogue's first target for this plan version; another skill is simply called. */
  lemma LocalActionIs(c: Context, w: World, catalog: bool, version: int, reason: Reason, s: Skill)
    ensures LocalAction(c, w, catalog, version, reason, s)
         == if s != MoveTo then SkillAction(c, w, s, "v1", reason, catalog, None)
            else if catalog && w.sceneId.Some? && w.firstTarget(version).Some? then
              SkillAction(c, w, MoveTo, "v1", reason, true, w.firstTarget(version))
            else None
  {
  }

  // ---- What reaches the store ----

  /** A stop hands nothing over and is the result. */
  lemma StopHandsNothing(c: Context, cfg: Config, w: World)
    requires ValidWorld(c, w) && Chosen(c, cfg, w).Stop?
    ensures PlannedFrom(c, cfg, w, Chosen(c, cfg, w)) == Planned(Chosen(c, cfg, w).result, [], [])
  {
  }

  /** Every action but a move reaches the store as it was chosen, bound to the plan it was chosen under. */
  lemma ChosenReachesStore(c: Context, cfg: Config, w: World, a: Action, plan: Option<ActivityContext>)
    requires ValidWorld(c, w) && Authorised(c, a) && !(a.CallSkill? && a.skill == MoveTo)
    ensures var r := PlannedFrom(c, cfg, w, Act(a, plan));
            r.submitted != [] && r.submitted[0] == Submission(a, if plan.Some? then Some(plan.value.binding) else None)
  {
  }

  /** A move with its target replaced. */
  ghost predicate MovedTo(a: Action, moved: Action, coordinates: Json) {
    && a.CallSkill? && moved.CallSkill? && moved == a.(arguments := moved.arguments)
    && Get(moved.arguments, "target") == Some(coordinates)
    && forall key :: key != "target" ==> Get(moved.arguments, key) == Get(a.arguments, key)
  }

  lemma OtherFieldsStay(fields: seq<Field>, coordinates: Json, key: string)
    requires Keyed(fields) && FieldAt(fields, "target").Some? && key != "target"
    ensures Get(Object(SetField(fields, "target", coordinates)), key) == Get(Object(fields), key)
  {
    SameKeysSameFieldAt(SetField(fields, "target", coordinates), fields, key);
  }

  /** The coordinates allocated for the catalogue target that a move's own coordinates belong to. */
  function AllocatedFor(cfg: Config, w: World, a: Action): Option<Json>
    requires a.CallSkill? && a.skill == MoveTo && ValidCall(MoveTo, a.arguments)
  {
    var target := Get(a.arguments, "target").value;
    if cfg.catalog && w.sceneId.Some? && w.trusted(target).Some? then w.allocation(w.trusted(target).value) else None
  }

  /** A move goes out to the allocated coordinates exactly when there are some and the lease permits the call with them;
      otherwise a safe wait goes out. */
  lemma MoveGoesOutIff(c: Context, cfg: Config, w: World, a: Action, moved: Action)
    requires ValidWorld(c, w) && Authorised(c, a) && a.CallSkill? && a.skill == MoveTo
    requires AllocatedFor(cfg, w, a).Some? ==>
               moved == a.(arguments := Object(SetField(a.arguments.fields, "target", AllocatedFor(cfg, w, a).value)))
    ensures if AllocatedFor(cfg, w, a).Some? && Authorised(c, moved) then Finalized(c, cfg, w, a) == Some(moved)
            else IsSafe(c, Finalized(c, cfg, w, a), IncompleteConstraints)
    ensures AllocatedFor(cfg, w, a).Some? ==> MovedTo(a, moved, AllocatedFor(cfg, w, a).value)
  {
    if AllocatedFor(cfg, w, a).Some? {
      RetargetedMoveIsValid(a.arguments, AllocatedFor(cfg, w, a).value);
      forall key | key != "target" ensures Get(moved.arguments, key) == Get(a.arguments, key) {
        OtherFieldsStay(a.arguments.fields, AllocatedFor(cfg, w, a).value, key);
      }
    }
  }

  lemma FallbackSaysLast(c: Context, cfg: Config, w: World, version: int)
    requires ValidWorld(c, w) && w.write(0).CapacityFull?
    ensures var r := Fallbacks(c, cfg, w, version);
            r.submitted != [] ==> |r.submitted| <= 2 && r.result == Failed(w.write(|r.submitted|))
  {
  }

  lemma StoreSaysLast(c: Context, cfg: Config, w: World, a: Action, plan: Option<ActivityContext>)
    requires ValidWorld(c, w) && Authorised(c, a)
    ensures var r := PlannedFrom(c, cfg, w, Act(a, plan));
            r.submitted != [] && !w.write(|r.submitted| - 1).CapacityFull? ==>
              r.result == Failed(w.write(|r.submitted| - 1))
  {
    if w.write(0).CapacityFull? {
      PlannedWhenFull(c, cfg, w, Act(a, plan));
      FallbackSaysLast(c, cfg, w, VersionOf(plan));
      var r, rest := PlannedFrom(c, cfg, w, Act(a, plan)), Fallbacks(c, cfg, w, VersionOf(plan));
      assert r.submitted != [] ==> |r.submitted| == |rest.submitted| + 1;
    }
  }

  /** What the store said last decides how planning ends. */
  lemma LastWriteDecides(c: Context, cfg: Config, w: World, a: Action, plan: Option<ActivityContext>)
    requires ValidWorld(c, w) && Authorised(c, a) && PlannedFrom(c, cfg, w, Act(a, plan)).submitted != []
    ensures var r := PlannedFrom(c, cfg, w, Act(a, plan));
            match w.write(|r.submitted| - 1)
            case Stored => r.result == Succeeded
            case Fenced => r.result == Manual(ModelResultDiscarded)
            case Conflict(category) => r.result == Manual(StoreConflict(category))
            case StoreUnavailable => r.result == Retryable(PlanUnavailable)
            case CapacityFull(_) => true
  {
    StoreSaysLast(c, cfg, w, a, plan);
  }

  /** A full activity: the first local activity without it, under the current snapshot, else the deadline's wait, is
      handed over next, unbound; nothing is when neither can be. */
  lemma FullActivity(c: Context, cfg: Config, w: World, a: Action, plan: Option<ActivityContext>, full: Skill)
    requires ValidWorld(c, w) && Authorised(c, a) && w.write(0) == CapacityFull(full)
    requires PlannedFrom(c, cfg, w, Act(a, plan)).submitted != []
    ensures var version := if plan.Some? then plan.value.version else 1;
            var local := LocalFound(c, w, cfg.catalog, w.capacity, version, {full}, CapacityReached(full));
            var next := if local.Some? then local
                        else if WaitKind in c.allowed then Some(Wait(DeadlinePassed, w.staggeredWaitMs))
                        else if NoOpKind in c.allowed then Some(NoOp(DeadlinePassed))
                        else None;
            var r := PlannedFrom(c, cfg, w, Act(a, plan));
            if next.None? then r.submitted == [r.submitted[0]] && r.result == Raised(ActivityFull)
            else if Finalized(c, cfg, w, next.value).None? then
              r.submitted == [r.submitted[0]] && r.result == Raised(NoPermittedDecision)
            else
              |r.submitted| >= 2 && r.submitted[1] == Submission(Finalized(c, cfg, w, next.value).value, None)
  {
  }

  lemma FallbackFullAgain(c: Context, cfg: Config, w: World, version: int)
    requires ValidWorld(c, w) && w.write(0).CapacityFull? && Fallbacks(c, cfg, w, version).submitted != []
    ensures var r := Fallbacks(c, cfg, w, version);
            if !w.write(1).CapacityFull? then |r.submitted| == 1
            else if WaitKind in c.allowed then
              r.submitted[1..] == [Submission(Wait(DeadlinePassed, w.staggeredWaitMs), None)]
            else if NoOpKind in c.allowed then r.submitted[1..] == [Submission(NoOp(DeadlinePassed), None)]
            else |r.submitted| == 1 && r.result == Raised(ActivityFull)
  {
  }

  /** When that one's activity is full too, only the deadline's wait is left. */
  lemma FullAgain(c: Context, cfg: Config, w: World, a: Action, plan: Option<ActivityContext>)
    requires ValidWorld(c, w) && Authorised(c, a) && |PlannedFrom(c, cfg, w, Act(a, plan)).submitted| >= 2
    ensures var r := PlannedFrom(c, cfg, w, Act(a, plan));
            var more := r.submitted[2..];
            if !w.write(1).CapacityFull? then more == []
            else if WaitKind in c.allowed then more == [Submission(Wait(DeadlinePassed, w.staggeredWaitMs), None)]
            else if NoOpKind in c.allowed then more == [Submission(NoOp(DeadlinePassed), None)]
            else more == [] && r.result == Raised(ActivityFull)
  {
    var r, rest := PlannedFrom(c, cfg, w, Act(a, plan)), Fallbacks(c, cfg, w, VersionOf(plan));
    PlannedFacts(c, cfg, w, Act(a, plan));
    PlannedWhenFull(c, cfg, w, Act(a, plan));
    FallbackFullAgain(c, cfg, w, VersionOf(plan));
    assert r.submitted[2..] == rest.submitted[1..];
  }

  // ---- The planner ----

  /** The planner skips the model call, handing nothing over, exactly when it would ask the model under a stale
      fence. */
  lemma PlanSkipsIff(c: Context, cfg: Config, w: World)
    requires ValidWorld(c, w)
    ensures var r := PlannedFrom(c, cfg, w, Chosen(c, cfg, w));
            && (Begins(c, w) && Undecided(c, cfg, w) && !w.deadlineReached && !w.fenceCurrent ==>
                  r == Planned(Manual(ModelCallSkipped), [], []))
            && (r.result == Manual(ModelCallSkipped) ==>
                  Begins(c, w) && Undecided(c, cfg, w) && !w.deadlineReached && !w.fenceCurrent)
  {
    SkippedIff(c, cfg, w);
    if Chosen(c, cfg, w).Act? {
      ResultIsNoSkip(c, cfg, w, Chosen(c, cfg, w));
    }
  }

  lemma ResultIsNoSkip(c: Context, cfg: Config, w: World, choice: Choice)
    requires ValidWorld(c, w) && choice.Act? && Authorised(c, choice.action)
    ensures PlannedFrom(c, cfg, w, choice).result != Manual(ModelCallSkipped)
  {
    if w.write(0).CapacityFull? {
      PlannedWhenFull(c, cfg, w, choice);
      FallbackIsNoSkip(c, cfg, w, VersionOf(choice.activity));
    }
  }

  lemma FallbackIsNoSkip(c: Context, cfg: Config, w: World, version: int)
    requires ValidWorld(c, w) && w.write(0).CapacityFull?
    ensures Fallbacks(c, cfg, w, version).result != Manual(ModelCallSkipped)
  {
  }

  /** The model's first authorised candidate, when it is no move, is what the planner hands over first. */
  lemma ModelReachesStore(c: Context, cfg: Config, w: World, i: nat)
    requires ValidWorld(c, w) && Begins(c, w) && Undecided(c, cfg, w) && !w.deadlineReached && w.fenceCurrent
    requires w.decided.Answered? && WellFormed(w.decided.candidates) && FirstAuthorised(c, w.decided.candidates, i)
    requires var a := w.decided.candidates[i]; !(a.CallSkill? && a.skill == MoveTo)
    ensures var r := PlannedFrom(c, cfg, w, Chosen(c, cfg, w));
            r.submitted != [] && r.submitted[0].action == Normalize(c, w.decided.candidates[i])
  {
    ModelAnswers(c, cfg, w);
    ChosenReachesStore(c, cfg, w, Normalize(c, w.decided.candidates[i]), PlanBefore(cfg, w));
  }
}
