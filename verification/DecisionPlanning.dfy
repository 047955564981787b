/** Planning one decision: the branches that choose an action, the overrides that follow, and the retries after
    a full activity. Everything handed to the decision store is authorised by the lease. */
module DecisionPlanning {
  import opened Wrappers
  import opened Skills
  import opened Orders
  import opened ArgumentPaths
  import opened LeasePermissions
  import ActivityPlans
  import ActivityCapacities
  import CycleRows

  const LOCAL_ORDER: seq<Skill> := [
    DanceAutoSchedule, HotAirBalloonAutoSchedule, CoffeeAutoSchedule, DartsAutoSchedule, ShootingAutoSchedule,
    PaperPlaneAutoSchedule, DrawLotsAutoSchedule, WishBoardAutoSchedule, HelicopterAutoSchedule,
    ElevatorAutoSchedule
  ]

  /** A prepared activity plan: its current step, its version, and what decisions are bound to. */
  datatype ActivityContext = ActivityContext(step: ActivityPlans.Step, version: int, binding: CycleRows.Binding)

  datatype AgentFailure = TimedOut | Overloaded | LateAnswer | OtherFailure(text: string)

  /** The model's parsed candidates, or the failure of asking it. */
  datatype Decided = Answered(candidates: seq<Action>) | AgentError(failure: AgentFailure)

  /** What storing a decision can report. */
  datatype Write = Stored | CapacityFull(skill: Skill) | Fenced | Conflict(category: string) | StoreUnavailable

  datatype Config = Config(forceSkills: seq<Skill>, forceWait: bool, forceWaitMs: int, catalog: bool, coordinator: bool)

  /** Everything the planner learns from elsewhere: the store, the clock, the session snapshot, the activity
      coordinator, the model, the scene catalogue and the target allocator. `write(k)` is the answer to the
      k-th submission. */
  datatype World = World(
    existing: bool,
    deadlineReached: bool,
    inInitialRoom: bool,
    lastSkill: Option<Skill>,
    forcedStart: nat,
    deterministic: Option<ActivityContext>,
    resumed: Option<ActivityContext>,
    prepared: Option<ActivityContext>,
    fenceCurrent: bool,
    decided: Decided,
    bucket: nat,
    staggeredWaitMs: int,
    sceneId: Option<int>,
    movementTarget: string -> Option<(int, Json)>,
    firstTarget: int -> Option<string>,
    trusted: Json -> Option<string>,
    allocation: string -> Option<Json>,
    write: nat -> Write,
    capacity: Option<ActivityCapacities.Snapshot>,
    score: Skill -> real)

  predicate Coordinates(v: Json) {
    v.Object? && Mapping(v) && Numeric(Get(v, "x")) && Numeric(Get(v, "y")) && Numeric(Get(v, "z"))
  }

  predicate StepHasSchema(a: Option<ActivityContext>) {
    a.Some? && a.value.step.skill.Some? ==> a.value.step.schema.Some?
  }

  /** What the collaborators guarantee: plan steps carry a schema and allocated targets are coordinates. */
  ghost predicate ValidWorld(c: Context, w: World) {
    && StepHasSchema(w.deterministic) && StepHasSchema(w.resumed) && StepHasSchema(w.prepared)
    && (forall id :: w.allocation(id).Some? ==> Coordinates(w.allocation(id).value))
    && (w.capacity.Some? ==> ActivityCapacities.ValidSnapshot(w.capacity.value))
  }

  // ---- Single candidates ----

  function FirstHint(hints: seq<Hint>, s: Skill, schema: string): Option<Hint> {
    if hints == [] then None
    else if hints[0].skill == s && hints[0].schema == schema then Some(hints[0])
    else FirstHint(hints[1..], s, schema)
  }

  function MoveArguments(w: World, target: Option<string>): Option<Json> {
    if target.None? then None
    else
      match w.movementTarget(target.value)
      case None => None
      case Some(found) =>
        if w.sceneId == Some(found.0) then Some(Object([Field("target", found.1)])) else None
  }

  function SkillArguments(c: Context, w: World, s: Skill, schema: string, catalog: bool, target: Option<string>)
    : Option<Json>
  {
    var hint := FirstHint(c.hints, s, schema);
    var arguments := if s == MoveTo && catalog then MoveArguments(w, target)
                     else if hint.None? then Some(Object([]))
                     else Some(hint.value.suggested);
    if arguments.Some? && Specialized(s) then SpecializedArguments(c, s, schema) else arguments
  }

  /** A skill call built from trusted data, if it can be built and the lease permits it. */
  function SkillAction(c: Context, w: World, s: Skill, schema: string, reason: Reason, catalog: bool,
                       target: Option<string>): (r: Option<Action>)
    ensures r.Some? ==> r.value.CallSkill? && r.value.skill == s && r.value.schema == schema && Authorised(c, r.value)
  {
    match SkillArguments(c, w, s, schema, catalog, target)
    case None => None
    case Some(arguments) =>
      var candidate := CallSkill(s, schema, arguments, reason, None);
      if ValidCall(s, arguments) && SkillIsPermitted(c, candidate) then Some(candidate) else None
  }

  function FirstSchema(available: seq<(Skill, string)>, s: Skill): Option<string> {
    if available == [] then None
    else if available[0].0 == s then Some(available[0].1)
    else FirstSchema(available[1..], s)
  }

  function InitialRoomAction(c: Context, w: World): (r: Option<Action>)
    ensures r.Some? ==> r.value.CallSkill? && r.value.skill == SceneTornado && Authorised(c, r.value)
  {
    if c.leaseKind != Observation || !w.inInitialRoom then None
    else
      match FirstSchema(c.available, SceneTornado)
      case None => None
      case Some(schema) =>
        var candidate := CallSkill(SceneTornado, schema, Object([]),
                                   InitialRoom, None);
        if SkillIsPermitted(c, candidate) then Some(candidate) else None
  }

  /** Waiting, or doing nothing, as far as the lease allows either. */
  function WaitOrNoOp(c: Context, reason: Reason, waitMs: int): (r: Option<Action>)
    ensures r.Some? <==> WaitKind in c.allowed || NoOpKind in c.allowed
    ensures r.Some? ==> !r.value.CallSkill? && Authorised(c, r.value)
  {
    if WaitKind in c.allowed then Some(Wait(reason, waitMs))
    else if NoOpKind in c.allowed then Some(NoOp(reason))
    else None
  }

  function PlannedAction(c: Context, w: World, cfg: Config, step: ActivityPlans.Step): (r: Option<Action>)
    requires step.skill.Some? ==> step.schema.Some?
    ensures r.Some? ==> Authorised(c, r.value)
    ensures r.Some? && r.value.CallSkill? ==> step.skill == Some(r.value.skill)
  {
    if step.skill.None? then WaitOrNoOp(c, PlanOpportunity, 1000)
    else SkillAction(c, w, step.skill.value, step.schema.value, Told(step.intent), cfg.catalog, step.target)
  }

  function DeadlineFallback(c: Context, w: World): Option<Action> {
    WaitOrNoOp(c, DeadlinePassed, w.staggeredWaitMs)
  }

  // ---- Trying skills in order ----

  function FirstAction(skills: seq<Skill>, attempt: Skill -> Option<Action>): (r: Option<Action>)
    ensures r.Some? ==> exists i :: 0 <= i < |skills| && attempt(skills[i]) == r
                                    && forall j :: 0 <= j < i ==> attempt(skills[j]).None?
    ensures r.None? ==> forall s :: s in skills ==> attempt(s).None?
  {
    if skills == [] then None
    else if attempt(skills[0]).Some? then
      assert attempt(skills[0]).Some?;
      attempt(skills[0])
    else
      var r := FirstAction(skills[1..], attempt);
      assert forall j :: 0 < j < |skills| ==> skills[j] == skills[1..][j - 1];
      r
  }

  /** The skill whose attempt gives the first action; there is one exactly when some attempt succeeds. */
  lemma FirstActionOf(skills: seq<Skill>, attempt: Skill -> Option<Action>) returns (from: Option<Skill>)
    ensures var r := FirstAction(skills, attempt);
            && (r.Some? ==> from.Some? && from.value in skills && attempt(from.value) == r)
            && (r.None? <==> forall s :: s in skills ==> attempt(s).None?)
  {
    from := None;
    var r := FirstAction(skills, attempt);
    if r.Some? {
      var i :| 0 <= i < |skills| && attempt(skills[i]) == r;
      from := Some(skills[i]);
      assert attempt(skills[i]).Some? && skills[i] in skills;
    }
  }

  /** The first attempt that yields an action. */
  method FirstFound(skills: seq<Skill>, attempt: Skill -> Option<Action>) returns (r: Option<Action>)
    ensures r == FirstAction(skills, attempt)
  {
    for i := 0 to |skills|
      invariant FirstAction(skills, attempt) == FirstAction(skills[i..], attempt)
    {
      assert skills[i..][1..] == skills[i + 1..];
      r := attempt(skills[i]);
      if r.Some? {
        return r;
      }
    }
    assert skills[|skills|..] == [];
    return None;
  }

  // ---- Local activities ----

  function LocalOrder(capacity: Option<ActivityCapacities.Snapshot>): seq<Skill> {
    if capacity.Some? then LOCAL_ORDER + [MoveTo] else LOCAL_ORDER
  }

  predicate LocalCandidate(c: Context, w: World, capacity: Option<ActivityCapacities.Snapshot>, excluded: set<Skill>,
                           s: Skill) {
    && s in LocalOrder(capacity)
    && (s, "v1") in c.available
    && s !in excluded
    && (capacity.Some? ==> ActivityCapacities.IsAvailable(capacity.value, s))
    && w.lastSkill != Some(s)
  }

  function LocalAction(c: Context, w: World, catalog: bool, version: int, reason: Reason, s: Skill): (r: Option<Action>)
    ensures r.Some? ==> r.value.CallSkill? && r.value.skill == s && Authorised(c, r.value)
  {
    if s == MoveTo then
      if !catalog || w.sceneId.None? || w.firstTarget(version).None? then None
      else SkillAction(c, w, s, "v1", reason, catalog, w.firstTarget(version))
    else SkillAction(c, w, s, "v1", reason, catalog, None)
  }

  predicate CallsItself(c: Context, attempt: Skill -> Option<Action>, s: Skill) {
    attempt(s).Some? ==> attempt(s).value.CallSkill? && attempt(s).value.skill == s && Authorised(c, attempt(s).value)
  }

  function LocalAttempt(c: Context, w: World, catalog: bool, version: int, reason: Reason)
    : (attempt: Skill -> Option<Action>)
    ensures forall s :: CallsItself(c, attempt, s)
    ensures forall s :: attempt(s) == LocalAction(c, w, catalog, version, reason, s)
  {
    (s: Skill) => LocalAction(c, w, catalog, version, reason, s)
  }

  predicate LocalLease(c: Context) {
    c.leaseKind == Observation && CallSkillKind in c.allowed
  }

  function LocalCandidates(c: Context, w: World, capacity: Option<ActivityCapacities.Snapshot>, excluded: set<Skill>)
    : (r: seq<Skill>)
    ensures forall s :: s in r <==> LocalCandidate(c, w, capacity, excluded, s)
  {
    Filter(LocalOrder(capacity), (s: Skill) => LocalCandidate(c, w, capacity, excluded, s))
  }

  /** The candidates in the order they are tried: rotated by the context's bucket, or ranked by capacity. */
  function LocalSequence(c: Context, w: World, capacity: Option<ActivityCapacities.Snapshot>, excluded: set<Skill>)
    : seq<Skill>
    requires capacity.Some? ==> ActivityCapacities.ValidSnapshot(capacity.value)
  {
    var candidates := LocalCandidates(c, w, capacity, excluded);
    if candidates == [] then []
    else if capacity.None? then Rotate(candidates, w.bucket % |candidates|)
    else ActivityCapacities.WeightedOrder(capacity.value, w.score, candidates)
  }

  lemma LocalSequenceMembers(c: Context, w: World, capacity: Option<ActivityCapacities.Snapshot>, excluded: set<Skill>)
    requires capacity.Some? ==> ActivityCapacities.ValidSnapshot(capacity.value)
    ensures forall s :: s in LocalSequence(c, w, capacity, excluded) <==> LocalCandidate(c, w, capacity, excluded, s)
  {
    var candidates := LocalCandidates(c, w, capacity, excluded);
    if candidates == [] {
      assert forall s :: LocalCandidate(c, w, capacity, excluded, s) <==> s in candidates;
    } else if capacity.Some? {
      ActivityCapacities.RankingMembers(capacity.value, w.score, candidates);
    }
  }

  /** The first action that can be built, in that order. */
  function LocalChoice(c: Context, w: World, catalog: bool, capacity: Option<ActivityCapacities.Snapshot>, version: int,
                       excluded: set<Skill>, reason: Reason): Option<Action>
    requires capacity.Some? ==> ActivityCapacities.ValidSnapshot(capacity.value)
  {
    FirstAction(LocalSequence(c, w, capacity, excluded), LocalAttempt(c, w, catalog, version, reason))
  }

  /** The first action among the candidates, whatever is tried for each: there is one exactly when some candidate has
      one. */
  lemma CandidateChoice(c: Context, w: World, capacity: Option<ActivityCapacities.Snapshot>, excluded: set<Skill>,
                        attempt: Skill -> Option<Action>)
    requires capacity.Some? ==> ActivityCapacities.ValidSnapshot(capacity.value)
    requires forall s :: CallsItself(c, attempt, s)
    ensures var r := FirstAction(LocalSequence(c, w, capacity, excluded), attempt);
            && (r.Some? ==> r.value.CallSkill? && Authorised(c, r.value))
            && (r.Some? ==> LocalCandidate(c, w, capacity, excluded, r.value.skill))
            && (r.None? <==> forall s :: LocalCandidate(c, w, capacity, excluded, s) ==> attempt(s).None?)
  {
    LocalSequenceMembers(c, w, capacity, excluded);
    var from := FirstActionOf(LocalSequence(c, w, capacity, excluded), attempt);
    assert from.Some? ==> CallsItself(c, attempt, from.value);
  }

  /** There is one exactly when some candidate has one. */
  lemma LocalChoiceFacts(c: Context, w: World, catalog: bool, capacity: Option<ActivityCapacities.Snapshot>,
                         version: int,
                         excluded: set<Skill>, reason: Reason)
    requires capacity.Some? ==> ActivityCapacities.ValidSnapshot(capacity.value)
    ensures var r := LocalChoice(c, w, catalog, capacity, version, excluded, reason);
            && (r.Some? ==> r.value.CallSkill? && Authorised(c, r.value))
            && (r.Some? ==> LocalCandidate(c, w, capacity, excluded, r.value.skill))
            && (r.None? <==> forall s :: LocalCandidate(c, w, capacity, excluded, s) ==>
                               LocalAction(c, w, catalog, version, reason, s).None?)
  {
    CandidateChoice(c, w, capacity, excluded, LocalAttempt(c, w, catalog, version, reason));
  }

  method OrderCandidates(c: Context, w: World, capacity: Option<ActivityCapacities.Snapshot>, excluded: set<Skill>)
    returns (ordered: seq<Skill>)
    requires capacity.Some? ==> ActivityCapacities.ValidSnapshot(capacity.value)
    ensures ordered == LocalSequence(c, w, capacity, excluded)
  {
    var candidates := LocalCandidates(c, w, capacity, excluded);
    ordered := [];
    if candidates != [] && capacity.None? {
      ordered := Rotate(candidates, w.bucket % |candidates|);
    } else if candidates != [] {
      ordered := ActivityCapacities.WeightedOrder(capacity.value, w.score, candidates);
    }
  }

  /** Tries the local activities in rotated or ranked order and takes the first action that can be built. */
  method LocalActivity(c: Context, w: World, catalog: bool, capacity: Option<ActivityCapacities.Snapshot>, version: int,
                       excluded: set<Skill>, reason: Reason) returns (r: Option<Action>)
    requires capacity.Some? ==> ActivityCapacities.ValidSnapshot(capacity.value)
    ensures r == if LocalLease(c) then LocalChoice(c, w, catalog, capacity, version, excluded, reason) else None
    ensures r.Some? ==> r.value.CallSkill? && Authorised(c, r.value) && LocalLease(c)
                        && LocalCandidate(c, w, capacity, excluded, r.value.skill)
    ensures r.None? <==> !LocalLease(c)
                         || forall s :: LocalCandidate(c, w, capacity, excluded, s) ==>
                              LocalAction(c, w, catalog, version, reason, s).None?
  {
    if !LocalLease(c) {
      return None;
    }
    LocalChoiceFacts(c, w, catalog, capacity, version, excluded, reason);
    var ordered := OrderCandidates(c, w, capacity, excluded);
    r := FirstFound(ordered, LocalAttempt(c, w, catalog, version, reason));
  }

  /** The local activity, if one can be found. */
  function LocalFound(c: Context, w: World, catalog: bool, capacity: Option<ActivityCapacities.Snapshot>, version: int,
                      excluded: set<Skill>, reason: Reason): (r: Option<Action>)
    requires capacity.Some? ==> ActivityCapacities.ValidSnapshot(capacity.value)
    ensures r.Some? ==> r.value.CallSkill? && Authorised(c, r.value) && r.value.skill !in excluded
  {
    LocalChoiceFacts(c, w, catalog, capacity, version, excluded, reason);
    if LocalLease(c) then LocalChoice(c, w, catalog, capacity, version, excluded, reason) else None
  }

  method LocalFallback(c: Context, w: World, catalog: bool, capacity: Option<ActivityCapacities.Snapshot>, version: int,
                       excluded: set<Skill>, reason: Reason) returns (r: Option<Action>)
    requires capacity.Some? ==> ActivityCapacities.ValidSnapshot(capacity.value)
    ensures r == LocalFound(c, w, catalog, capacity, version, excluded, reason)
    ensures r.Some? ==> r.value.CallSkill? && Authorised(c, r.value) && r.value.skill !in excluded
  {
    r := LocalActivity(c, w, catalog, capacity, version, excluded, reason);
  }

  function ForcedAction(c: Context, w: World, s: Skill): (r: Option<Action>)
    ensures r.Some? ==> r.value.CallSkill? && r.value.skill == s && Authorised(c, r.value)
  {
    SkillAction(c, w, s, "v1", ForcedSkillTest, false, None)
  }

  predicate NoSafeKind(c: Context) {
    WaitKind !in c.allowed && NoOpKind !in c.allowed && StopHostingKind !in c.allowed
  }

  /** The first forced skill that can be called, from the starting position round the list, else a safe wait. */
  function Forced(c: Context, w: World, skills: seq<Skill>): (r: Option<Action>)
    requires skills != []
    ensures r.Some? ==> Authorised(c, r.value)
  {
    var first := FirstAction(Rotate(skills, w.forcedStart % |skills|), s => ForcedAction(c, w, s));
    if first.Some? then first else SafeUnavailable(c, ForcedSkillsUnauthorized)
  }

  /** Forced test skills, from a starting position round the list: the first one that can be called, else a safe
      wait; nothing exactly when no forced skill can be called and the lease allows no wait. */
  method ForcedSkill(c: Context, w: World, skills: seq<Skill>) returns (r: Option<Action>)
    requires skills != []
    ensures r == Forced(c, w, skills)
    ensures r.Some? ==> Authorised(c, r.value)
    ensures var first := FirstAction(Rotate(skills, w.forcedStart % |skills|), s => ForcedAction(c, w, s));
            r == if first.Some? then first else SafeUnavailable(c, ForcedSkillsUnauthorized)
    ensures r.None? <==> (forall s :: s in skills ==> ForcedAction(c, w, s).None?) && NoSafeKind(c)
  {
    r := FirstFound(Rotate(skills, w.forcedStart % |skills|), s => ForcedAction(c, w, s));
    if r.None? {
      r := SafeUnavailable(c, ForcedSkillsUnauthorized);
    }
  }

  // ---- Choosing ----

  datatype Category =
    | MissingAccount
    | ConversationUnsupported
    | ForcedActionUnauthorized
    | ModelCallSkipped
    | ModelResultDiscarded
    | StoreConflict(text: string)
    | PlanUnavailable
    | StepUnresolvable
    | DeadlineExceeded
    | Agent(error: AgentFailure)
    | NoPermittedDecision
    | ActivityFull

  datatype PlanResult =
    | Succeeded
    | Manual(category: Category)
    | Retryable(category: Category)
    | Raised(category: Category)

  datatype Choice = Stop(result: PlanResult) | Act(action: Action, activity: Option<ActivityContext>)

  predicate Forcing(cfg: Config) {
    cfg.forceSkills != [] || cfg.forceWait
  }

  predicate HasAccount(c: Context) {
    c.accountId.Some? && !Blank(c.accountId.value)
  }

  /** While a plan step is current, a skill call is that step's skill, unless the lease allows neither waiting nor
      doing nothing. */
  predicate FollowsPlan(c: Context, activity: Option<ActivityContext>, a: Action) {
    activity.Some? && a.CallSkill? && (WaitKind in c.allowed || NoOpKind in c.allowed) ==>
      activity.value.step.skill == Some(a.skill)
  }

  predicate ModelOutOfReach(failure: AgentFailure) {
    !failure.OtherFailure?
  }

  /** The room transition is tried first, unless the deadline has passed without a forced wait. */
  function RoomAction(c: Context, cfg: Config, w: World): Option<Action> {
    if !w.deadlineReached || cfg.forceWait then InitialRoomAction(c, w) else None
  }

  /** The activity plan in force: none when actions are forced, otherwise the deterministic, resumed or prepared
      one. */
  function ActivityFor(c: Context, cfg: Config, w: World): Option<ActivityContext> {
    if Forcing(cfg) || !cfg.coordinator then None
    else if RoomAction(c, cfg, w).Some? then w.deterministic
    else if w.deadlineReached then w.resumed
    else w.prepared
  }

  /** The current plan step's own action. */
  function StepAction(c: Context, cfg: Config, w: World): (r: Option<Action>)
    requires StepHasSchema(ActivityFor(c, cfg, w))
  {
    var activity := ActivityFor(c, cfg, w);
    if activity.None? then None else PlannedAction(c, w, cfg, activity.value.step)
  }

  /** What a stage of the choice says: planning ends, this action is taken, or the next stage decides. */
  datatype Verdict = Halt(result: PlanResult) | Take(action: Action) | PassOn

  predicate Lawful(c: Context, v: Verdict) {
    (v.Take? ==> Authorised(c, v.action)) && (v.Halt? ==> v.result != Succeeded)
  }

  function Else(found: Option<Action>, result: PlanResult): Verdict {
    if found.Some? then Take(found.value) else Halt(result)
  }

  /** The deterministic stage. */
  function Deterministic(c: Context, cfg: Config, w: World): (v: Verdict)
    requires StepHasSchema(ActivityFor(c, cfg, w))
    ensures Lawful(c, v)
  {
    var activity := ActivityFor(c, cfg, w);
    if RoomAction(c, cfg, w).Some? then Take(RoomAction(c, cfg, w).value)
    else if cfg.forceSkills != [] then Else(Forced(c, w, cfg.forceSkills), Raised(NoPermittedDecision))
    else if cfg.forceWait then Else(WaitOrNoOp(c, ForcedWaitTest, cfg.forceWaitMs), Manual(ForcedActionUnauthorized))
    else if StepAction(c, cfg, w).Some? then Take(StepAction(c, cfg, w).value)
    else if activity.Some? && activity.value.step.skill.Some? then
      Else(SafeUnavailable(c, PlanUnresolvable), Retryable(StepUnresolvable))
    else PassOn
  }

  /** The stage that asks the model. */
  function AskedModel(c: Context, w: World): (v: Verdict)
    ensures Lawful(c, v) && !v.PassOn?
  {
    if !w.fenceCurrent then Halt(Manual(ModelCallSkipped))
    else
      match w.decided
      case Answered(candidates) => Else(ModelAnswer(c, candidates), NODE_ERROR)
      case AgentError(failure) =>
        var gaveUp := Retryable(Agent(failure));
        var found := LocalFound(c, w, false, None, 1, {}, LocalWhileSaturated);
        if !ModelOutOfReach(failure) then Halt(gaveUp)
        else if found.Some? then Take(found.value)
        else if WaitKind in c.allowed then Take(Wait(AgentUnavailable, w.staggeredWaitMs))
        else Halt(gaveUp)
  }

  /** The stage of an event that waited too long. */
  function PastDeadline(c: Context, w: World): (v: Verdict)
    ensures Lawful(c, v) && !v.PassOn?
  {
    var found := LocalFound(c, w, false, None, 1, {}, LocalAfterDelay);
    Else(if found.Some? then found else DeadlineFallback(c, w), Retryable(DeadlineExceeded))
  }

  /** The deterministic part of the choice: room transition, forced actions, the plan's current step. */
  method ChooseDeterministic(c: Context, cfg: Config, w: World)
    returns (stop: Option<PlanResult>, action: Option<Action>, activity: Option<ActivityContext>)
    requires ValidContext(c) && ValidWorld(c, w)
    ensures action.Some? ==> Authorised(c, action.value)
    ensures StepHasSchema(activity)
    ensures stop.Some? ==> stop.value != Succeeded
    ensures stop.None? ==> activity == ActivityFor(c, cfg, w)
    ensures match Deterministic(c, cfg, w)
            case Halt(result) => stop == Some(result)
            case Take(chosen) => stop.None? && action == Some(chosen)
            case PassOn => stop.None? && action.None?
    ensures RoomAction(c, cfg, w).Some? ==> stop.None? && action == RoomAction(c, cfg, w)
    ensures RoomAction(c, cfg, w).None? && StepAction(c, cfg, w).Some? ==> stop.None? && action == StepAction(c, cfg, w)
    ensures RoomAction(c, cfg, w).None? && Forcing(cfg) && stop.None? ==> action.Some?
    ensures stop == Some(Raised(NoPermittedDecision)) <==>
              && RoomAction(c, cfg, w).None? && cfg.forceSkills != []
              && (forall s :: s in cfg.forceSkills ==> ForcedAction(c, w, s).None?) && NoSafeKind(c)
    ensures stop == Some(Manual(ForcedActionUnauthorized)) <==>
              && RoomAction(c, cfg, w).None? && cfg.forceSkills == [] && cfg.forceWait
              && WaitKind !in c.allowed && NoOpKind !in c.allowed
    ensures stop == Some(Retryable(StepUnresolvable)) <==>
              && RoomAction(c, cfg, w).None? && activity.Some? && activity.value.step.skill.Some?
              && StepAction(c, cfg, w).None? && NoSafeKind(c)
    ensures stop.Some? ==> stop.value in {Raised(NoPermittedDecision), Manual(ForcedActionUnauthorized),
                                          Retryable(StepUnresolvable)}
  {
    stop, action := None, RoomAction(c, cfg, w);
    activity := ActivityFor(c, cfg, w);
    if action.None? && cfg.forceSkills != [] {
      action := ForcedSkill(c, w, cfg.forceSkills);
      if action.None? {
        stop := Some(Raised(NoPermittedDecision));
        return;
      }
    }
    if action.None? && cfg.forceWait {
      action := WaitOrNoOp(c, ForcedWaitTest, cfg.forceWaitMs);
      if action.None? {
        stop := Some(Manual(ForcedActionUnauthorized));
        return;
      }
    }
    if action.None? && activity.Some? {
      action := PlannedAction(c, w, cfg, activity.value.step);
      if action.None? && activity.value.step.skill.Some? {
        action := SafeUnavailable(c, PlanUnresolvable);
        if action.None? {
          stop := Some(Retryable(StepUnresolvable));
        }
      }
    }
  }

  const NODE_ERROR := Retryable(Agent(OtherFailure("node_error")))

  /** The answer of the agent graph: the selection among its candidates, which must be there and well formed. */
  function ModelAnswer(c: Context, candidates: seq<Action>): (r: Option<Action>)
    ensures r.Some? ==> Authorised(c, r.value)
  {
    if candidates == [] || exists i :: 0 <= i < |candidates| && !ValidAction(candidates[i]) then None
    else Selection(c, candidates)
  }

  /** Asks the model for candidates and selects among them, and falls back locally when it is out of reach. */
  method AskModel(c: Context, w: World) returns (stop: Option<PlanResult>, action: Option<Action>)
    requires ValidContext(c) && ValidWorld(c, w)
    ensures match AskedModel(c, w)
            case Halt(result) => stop == Some(result)
            case Take(chosen) => stop.None? && action == Some(chosen)
            case PassOn => false
    ensures stop.None? ==> action.Some? && Authorised(c, action.value)
    ensures stop.Some? ==> stop.value != Succeeded
    ensures !w.fenceCurrent <==> stop == Some(Manual(ModelCallSkipped))
    ensures w.fenceCurrent && w.decided.Answered? ==>
              var answer := ModelAnswer(c, w.decided.candidates);
              if answer.Some? then stop.None? && action == answer else stop == Some(NODE_ERROR)
    ensures w.fenceCurrent && w.decided.AgentError? && stop.Some? ==> stop.value == Retryable(Agent(w.decided.failure))
  {
    stop, action := None, None;
    if !w.fenceCurrent {
      return Some(Manual(ModelCallSkipped)), None;
    }
    if w.decided.Answered? {
      var candidates := w.decided.candidates;
      if candidates == [] || exists i :: 0 <= i < |candidates| && !ValidAction(candidates[i]) {
        return Some(NODE_ERROR), None;
      }
      action := SelectAction(c, candidates);
      if action.None? {
        return Some(NODE_ERROR), None;
      }
      return None, Some(Normalize(c, action.value));
    }
    if !ModelOutOfReach(w.decided.failure) {
      return Some(Retryable(Agent(w.decided.failure))), None;
    }
    action := LocalFallback(c, w, false, None, 1, {}, LocalWhileSaturated);
    if action.None? {
      if WaitKind !in c.allowed {
        return Some(Retryable(Agent(w.decided.failure))), None;
      }
      action := Some(Wait(AgentUnavailable, w.staggeredWaitMs));
    }
  }

  /** The local fallback of an event that waited too long. */
  method AfterDeadline(c: Context, w: World) returns (action: Option<Action>)
    requires ValidContext(c) && ValidWorld(c, w)
    ensures PastDeadline(c, w) == Else(action, Retryable(DeadlineExceeded))
    ensures action.Some? ==> Authorised(c, action.value)
  {
    action := LocalFallback(c, w, false, None, 1, {},
                            LocalAfterDelay);
    if action.None? {
      action := DeadlineFallback(c, w);
    }
  }

  /** A skill call that is not the current step's skill gives way to waiting, where the lease allows it. */
  function Override(c: Context, activity: Option<ActivityContext>, a: Action): (r: Action)
    requires Authorised(c, a)
    ensures Authorised(c, r) && FollowsPlan(c, activity, r)
  {
    if activity.Some? && a.CallSkill? && activity.value.step.skill != Some(a.skill)
       && WaitOrNoOp(c, PlanMismatch, 1000).Some?
    then WaitOrNoOp(c, PlanMismatch, 1000).value
    else a
  }

  predicate Begins(c: Context, w: World) {
    !w.existing && HasAccount(c) && c.leaseKind != Conversation
  }

  /** The deterministic stage, and when it passes on, the deadline's or the model's. */
  function Stages(c: Context, cfg: Config, w: World): (v: Verdict)
    requires StepHasSchema(ActivityFor(c, cfg, w))
    ensures Lawful(c, v) && !v.PassOn?
  {
    var first := Deterministic(c, cfg, w);
    if !first.PassOn? then first else if w.deadlineReached then PastDeadline(c, w) else AskedModel(c, w)
  }

  method RunStages(c: Context, cfg: Config, w: World)
    returns (stop: Option<PlanResult>, action: Option<Action>, activity: Option<ActivityContext>)
    requires ValidContext(c) && ValidWorld(c, w)
    ensures match Stages(c, cfg, w)
            case Halt(result) => stop == Some(result)
            case Take(chosen) => stop.None? && action == Some(chosen) && activity == ActivityFor(c, cfg, w)
  {
    stop, action, activity := ChooseDeterministic(c, cfg, w);
    if stop.None? && action.None? && w.deadlineReached {
      action := AfterDeadline(c, w);
      if action.None? {
        stop := Some(Retryable(DeadlineExceeded));
      }
      return;
    }
    if stop.None? && action.None? {
      stop, action := AskModel(c, w);
    }
  }

  /** What the planner chooses: an existing decision, a missing account or a conversation ends it; else the stages
      decide, and a call that is not the plan's step gives way. */
  function Chosen(c: Context, cfg: Config, w: World): (choice: Choice)
    requires StepHasSchema(ActivityFor(c, cfg, w))
    ensures choice.Act? ==> Authorised(c, choice.action) && FollowsPlan(c, choice.activity, choice.action)
  {
    if w.existing then Stop(Succeeded)
    else if !HasAccount(c) then Stop(Manual(MissingAccount))
    else if c.leaseKind == Conversation then Stop(Manual(ConversationUnsupported))
    else
      match Stages(c, cfg, w)
      case Halt(result) => Stop(result)
      case Take(action) => Act(Override(c, ActivityFor(c, cfg, w), action), ActivityFor(c, cfg, w))
  }

  /** An authorised action is normal, so normalising what is chosen changes nothing. */
  lemma ChosenIsNormal(c: Context, cfg: Config, w: World)
    requires StepHasSchema(ActivityFor(c, cfg, w))
    ensures Chosen(c, cfg, w).Act? ==> Normalize(c, Chosen(c, cfg, w).action) == Chosen(c, cfg, w).action
    ensures w.deadlineReached || Forcing(cfg) ==>
              var choice := Chosen(c, cfg, w);
              && choice != Stop(Manual(ModelCallSkipped))
              && !(choice.Stop? && choice.result.Retryable? && choice.result.category.Agent?)
  {
    if Chosen(c, cfg, w).Act? {
      NormalizeIdempotent(c, Chosen(c, cfg, w).action);
    }
  }

  /** The room transition comes first and the plan's own step next. */
  lemma ChosenFirst(c: Context, cfg: Config, w: World)
    requires StepHasSchema(ActivityFor(c, cfg, w)) && Begins(c, w)
    ensures RoomAction(c, cfg, w).Some? ==>
              Chosen(c, cfg, w) == Act(Override(c, ActivityFor(c, cfg, w), RoomAction(c, cfg, w).value),
                                       ActivityFor(c, cfg, w))
    ensures RoomAction(c, cfg, w).None? && StepAction(c, cfg, w).Some? ==>
              Chosen(c, cfg, w) == Act(StepAction(c, cfg, w).value, ActivityFor(c, cfg, w))
  {
  }

  /** Whatever branch is taken, the chosen action is authorised, normal, and follows the plan. The room transition
      comes first and the plan's own step next, and neither a passed deadline nor a forced action asks the model. */
  method Choose(c: Context, cfg: Config, w: World) returns (choice: Choice)
    requires ValidContext(c) && ValidWorld(c, w)
    ensures choice == Chosen(c, cfg, w)
    ensures choice.Act? ==> Authorised(c, choice.action) && Normalize(c, choice.action) == choice.action
                            && FollowsPlan(c, choice.activity, choice.action)
                            && !w.existing && HasAccount(c) && c.leaseKind != Conversation
    ensures choice.Stop? ==> (choice.result == Succeeded <==> w.existing)
    ensures choice.Act? ==> choice.activity == ActivityFor(c, cfg, w)
    ensures Begins(c, w) && RoomAction(c, cfg, w).Some? ==>
              choice.Act? && choice.action == Override(c, choice.activity, RoomAction(c, cfg, w).value)
    ensures Begins(c, w) && RoomAction(c, cfg, w).None? && StepAction(c, cfg, w).Some? ==>
              choice.Act? && choice.action == StepAction(c, cfg, w).value
    ensures w.deadlineReached || Forcing(cfg) ==>
              && choice != Stop(Manual(ModelCallSkipped))
              && !(choice.Stop? && choice.result.Retryable? && choice.result.category.Agent?)
  {
    ChosenIsNormal(c, cfg, w);
    if Begins(c, w) {
      ChosenFirst(c, cfg, w);
    }
    if w.existing {
      return Stop(Succeeded);
    }
    if !HasAccount(c) {
      return Stop(Manual(MissingAccount));
    }
    if c.leaseKind == Conversation {
      return Stop(Manual(ConversationUnsupported));
    }
    var stop, action, activity := RunStages(c, cfg, w);
    if stop.Some? {
      return Stop(stop.value);
    }
    var chosen := Override(c, activity, action.value);
    return Act(Normalize(c, chosen), activity);
  }

  // ---- Finalising a move ----

  function SetField(fields: seq<Field>, key: string, value: Json): (r: seq<Field>)
    requires Keyed(fields) && FieldAt(fields, key).Some?
    ensures Keyed(r) && |r| == |fields|
    ensures forall i :: 0 <= i < |fields| ==> r[i].key == fields[i].key
                                              && r[i].value == if fields[i].key == key then value else fields[i].value
  {
    var k := FieldAt(fields, key).value;
    fields[k := Field(key, value)]
  }

  lemma {:induction false} SameKeysSameFieldAt(a: seq<Field>, b: seq<Field>, key: string)
    requires |a| == |b| && forall i :: 0 <= i < |a| ==> a[i].key == b[i].key
    ensures FieldAt(a, key) == FieldAt(b, key)
    decreases |a|
  {
    if a != [] {
      SameKeysSameFieldAt(a[1..], b[1..], key);
    }
  }

  /** Replacing the target of a move by coordinates gives a move again. */
  lemma RetargetedMoveIsValid(arguments: Json, target: Json)
    requires ValidCall(MoveTo, arguments) && Coordinates(target)
    ensures FieldAt(arguments.fields, "target").Some?
    ensures var r := Object(SetField(arguments.fields, "target", target));
            ValidCall(MoveTo, r) && Get(r, "target") == Some(target)
  {
    var fields := SetField(arguments.fields, "target", target);
    SameKeysSameFieldAt(fields, arguments.fields, "target");
    forall i | 0 <= i < |fields| ensures Mapping(fields[i].value) {
      assert Mapping(arguments.fields[i].value);
    }
  }

  predicate IsMove(a: Action) {
    a.CallSkill? && a.skill == MoveTo
  }

  /** What may go out for a chosen action: the action itself when it is no move; for a move, a safe wait, or the same
      call to the coordinates allocated for the catalogue target that the chosen coordinates belong to. */
  predicate Finalizes(c: Context, cfg: Config, w: World, chosen: Action, sent: Action) {
    if !IsMove(chosen) then sent == chosen
    else if !IsMove(sent) then Some(sent) == SafeUnavailable(c, IncompleteConstraints)
    else
      var target := Get(chosen.arguments, "target");
      && cfg.catalog && w.sceneId.Some?
      && target.Some? && w.trusted(target.value).Some? && w.allocation(w.trusted(target.value).value).Some?
      && Get(sent.arguments, "target") == w.allocation(w.trusted(target.value).value)
      && sent == chosen.(arguments := sent.arguments)
  }

  /** The same call to the coordinates allocated for its target, where the scene data has them and the lease permits
      it. */
  ghost function Retargeted(c: Context, cfg: Config, w: World, a: Action): (r: Option<Action>)
    requires ValidWorld(c, w) && ValidAction(a) && IsMove(a)
    ensures r.Some? ==> Authorised(c, r.value) && IsMove(r.value) && Finalizes(c, cfg, w, a, r.value)
  {
    var target := Get(a.arguments, "target").value;
    if !cfg.catalog || w.sceneId.None? || w.trusted(target).None? || w.allocation(w.trusted(target).value).None? then
      None
    else
      var coordinates := w.allocation(w.trusted(target).value).value;
      RetargetedMoveIsValid(a.arguments, coordinates);
      var finalized := a.(arguments := Object(SetField(a.arguments.fields, "target", coordinates)));
      if SkillIsPermitted(c, finalized) then Some(finalized) else None
  }

  ghost function Finalized(c: Context, cfg: Config, w: World, a: Action): (r: Option<Action>)
    requires ValidWorld(c, w) && Authorised(c, a)
    ensures r.Some? ==> Authorised(c, r.value) && Finalizes(c, cfg, w, a, r.value)
    ensures r.None? ==> IsMove(a) && NoSafeKind(c)
  {
    if !IsMove(a) then Some(a)
    else
      var moved := Retargeted(c, cfg, w, a);
      if moved.Some? then moved else SafeUnavailable(c, IncompleteConstraints)
  }

  method Retarget(c: Context, cfg: Config, w: World, a: Action) returns (r: Option<Action>)
    requires ValidWorld(c, w) && ValidAction(a) && IsMove(a)
    ensures r == Retargeted(c, cfg, w, a)
  {
    if !cfg.catalog || w.sceneId.None? {
      return None;
    }
    var target := Get(a.arguments, "target").value;
    var trusted := w.trusted(target);
    if trusted.None? || w.allocation(trusted.value).None? {
      return None;
    }
    var coordinates := w.allocation(trusted.value).value;
    RetargetedMoveIsValid(a.arguments, coordinates);
    var finalized := a.(arguments := Object(SetField(a.arguments.fields, "target", coordinates)));
    return if SkillIsPermitted(c, finalized) then Some(finalized) else None;
  }

  /** Moves are re-targeted to an allocated catalogue target or replaced by a safe wait; other actions pass. */
  method FinalizeMove(c: Context, cfg: Config, w: World, a: Action) returns (r: Option<Action>)
    requires ValidContext(c) && ValidWorld(c, w) && Authorised(c, a)
    ensures r == Finalized(c, cfg, w, a)
    ensures r.Some? ==> Authorised(c, r.value) && Finalizes(c, cfg, w, a, r.value)
    ensures r.None? ==> IsMove(a) && NoSafeKind(c)
  {
    if !IsMove(a) {
      return Some(a);
    }
    r := Retarget(c, cfg, w, a);
    if r.None? {
      r := SafeUnavailable(c, IncompleteConstraints);
    }
  }

  // ---- Submitting ----

  datatype Submission = Submission(action: Action, bound: Option<CycleRows.Binding>)

  function Failed(outcome: Write): PlanResult {
    match outcome
    case Stored => Succeeded
    case CapacityFull(_) => Raised(ActivityFull)
    case Fenced => Manual(ModelResultDiscarded)
    case Conflict(category) => Manual(StoreConflict(category))
    case StoreUnavailable => Retryable(PlanUnavailable)
  }

  /** Everything a submission must satisfy: the lease authorises what was chosen and what is sent. */
  predicate GoodSubmission(c: Context, cfg: Config, w: World, chosen: Action, s: Submission) {
    Authorised(c, chosen) && Authorised(c, s.action) && Finalizes(c, cfg, w, chosen, s.action)
  }

  predicate AllGood(c: Context, cfg: Config, w: World, chosen: seq<Action>, submitted: seq<Submission>) {
    |chosen| == |submitted| && forall i :: 0 <= i < |submitted| ==> GoodSubmission(c, cfg, w, chosen[i], submitted[i])
  }

  lemma MoreGood(c: Context, cfg: Config, w: World, a: Action, s: Submission, chosen: seq<Action>,
                 more: seq<Submission>)
    requires GoodSubmission(c, cfg, w, a, s) && AllGood(c, cfg, w, chosen, more)
    ensures AllGood(c, cfg, w, [a] + chosen, [s] + more)
  {
  }

  lemma OneGood(c: Context, cfg: Config, w: World, a: Action, s: Submission)
    requires GoodSubmission(c, cfg, w, a, s)
    ensures AllGood(c, cfg, w, [a], [s])
  {
  }

  lemma TwoGood(c: Context, cfg: Config, w: World, a: Action, s: Submission, b: Action, t: Submission)
    requires GoodSubmission(c, cfg, w, a, s) && GoodSubmission(c, cfg, w, b, t)
    ensures AllGood(c, cfg, w, [a, b], [s, t])
  {
  }

  lemma SameSkill(c: Context, cfg: Config, w: World, chosen: Action, sent: Action)
    requires Finalizes(c, cfg, w, chosen, sent) && sent.CallSkill?
    ensures chosen.CallSkill? && sent.skill == chosen.skill
  {
  }

  /** How planning ends, what it handed to the store, and the actions it had chosen, before moves were finalised. */
  datatype Planned = Planned(result: PlanResult, submitted: seq<Submission>, chosen: seq<Action>)

  /** What is chosen when an activity is full: a local activity without the full skill, else the deadline's wait. */
  ghost function FallbackChoice(c: Context, cfg: Config, w: World, version: int): (r: Option<Action>)
    requires ValidWorld(c, w) && w.write(0).CapacityFull?
    ensures r.Some? ==> Authorised(c, r.value)
    ensures r.Some? && r.value.CallSkill? ==> r.value.skill != w.write(0).skill
  {
    var full := w.write(0).skill;
    var found := LocalFound(c, w, cfg.catalog, w.capacity, version, {full}, CapacityReached(full));
    if found.Some? then found else DeadlineFallback(c, w)
  }

  /** After the first submission found its activity full: that fallback, and a wait when its activity is full too. */
  ghost function Fallbacks(c: Context, cfg: Config, w: World, version: int): Planned
    requires ValidWorld(c, w) && w.write(0).CapacityFull?
  {
    var fallback := FallbackChoice(c, cfg, w, version);
    if fallback.None? then Planned(Failed(w.write(0)), [], [])
    else
      var final := Finalized(c, cfg, w, fallback.value);
      var wait := DeadlineFallback(c, w);
      if final.None? then Planned(Raised(NoPermittedDecision), [], [])
      else if !w.write(1).CapacityFull? || wait.None? then
        Planned(Failed(w.write(1)), [Submission(final.value, None)], [fallback.value])
      else
        Planned(Failed(w.write(2)), [Submission(final.value, None), Submission(wait.value, None)],
                [fallback.value, wait.value])
  }

  lemma FallbacksAreGood(c: Context, cfg: Config, w: World, version: int)
    requires ValidWorld(c, w) && w.write(0).CapacityFull?
    ensures var r := Fallbacks(c, cfg, w, version);
            && AllGood(c, cfg, w, r.chosen, r.submitted) && |r.submitted| <= 2
  {
    var fallback := FallbackChoice(c, cfg, w, version);
    if fallback.Some? && Finalized(c, cfg, w, fallback.value).Some? {
      var one, wait := Submission(Finalized(c, cfg, w, fallback.value).value, None), DeadlineFallback(c, w);
      OneGood(c, cfg, w, fallback.value, one);
      if wait.Some? {
        TwoGood(c, cfg, w, fallback.value, one, wait.value, Submission(wait.value, None));
      }
    }
  }

  lemma FallbackAvoidsFull(c: Context, cfg: Config, w: World, version: int)
    requires ValidWorld(c, w) && w.write(0).CapacityFull?
    ensures var more := Fallbacks(c, cfg, w, version).submitted;
            && (forall i :: 0 <= i < |more| ==> more[i].bound.None?)
            && (|more| > 0 && more[0].action.CallSkill? ==> more[0].action.skill != w.write(0).skill)
  {
    var fallback := FallbackChoice(c, cfg, w, version);
    if fallback.Some? {
      var final := Finalized(c, cfg, w, fallback.value);
      if final.Some? && final.value.CallSkill? {
        SameSkill(c, cfg, w, fallback.value, final.value);
      }
    }
  }

  lemma FallbackResult(c: Context, cfg: Config, w: World, version: int)
    requires ValidWorld(c, w) && w.write(0).CapacityFull?
    ensures var r := Fallbacks(c, cfg, w, version);
            && |r.submitted| <= 2
            && (|r.submitted| > 1 ==> w.write(1).CapacityFull? && !r.submitted[1].action.CallSkill?)
            && (r.result == Succeeded <==> r.submitted != [] && w.write(|r.submitted|) == Stored)
  {
  }

  method SubmitFallback(c: Context, cfg: Config, w: World, version: int)
    returns (result: PlanResult, more: seq<Submission>, ghost chosen: seq<Action>)
    requires ValidContext(c) && ValidWorld(c, w) && w.write(0).CapacityFull?
    ensures Planned(result, more, chosen) == Fallbacks(c, cfg, w, version)
  {
    var full := w.write(0).skill;
    var fallback := LocalFallback(c, w, cfg.catalog, w.capacity, version, {full}, CapacityReached(full));
    if fallback.None? {
      fallback := DeadlineFallback(c, w);
    }
    if fallback.None? {
      return Failed(w.write(0)), [], [];
    }
    var final := FinalizeMove(c, cfg, w, fallback.value);
    if final.None? {
      return Raised(NoPermittedDecision), [], [];
    }
    more, chosen := [Submission(final.value, None)], [fallback.value];
    if !w.write(1).CapacityFull? {
      return Failed(w.write(1)), more, chosen;
    }
    var wait := DeadlineFallback(c, w);
    if wait.None? {
      return Failed(w.write(1)), more, chosen;
    }
    more, chosen := [Submission(final.value, None), Submission(wait.value, None)], [fallback.value, wait.value];
    return Failed(w.write(2)), more, chosen;
  }

  function BindingOf(activity: Option<ActivityContext>): Option<CycleRows.Binding> {
    if activity.Some? then Some(activity.value.binding) else None
  }

  function VersionOf(activity: Option<ActivityContext>): int {
    if activity.Some? then activity.value.version else 1
  }

  /** The whole of planning, once the choice is made. */
  ghost function PlannedFrom(c: Context, cfg: Config, w: World, choice: Choice): Planned
    requires ValidWorld(c, w) && (choice.Act? ==> Authorised(c, choice.action))
  {
    if choice.Stop? then Planned(choice.result, [], [])
    else
      var final := Finalized(c, cfg, w, choice.action);
      if final.None? then Planned(Raised(NoPermittedDecision), [], [])
      else
        var first := Submission(final.value, BindingOf(choice.activity));
        if !w.write(0).CapacityFull? then Planned(Failed(w.write(0)), [first], [choice.action])
        else
          var rest := Fallbacks(c, cfg, w, VersionOf(choice.activity));
          Planned(rest.result, [first] + rest.submitted, [choice.action] + rest.chosen)
  }

  lemma PlannedIsGood(c: Context, cfg: Config, w: World, choice: Choice)
    requires ValidWorld(c, w) && (choice.Act? ==> Authorised(c, choice.action))
    ensures var r := PlannedFrom(c, cfg, w, choice);
            AllGood(c, cfg, w, r.chosen, r.submitted) && |r.submitted| <= 3
  {
    if choice.Act? && Finalized(c, cfg, w, choice.action).Some? {
      var first := Submission(Finalized(c, cfg, w, choice.action).value, BindingOf(choice.activity));
      OneGood(c, cfg, w, choice.action, first);
      if w.write(0).CapacityFull? {
        var rest := Fallbacks(c, cfg, w, VersionOf(choice.activity));
        FallbacksAreGood(c, cfg, w, VersionOf(choice.activity));
        MoreGood(c, cfg, w, choice.action, first, rest.chosen, rest.submitted);
      }
    }
  }

  lemma PlannedWhenFull(c: Context, cfg: Config, w: World, choice: Choice)
    requires ValidWorld(c, w) && choice.Act? && Authorised(c, choice.action) && w.write(0).CapacityFull?
    ensures var r, rest := PlannedFrom(c, cfg, w, choice), Fallbacks(c, cfg, w, VersionOf(choice.activity));
            && (r.submitted == [] ==> r.result == Raised(NoPermittedDecision))
            && (r.submitted != [] ==> r.submitted[1..] == rest.submitted && r.result == rest.result)
  {
  }

  /** Each submission but the last found its activity full, and the last one decides. */
  predicate LastDecides(w: World, r: Planned) {
    && (forall i :: 0 <= i < |r.submitted| - 1 ==> w.write(i).CapacityFull?)
    && (r.submitted != [] ==> (r.result == Succeeded <==> w.write(|r.submitted| - 1) == Stored))
  }

  lemma JoinedDecides(w: World, r: Planned, rest: Planned)
    requires r.submitted != [] && r.submitted[1..] == rest.submitted && r.result == rest.result
    requires w.write(0).CapacityFull? && |rest.submitted| <= 2
    requires |rest.submitted| > 1 ==> w.write(1).CapacityFull?
    requires rest.result == Succeeded <==> rest.submitted != [] && w.write(|rest.submitted|) == Stored
    ensures LastDecides(w, r)
  {
    assert |r.submitted| == |rest.submitted| + 1;
  }

  lemma PlannedDecides(c: Context, cfg: Config, w: World, choice: Choice)
    requires ValidWorld(c, w) && choice.Act? && Authorised(c, choice.action)
    ensures LastDecides(w, PlannedFrom(c, cfg, w, choice))
  {
    if w.write(0).CapacityFull? {
      PlannedWhenFull(c, cfg, w, choice);
      FallbackResult(c, cfg, w, VersionOf(choice.activity));
      if PlannedFrom(c, cfg, w, choice).submitted != [] {
        JoinedDecides(w, PlannedFrom(c, cfg, w, choice), Fallbacks(c, cfg, w, VersionOf(choice.activity)));
      }
    }
  }

  lemma PlannedFacts(c: Context, cfg: Config, w: World, choice: Choice)
    requires ValidWorld(c, w) && (choice.Act? ==> Authorised(c, choice.action))
    ensures var r := PlannedFrom(c, cfg, w, choice);
            && LastDecides(w, r)
            && (r.submitted != [] ==> choice.Act?)
            && (r.submitted == [] ==> r.result == if choice.Stop? then choice.result else Raised(NoPermittedDecision))
  {
    if choice.Act? {
      PlannedDecides(c, cfg, w, choice);
    }
  }

  lemma PlannedFallbacks(c: Context, cfg: Config, w: World, choice: Choice)
    requires ValidWorld(c, w) && (choice.Act? ==> Authorised(c, choice.action))
    ensures var submitted := PlannedFrom(c, cfg, w, choice).submitted;
            && (|submitted| > 1 ==> submitted[1].bound.None?)
            && (|submitted| > 1 && submitted[1].action.CallSkill? ==> submitted[1].action.skill != w.write(0).skill)
            && (|submitted| > 2 ==> submitted[2].bound.None? && !submitted[2].action.CallSkill?)
  {
    if w.write(0).CapacityFull? && choice.Act? {
      FallbackAvoidsFull(c, cfg, w, VersionOf(choice.activity));
      FallbackResult(c, cfg, w, VersionOf(choice.activity));
    }
  }

  lemma FirstFollows(c: Context, cfg: Config, w: World, choice: Choice)
    requires ValidWorld(c, w) && choice.Act? && Authorised(c, choice.action)
    requires FollowsPlan(c, choice.activity, choice.action)
    ensures var submitted := PlannedFrom(c, cfg, w, choice).submitted;
            submitted != [] ==> FollowsPlan(c, choice.activity, submitted[0].action)
                                && submitted[0].bound == BindingOf(choice.activity)
  {
    var final := Finalized(c, cfg, w, choice.action);
    if final.Some? && final.value.CallSkill? {
      SameSkill(c, cfg, w, choice.action, final.value);
    }
  }

  /** Hands a choice to the store, and the fallbacks when its activity is full. */
  method SubmitChoice(c: Context, cfg: Config, w: World, choice: Choice)
    returns (result: PlanResult, submitted: seq<Submission>, ghost chosen: seq<Action>)
    requires ValidContext(c) && ValidWorld(c, w) && choice.Act? && Authorised(c, choice.action)
    ensures Planned(result, submitted, chosen) == PlannedFrom(c, cfg, w, choice)
  {
    var action := FinalizeMove(c, cfg, w, choice.action);
    if action.None? {
      return Raised(NoPermittedDecision), [], [];
    }
    var first := Submission(action.value, BindingOf(choice.activity));
    submitted, chosen := [first], [choice.action];
    if !w.write(0).CapacityFull? {
      return Failed(w.write(0)), submitted, chosen;
    }
    var more;
    ghost var others;
    result, more, others := SubmitFallback(c, cfg, w, VersionOf(choice.activity));
    submitted, chosen := [first] + more, [choice.action] + others;
  }

  lemma ChoiceFacts(c: Context, cfg: Config, w: World)
    requires StepHasSchema(ActivityFor(c, cfg, w))
    ensures var choice := Chosen(c, cfg, w);
            && (choice.Act? ==> !w.existing && HasAccount(c) && c.leaseKind != Conversation)
            && (choice.Stop? ==> (choice.result == Succeeded <==> w.existing))
  {
  }

  /** Submits what a choice plans. */
  method SubmitPlanned(c: Context, cfg: Config, w: World, choice: Choice)
    returns (result: PlanResult, submitted: seq<Submission>, ghost chosen: seq<Action>)
    requires ValidContext(c) && ValidWorld(c, w)
    requires choice.Act? ==> Authorised(c, choice.action) && FollowsPlan(c, choice.activity, choice.action)
    ensures Planned(result, submitted, chosen) == PlannedFrom(c, cfg, w, choice)
    ensures AllGood(c, cfg, w, chosen, submitted) && |submitted| <= 3
    ensures forall i :: 0 <= i < |submitted| - 1 ==> w.write(i).CapacityFull?
    ensures result == Succeeded <==>
              if submitted == [] then choice == Stop(Succeeded) else w.write(|submitted| - 1) == Stored
    ensures submitted != [] ==> choice.Act? && FollowsPlan(c, choice.activity, submitted[0].action)
                                && submitted[0].bound == BindingOf(choice.activity)
    ensures |submitted| > 1 ==> submitted[1].bound.None?
    ensures |submitted| > 1 && submitted[1].action.CallSkill? ==> submitted[1].action.skill != w.write(0).skill
    ensures |submitted| > 2 ==> submitted[2].bound.None? && !submitted[2].action.CallSkill?
  {
    PlannedIsGood(c, cfg, w, choice);
    PlannedFacts(c, cfg, w, choice);
    PlannedFallbacks(c, cfg, w, choice);
    if choice.Stop? {
      return choice.result, [], [];
    }
    FirstFollows(c, cfg, w, choice);
    result, submitted, chosen := SubmitChoice(c, cfg, w, choice);
  }

  /** Every action handed to the store is authorised by the lease and every submitted move goes to the coordinates
      allocated for the target of the action chosen; at most three are handed over, the next only after the one before
      found its activity full. The first carries the plan binding and follows the plan, the second avoids the full
      skill and the third only waits; and the planner succeeds exactly when a decision exists or the last one is
      stored. The first is what `Chosen` says, finalised; and when that is a stop, or a move that nothing can stand
      in for, nothing is handed over. */
  method PlanDecision(c: Context, cfg: Config, w: World)
    returns (result: PlanResult, submitted: seq<Submission>, activity: Option<ActivityContext>,
             ghost chosen: seq<Action>)
    requires ValidContext(c) && ValidWorld(c, w)
    ensures Planned(result, submitted, chosen) == PlannedFrom(c, cfg, w, Chosen(c, cfg, w))
    ensures AllGood(c, cfg, w, chosen, submitted) && |submitted| <= 3
    ensures forall i :: 0 <= i < |submitted| - 1 ==> w.write(i).CapacityFull?
    ensures result == Succeeded <==> w.existing || (submitted != [] && w.write(|submitted| - 1) == Stored)
    ensures submitted != [] ==> !w.existing && HasAccount(c) && c.leaseKind != Conversation
    ensures submitted != [] ==> FollowsPlan(c, activity, submitted[0].action)
                                && submitted[0].bound == if activity.Some? then Some(activity.value.binding) else None
    ensures |submitted| > 1 ==> submitted[1].bound.None?
    ensures |submitted| > 1 && submitted[1].action.CallSkill? ==> submitted[1].action.skill != w.write(0).skill
    ensures |submitted| > 2 ==> submitted[2].bound.None? && !submitted[2].action.CallSkill?
  {
    var choice := Choose(c, cfg, w);
    ChoiceFacts(c, cfg, w);
    result, submitted, chosen := SubmitPlanned(c, cfg, w, choice);
    activity := if choice.Act? then choice.activity else None;
  }
}
