/** Activity plans: the models with their validators, and the transitions that skip those validators. */
module ActivityPlans {
  import opened Wrappers
  import opened Skills

  datatype StepStatus = Pending | Started | Succeeded | Failed | Skipped
  datatype PlanStatus = Active | Completed | Paused | Abandoned

  datatype Step = Step(
    stepId: string,
    phase: string,
    skill: Option<Skill>,
    schema: Option<string>,
    target: Option<string>,
    intent: string,
    maxAttempts: int,
    status: StepStatus,
    attempts: int)

  datatype ProposalStep = ProposalStep(
    stepId: string,
    phase: string,
    skill: Option<Skill>,
    schema: Option<string>,
    target: Option<string>,
    intent: string)

  datatype Proposal = Proposal(goalId: string, goalSummary: string, steps: seq<ProposalStep>)

  datatype Plan = Plan(
    planId: string,
    goalId: string,
    goalSummary: string,
    phase: string,
    status: PlanStatus,
    version: int,
    current: Option<string>,
    steps: seq<Step>)

  datatype PlanError =
    | PlanComplete
    | StepMissing
    | StartMismatch
    | CannotStart
    | TerminalMismatch
    | NotCurrentMove
    | NotSocial
    | SkillUnavailable
    | LobbyNeedsTornado
    | Rejected

  // ---- Validators ----

  predicate Text(s: string, limit: nat) {
    1 <= |s| <= limit
  }

  predicate OptionalText(s: Option<string>, limit: nat) {
    s.None? || Text(s.value, limit)
  }

  /** What step and proposal-step validation both demand of the fields that no transition changes,
      except the target, which `OptionalText` and the move rule cover. */
  predicate ActionIdentity(phase: string, skill: Option<Skill>, schema: Option<string>, target: Option<string>) {
    && (skill.None? <==> schema.None?)
    && skill != Some(NearbyChatSend)
    && (target.Some? ==> skill == Some(MoveTo))
    && (skill.Some? ==> Canonical(skill.value))
    && (skill.Some? ==> schema == Some("v1"))
    && (skill.None? ==> phase == "social")
  }

  predicate ValidIdentity(s: Step) {
    && Text(s.stepId, 128) && Text(s.phase, 64) && Text(s.intent, 512)
    && OptionalText(s.schema, 128) && OptionalText(s.target, 256)
    && ActionIdentity(s.phase, s.skill, s.schema, s.target)
    && 1 <= s.maxAttempts <= 2
  }

  predicate ValidStep(s: Step) {
    ValidIdentity(s) && 0 <= s.attempts <= 2 && s.attempts <= s.maxAttempts
  }

  predicate ValidProposalStep(s: ProposalStep) {
    && Text(s.stepId, 128) && Text(s.phase, 64) && Text(s.intent, 512)
    && OptionalText(s.schema, 128) && OptionalText(s.target, 256)
    && ActionIdentity(s.phase, s.skill, s.schema, s.target)
  }

  /** The layout rules read only ids and which positions are social, so both models share them. */
  datatype Slot = Slot(stepId: string, social: bool)

  predicate UniqueIds(slots: seq<Slot>) {
    forall i, j :: 0 <= i < j < |slots| ==> slots[i].stepId != slots[j].stepId
  }

  predicate SocialLast(slots: seq<Slot>) {
    forall i :: 0 <= i < |slots| - 1 ==> !slots[i].social
  }

  function Executables(slots: seq<Slot>): nat {
    if slots == [] then 0 else Executables(slots[..|slots| - 1]) + (if slots[|slots| - 1].social then 0 else 1)
  }

  predicate ValidLayout(slots: seq<Slot>) {
    && UniqueIds(slots)
    && SocialLast(slots)
    && 3 <= Executables(slots) <= 6
    && |slots| <= 7
  }

  function Slots(steps: seq<Step>): (slots: seq<Slot>)
    ensures |slots| == |steps|
    ensures forall i :: 0 <= i < |steps| ==> slots[i] == Slot(steps[i].stepId, steps[i].skill.None?)
  {
    seq(|steps|, i requires 0 <= i < |steps| => Slot(steps[i].stepId, steps[i].skill.None?))
  }

  function ProposalSlots(steps: seq<ProposalStep>): (slots: seq<Slot>)
    ensures |slots| == |steps|
    ensures forall i :: 0 <= i < |steps| ==> slots[i] == Slot(steps[i].stepId, steps[i].skill.None?)
  {
    seq(|steps|, i requires 0 <= i < |steps| => Slot(steps[i].stepId, steps[i].skill.None?))
  }

  predicate ValidProposal(p: Proposal) {
    && Text(p.goalId, 128) && Text(p.goalSummary, 512)
    && (forall i :: 0 <= i < |p.steps| ==> ValidProposalStep(p.steps[i]))
    && ValidLayout(ProposalSlots(p.steps))
  }

  /** The position of the first step with this id, as the linear search of the source finds it. */
  function IndexOf(steps: seq<Step>, id: string): (i: Option<nat>)
    ensures i.Some? ==> i.value < |steps| && steps[i.value].stepId == id
    ensures i.Some? ==> forall j :: 0 <= j < i.value ==> steps[j].stepId != id
    ensures i.None? ==> forall j :: 0 <= j < |steps| ==> steps[j].stepId != id
  {
    if steps == [] then None
    else if steps[0].stepId == id then Some(0)
    else
      match IndexOf(steps[1..], id)
      case None => None
      case Some(k) => Some(k + 1)
  }

  /** What loading a stored plan checks. */
  predicate ValidPlan(p: Plan) {
    && Text(p.planId, 128) && Text(p.goalId, 128) && Text(p.goalSummary, 512) && Text(p.phase, 64)
    && p.version >= 1
    && (forall i :: 0 <= i < |p.steps| ==> ValidStep(p.steps[i]))
    && ValidLayout(Slots(p.steps))
    && (p.current.Some? ==> IndexOf(p.steps, p.current.value).Some?)
    && (p.status == Completed ==> p.current.None?)
    && (p.status == Active ==> p.current.Some?)
    && (p.current.Some? ==> p.steps[IndexOf(p.steps, p.current.value).value].phase == p.phase)
  }

  // ---- Transitions ----

  function CurrentStep(p: Plan): Result<Step, PlanError> {
    if p.current.None? then Err(PlanComplete)
    else
      match IndexOf(p.steps, p.current.value)
      case None => Err(StepMissing)
      case Some(i) => Ok(p.steps[i])
  }

  function ReplaceStep(steps: seq<Step>, r: Step): (out: seq<Step>)
    ensures |out| == |steps|
    ensures forall i :: 0 <= i < |steps| ==> out[i] == if steps[i].stepId == r.stepId then r else steps[i]
  {
    seq(|steps|, i requires 0 <= i < |steps| => if steps[i].stepId == r.stepId then r else steps[i])
  }

  function AdvanceAfterTerminal(p: Plan, done: Step): Plan
    requires IndexOf(p.steps, done.stepId).Some?
  {
    var i := IndexOf(p.steps, done.stepId).value;
    var steps := ReplaceStep(p.steps, done);
    if i + 1 >= |steps| then
      p.(steps := steps, status := Completed, current := None)
    else
      p.(steps := steps, phase := steps[i + 1].phase, current := Some(steps[i + 1].stepId))
  }

  /** The attempt number an event about the current step belongs to. */
  function AttemptOf(s: Step): int {
    if s.status == Started then s.attempts else s.attempts + 1
  }

  function RecordStepStarted(p: Plan, stepId: string): Result<Plan, PlanError> {
    match CurrentStep(p)
    case Err(e) => Err(e)
    case Ok(c) =>
      if c.stepId != stepId || c.skill.None? then Err(StartMismatch)
      else if c.status != Pending && c.status != Started then Err(CannotStart)
      else Ok(p.(steps := ReplaceStep(p.steps, c.(status := Started, attempts := AttemptOf(c)))))
  }

  function RecordStepTerminal(p: Plan, stepId: string, succeeded: bool, retryable: bool, corrected: bool)
    : Result<Plan, PlanError>
  {
    match CurrentStep(p)
    case Err(e) => Err(e)
    case Ok(c) =>
      if c.stepId != stepId || c.skill.None? then Err(TerminalMismatch)
      else
        var attempts := AttemptOf(c);
        if succeeded then
          Ok(AdvanceAfterTerminal(p, c.(status := Succeeded, attempts := attempts)))
        else if (retryable || corrected) && attempts < c.maxAttempts then
          Ok(p.(steps := ReplaceStep(p.steps, c.(status := Pending, attempts := attempts))))
        else
          Ok(AdvanceAfterTerminal(p, c.(status := Skipped, attempts := attempts)))
  }

  function InvalidateMoveTarget(p: Plan, stepId: string): Result<Plan, PlanError> {
    match CurrentStep(p)
    case Err(e) => Err(e)
    case Ok(c) =>
      if c.stepId != stepId || c.skill != Some(MoveTo) then Err(NotCurrentMove)
      else
        var attempts := if c.attempts + 1 <= c.maxAttempts then c.attempts + 1 else c.maxAttempts;
        Ok(p.(steps := ReplaceStep(p.steps, c.(target := None, status := Pending, attempts := attempts))))
  }

  function ReplaceMoveTarget(p: Plan, stepId: string, target: Option<string>, version: int): Result<Plan, PlanError> {
    match CurrentStep(p)
    case Err(e) => Err(e)
    case Ok(c) =>
      if c.stepId != stepId || c.skill != Some(MoveTo) then Err(NotCurrentMove)
      else Ok(p.(steps := ReplaceStep(p.steps, c.(target := target, status := Pending)), version := version))
  }

  function CompleteSocialOpportunity(p: Plan): Result<Plan, PlanError> {
    match CurrentStep(p)
    case Err(e) => Err(e)
    case Ok(c) =>
      if c.skill.Some? || c.phase != "social" then Err(NotSocial)
      else Ok(AdvanceAfterTerminal(p, c.(status := Succeeded)))
  }

  function ClosePlan(p: Plan): Plan {
    p.(status := Paused)
  }

  // ---- Materialisation ----

  function MaterializeStep(s: ProposalStep): Step {
    Step(s.stepId, s.phase, s.skill, s.schema, s.target, s.intent,
         if s.skill.None? then 1 else 2, Pending, 0)
  }

  function MaterializeSteps(steps: seq<ProposalStep>): (out: seq<Step>)
    ensures |out| == |steps|
    ensures forall i :: 0 <= i < |steps| ==> out[i] == MaterializeStep(steps[i])
  {
    seq(|steps|, i requires 0 <= i < |steps| => MaterializeStep(steps[i]))
  }

  predicate AllAvailable(steps: seq<ProposalStep>, available: set<(Skill, string)>) {
    forall i :: 0 <= i < |steps| && steps[i].skill.Some? ==>
      steps[i].schema.Some? && (steps[i].skill.value, steps[i].schema.value) in available
  }

  function FirstExecutable(steps: seq<ProposalStep>): (r: Option<ProposalStep>)
    ensures r.Some? ==> r.value in steps && r.value.skill.Some?
    ensures r.None? ==> forall s :: s in steps ==> s.skill.None?
  {
    if steps == [] then None
    else if steps[0].skill.Some? then Some(steps[0])
    else FirstExecutable(steps[1..])
  }

  /** An empty proposal cannot be indexed by the source either; callers hold one with at least three steps. */
  function Materialize(p: Proposal, planId: string, version: int, available: set<(Skill, string)>, lobby: bool)
    : Result<Plan, PlanError>
    requires p.steps != []
  {
    var first := FirstExecutable(p.steps);
    if !AllAvailable(p.steps, available) then Err(SkillUnavailable)
    else if lobby && (first.None? || first.value.skill != Some(SceneTornado) || first.value.schema != Some("v1")) then
      Err(LobbyNeedsTornado)
    else
      var plan := Plan(planId, p.goalId, p.goalSummary, p.steps[0].phase, Active, version,
                       Some(p.steps[0].stepId), MaterializeSteps(p.steps));
      if ValidPlan(plan) then Ok(plan) else Err(Rejected)
  }
}
