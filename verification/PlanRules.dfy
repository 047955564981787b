/** The validators of proposals and stored plans, read out field by field, and what materialisation makes of a valid
    proposal. */
module PlanRules {
  import opened Wrappers
  import opened Skills
  import opened ActivityPlans
  import Runs = ActivityPlanRuns

  /** What every step of a proposal or a plan must be: bounded texts, and either a social step, which names no skill,
      schema or target, or a call of a canonical skill under schema v1, with a target only for a move. */
  predicate StepFields(stepId: string, phase: string, skill: Option<Skill>, schema: Option<string>,
                       target: Option<string>, intent: string) {
    && 1 <= |stepId| <= 128 && 1 <= |phase| <= 64 && 1 <= |intent| <= 512
    && match skill
       case None => schema == None && target == None && phase == "social"
       case Some(s) =>
         && schema == Some("v1") && !s.NearbyChatSend? && !s.Ground? && !s.OtherSkill?
         && (target == None || (s == MoveTo && 1 <= |target.value| <= 256))
  }

  /** The layout: distinct ids, three to six calls, and at most one social step, which comes last. */
  predicate Layout(slots: seq<Slot>) {
    && (forall i, j :: 0 <= i < j < |slots| ==> slots[i].stepId != slots[j].stepId)
    && (forall i :: 0 <= i < |slots| - 1 ==> !slots[i].social)
    && |slots| >= 3
    && (if slots[|slots| - 1].social then 4 <= |slots| <= 7 else |slots| <= 6)
  }

  lemma {:induction false} ExecutablesAre(slots: seq<Slot>)
    requires forall i :: 0 <= i < |slots| - 1 ==> !slots[i].social
    ensures Executables(slots) == if slots != [] && slots[|slots| - 1].social then |slots| - 1 else |slots|
    decreases |slots|
  {
    if slots != [] {
      ExecutablesAre(slots[..|slots| - 1]);
    }
  }

  lemma LayoutIff(slots: seq<Slot>)
    ensures ValidLayout(slots) <==> Layout(slots)
  {
    if SocialLast(slots) {
      ExecutablesAre(slots);
    }
  }

  lemma StepFieldsIff(s: ProposalStep)
    ensures ValidProposalStep(s) <==> StepFields(s.stepId, s.phase, s.skill, s.schema, s.target, s.intent)
  {
  }

  /** A proposal is valid exactly when its goal's texts are bounded, every step is, and the layout is kept. */
  lemma ProposalIsValidIff(p: Proposal)
    ensures ValidProposal(p)
       <==> && 1 <= |p.goalId| <= 128 && 1 <= |p.goalSummary| <= 512
            && (forall i :: 0 <= i < |p.steps| ==>
                  var s := p.steps[i]; StepFields(s.stepId, s.phase, s.skill, s.schema, s.target, s.intent))
            && Layout(ProposalSlots(p.steps))
  {
    LayoutIff(ProposalSlots(p.steps));
    forall i | 0 <= i < |p.steps|
      ensures var s := p.steps[i];
              ValidProposalStep(s) <==> StepFields(s.stepId, s.phase, s.skill, s.schema, s.target, s.intent)
    {
      StepFieldsIff(p.steps[i]);
    }
  }

  /** One or two attempts are allowed, and no more than that are counted. */
  predicate Counted(s: Step) {
    1 <= s.maxAttempts <= 2 && 0 <= s.attempts <= s.maxAttempts
  }

  lemma StepLoadsIff(s: Step)
    ensures ValidStep(s) <==> StepFields(s.stepId, s.phase, s.skill, s.schema, s.target, s.intent) && Counted(s)
  {
  }

  /** The current step is one of the plan's, in the plan's phase. */
  predicate CurrentIsHere(p: Plan) {
    exists i :: 0 <= i < |p.steps| && p.current == Some(p.steps[i].stepId) && p.phase == p.steps[i].phase
  }

  lemma CurrentFits(p: Plan)
    requires UniqueIds(Slots(p.steps)) && p.current.Some?
    ensures CurrentIsHere(p)
       <==> && IndexOf(p.steps, p.current.value).Some?
            && p.steps[IndexOf(p.steps, p.current.value).value].phase == p.phase
  {
    forall i | 0 <= i < |p.steps| ensures IndexOf(p.steps, p.steps[i].stepId) == Some(i) {
      Runs.IndexOfUnique(p.steps, i);
    }
  }

  /** A stored plan loads exactly when its texts are bounded, its version is positive, every step is valid, the layout
      is kept, its current step, if any, is one of its steps and of its phase, an active plan has one, and a completed
      one has none. */
  lemma PlanLoadsIff(p: Plan)
    ensures ValidPlan(p)
       <==> && 1 <= |p.planId| <= 128 && 1 <= |p.goalId| <= 128 && 1 <= |p.goalSummary| <= 512
            && 1 <= |p.phase| <= 64 && p.version >= 1
            && (forall i :: 0 <= i < |p.steps| ==>
                  var s := p.steps[i];
                  StepFields(s.stepId, s.phase, s.skill, s.schema, s.target, s.intent) && Counted(s))
            && Layout(Slots(p.steps))
            && (p.current.Some? ==> CurrentIsHere(p))
            && (p.status == Active ==> p.current.Some?) && (p.status == Completed ==> p.current.None?)
  {
    LayoutIff(Slots(p.steps));
    forall i | 0 <= i < |p.steps|
      ensures var s := p.steps[i];
              ValidStep(s) <==> StepFields(s.stepId, s.phase, s.skill, s.schema, s.target, s.intent) && Counted(s)
    {
      StepLoadsIff(p.steps[i]);
    }
    if UniqueIds(Slots(p.steps)) && p.current.Some? {
      CurrentFits(p);
    }
  }

  // ---- Materialisation ----

  /** The step of a plan that a proposal's step becomes: two attempts for a call, one for the social step, none made. */
  predicate Becomes(s: ProposalStep, t: Step) {
    && t.stepId == s.stepId && t.phase == s.phase && t.skill == s.skill && t.schema == s.schema
    && t.target == s.target && t.intent == s.intent
    && t.maxAttempts == (if s.skill.Some? then 2 else 1) && t.attempts == 0 && t.status == Pending
  }

  lemma FirstIsExecutable(p: Proposal)
    requires ValidProposal(p)
    ensures |p.steps| >= 3 && p.steps[0].skill.Some? && FirstExecutable(p.steps) == Some(p.steps[0])
  {
    LayoutIff(ProposalSlots(p.steps));
    assert !ProposalSlots(p.steps)[0].social;
  }

  /** A valid proposal materialises exactly when every call is published, the Lobby's plan opens with the tornado, and
      the plan id and version are valid; the plan is active at its first step, and each of its steps is a fresh copy. */
  lemma MaterializesIff(p: Proposal, planId: string, version: int, available: set<(Skill, string)>, lobby: bool)
    requires ValidProposal(p)
    ensures p.steps != []
    ensures var r := Materialize(p, planId, version, available, lobby);
            && (r.Ok? <==>
                  && (forall i :: 0 <= i < |p.steps| && p.steps[i].skill.Some? ==>
                        (p.steps[i].skill.value, "v1") in available)
                  && (lobby ==> p.steps[0].skill == Some(SceneTornado))
                  && 1 <= |planId| <= 128 && version >= 1)
            && (r.Ok? ==>
                  var plan := r.value;
                  && plan.planId == planId && plan.version == version && plan.status == Active
                  && plan.goalId == p.goalId && plan.goalSummary == p.goalSummary
                  && plan.current == Some(p.steps[0].stepId) && plan.phase == p.steps[0].phase
                  && |plan.steps| == |p.steps|
                  && forall i :: 0 <= i < |p.steps| ==> Becomes(p.steps[i], plan.steps[i]))
  {
    FirstIsExecutable(p);
    PublishedIff(p, available);
    FreshLoadsIff(p, planId, version);
  }

  lemma PublishedIff(p: Proposal, available: set<(Skill, string)>)
    requires ValidProposal(p)
    ensures AllAvailable(p.steps, available)
       <==> forall i :: 0 <= i < |p.steps| && p.steps[i].skill.Some? ==> (p.steps[i].skill.value, "v1") in available
  {
    forall i | 0 <= i < |p.steps| ensures p.steps[i].skill.Some? ==> p.steps[i].schema == Some("v1") {
      StepFieldsIff(p.steps[i]);
    }
  }

  function FreshPlan(p: Proposal, planId: string, version: int): Plan
    requires p.steps != []
  {
    Plan(planId, p.goalId, p.goalSummary, p.steps[0].phase, Active, version, Some(p.steps[0].stepId),
         MaterializeSteps(p.steps))
  }

  lemma FreshLoadsIff(p: Proposal, planId: string, version: int)
    requires ValidProposal(p) && p.steps != []
    ensures ValidPlan(FreshPlan(p, planId, version)) <==> 1 <= |planId| <= 128 && version >= 1
  {
    var plan := FreshPlan(p, planId, version);
    assert Slots(plan.steps) == ProposalSlots(p.steps);
    Runs.IndexOfUnique(plan.steps, 0);
    forall i | 0 <= i < |p.steps| ensures ValidStep(plan.steps[i]) {
      StepFieldsIff(p.steps[i]);
      StepLoadsIff(plan.steps[i]);
    }
    StepFieldsIff(p.steps[0]);
  }
}
