/** The deterministic fallback plan: three published skills and a social step, built by list surgery. */
module FallbackPlans {
  import opened Wrappers
  import opened Skills
  import opened Orders
  import opened ActivityPlans
  import opened ActivityCapacities

  const FALLBACK_ORDER: seq<Skill> := [
    DanceAutoSchedule, HotAirBalloonAutoSchedule, CoffeeAutoSchedule, DartsAutoSchedule, ShootingAutoSchedule,
    PaperPlaneAutoSchedule, DrawLotsAutoSchedule, WishBoardAutoSchedule, HelicopterAutoSchedule,
    ElevatorAutoSchedule, SeatSit, SignIn, Jump, ObserveState, PlayAction, MoveTo, StopMove, HotAirBalloonExit,
    HelicopterExit, SceneTornado, SeatGetOut
  ]

  /** What a planner reads: whether the role is in the Lobby, the published skills, the lease's verdict on a
      step, the hash bucket of the role, and its scene data. `target` is the first scene candidate; `score`
      is the hashed log score of each skill for this role and plan version. */
  datatype Planning = Planning(
    lobby: bool,
    published: set<(Skill, string)>,
    authorizes: (Skill, string) -> bool,
    bucket: nat,
    catalog: bool,
    target: Option<string>,
    capacity: Option<Snapshot>,
    score: Skill -> real)

  ghost predicate ValidPlanning(c: Planning) {
    && (c.capacity.Some? ==> ValidSnapshot(c.capacity.value))
    && (forall s :: c.score(s) > 0.0)
    && (!c.catalog ==> c.target.None?)
  }

  /** Published canonical skills; `move_to` drops out when a catalogue offers no target. */
  function Available(c: Planning): set<(Skill, string)> {
    var canonical := set p | p in c.published && Canonical(p.0);
    if c.catalog && c.target.None? then canonical - {(MoveTo, "v1")} else canonical
  }

  predicate HasRoom(c: Planning, s: Skill) {
    c.capacity.None? || IsAvailable(c.capacity.value, s)
  }

  predicate Usable(c: Planning, s: Skill) {
    (s, "v1") in Available(c) && (c.lobby || s != SceneTornado) && HasRoom(c, s)
  }

  predicate Authorized(c: Planning, s: Skill) {
    c.authorizes(s, "v1")
  }

  function UsableSkills(c: Planning): seq<Skill> {
    Filter(FALLBACK_ORDER, s => Usable(c, s))
  }

  function Rotation(c: Planning, size: nat): (r: nat)
    ensures size > 0 ==> r < size
    ensures size == 0 ==> r == 0
  {
    if size == 0 then 0 else c.bucket % size
  }

  function Position(s: Skill): int {
    match s
    case DanceAutoSchedule => 0
    case HotAirBalloonAutoSchedule => 1
    case CoffeeAutoSchedule => 2
    case DartsAutoSchedule => 3
    case ShootingAutoSchedule => 4
    case PaperPlaneAutoSchedule => 5
    case DrawLotsAutoSchedule => 6
    case WishBoardAutoSchedule => 7
    case HelicopterAutoSchedule => 8
    case ElevatorAutoSchedule => 9
    case SeatSit => 10
    case SignIn => 11
    case Jump => 12
    case ObserveState => 13
    case PlayAction => 14
    case MoveTo => 15
    case StopMove => 16
    case HotAirBalloonExit => 17
    case HelicopterExit => 18
    case SceneTornado => 19
    case SeatGetOut => 20
    case _ => -1
  }

  /** The fallback order lists the whole canonical catalogue, each skill once. */
  lemma OrderIsCatalogue()
    ensures Distinct(FALLBACK_ORDER)
    ensures forall s :: s in FALLBACK_ORDER <==> Canonical(s)
  {
    forall i | 0 <= i < |FALLBACK_ORDER| ensures Position(FALLBACK_ORDER[i]) == i {
    }
    forall s | Canonical(s) ensures s in FALLBACK_ORDER {
      assert FALLBACK_ORDER[Position(s)] == s;
    }
  }

  lemma UsableSkillsMembers(c: Planning)
    ensures Distinct(UsableSkills(c))
    ensures forall s :: s in UsableSkills(c) <==> Usable(c, s)
  {
    OrderIsCatalogue();
  }

  // ---- The proposal ----

  function PhaseForSkill(s: Skill): (phase: string)
    ensures Text(phase, 64)
  {
    match s
    case SceneTornado => "arrival"
    case HotAirBalloonAutoSchedule => "transport"
    case HelicopterAutoSchedule => "transport"
    case ElevatorAutoSchedule => "transport"
    case Jump => "movement"
    case MoveTo => "movement"
    case StopMove => "movement"
    case HotAirBalloonExit => "recovery"
    case HelicopterExit => "recovery"
    case SeatGetOut => "recovery"
    case _ => "activity"
  }

  function Digit(index: nat): string
    requires index < 3
  {
    if index == 0 then "1" else if index == 1 then "2" else "3"
  }

  function StepIdFor(index: nat, s: Skill): string
    requires index < 3
  {
    match s
    case SceneTornado => "arrival"
    case DanceAutoSchedule => "dance"
    case HotAirBalloonAutoSchedule => "balloon"
    case _ => "fallback-" + Digit(index) + "-" + Name(s)
  }

  function FallbackStep(c: Planning, index: nat, s: Skill): ProposalStep
    requires index < 3
  {
    ProposalStep(StepIdFor(index, s), PhaseForSkill(s), Some(s), Some("v1"),
                 if s == MoveTo then c.target else None,
                 if s == MoveTo then "Walk to a different authorized scene point"
                 else "Continue the hosted activity with " + Name(s))
  }

  function FallbackSocialStep(): ProposalStep {
    ProposalStep("social-opportunity", "social", None, None, None,
                 "Remain available for a nearby friend chat opportunity")
  }

  function FallbackProposal(c: Planning, selected: seq<Skill>): Proposal
    requires |selected| == 3
  {
    Proposal("plaza_social", "Complete a short sequence using only skills published by the Gateway",
             [FallbackStep(c, 0, selected[0]), FallbackStep(c, 1, selected[1]), FallbackStep(c, 2, selected[2]),
              FallbackSocialStep()])
  }

  lemma NameLength(s: Skill)
    requires Canonical(s)
    ensures 4 <= |Name(s)| <= 32
  {
  }

  predicate HasStableId(s: Skill) {
    s == SceneTornado || s == DanceAutoSchedule || s == HotAirBalloonAutoSchedule
  }

  lemma GeneratedId(i: nat, s: Skill)
    requires i < 3 && !HasStableId(s)
    ensures var id := StepIdFor(i, s); |id| > 9 && id[0] == 'f' && id[9] == Digit(i)[0]
  {
    var id := StepIdFor(i, s);
    assert id == "fallback-" + Digit(i) + "-" + Name(s);
  }

  lemma StableId(i: nat, s: Skill)
    requires i < 3 && HasStableId(s)
    ensures var id := StepIdFor(i, s);
            |id| > 0 && id[0] == (if s == SceneTornado then 'a' else if s == DanceAutoSchedule then 'd' else 'b')
  {
  }

  lemma IdStarts(i: nat, s: Skill)
    requires i < 3
    ensures StepIdFor(i, s) != "" && StepIdFor(i, s)[0] != 's'
    ensures HasStableId(s) <==> StepIdFor(i, s)[0] != 'f'
    ensures !HasStableId(s) ==> |StepIdFor(i, s)| > 9 && StepIdFor(i, s)[9] == Digit(i)[0]
  {
    if HasStableId(s) {
      StableId(i, s);
    } else {
      GeneratedId(i, s);
    }
  }

  /** Distinct skills get distinct step ids: the stable ids differ from each other, and generated ones carry
      their position. */
  lemma StepIdsDiffer(i: nat, j: nat, a: Skill, b: Skill)
    requires i < j < 3 && a != b
    ensures StepIdFor(i, a) != StepIdFor(j, b)
    ensures StepIdFor(i, a) != "social-opportunity" && StepIdFor(j, b) != "social-opportunity"
  {
    var x, y := StepIdFor(i, a), StepIdFor(j, b);
    IdStarts(i, a);
    IdStarts(j, b);
    if HasStableId(a) && HasStableId(b) {
      StableId(i, a);
      StableId(j, b);
      assert x[0] != y[0];
    } else if HasStableId(a) || HasStableId(b) {
      assert x[0] != y[0];
    } else {
      assert x[9] != y[9];
    }
  }

  // ---- Failure ----

  /** Too few usable skills, or no first step the lease authorises. */
  predicate CannotSelect(c: Planning) {
    || |UsableSkills(c)| < 3
    || (if c.lobby then (SceneTornado, "v1") !in Available(c) || !Authorized(c, SceneTornado)
        else forall s :: s in UsableSkills(c) ==> !Authorized(c, s))
  }

  /** The reasons the builder gives up for: no three skills, or plan fields that plan validation refuses. */
  predicate CannotBuild(c: Planning, planId: string, version: int) {
    || CannotSelect(c)
    || !Text(planId, 128) || version < 1
    || (Usable(c, MoveTo) && !OptionalText(c.target, 256))
  }

  predicate GoodSelection(c: Planning, selected: seq<Skill>) {
    && |selected| == 3 && Distinct(selected)
    && (forall k :: 0 <= k < 3 ==> (selected[k], "v1") in Available(c) && Canonical(selected[k]))
    && (forall k :: 1 <= k < 3 ==> Usable(c, selected[k]))
    && Authorized(c, selected[0])
    && (if c.lobby then selected[0] == SceneTornado else Usable(c, selected[0]))
    && (MoveTo in selected <==> Usable(c, MoveTo))
  }

  /** What a fallback plan is: three distinct published skills, the first of them authorised by the lease, then
      a social step, all fresh. */
  predicate IsFallbackPlan(c: Planning, plan: Plan, planId: string, version: int, selected: seq<Skill>) {
    && GoodSelection(c, selected)
    && ValidPlan(plan) && plan.status == Active && plan.planId == planId && plan.version == version
    && |plan.steps| == 4 && plan.current == Some(plan.steps[0].stepId)
    && (forall k :: 0 <= k < 3 ==> plan.steps[k].stepId == StepIdFor(k, selected[k])
                                   && plan.steps[k].phase == PhaseForSkill(selected[k]))
    && (forall k :: 0 <= k < 3 ==> plan.steps[k].skill == Some(selected[k]) && plan.steps[k].schema == Some("v1")
                                   && plan.steps[k].target == (if selected[k] == MoveTo then c.target else None))
    && plan.steps[3].skill.None? && plan.steps[3].phase == "social"
    && (forall k :: 0 <= k < 4 ==> plan.steps[k].status == Pending && plan.steps[k].attempts == 0)
  }

  lemma RankedKeepsAll(c: Planning, skills: seq<Skill>)
    requires ValidPlanning(c) && c.capacity.Some? && Distinct(skills)
    requires forall s :: s in skills ==> HasRoom(c, s)
    ensures var r := WeightedOrder(c.capacity.value, c.score, skills);
            Distinct(r) && |r| == |skills| && forall s :: s in r <==> s in skills
  {
    RankingMembers(c.capacity.value, c.score, skills);
    DistinctSameLength(WeightedOrder(c.capacity.value, c.score, skills), skills);
  }

  /** What the four proposal steps must look like for the materialised plan to be a fallback plan. */
  predicate FallbackShape(c: Planning, p: Proposal, selected: seq<Skill>) {
    && |selected| == 3 && |p.steps| == 4
    && Text(p.goalId, 128) && Text(p.goalSummary, 512)
    && (forall k :: 0 <= k < 3 ==>
          && p.steps[k].skill == Some(selected[k]) && p.steps[k].schema == Some("v1")
          && p.steps[k].target == (if selected[k] == MoveTo then c.target else None)
          && Text(p.steps[k].stepId, 128) && Text(p.steps[k].phase, 64) && Text(p.steps[k].intent, 512))
    && (forall k :: 0 <= k < 3 ==> p.steps[k].stepId == StepIdFor(k, selected[k])
                                   && p.steps[k].phase == PhaseForSkill(selected[k]))
    && ValidProposalStep(p.steps[3]) && p.steps[3].skill.None?
    && (forall i, j :: 0 <= i < j < 4 ==> p.steps[i].stepId != p.steps[j].stepId)
  }

  lemma FallbackStepFacts(c: Planning, k: nat, s: Skill)
    requires k < 3 && Canonical(s)
    ensures var step := FallbackStep(c, k, s);
            Text(step.stepId, 128) && Text(step.phase, 64) && Text(step.intent, 512)
  {
    NameLength(s);
  }

  lemma FallbackSocialFacts()
    ensures ValidProposalStep(FallbackSocialStep())
  {
  }

  lemma FallbackGoalFacts(c: Planning, selected: seq<Skill>)
    requires |selected| == 3
    ensures Text(FallbackProposal(c, selected).goalId, 128) && Text(FallbackProposal(c, selected).goalSummary, 512)
  {
  }

  lemma FallbackIds(c: Planning, selected: seq<Skill>, steps: seq<ProposalStep>)
    requires |selected| == 3 && Distinct(selected) && |steps| == 4
    requires forall k :: 0 <= k < 3 ==> steps[k].stepId == StepIdFor(k, selected[k])
    requires steps[3].stepId == "social-opportunity"
    ensures forall i, j :: 0 <= i < j < 4 ==> steps[i].stepId != steps[j].stepId
  {
    StepIdsDiffer(0, 1, selected[0], selected[1]);
    StepIdsDiffer(0, 2, selected[0], selected[2]);
    StepIdsDiffer(1, 2, selected[1], selected[2]);
  }

  lemma FallbackHasShape(c: Planning, selected: seq<Skill>)
    requires GoodSelection(c, selected)
    ensures FallbackShape(c, FallbackProposal(c, selected), selected)
  {
    var p := FallbackProposal(c, selected);
    forall k | 0 <= k < 3
      ensures p.steps[k] == FallbackStep(c, k, selected[k])
      ensures Text(p.steps[k].stepId, 128) && Text(p.steps[k].phase, 64) && Text(p.steps[k].intent, 512)
    {
      FallbackStepFacts(c, k, selected[k]);
    }
    FallbackSocialFacts();
    FallbackGoalFacts(c, selected);
    FallbackIds(c, selected, p.steps);
  }

  lemma FourSlots(slots: seq<Slot>)
    requires |slots| == 4 && (forall k :: 0 <= k < 3 ==> !slots[k].social) && slots[3].social
    ensures Executables(slots) == 3 && SocialLast(slots)
  {
    var one, two, three := [slots[0]], [slots[0], slots[1]], [slots[0], slots[1], slots[2]];
    assert one[..0] == [] && two[..1] == one && three[..2] == two && slots[..3] == three;
    assert Executables(one) == 1;
    assert Executables(two) == 2;
    assert Executables(three) == 3;
  }

  lemma ShapeLayout(c: Planning, p: Proposal, selected: seq<Skill>)
    requires FallbackShape(c, p, selected)
    ensures ValidLayout(Slots(MaterializeSteps(p.steps)))
    ensures FirstExecutable(p.steps) == Some(p.steps[0])
  {
    FourSlots(Slots(MaterializeSteps(p.steps)));
  }

  lemma ShapeSteps(c: Planning, p: Proposal, selected: seq<Skill>)
    requires FallbackShape(c, p, selected) && GoodSelection(c, selected)
    ensures (forall k :: 0 <= k < 4 ==> ValidStep(MaterializeSteps(p.steps)[k]))
       <==> (MoveTo in selected ==> OptionalText(c.target, 256))
    ensures AllAvailable(p.steps, Available(c))
  {
    var steps := MaterializeSteps(p.steps);
    assert forall k :: 0 <= k < 3 ==>
        (ValidStep(steps[k]) <==> (selected[k] == MoveTo ==> OptionalText(c.target, 256)));
    assert ValidStep(steps[3]);
  }

  lemma ShapeMaterializes(c: Planning, p: Proposal, planId: string, version: int, selected: seq<Skill>)
    requires FallbackShape(c, p, selected) && GoodSelection(c, selected)
    ensures var r := Materialize(p, planId, version, Available(c), c.lobby);
            && (r.Ok? <==> Text(planId, 128) && version >= 1 && (MoveTo in selected ==> OptionalText(c.target, 256)))
            && (r.Ok? ==> IsFallbackPlan(c, r.value, planId, version, selected))
  {
    ShapeLayout(c, p, selected);
    ShapeSteps(c, p, selected);
    var plan := Plan(planId, p.goalId, p.goalSummary, p.steps[0].phase, Active, version,
                     Some(p.steps[0].stepId), MaterializeSteps(p.steps));
    assert plan.steps[0].stepId == plan.current.value;
    assert IndexOf(plan.steps, plan.current.value) == Some(0);
    assert Materialize(p, planId, version, Available(c), c.lobby)
        == if ValidPlan(plan) then Ok(plan) else Err(Rejected);
  }

  /** Proposes and materialises a selection. */
  method MaterializeSelection(c: Planning, planId: string, version: int, selected: seq<Skill>)
    returns (r: Result<Plan, PlanError>)
    requires GoodSelection(c, selected)
    ensures r.Ok? <==> Text(planId, 128) && version >= 1 && (Usable(c, MoveTo) ==> OptionalText(c.target, 256))
    ensures r.Ok? ==> IsFallbackPlan(c, r.value, planId, version, selected)
  {
    FallbackHasShape(c, selected);
    var proposal := FallbackProposal(c, selected);
    ShapeMaterializes(c, proposal, planId, version, selected);
    r := Materialize(proposal, planId, version, Available(c), c.lobby);
  }

  // ---- The builder ----

  /** Taking one skill out of at least three distinct ones leaves at least two. */
  lemma RestHasTwo(ordered: seq<Skill>, first: Skill)
    requires Distinct(ordered) && |ordered| >= 3
    ensures var rest := Without(ordered, first);
            |rest| >= 2 && Distinct(rest) && forall s :: s in rest <==> s in ordered && s != first
  {
    var rest := Without(ordered, first);
    if first in ordered {
      DistinctSameLength(rest, Remove(ordered, first));
    } else {
      DistinctSameLength(rest, ordered);
    }
  }

  /** The first skill: the Lobby's tornado; elsewhere, of the authorised skills, the one at the bucket's place, or the
      first of their ranking. */
  function FirstChoice(c: Planning, ordered: seq<Skill>): Option<Skill>
    requires ValidPlanning(c)
  {
    var authorized := Filter(ordered, s => Authorized(c, s));
    if c.lobby then
      if (SceneTornado, "v1") in Available(c) && Authorized(c, SceneTornado) then Some(SceneTornado) else None
    else if authorized == [] then None
    else if c.capacity.None? then Some(authorized[Rotation(c, |authorized|)])
    else
      var ranking := WeightedOrder(c.capacity.value, c.score, authorized);
      if ranking == [] then None else Some(ranking[0])
  }

  /** The first step: `scene_tornado` in the Lobby, otherwise a usable skill the lease authorises. The "no
      remaining capacity" error of the source has no counterpart: every candidate ranked here has room. */
  method ChooseFirst(c: Planning, ordered: seq<Skill>) returns (first: Option<Skill>)
    requires ValidPlanning(c) && Distinct(ordered) && forall s :: s in ordered ==> HasRoom(c, s)
    ensures first.None? <==> if c.lobby then (SceneTornado, "v1") !in Available(c) || !Authorized(c, SceneTornado)
                             else forall s :: s in ordered ==> !Authorized(c, s)
    ensures first.Some? ==> Authorized(c, first.value)
    ensures first.Some? ==> if c.lobby then first.value == SceneTornado && (SceneTornado, "v1") in Available(c)
                            else first.value in ordered
    ensures first == FirstChoice(c, ordered)
  {
    if c.lobby {
      if (SceneTornado, "v1") !in Available(c) || !Authorized(c, SceneTornado) {
        return None;
      }
      return Some(SceneTornado);
    }
    var authorized := Filter(ordered, s => Authorized(c, s));
    assert forall s :: s in ordered && Authorized(c, s) ==> s in authorized;
    if authorized == [] {
      return None;
    }
    if c.capacity.None? {
      first := Some(authorized[Rotation(c, |authorized|)]);
    } else {
      RankedKeepsAll(c, authorized);
      first := Some(WeightedOrder(c.capacity.value, c.score, authorized)[0]);
    }
    assert first.value in authorized;
  }

  /** Takes the move out and puts it back at the place the role's bucket gives it. */
  function PlaceMove(c: Planning, remaining: seq<Skill>): (r: seq<Skill>)
    requires MoveTo in remaining
    ensures |r| == |remaining|
    ensures Distinct(remaining) ==> Distinct(r) && forall s :: s in r <==> s in remaining
  {
    var rest := Remove(remaining, MoveTo);
    InsertAt(rest, Rotation(c, |rest| + 1), MoveTo)
  }

  /** The skills that may follow the first: ranked under a snapshot; then a move goes where the bucket says, or all turn
      round by the bucket; in the Lobby without a catalogue they stay as they are. */
  function Following(c: Planning, first: Skill, ordered: seq<Skill>): seq<Skill>
    requires ValidPlanning(c)
  {
    Placed(c, first, Ranked(c, Without(ordered, first)))
  }

  function Without(ordered: seq<Skill>, first: Skill): seq<Skill> {
    Filter(ordered, s => s != first)
  }

  function Ranked(c: Planning, skills: seq<Skill>): seq<Skill>
    requires ValidPlanning(c)
  {
    if c.capacity.Some? then WeightedOrder(c.capacity.value, c.score, skills) else skills
  }

  function Placed(c: Planning, first: Skill, ranked: seq<Skill>): (r: seq<Skill>)
    ensures |r| == |ranked|
    ensures Distinct(ranked) ==> Distinct(r) && forall s :: s in r <==> s in ranked
  {
    if c.lobby && !c.catalog then ranked
    else if first != MoveTo && MoveTo in ranked then PlaceMove(c, ranked)
    else Rotate(ranked, Rotation(c, |ranked|))
  }

  lemma FollowingFacts(c: Planning, first: Skill, ordered: seq<Skill>)
    requires ValidPlanning(c) && Distinct(ordered) && |ordered| >= 3 && forall s :: s in ordered ==> HasRoom(c, s)
    ensures var r := Following(c, first, ordered);
            |r| >= 2 && Distinct(r) && forall s :: s in r <==> s in ordered && s != first
  {
    var others := Without(ordered, first);
    RestHasTwo(ordered, first);
    if c.capacity.Some? {
      RankedKeepsAll(c, others);
    }
  }

  method RankSkills(c: Planning, skills: seq<Skill>) returns (ranked: seq<Skill>)
    requires ValidPlanning(c)
    ensures ranked == Ranked(c, skills)
  {
    ranked := skills;
    if c.capacity.Some? {
      ranked := WeightedOrder(c.capacity.value, c.score, skills);
    }
  }

  /** Ranks the other skills and puts a move into the place the role's bucket gives it. */
  method ArrangeRemaining(c: Planning, first: Skill, ordered: seq<Skill>) returns (remaining: seq<Skill>)
    requires ValidPlanning(c)
    ensures remaining == Following(c, first, ordered)
  {
    remaining := RankSkills(c, Without(ordered, first));
    if c.lobby && !c.catalog {
    } else if first != MoveTo && MoveTo in remaining {
      remaining := PlaceMove(c, remaining);
    } else {
      remaining := Rotate(remaining, Rotation(c, |remaining|));
    }
  }

  /** The first three skills, the last one giving way to a usable move that did not make it. */
  function SelectThree(first: Skill, remaining: seq<Skill>, move: bool): (selected: seq<Skill>)
    requires |remaining| >= 2
    ensures |selected| == 3 && selected[0] == first
  {
    var selected := [first] + remaining[..2];
    if move && MoveTo !in selected then selected[2 := MoveTo] else selected
  }

  lemma SelectThreeIsOneOf(first: Skill, remaining: seq<Skill>, move: bool)
    requires |remaining| >= 2
    ensures var selected := SelectThree(first, remaining, move);
            if move && MoveTo !in [first, remaining[0], remaining[1]] then selected == [first, remaining[0], MoveTo]
            else selected == [first, remaining[0], remaining[1]]
  {
    assert [first] + remaining[..2] == [first, remaining[0], remaining[1]];
  }

  lemma ThreeAreGood(c: Planning, a: Skill, b: Skill, d: Skill)
    requires a != b && a != d && b != d
    requires Authorized(c, a) && Usable(c, b) && Usable(c, d)
    requires if c.lobby then a == SceneTornado && (SceneTornado, "v1") in Available(c) else Usable(c, a)
    requires Usable(c, MoveTo) ==> MoveTo == a || MoveTo == b || MoveTo == d
    ensures GoodSelection(c, [a, b, d])
  {
    assert MoveTo in [a, b, d] <==> MoveTo == a || MoveTo == b || MoveTo == d;
  }

  lemma SelectThreeIsGood(c: Planning, first: Skill, remaining: seq<Skill>)
    requires |remaining| >= 2 && Distinct(remaining)
    requires forall s :: s in remaining <==> Usable(c, s) && s != first
    requires Authorized(c, first)
    requires if c.lobby then first == SceneTornado && (SceneTornado, "v1") in Available(c) else Usable(c, first)
    ensures GoodSelection(c, SelectThree(first, remaining, Usable(c, MoveTo)))
  {
    var second, third := remaining[0], remaining[1];
    assert second in remaining && third in remaining;
    SelectThreeIsOneOf(first, remaining, Usable(c, MoveTo));
    assert MoveTo in [first, second, third] <==> MoveTo == first || MoveTo == second || MoveTo == third;
    if Usable(c, MoveTo) && MoveTo !in [first, second, third] {
      ThreeAreGood(c, first, second, MoveTo);
    } else {
      ThreeAreGood(c, first, second, third);
    }
  }

  /** The three skills of the fallback plan: the first choice, the two that follow it, and a usable move that would not
      be among them in place of the third. */
  ghost predicate IsSelection(c: Planning, selected: seq<Skill>)
    requires ValidPlanning(c)
  {
    var ordered := UsableSkills(c);
    && |selected| == 3 && FirstChoice(c, ordered) == Some(selected[0])
    && var following := Following(c, selected[0], ordered);
       |following| >= 2 && selected == SelectThree(selected[0], following, MoveTo in ordered)
  }

  method SelectSkills(c: Planning) returns (selected: Option<seq<Skill>>)
    requires ValidPlanning(c)
    ensures selected.None? <==> CannotSelect(c)
    ensures selected.Some? ==> GoodSelection(c, selected.value) && IsSelection(c, selected.value)
  {
    UsableSkillsMembers(c);
    var ordered := UsableSkills(c);
    if |ordered| < 3 {
      return None;
    }
    var first := ChooseFirst(c, ordered);
    if first.None? {
      return None;
    }
    FollowingFacts(c, first.value, ordered);
    var remaining := ArrangeRemaining(c, first.value, ordered);
    SelectThreeIsGood(c, first.value, remaining);
    return Some(SelectThree(first.value, remaining, MoveTo in ordered));
  }

  /** The fallback fails exactly when `CannotBuild` says so; otherwise it returns a valid active plan of three
      distinct published skills and a social step, opening with a step the lease authorises, and holding a
      move whenever moving is usable. */
  method SafeFallbackPlan(c: Planning, planId: string, version: int)
    returns (r: Result<Plan, PlanError>, ghost selected: seq<Skill>)
    requires ValidPlanning(c)
    ensures r.Err? <==> CannotBuild(c, planId, version)
    ensures r.Ok? ==> IsFallbackPlan(c, r.value, planId, version, selected) && IsSelection(c, selected)
  {
    var skills := SelectSkills(c);
    if skills.None? {
      return Err(SkillUnavailable), [];
    }
    r := MaterializeSelection(c, planId, version, skills.value);
    selected := skills.value;
  }
}
