/** A valid proposal whose diversified form is refused. */
module PlanExamples {
  import opened Wrappers
  import opened Skills
  import opened Orders
  import opened ActivityPlans
  import opened FallbackPlans
  import opened PlanDiversifier

  /** Outside the Lobby, with a catalogue that offers no target and nothing published that the role would rather use. */
  const PLAZA := Planning(false, {}, (_, _) => false, 0, true, None, None, _ => 1.0)

  const ARRIVING := Proposal("g", "s",
    [ProposalStep("a", "arrival", Some(SceneTornado), Some("v1"), None, "i"),
     ProposalStep("b", "movement", Some(Jump), Some("v1"), None, "i"),
     ProposalStep("c", "activity", Some(SignIn), Some("v1"), None, "i")])

  lemma ThreeSlots(slots: seq<Slot>)
    requires |slots| == 3 && forall k :: 0 <= k < 3 ==> !slots[k].social
    ensures Executables(slots) == 3
  {
    var one, two := [slots[0]], [slots[0], slots[1]];
    assert one[..0] == [] && two[..1] == one && slots[..2] == two;
    assert Executables(one) == 1;
    assert Executables(two) == 2;
  }

  lemma ArrivingIsValid()
    ensures ValidProposal(ARRIVING)
  {
    ThreeSlots(ProposalSlots(ARRIVING.steps));
  }

  lemma NothingPublished(c: Planning)
    requires ValidPlanning(c) && c.published == {}
    ensures RoleSkill(c, 1).None? && !MayWander(c)
  {
    RoleSkillIsAuthorized(c, 1);
    FilterNone(ROLE_ORDER, (s: Skill) => (s, "v1") in c.published && Authorized(c, s) && HasRoom(c, s));
  }

  lemma NothingForced(c: Planning, p: Proposal)
    requires !c.lobby
    ensures Forced(c, p) == []
  {
    FilterNone(p.steps, (s: ProposalStep) => c.lobby && s.skill == Some(SceneTornado));
  }

  /** Of three steps the first of which is the Lobby exit, at most two are kept outside the Lobby. */
  lemma TwoKept(c: Planning, p: Proposal)
    requires !c.lobby && |p.steps| == 3 && p.steps[0].skill == Some(SceneTornado)
    ensures |Others(c, p)| <= 2
  {
    var steps := p.steps;
    var keep := (s: ProposalStep) => KeptOther(c, Forced(c, p), s);
    FilterStep(steps, keep);
    FilterStep(steps[..2], keep);
    FilterStep(steps[..2][..1], keep);
    assert steps[..2][..1][..0] == [];
  }

  lemma FirstKept(c: Planning, p: Proposal, s: ProposalStep)
    requires s in p.steps && KeptOther(c, Forced(c, p), s)
    ensures Others(c, p) != []
  {
    assert s in Others(c, p);
  }

  lemma NothingInserted(c: Planning, p: Proposal)
    requires ValidPlanning(c) && !c.lobby && c.published == {}
    ensures Forced(c, p) == [] && MiddleSize(c, p, 1) == |Others(c, p)|
  {
    NothingPublished(c);
    NothingForced(c, p);
  }

  lemma NothingLost(c: Planning, p: Proposal)
    requires ValidPlanning(c) && ValidProposal(p) && Others(c, p) != []
    ensures Diversified(c, p, 1, []).steps != []
  {
    ComposedKeeps(c, p, 1);
    ArrangedElements(c, p, 1, None);
  }

  lemma SmallIsRefused(c: Planning, p: Proposal)
    requires ValidPlanning(c) && ValidProposal(p) && c.catalog && !c.lobby && c.published == {}
    requires Others(c, p) != [] && |Others(c, p)| <= 2
    ensures !ValidLayout(ProposalSlots(Diversified(c, p, 1, []).steps)) && Diversified(c, p, 1, []).steps != []
  {
    NothingInserted(c, p);
    DiversifiedFitsIff(c, p, 1, []);
    NothingLost(c, p);
  }

  lemma RefusedLayout(r: Proposal, planId: string, version: int, available: set<(Skill, string)>, lobby: bool)
    requires !ValidLayout(ProposalSlots(r.steps)) && r.steps != []
    ensures Materialize(r, planId, version, available, lobby).Err?
  {
    assert Slots(MaterializeSteps(r.steps)) == ProposalSlots(r.steps);
  }

  /** A valid proposal that opens with the Lobby exit, diversified outside the Lobby, keeps two steps, and every
      materialisation refuses it. */
  lemma DiversifiedIsRefused(planId: string, version: int, available: set<(Skill, string)>, lobby: bool)
    ensures ValidPlanning(PLAZA) && ValidProposal(ARRIVING) && Diversified(PLAZA, ARRIVING, 1, []).steps != []
    ensures !ValidLayout(ProposalSlots(Diversified(PLAZA, ARRIVING, 1, []).steps))
    ensures Materialize(Diversified(PLAZA, ARRIVING, 1, []), planId, version, available, lobby).Err?
  {
    ArrivingIsValid();
    TwoKept(PLAZA, ARRIVING);
    NothingForced(PLAZA, ARRIVING);
    FirstKept(PLAZA, ARRIVING, ARRIVING.steps[1]);
    SmallIsRefused(PLAZA, ARRIVING);
    RefusedLayout(Diversified(PLAZA, ARRIVING, 1, []), planId, version, available, lobby);
  }

  // ---- A repeated step id ----

  /** Outside the Lobby, with a catalogue that offers a target and a published move. */
  const MARKET := Planning(false, {(MoveTo, "v1")}, (_, _) => true, 0, true, Some("t"), None, _ => 1.0)

  const NAMED_LIKE_A_MOVE := Proposal("g", "s",
    [ProposalStep("wander-1-0", "arrival", Some(Jump), Some("v1"), None, "i"),
     ProposalStep("b", "activity", Some(SignIn), Some("v1"), None, "i"),
     ProposalStep("c", "activity", Some(Jump), Some("v1"), None, "i")])

  lemma NamedIsValid()
    ensures ValidProposal(NAMED_LIKE_A_MOVE)
  {
    ThreeSlots(ProposalSlots(NAMED_LIKE_A_MOVE.steps));
  }

  lemma MoveIsAppended(c: Planning, p: Proposal)
    requires ValidPlanning(c) && RoleSkill(c, 1).None? && LacksMove(c, p)
    requires |Forced(c, p)| + |Others(c, p)| < 6
    ensures Composed(c, p, 1) == Others(c, p) + [WanderStep(c, 1)]
  {
    FirstIffHas(Others(c, p), Some(MoveTo));
  }

  /** The inserted move step takes an id that a kept step has. */
  lemma MoveTakesId(c: Planning, p: Proposal, s: ProposalStep)
    requires ValidPlanning(c) && LacksMove(c, p) && Composed(c, p, 1) == Others(c, p) + [WanderStep(c, 1)]
    requires s in Others(c, p) && s.stepId == WanderStep(c, 1).stepId
    ensures !IdsFit(c, p, 1)
  {
    var kept, move := Others(c, p), WanderStep(c, 1);
    assert move in kept + [move] && s in kept + [move];
    assert s in Material(c, p, 1) && s in Forced(c, p) + kept + Social(p);
    assert IdTaken(c, p, 1, move);
  }

  lemma RepeatIsRefused(c: Planning, p: Proposal, s: ProposalStep)
    requires ValidPlanning(c) && ValidProposal(p) && c.catalog && RoleSkill(c, 1).None? && LacksMove(c, p)
    requires |Forced(c, p)| + |Others(c, p)| < 6 && s in Others(c, p) && s.stepId == WanderStep(c, 1).stepId
    ensures !ValidLayout(ProposalSlots(Diversified(c, p, 1, []).steps)) && Diversified(c, p, 1, []).steps != []
  {
    MoveIsAppended(c, p);
    MoveTakesId(c, p, s);
    ComposedKeeps(c, p, 1);
    DiversifiedFitsIff(c, p, 1, []);
    NothingLost(c, p);
  }

  lemma OnlyMovePublished(c: Planning)
    requires ValidPlanning(c) && c.published == {(MoveTo, "v1")}
    ensures RoleSkill(c, 1).None?
  {
    RoleSkillIsAuthorized(c, 1);
    FilterNone(ROLE_ORDER, (s: Skill) => (s, "v1") in c.published && Authorized(c, s) && HasRoom(c, s));
  }

  lemma NoMoveKept(c: Planning, p: Proposal)
    requires MayWander(c) && forall s :: s in p.steps ==> s.skill != Some(MoveTo)
    ensures LacksMove(c, p)
  {
  }

  lemma WanderName()
    ensures WanderStep(MARKET, 1).stepId == "wander-1-0"
  {
    assert Decimal(1) == "1" && Decimal(0) == "0";
  }

  lemma MarketLacksMove()
    ensures LacksMove(MARKET, NAMED_LIKE_A_MOVE)
  {
    NoMoveKept(MARKET, NAMED_LIKE_A_MOVE);
  }

  lemma ThreeKept(c: Planning, p: Proposal)
    requires |p.steps| == 3 && forall k :: 0 <= k < 3 ==> p.steps[k].skill.Some?
    ensures |Forced(c, p)| + |Others(c, p)| <= 3
  {
    ExecutablePiecesFit(c, Forced(c, p), p.steps);
    ThreeSlots(ProposalSlots(p.steps));
  }

  lemma NamedStepIsKept()
    ensures NAMED_LIKE_A_MOVE.steps[0] in Others(MARKET, NAMED_LIKE_A_MOVE)
    ensures |Forced(MARKET, NAMED_LIKE_A_MOVE)| + |Others(MARKET, NAMED_LIKE_A_MOVE)| < 6
  {
    NothingForced(MARKET, NAMED_LIKE_A_MOVE);
    ThreeKept(MARKET, NAMED_LIKE_A_MOVE);
    assert NAMED_LIKE_A_MOVE.steps[0] in NAMED_LIKE_A_MOVE.steps;
  }

  /** A valid proposal of three activities, one of them under the id of the move step that the diversifier inserts;
      every materialisation of the result refuses the repeated id. */
  lemma RepeatedIdIsRefused(planId: string, version: int, available: set<(Skill, string)>, lobby: bool)
    ensures ValidPlanning(MARKET) && ValidProposal(NAMED_LIKE_A_MOVE)
    ensures Materialize(Diversified(MARKET, NAMED_LIKE_A_MOVE, 1, []), planId, version, available, lobby).Err?
  {
    NamedIsValid();
    OnlyMovePublished(MARKET);
    MarketLacksMove();
    NamedStepIsKept();
    WanderName();
    RepeatIsRefused(MARKET, NAMED_LIKE_A_MOVE, NAMED_LIKE_A_MOVE.steps[0]);
    RefusedLayout(Diversified(MARKET, NAMED_LIKE_A_MOVE, 1, []), planId, version, available, lobby);
  }
}
