/** Diversifying a model's plan proposal for one role: filtering, adding a preferred step and a move, rotating,
    ranking, and avoiding an immediate repeat. */
module PlanDiversifier {
  import opened Wrappers
  import opened Skills
  import opened Orders
  import opened ActivityPlans
  import opened ActivityCapacities
  import opened FallbackPlans
  import Sets

  const ROLE_ORDER: seq<Skill> := [
    DanceAutoSchedule, HotAirBalloonAutoSchedule, CoffeeAutoSchedule, DartsAutoSchedule, ShootingAutoSchedule,
    PaperPlaneAutoSchedule, DrawLotsAutoSchedule, WishBoardAutoSchedule, HelicopterAutoSchedule,
    ElevatorAutoSchedule, SeatSit, SignIn, PlayAction, Jump
  ]

  type Steps = seq<ProposalStep>

  // ---- Recent history ----

  /** One row of the action history: whether its skill call succeeded, the recorded skill name, and the name in
      the request body. */
  datatype RecentAction = RecentAction(succeeded: bool, skill: Option<Skill>, requested: Option<Skill>)

  function MostRecentSuccess(actions: seq<RecentAction>): Option<Skill> {
    if actions == [] then None
    else if actions[0].succeeded && actions[0].skill.Some? then actions[0].skill
    else if actions[0].succeeded && actions[0].requested.Some? then actions[0].requested
    else MostRecentSuccess(actions[1..])
  }

  // ---- Numbers in step ids ----

  function Decimal(n: nat): string {
    var digit := "0123456789"[n % 10];
    if n < 10 then [digit] else Decimal(n / 10) + [digit]
  }

  // ---- Pieces ----

  function Forced(c: Planning, p: Proposal): Steps {
    Filter(p.steps, (s: ProposalStep) => c.lobby && s.skill == Some(SceneTornado))
  }

  predicate KeptOther(c: Planning, forced: Steps, s: ProposalStep) {
    && s !in forced
    && s.skill.Some?
    && (c.lobby || s.skill != Some(SceneTornado))
    && HasRoom(c, s.skill.value)
    && (c.target.Some? || s.skill != Some(MoveTo))
  }

  /** The input's other executable steps; moves go too when there is no target to give them. */
  function Others(c: Planning, p: Proposal): Steps {
    Filter(p.steps, (s: ProposalStep) => KeptOther(c, Forced(c, p), s))
  }

  function Social(p: Proposal): Steps {
    Filter(p.steps, (s: ProposalStep) => s.skill.None?)
  }

  function RoleCandidates(c: Planning): seq<Skill> {
    Filter(ROLE_ORDER, s => (s, "v1") in c.published && Authorized(c, s) && HasRoom(c, s))
  }

  /** The skill this role would rather use, if the lease authorises any. */
  function RoleSkill(c: Planning, version: nat): Option<Skill>
    requires ValidPlanning(c)
  {
    var candidates := RoleCandidates(c);
    if candidates == [] then None
    else if c.capacity.None? then
      var later := if version >= 1 then version - 1 else 0;
      Some(candidates[(c.bucket + later) % |candidates|])
    else
      var ordered := WeightedOrder(c.capacity.value, c.score, candidates);
      if ordered == [] then None else Some(ordered[0])
  }

  function RoleStep(c: Planning, version: nat, s: Skill): ProposalStep {
    ProposalStep("role-" + Decimal(version) + "-" + Decimal(c.bucket % 100000) + "-" + Name(s),
                 PhaseForSkill(s), Some(s), Some("v1"), None,
                 "Follow this role's activity preference with " + Name(s))
  }

  function WanderStep(c: Planning, version: nat): ProposalStep {
    ProposalStep("wander-" + Decimal(version) + "-" + Decimal(c.bucket % 100000),
                 "movement", Some(MoveTo), Some("v1"), None,
                 "Walk to a different point in the current scene")
  }

  lemma RoleOrderFacts(s: Skill)
    requires s in ROLE_ORDER
    ensures s != MoveTo && s != SceneTornado && Canonical(s)
  {
  }

  /** The role's skill exists whenever a candidate does; it is published, authorised, has room, and is neither a
      move nor the Lobby exit. */
  lemma RoleSkillIsAuthorized(c: Planning, version: nat)
    requires ValidPlanning(c)
    ensures RoleSkill(c, version).None? <==> RoleCandidates(c) == []
    ensures RoleSkill(c, version).Some? ==>
              var s := RoleSkill(c, version).value;
              && s in ROLE_ORDER && s != MoveTo && s != SceneTornado && Canonical(s)
              && (s, "v1") in c.published && Authorized(c, s) && HasRoom(c, s)
  {
    var candidates := RoleCandidates(c);
    if candidates != [] {
      if c.capacity.Some? {
        RankingMembers(c.capacity.value, c.score, candidates);
        assert candidates[0] in candidates;
        assert candidates[0] in WeightedOrder(c.capacity.value, c.score, candidates);
      }
      assert RoleSkill(c, version).value in candidates;
      RoleOrderFacts(RoleSkill(c, version).value);
    }
  }

  predicate Reserved(s: ProposalStep, reserved: set<Skill>) {
    s.skill.Some? && s.skill.value in reserved
  }

  /** The last position whose skill is not reserved. */
  function LastUnreserved(steps: Steps, reserved: set<Skill>): (r: Option<nat>)
    ensures r.Some? ==> r.value < |steps| && !Reserved(steps[r.value], reserved)
    ensures r.Some? ==> forall i :: r.value < i < |steps| ==> Reserved(steps[i], reserved)
    ensures r.None? ==> forall i :: 0 <= i < |steps| ==> Reserved(steps[i], reserved)
  {
    if steps == [] then None
    else
      var last := |steps| - 1;
      if Reserved(steps[last], reserved) then LastUnreserved(steps[..last], reserved) else Some(last)
  }

  predicate IsLastFree(steps: Steps, reserved: set<Skill>, k: nat) {
    k < |steps| && !Reserved(steps[k], reserved) && forall i :: k < i < |steps| ==> Reserved(steps[i], reserved)
  }

  function Placed(steps: Steps, step: ProposalStep, reserved: set<Skill>, forcedCount: nat): Steps {
    if forcedCount + |steps| < 6 then steps + [step]
    else
      match LastUnreserved(steps, reserved)
      case None => steps
      case Some(k) => steps[k := step]
  }

  /** Appends while there is room for six executable steps, then replaces the last unreserved step; a list of
      reserved steps only is left alone. */
  method AppendOrReplace(steps: Steps, step: ProposalStep, reserved: set<Skill>, forcedCount: nat) returns (r: Steps)
    ensures r == Placed(steps, step, reserved, forcedCount)
    ensures forcedCount + |steps| < 6 ==> r == steps + [step]
    ensures forall k: nat :: IsLastFree(steps, reserved, k) && forcedCount + |steps| >= 6 ==> r == steps[k := step]
    ensures forcedCount + |steps| >= 6 && (forall i :: 0 <= i < |steps| ==> Reserved(steps[i], reserved)) ==> r == steps
  {
    r := steps;
    if forcedCount + |r| < 6 {
      return r + [step];
    }
    var k := LastUnreserved(r, reserved);
    if k.Some? {
      assert IsLastFree(steps, reserved, k.value);
      r := r[k.value := step];
    }
    forall other: nat | IsLastFree(steps, reserved, other) ensures k == Some(other) {
    }
  }

  /** Whichever way it is placed, no reserved step goes, and the new one is there unless all are reserved. */
  lemma PlacedFacts(steps: Steps, step: ProposalStep, reserved: set<Skill>, forcedCount: nat)
    ensures var r := Placed(steps, step, reserved, forcedCount);
            && |r| == (if forcedCount + |steps| < 6 then |steps| + 1 else |steps|)
            && (forall s :: s in r ==> s in steps || s == step)
            && (forall s :: s in steps && Reserved(s, reserved) ==> s in r)
            && (step in r
                || (forcedCount + |steps| >= 6 && r == steps && forall s :: s in steps ==> Reserved(s, reserved)))
  {
    var r := Placed(steps, step, reserved, forcedCount);
    var k := LastUnreserved(steps, reserved);
    if forcedCount + |steps| < 6 {
      assert r[|steps|] == step;
    } else if k.Some? {
      assert r[k.value] == step;
      forall s | s in steps && Reserved(s, reserved) ensures s in r {
        var i :| 0 <= i < |steps| && steps[i] == s;
        assert r[i] == s;
      }
    }
  }

  /** Positions of the old list that hold another step now. */
  function Changed(before: Steps, after: Steps): set<nat>
    requires |before| <= |after|
  {
    set i: nat | i < |before| && after[i] != before[i]
  }

  /** With room every step stays in place; without, at most one gives way. */
  lemma PlacedKeeps(steps: Steps, step: ProposalStep, reserved: set<Skill>, forcedCount: nat)
    ensures |steps| <= |Placed(steps, step, reserved, forcedCount)|
    ensures |Changed(steps, Placed(steps, step, reserved, forcedCount))| <= if forcedCount + |steps| < 6 then 0 else 1
  {
    var changed := Changed(steps, Placed(steps, step, reserved, forcedCount));
    var k := LastUnreserved(steps, reserved);
    if forcedCount + |steps| < 6 || k.None? {
      assert changed == {};
    } else {
      assert changed <= {k.value};
      Sets.SubsetSize(changed, {k.value});
    }
  }

  lemma ChangedTwice(a: Steps, b: Steps, d: Steps)
    requires |a| <= |b| <= |d|
    ensures |Changed(a, d)| <= |Changed(a, b)| + |Changed(b, d)|
  {
    Sets.SubsetSize(Changed(a, d), Changed(a, b) + Changed(b, d));
  }

  function FirstWithSkill(steps: Steps, skill: Option<Skill>): (r: Option<nat>)
    ensures r.Some? ==> r.value < |steps| && steps[r.value].skill == skill
    ensures r.Some? ==> forall i :: 0 <= i < r.value ==> steps[i].skill != skill
    ensures r.None? ==> forall i :: 0 <= i < |steps| ==> steps[i].skill != skill
  {
    if steps == [] then None
    else if steps[0].skill == skill then Some(0)
    else
      match FirstWithSkill(steps[1..], skill)
      case None => None
      case Some(k) => Some(k + 1)
  }

  function FirstOther(steps: Steps, skill: Option<Skill>): (r: Option<nat>)
    ensures r.Some? ==> r.value < |steps| && steps[r.value].skill != skill
    ensures r.Some? ==> forall i :: 0 <= i < r.value ==> steps[i].skill == skill
    ensures r.None? ==> forall i :: 0 <= i < |steps| ==> steps[i].skill == skill
  {
    if steps == [] then None
    else if steps[0].skill != skill then Some(0)
    else
      match FirstOther(steps[1..], skill)
      case None => None
      case Some(k) => Some(k + 1)
  }

  /** Pulls one step to the front and keeps the others in order. */
  function ToFront(steps: Steps, k: nat): (r: Steps)
    requires k < |steps|
    ensures |r| == |steps| && r[0] == steps[k]
    ensures multiset(r) == multiset(steps)
    ensures forall s :: s in r <==> s in steps
  {
    assert steps == steps[..k] + [steps[k]] + steps[k + 1..];
    var r := [steps[k]] + steps[..k] + steps[k + 1..];
    assert forall s :: s in multiset(r) <==> s in r;
    assert forall s :: s in multiset(steps) <==> s in steps;
    r
  }

  /** If the plan would open with the skill that just succeeded, the first other step opens instead. */
  function AvoidRepeat(steps: Steps, recent: Option<Skill>): (r: Steps)
    ensures |r| == |steps| && multiset(r) == multiset(steps)
    ensures forall s :: s in r <==> s in steps
    ensures recent.Some? && |r| > 0 && r[0].skill == recent ==> forall s :: s in steps ==> s.skill == recent
    ensures |r| > 0 && (recent.None? || steps[0].skill != recent) ==> r == steps
  {
    if recent.None? || |steps| < 2 || steps[0].skill != recent then steps
    else
      match FirstOther(steps[1..], recent)
      case None => steps
      case Some(k) =>
        assert steps[k + 1].skill != recent;
        ToFront(steps, k + 1)
  }

  /** The preferred step first, the rest rotated by the role's bucket. */
  function Opening(c: Planning, steps: Steps, role: Option<Skill>): (r: Steps)
    ensures |r| == |steps| && multiset(r) == multiset(steps)
    ensures forall s :: s in r <==> s in steps
    ensures role.Some? && (exists s :: s in steps && s.skill == role) ==> |r| > 0 && r[0].skill == role
  {
    var at := if role.Some? then FirstWithSkill(steps, role) else None;
    if at.Some? then
      var front := ToFront(steps, at.value);
      var rest := front[1..];
      assert front == [front[0]] + rest;
      [front[0]] + Rotate(rest, Rotation(c, |rest|))
    else Rotate(steps, Rotation(c, |steps|))
  }

  /** A step's place in the capacity ranking; steps that are not ranked come last. */
  function RankOf(ranking: seq<Skill>, s: ProposalStep): nat {
    RankFrom(ranking, s.skill, 0)
  }

  function RankFrom(ranking: seq<Skill>, skill: Option<Skill>, i: nat): (r: nat)
    requires i <= |ranking|
    ensures i <= r <= |ranking|
    ensures r < |ranking| ==> skill == Some(ranking[r])
    ensures r == |ranking| ==> forall k :: i <= k < |ranking| ==> skill != Some(ranking[k])
    decreases |ranking| - i
  {
    if i == |ranking| then i
    else if skill == Some(ranking[i]) then i
    else RankFrom(ranking, skill, i + 1)
  }

  function SkillsIn(steps: Steps): seq<Skill> {
    if steps == [] then []
    else SkillsIn(steps[..|steps| - 1])
         + (if steps[|steps| - 1].skill.Some? then [steps[|steps| - 1].skill.value] else [])
  }

  function RankSorted(c: Planning, steps: Steps): Steps
    requires ValidPlanning(c)
  {
    if c.capacity.None? then steps
    else
      var ranking := WeightedOrder(c.capacity.value, c.score, SkillsIn(steps));
      Sort(steps, (a: ProposalStep, b: ProposalStep) => RankOf(ranking, a) < RankOf(ranking, b))
  }

  lemma RankSortedMembers(c: Planning, steps: Steps)
    requires ValidPlanning(c)
    ensures |RankSorted(c, steps)| == |steps| && forall s :: s in RankSorted(c, steps) <==> s in steps
  {
    if c.capacity.Some? {
      var ranking := WeightedOrder(c.capacity.value, c.score, SkillsIn(steps));
      SortMembers(steps, (a: ProposalStep, b: ProposalStep) => RankOf(ranking, a) < RankOf(ranking, b));
    }
  }

  function FillTarget(c: Planning, s: ProposalStep): ProposalStep {
    if s.skill == Some(MoveTo) then s.(target := if s.target.Some? then s.target else c.target) else s
  }

  function Normalized(c: Planning, steps: Steps): (r: Steps)
    ensures |r| == |steps| && forall i :: 0 <= i < |steps| ==> r[i] == FillTarget(c, steps[i])
  {
    seq(|steps|, i requires 0 <= i < |steps| => FillTarget(c, steps[i]))
  }

  // ---- The result ----

  predicate MayWander(c: Planning) {
    c.target.Some? && (MoveTo, "v1") in c.published && Authorized(c, MoveTo)
  }

  /** A middle step is an input step that was kept, the role's own step, or the wander step. */
  predicate Allowed(c: Planning, p: Proposal, version: nat, s: ProposalStep)
    requires ValidPlanning(c)
  {
    || s in Others(c, p)
    || (RoleSkill(c, version).Some? && s == RoleStep(c, version, RoleSkill(c, version).value))
    || (MayWander(c) && s == WanderStep(c, version))
  }

  predicate HasSkill(steps: Steps, skill: Option<Skill>) {
    exists s :: s in steps && s.skill == skill
  }

  predicate OnlySkill(steps: Steps, skill: Option<Skill>) {
    forall s :: s in steps ==> s.skill == skill
  }

  /** The role's skill is in the middle, unless only moves are and there is no room. */
  predicate KeepsPreferred(c: Planning, p: Proposal, middle: Steps, role: Option<Skill>) {
    role.Some? ==>
      HasSkill(middle, role) || (|Forced(c, p)| + |middle| >= 6 && OnlySkill(Others(c, p), Some(MoveTo)))
  }

  /** A move is in the middle whenever one may be taken, unless the middle is full of the role's skill. */
  predicate KeepsMove(c: Planning, p: Proposal, middle: Steps, role: Option<Skill>) {
    MayWander(c) ==>
      HasSkill(middle, Some(MoveTo)) || (|Forced(c, p)| + |middle| >= 6 && OnlySkill(middle, role))
  }

  ghost predicate GoodMiddle(c: Planning, p: Proposal, version: nat, middle: Steps)
    requires ValidPlanning(c)
  {
    && |Forced(c, p)| + |middle| <= 6
    && (forall s :: s in middle ==> Allowed(c, p, version, s))
    && KeepsPreferred(c, p, middle, RoleSkill(c, version))
    && KeepsMove(c, p, middle, RoleSkill(c, version))
  }

  /** Outside the Lobby the middle does not open with the skill that last succeeded, unless every middle step
      has that skill. */
  predicate AvoidsRepeat(c: Planning, recent: Option<Skill>, middle: Steps) {
    !c.lobby && recent.Some? && |middle| > 0 && middle[0].skill == recent ==>
      forall s :: s in middle ==> s.skill == recent
  }

  lemma FilterStep(steps: Steps, keep: ProposalStep -> bool)
    requires steps != []
    ensures var last, init := steps[|steps| - 1], steps[..|steps| - 1];
            |Filter(steps, keep)| == |Filter(init, keep)| + if keep(last) then 1 else 0
  {
  }

  lemma {:induction false} ExecutablePiecesFit(c: Planning, forced: Steps, steps: Steps)
    requires forall s :: s in steps && c.lobby && s.skill == Some(SceneTornado) ==> s in forced
    ensures |Filter(steps, (s: ProposalStep) => c.lobby && s.skill == Some(SceneTornado))|
          + |Filter(steps, (s: ProposalStep) => KeptOther(c, forced, s))| <= Executables(ProposalSlots(steps))
  {
    if steps != [] {
      var last, init := steps[|steps| - 1], steps[..|steps| - 1];
      ExecutablePiecesFit(c, forced, init);
      FilterStep(steps, (s: ProposalStep) => c.lobby && s.skill == Some(SceneTornado));
      FilterStep(steps, (s: ProposalStep) => KeptOther(c, forced, s));
      SlotsStep(steps);
      assert last in steps;
      assert !(c.lobby && last.skill == Some(SceneTornado) && KeptOther(c, forced, last));
    }
  }

  lemma SlotsStep(steps: Steps)
    requires steps != []
    ensures Executables(ProposalSlots(steps)) == Executables(ProposalSlots(steps[..|steps| - 1]))
                                                + if steps[|steps| - 1].skill.Some? then 1 else 0
  {
    assert ProposalSlots(steps[..|steps| - 1]) == ProposalSlots(steps)[..|steps| - 1];
  }

  lemma {:induction false} SocialPieces(steps: Steps)
    ensures |Filter(steps, (s: ProposalStep) => s.skill.None?)| == |steps| - Executables(ProposalSlots(steps))
  {
    if steps != [] {
      var init := steps[..|steps| - 1];
      SocialPieces(init);
      assert ProposalSlots(init) == ProposalSlots(steps)[..|steps| - 1];
    }
  }

  function WithPreferred(others: Steps, role: Option<Skill>, step: ProposalStep, forcedCount: nat): Steps {
    if role.None? || FirstWithSkill(others, role).Some? then others else Placed(others, step, {MoveTo}, forcedCount)
  }

  function WithMove(others: Steps, role: Option<Skill>, step: ProposalStep, forcedCount: nat): Steps {
    if FirstWithSkill(others, Some(MoveTo)).Some? then others
    else Placed(others, step, if role.None? then {} else {role.value}, forcedCount)
  }

  lemma FirstIffHas(steps: Steps, skill: Option<Skill>)
    ensures FirstWithSkill(steps, skill).Some? <==> HasSkill(steps, skill)
  {
    if HasSkill(steps, skill) {
      var s :| s in steps && s.skill == skill;
      var i :| 0 <= i < |steps| && steps[i] == s;
    }
  }

  /** The role's step is added unless its skill is already there; moves are not evicted for it. */
  lemma WithPreferredFacts(others: Steps, role: Option<Skill>, step: ProposalStep, forcedCount: nat)
    requires role.Some? ==> step.skill == role && role != Some(MoveTo)
    requires forcedCount + |others| <= 6
    ensures var r := WithPreferred(others, role, step, forcedCount);
            && forcedCount + |r| <= 6
            && (forall s :: s in r ==> s in others || (role.Some? && s == step))
            && (role.Some? ==>
                  HasSkill(r, role) || (forcedCount + |r| >= 6 && r == others && OnlySkill(others, Some(MoveTo))))
            && (HasSkill(r, Some(MoveTo)) <==> HasSkill(others, Some(MoveTo)))
  {
    PlacedFacts(others, step, {MoveTo}, forcedCount);
    FirstIffHas(others, role);
    var r := WithPreferred(others, role, step, forcedCount);
    if HasSkill(others, Some(MoveTo)) {
      var s :| s in others && s.skill == Some(MoveTo);
      assert Reserved(s, {MoveTo});
      assert s in r;
    }
  }

  /** The wander step is added unless a move is already there; the role's skill is not evicted for it. */
  lemma WithMoveFacts(others: Steps, role: Option<Skill>, step: ProposalStep, forcedCount: nat)
    requires step.skill == Some(MoveTo) && forcedCount + |others| <= 6
    ensures var r := WithMove(others, role, step, forcedCount);
            && forcedCount + |r| <= 6 && |r| >= |others|
            && (forall s :: s in r ==> s in others || s == step)
            && (HasSkill(r, Some(MoveTo)) || (forcedCount + |r| >= 6 && OnlySkill(r, role)))
            && (role.Some? && HasSkill(others, role) ==> HasSkill(r, role))
  {
    var reserved := if role.None? then {} else {role.value};
    PlacedFacts(others, step, reserved, forcedCount);
    FirstIffHas(others, Some(MoveTo));
    var r := WithMove(others, role, step, forcedCount);
    if role.Some? && HasSkill(others, role) {
      var s :| s in others && s.skill == role;
      assert Reserved(s, reserved) && s in r;
    }
  }

  lemma PiecesLeaveRoom(c: Planning, p: Proposal)
    requires ValidProposal(p)
    ensures |Forced(c, p)| + |Others(c, p)| <= 6
  {
    ExecutablePiecesFit(c, Forced(c, p), p.steps);
  }

  function RoleOf(c: Planning, version: nat): ProposalStep
    requires ValidPlanning(c) && RoleSkill(c, version).Some?
  {
    RoleStep(c, version, RoleSkill(c, version).value)
  }

  function Preferring(c: Planning, p: Proposal, version: nat): Steps
    requires ValidPlanning(c)
  {
    if RoleSkill(c, version).None? then Others(c, p)
    else WithPreferred(Others(c, p), RoleSkill(c, version), RoleOf(c, version), |Forced(c, p)|)
  }

  /** The kept steps with the role's step and a move. */
  function Composed(c: Planning, p: Proposal, version: nat): Steps
    requires ValidPlanning(c)
  {
    if !MayWander(c) then Preferring(c, p, version)
    else WithMove(Preferring(c, p, version), RoleSkill(c, version), WanderStep(c, version), |Forced(c, p)|)
  }

  method Prefer(c: Planning, p: Proposal, version: nat) returns (others: Steps)
    requires ValidPlanning(c)
    ensures others == Preferring(c, p, version)
  {
    others := Others(c, p);
    var role := RoleSkill(c, version);
    if role.Some? && FirstWithSkill(others, role).None? {
      others := AppendOrReplace(others, RoleStep(c, version, role.value), {MoveTo}, |Forced(c, p)|);
    }
  }

  method Compose(c: Planning, p: Proposal, version: nat) returns (others: Steps)
    requires ValidPlanning(c)
    ensures others == Composed(c, p, version)
  {
    others := Prefer(c, p, version);
    var role := RoleSkill(c, version);
    if MayWander(c) && FirstWithSkill(others, Some(MoveTo)).None? {
      var reserved: set<Skill> := if role.None? then {} else {role.value};
      others := AppendOrReplace(others, WanderStep(c, version), reserved, |Forced(c, p)|);
    }
  }

  lemma PreferringFacts(c: Planning, p: Proposal, version: nat)
    requires ValidPlanning(c) && ValidProposal(p)
    ensures var others, r, role := Others(c, p), Preferring(c, p, version), RoleSkill(c, version);
            && |Forced(c, p)| + |r| <= 6
            && (forall s :: s in r ==> s in others || (role.Some? && s == RoleOf(c, version)))
            && KeepsPreferred(c, p, r, role)
            && (HasSkill(r, Some(MoveTo)) <==> HasSkill(others, Some(MoveTo)))
  {
    PiecesLeaveRoom(c, p);
    RoleSkillIsAuthorized(c, version);
    if RoleSkill(c, version).Some? {
      WithPreferredFacts(Others(c, p), RoleSkill(c, version), RoleOf(c, version), |Forced(c, p)|);
    }
  }

  lemma ComposedIsGood(c: Planning, p: Proposal, version: nat)
    requires ValidPlanning(c) && ValidProposal(p)
    ensures GoodMiddle(c, p, version, Composed(c, p, version))
  {
    PreferringFacts(c, p, version);
    if MayWander(c) {
      WithMoveFacts(Preferring(c, p, version), RoleSkill(c, version), WanderStep(c, version), |Forced(c, p)|);
    }
  }

  // ---- What is kept, and how many ----

  /** The role has a skill that no kept step has. */
  predicate LacksRole(c: Planning, p: Proposal, version: nat)
    requires ValidPlanning(c)
  {
    RoleSkill(c, version).Some? && !HasSkill(Others(c, p), RoleSkill(c, version))
  }

  /** A move may be taken and no kept step is one. */
  predicate LacksMove(c: Planning, p: Proposal) {
    MayWander(c) && !HasSkill(Others(c, p), Some(MoveTo))
  }

  /** How many middle steps there will be: the kept ones, and one for each missing kind while there is room. */
  function MiddleSize(c: Planning, p: Proposal, version: nat): nat
    requires ValidPlanning(c)
  {
    var forced, kept := |Forced(c, p)|, |Others(c, p)|;
    var preferring := kept + if LacksRole(c, p, version) && forced + kept < 6 then 1 else 0;
    preferring + if LacksMove(c, p) && forced + preferring < 6 then 1 else 0
  }

  /** How many kept steps may have to give way: one for each missing kind that finds no room. */
  function Evictions(c: Planning, p: Proposal, version: nat): nat
    requires ValidPlanning(c)
  {
    var forced, kept := |Forced(c, p)|, |Others(c, p)|;
    var preferring := kept + if LacksRole(c, p, version) && forced + kept < 6 then 1 else 0;
    (if LacksRole(c, p, version) && forced + kept >= 6 then 1 else 0)
    + (if LacksMove(c, p) && forced + preferring >= 6 then 1 else 0)
  }

  lemma PreferringKeeps(c: Planning, p: Proposal, version: nat)
    requires ValidPlanning(c)
    ensures var forced, kept, r := |Forced(c, p)|, Others(c, p), Preferring(c, p, version);
            && |r| == |kept| + (if LacksRole(c, p, version) && forced + |kept| < 6 then 1 else 0)
            && |Changed(kept, r)| <= if LacksRole(c, p, version) && forced + |kept| >= 6 then 1 else 0
  {
    var kept := Others(c, p);
    FirstIffHas(kept, RoleSkill(c, version));
    assert Changed(kept, kept) == {};
    if LacksRole(c, p, version) {
      PlacedFacts(kept, RoleOf(c, version), {MoveTo}, |Forced(c, p)|);
      PlacedKeeps(kept, RoleOf(c, version), {MoveTo}, |Forced(c, p)|);
    }
  }

  lemma MoveKeeps(c: Planning, p: Proposal, version: nat)
    requires ValidPlanning(c) && ValidProposal(p)
    ensures var forced, preferring, r := |Forced(c, p)|, Preferring(c, p, version), Composed(c, p, version);
            && |r| == |preferring| + (if LacksMove(c, p) && forced + |preferring| < 6 then 1 else 0)
            && |Changed(preferring, r)| <= if LacksMove(c, p) && forced + |preferring| >= 6 then 1 else 0
  {
    var preferring, forced := Preferring(c, p, version), |Forced(c, p)|;
    PreferringFacts(c, p, version);
    FirstIffHas(preferring, Some(MoveTo));
    assert Changed(preferring, preferring) == {};
    if LacksMove(c, p) {
      var reserved := if RoleSkill(c, version).None? then {} else {RoleSkill(c, version).value};
      PlacedFacts(preferring, WanderStep(c, version), reserved, forced);
      PlacedKeeps(preferring, WanderStep(c, version), reserved, forced);
    }
  }

  /** The size of the middle, and that every kept step stays in it except at most one for each insertion that finds no
      room. */
  lemma ComposedKeeps(c: Planning, p: Proposal, version: nat)
    requires ValidPlanning(c) && ValidProposal(p)
    ensures |Composed(c, p, version)| == MiddleSize(c, p, version) >= |Others(c, p)|
    ensures |Changed(Others(c, p), Composed(c, p, version))| <= Evictions(c, p, version)
  {
    PreferringKeeps(c, p, version);
    MoveKeeps(c, p, version);
    ChangedTwice(Others(c, p), Preferring(c, p, version), Composed(c, p, version));
  }

  /** Without a capacity snapshot the role's skill opens the middle, unless it would repeat the last success. */
  predicate OpensWithRole(c: Planning, recent: Option<Skill>, middle: Steps, role: Option<Skill>) {
    c.capacity.None? && role.Some? && HasSkill(middle, role) && (c.lobby || recent != role) ==>
      |middle| > 0 && middle[0].skill == role
  }

  function Ranking(c: Planning, steps: Steps): seq<Skill>
    requires ValidPlanning(c) && c.capacity.Some?
  {
    WeightedOrder(c.capacity.value, c.score, SkillsIn(steps))
  }

  /** From position `from` on, the steps stand in the order of the capacity ranking of all of them. */
  predicate Ranked(c: Planning, steps: Steps, from: nat)
    requires ValidPlanning(c) && c.capacity.Some?
  {
    var ranking := Ranking(c, steps);
    forall i, j :: from <= i < j < |steps| ==> RankOf(ranking, steps[i]) <= RankOf(ranking, steps[j])
  }

  lemma {:induction false} SkillsInMembers(steps: Steps)
    ensures forall k :: k in SkillsIn(steps) <==> HasSkill(steps, Some(k))
  {
    if steps != [] {
      var last, init := steps[|steps| - 1], steps[..|steps| - 1];
      SkillsInMembers(init);
      assert steps == init + [last];
      forall k ensures k in SkillsIn(steps) <==> HasSkill(steps, Some(k)) {
        if HasSkill(init, Some(k)) {
          var s :| s in init && s.skill == Some(k);
          assert s in steps;
        }
        if last.skill == Some(k) {
          assert last in steps;
        }
        if HasSkill(steps, Some(k)) {
          var s :| s in steps && s.skill == Some(k);
          assert s in init || s == last;
        }
      }
    }
  }

  /** Steps with the same members have the same ranking. */
  lemma RankingIsShared(c: Planning, a: Steps, b: Steps)
    requires ValidPlanning(c) && c.capacity.Some?
    requires forall s :: s in a <==> s in b
    requires forall s :: s in a && s.skill.Some? ==> Canonical(s.skill.value)
    ensures Ranking(c, a) == Ranking(c, b)
  {
    SkillsInMembers(a);
    SkillsInMembers(b);
    forall k ensures k in SkillsIn(a) <==> k in SkillsIn(b) {
      if HasSkill(a, Some(k)) {
        var s :| s in a && s.skill == Some(k);
        assert s in b;
      }
      if HasSkill(b, Some(k)) {
        var s :| s in b && s.skill == Some(k);
        assert s in a;
      }
    }
    forall k | k in SkillsIn(a) ensures Canonical(k) {
      assert HasSkill(a, Some(k));
    }
    CanonicalNamesTellApart(SkillsIn(a));
    RankingDependsOnSet(c.capacity.value, c.score, SkillsIn(a), SkillsIn(b));
  }

  lemma RankSortedIsRanked(c: Planning, steps: Steps)
    requires ValidPlanning(c) && c.capacity.Some?
    requires forall s :: s in steps && s.skill.Some? ==> Canonical(s.skill.value)
    ensures Ranked(c, RankSorted(c, steps), 0)
  {
    var ranking := Ranking(c, steps);
    var before := (a: ProposalStep, b: ProposalStep) => RankOf(ranking, a) < RankOf(ranking, b);
    SortSorts(steps, before);
    RankSortedMembers(c, steps);
    RankingIsShared(c, steps, RankSorted(c, steps));
  }

  /** Pulling one step forward leaves the rest ranked. */
  lemma AvoidRepeatKeepsRank(c: Planning, steps: Steps, recent: Option<Skill>)
    requires ValidPlanning(c) && c.capacity.Some? && Ranked(c, steps, 0)
    requires forall s :: s in steps && s.skill.Some? ==> Canonical(s.skill.value)
    ensures Ranked(c, AvoidRepeat(steps, recent), 1)
  {
    RankingIsShared(c, steps, AvoidRepeat(steps, recent));
  }

  lemma AllowedCanonical(c: Planning, p: Proposal, version: nat, steps: Steps)
    requires ValidPlanning(c) && ValidProposal(p) && GoodMiddle(c, p, version, steps)
    ensures forall s :: s in steps ==> s.skill.Some? && Canonical(s.skill.value)
  {
    RoleSkillIsAuthorized(c, version);
    forall s | s in steps ensures s.skill.Some? && Canonical(s.skill.value) {
      assert Allowed(c, p, version, s);
      if s in Others(c, p) {
        assert s in p.steps;
      }
    }
  }

  function Arranged(c: Planning, p: Proposal, version: nat, recent: Option<Skill>): Steps
    requires ValidPlanning(c)
  {
    var ranked := RankSorted(c, Opening(c, Composed(c, p, version), RoleSkill(c, version)));
    if c.lobby then ranked else AvoidRepeat(ranked, recent)
  }

  lemma ArrangedElements(c: Planning, p: Proposal, version: nat, recent: Option<Skill>)
    requires ValidPlanning(c)
    ensures multiset(Arranged(c, p, version, recent)) == multiset(Composed(c, p, version))
    ensures |Arranged(c, p, version, recent)| == |Composed(c, p, version)|
    ensures forall s :: s in Arranged(c, p, version, recent) <==> s in Composed(c, p, version)
  {
    var opening := Opening(c, Composed(c, p, version), RoleSkill(c, version));
    RankSortedMembers(c, opening);
    if c.capacity.Some? {
      var ranking := WeightedOrder(c.capacity.value, c.score, SkillsIn(opening));
      SortElements(opening, (a: ProposalStep, b: ProposalStep) => RankOf(ranking, a) < RankOf(ranking, b));
    }
  }

  /** Opens with the role's skill, ranks by capacity, and avoids a repeat outside the Lobby. */
  lemma ArrangedFacts(c: Planning, p: Proposal, version: nat, recent: Option<Skill>)
    requires ValidPlanning(c) && ValidProposal(p)
    ensures var middle := Arranged(c, p, version, recent);
            && GoodMiddle(c, p, version, middle) && AvoidsRepeat(c, recent, middle)
            && OpensWithRole(c, recent, middle, RoleSkill(c, version))
            && (c.capacity.Some? ==> Ranked(c, middle, if c.lobby then 0 else 1))
  {
    var composed := Composed(c, p, version);
    var opening := Opening(c, composed, RoleSkill(c, version));
    ComposedIsGood(c, p, version);
    AllowedCanonical(c, p, version, composed);
    RankSortedMembers(c, opening);
    if c.capacity.Some? {
      RankSortedIsRanked(c, opening);
      AvoidRepeatKeepsRank(c, RankSorted(c, opening), recent);
    }
    ArrangedElements(c, p, version, recent);
    SameMembersGood(c, p, version, composed, Arranged(c, p, version, recent));
  }

  function Diversified(c: Planning, p: Proposal, version: nat, recent: seq<RecentAction>): Proposal
    requires ValidPlanning(c)
  {
    var steps := Rebuild(c, p, Arranged(c, p, version, MostRecentSuccess(recent)));
    if !c.catalog || steps == [] then p else p.(steps := steps)
  }

  /** Without a scene catalogue the proposal is returned as it is; with one it is rebuilt around the arranged middle,
      except that a proposal of which nothing is left is returned unchanged. The middle holds every kept step but at
      most one for each insertion that found no room. */
  method Diversify(c: Planning, p: Proposal, version: nat, recent: seq<RecentAction>)
    returns (r: Proposal, ghost middle: Steps)
    requires ValidPlanning(c) && ValidProposal(p)
    ensures r == Diversified(c, p, version, recent) && middle == Arranged(c, p, version, MostRecentSuccess(recent))
    ensures GoodMiddle(c, p, version, middle) && AvoidsRepeat(c, MostRecentSuccess(recent), middle)
    ensures OpensWithRole(c, MostRecentSuccess(recent), middle, RoleSkill(c, version))
    ensures c.capacity.Some? ==> Ranked(c, middle, if c.lobby then 0 else 1)
    ensures |middle| == MiddleSize(c, p, version) && multiset(middle) == multiset(Composed(c, p, version))
    ensures |Others(c, p)| <= |Composed(c, p, version)|
            && |Changed(Others(c, p), Composed(c, p, version))| <= Evictions(c, p, version)
    ensures c.catalog ==> (ValidLayout(ProposalSlots(r.steps)) <==> Fits(c, p, version))
  {
    var recentSkill := MostRecentSuccess(recent);
    middle := Arranged(c, p, version, recentSkill);
    ArrangedFacts(c, p, version, recentSkill);
    ArrangedElements(c, p, version, recentSkill);
    ComposedKeeps(c, p, version);
    if !c.catalog {
      return p, middle;
    }
    DiversifiedFitsIff(c, p, version, recent);
    var others := Compose(c, p, version);
    others := Opening(c, others, RoleSkill(c, version));
    if c.capacity.Some? {
      others := RankSorted(c, others);
    }
    if !c.lobby {
      others := AvoidRepeat(others, recentSkill);
    }
    var normalized := Normalized(c, Forced(c, p) + others + Social(p));
    if normalized == [] {
      return p, middle;
    }
    r := p.(steps := normalized);
  }

  lemma SameMembersGood(c: Planning, p: Proposal, version: nat, a: Steps, b: Steps)
    requires ValidPlanning(c) && GoodMiddle(c, p, version, a)
    requires |a| == |b| && forall s :: s in a <==> s in b
    ensures GoodMiddle(c, p, version, b)
  {
  }

  // ---- Layout of a rebuilt proposal ----

  lemma {:induction false} AllExecutable(slots: seq<Slot>)
    requires forall i :: 0 <= i < |slots| ==> !slots[i].social
    ensures Executables(slots) == |slots|
  {
    if slots != [] {
      AllExecutable(slots[..|slots| - 1]);
    }
  }

  lemma {:induction false} ExecutablesOfConcat(a: seq<Slot>, b: seq<Slot>)
    ensures Executables(a + b) == Executables(a) + Executables(b)
  {
    if b == [] {
      assert a + b == a;
    } else {
      ExecutablesOfConcat(a, b[..|b| - 1]);
      assert (a + b)[..|a + b| - 1] == a + b[..|b| - 1];
    }
  }

  lemma {:induction false} NoExecutables(slots: seq<Slot>)
    requires forall i :: 0 <= i < |slots| ==> slots[i].social
    ensures Executables(slots) == 0
  {
    if slots != [] {
      NoExecutables(slots[..|slots| - 1]);
    }
  }

  lemma AtMostOneSocial(p: Proposal)
    requires ValidProposal(p)
    ensures |Social(p)| <= 1
  {
    var slots := ProposalSlots(p.steps);
    SocialPieces(p.steps);
    if slots != [] {
      AllExecutable(slots[..|slots| - 1]);
    }
  }

  /** The steps of a rebuilt proposal. */
  function Rebuild(c: Planning, p: Proposal, middle: Steps): Steps {
    Normalized(c, Forced(c, p) + middle + Social(p))
  }

  /** What every step of a rebuilt proposal satisfies once its target is filled. */
  predicate WellFormed(s: ProposalStep) {
    ActionIdentity(s.phase, s.skill, s.schema, s.target) && (s.skill == Some(MoveTo) ==> s.target.Some?)
  }

  lemma RoleStepWellFormed(c: Planning, version: nat, s: Skill)
    requires Canonical(s) && s != MoveTo
    ensures WellFormed(FillTarget(c, RoleStep(c, version, s))) && RoleStep(c, version, s).skill == Some(s)
  {
  }

  lemma WanderStepWellFormed(c: Planning, version: nat)
    requires c.target.Some?
    ensures WellFormed(FillTarget(c, WanderStep(c, version))) && WanderStep(c, version).skill == Some(MoveTo)
  {
  }

  lemma InputStepWellFormed(c: Planning, p: Proposal, s: ProposalStep)
    requires ValidProposal(p) && s in p.steps && (s.skill == Some(MoveTo) ==> c.target.Some?)
    ensures WellFormed(FillTarget(c, s))
  {
  }

  lemma KeptStep(c: Planning, p: Proposal, s: ProposalStep)
    requires s in Others(c, p)
    ensures s in p.steps && s.skill.Some? && s.skill != Some(SceneTornado)
    ensures s.skill == Some(MoveTo) ==> c.target.Some?
  {
    assert KeptOther(c, Forced(c, p), s);
    assert c.lobby && s.skill == Some(SceneTornado) ==> s in Forced(c, p);
  }

  lemma MiddleStep(c: Planning, p: Proposal, version: nat, s: ProposalStep)
    requires ValidPlanning(c) && ValidProposal(p) && Allowed(c, p, version, s)
    ensures WellFormed(FillTarget(c, s)) && s.skill.Some? && s.skill != Some(SceneTornado)
  {
    if s in Others(c, p) {
      KeptStep(c, p, s);
      InputStepWellFormed(c, p, s);
    } else if RoleSkill(c, version).Some? && s == RoleStep(c, version, RoleSkill(c, version).value) {
      RoleSkillIsAuthorized(c, version);
      RoleStepWellFormed(c, version, RoleSkill(c, version).value);
    } else {
      WanderStepWellFormed(c, version);
    }
  }

  /** What the layout needs of the middle. */
  predicate MiddleFits(c: Planning, middle: Steps) {
    forall s :: s in middle ==> WellFormed(FillTarget(c, s)) && s.skill.Some? && s.skill != Some(SceneTornado)
  }

  lemma GoodMiddleFits(c: Planning, p: Proposal, version: nat, middle: Steps)
    requires ValidPlanning(c) && ValidProposal(p) && GoodMiddle(c, p, version, middle)
    ensures MiddleFits(c, middle)
  {
    forall s | s in middle
      ensures WellFormed(FillTarget(c, s)) && s.skill.Some? && s.skill != Some(SceneTornado)
    {
      MiddleStep(c, p, version, s);
    }
  }

  lemma RebuiltStep(c: Planning, p: Proposal, middle: Steps, i: nat)
    requires ValidProposal(p) && MiddleFits(c, middle)
    requires i < |Forced(c, p)| + |middle| + |Social(p)|
    ensures var s := Rebuild(c, p, middle)[i];
            && WellFormed(s)
            && (s.skill == Some(SceneTornado) <==> i < |Forced(c, p)|)
            && (s.skill.None? <==> i >= |Forced(c, p)| + |middle|)
            && (i < |Forced(c, p)| ==> c.lobby)
  {
    var forced, social := Forced(c, p), Social(p);
    if i < |forced| {
      assert forced[i] in forced;
      InputStepWellFormed(c, p, forced[i]);
    } else if i < |forced| + |middle| {
      assert middle[i - |forced|] in middle;
    } else {
      assert social[i - |forced| - |middle|] in social;
      InputStepWellFormed(c, p, social[i - |forced| - |middle|]);
    }
  }

  lemma SlotsOfRebuilt(steps: Steps, forced: nat, middle: nat)
    requires forced + middle <= |steps| <= forced + middle + 1
    requires forall i :: 0 <= i < |steps| ==> (steps[i].skill.None? <==> i >= forced + middle)
    ensures Executables(ProposalSlots(steps)) == forced + middle && SocialLast(ProposalSlots(steps))
  {
    var slots := ProposalSlots(steps);
    var n := forced + middle;
    AllExecutable(slots[..n]);
    NoExecutables(slots[n..]);
    ExecutablesOfConcat(slots[..n], slots[n..]);
    assert slots == slots[..n] + slots[n..];
  }

  /** A rebuilt proposal has at most six executable steps, with `scene_tornado` exactly on the forced Lobby
      positions at the front, the social step last, and a target on every move; of the layout rules it can
      break only the unique ids and the three-step minimum. */
  lemma RebuiltLayout(c: Planning, p: Proposal, version: nat, middle: Steps)
    requires ValidPlanning(c) && ValidProposal(p) && GoodMiddle(c, p, version, middle)
    ensures var steps := Rebuild(c, p, middle);
            && Executables(ProposalSlots(steps)) == |Forced(c, p)| + |middle| <= 6
            && (forall i :: 0 <= i < |steps| ==>
                  WellFormed(steps[i]) && (steps[i].skill == Some(SceneTornado) <==> i < |Forced(c, p)|))
            && (!c.lobby ==> Forced(c, p) == [])
            && (ValidLayout(ProposalSlots(steps))
                <==> UniqueIds(ProposalSlots(steps)) && |Forced(c, p)| + |middle| >= 3)
  {
    var steps := Rebuild(c, p, middle);
    GoodMiddleFits(c, p, version, middle);
    forall i | 0 <= i < |steps|
      ensures WellFormed(steps[i])
      ensures steps[i].skill == Some(SceneTornado) <==> i < |Forced(c, p)|
      ensures steps[i].skill.None? <==> i >= |Forced(c, p)| + |middle|
    {
      RebuiltStep(c, p, middle, i);
    }
    if !c.lobby && Forced(c, p) != [] {
      RebuiltStep(c, p, middle, 0);
    }
    AtMostOneSocial(p);
    SlotsOfRebuilt(steps, |Forced(c, p)|, |middle|);
  }

  // ---- When a diversified proposal passes the layout rules ----

  /** Everything the rebuilt proposal is made of, before arranging. */
  function Material(c: Planning, p: Proposal, version: nat): Steps
    requires ValidPlanning(c)
  {
    Forced(c, p) + Composed(c, p, version) + Social(p)
  }

  /** A step of the input that stays has this step's id. */
  predicate IdTaken(c: Planning, p: Proposal, version: nat, step: ProposalStep)
    requires ValidPlanning(c)
  {
    exists s :: s in Material(c, p, version) && s in Forced(c, p) + Others(c, p) + Social(p) && s.stepId == step.stepId
  }

  /** Neither step the diversifier inserts shares its id with a step of the input that stays. */
  predicate IdsFit(c: Planning, p: Proposal, version: nat)
    requires ValidPlanning(c)
  {
    && (LacksRole(c, p, version) && RoleOf(c, version) in Composed(c, p, version) ==>
          !IdTaken(c, p, version, RoleOf(c, version)))
    && (LacksMove(c, p) && WanderStep(c, version) in Composed(c, p, version) ==>
          !IdTaken(c, p, version, WanderStep(c, version)))
  }

  /** Nothing is left, so the input comes back; or three executable steps are, and the inserted ids are new. */
  predicate Fits(c: Planning, p: Proposal, version: nat)
    requires ValidPlanning(c)
  {
    || (Forced(c, p) == [] && Social(p) == [] && MiddleSize(c, p, version) == 0)
    || (|Forced(c, p)| + MiddleSize(c, p, version) >= 3 && IdsFit(c, p, version))
  }

  predicate IdsDistinct(steps: Steps) {
    forall i, j :: 0 <= i < j < |steps| ==> steps[i].stepId != steps[j].stepId
  }

  lemma IdsDistinctIff(steps: Steps)
    requires Distinct(steps)
    ensures IdsDistinct(steps) <==> forall x, y :: x in steps && y in steps && x != y ==> x.stepId != y.stepId
  {
    if IdsDistinct(steps) {
      forall x, y | x in steps && y in steps && x != y ensures x.stepId != y.stepId {
        var i :| 0 <= i < |steps| && steps[i] == x;
        var j :| 0 <= j < |steps| && steps[j] == y;
      }
    }
  }

  lemma InputSteps(p: Proposal)
    requires ValidProposal(p)
    ensures Distinct(p.steps)
    ensures forall x, y :: x in p.steps && y in p.steps && x.stepId == y.stepId ==> x == y
  {
    var slots := ProposalSlots(p.steps);
    forall x, y | x in p.steps && y in p.steps && x.stepId == y.stepId ensures x == y {
      var i :| 0 <= i < |p.steps| && p.steps[i] == x;
      var j :| 0 <= j < |p.steps| && p.steps[j] == y;
      assert slots[i].stepId == slots[j].stepId;
    }
    forall i, j | 0 <= i < j < |p.steps| ensures p.steps[i] != p.steps[j] {
      assert slots[i].stepId != slots[j].stepId;
    }
  }

  lemma PlacedDistinct(steps: Steps, step: ProposalStep, reserved: set<Skill>, forcedCount: nat)
    requires Distinct(steps) && step !in steps
    ensures Distinct(Placed(steps, step, reserved, forcedCount))
  {
  }

  lemma PreferringOrigin(c: Planning, p: Proposal, version: nat, s: ProposalStep)
    requires ValidPlanning(c) && s in Preferring(c, p, version)
    ensures s in Others(c, p) || (LacksRole(c, p, version) && s == RoleOf(c, version))
  {
    var kept := Others(c, p);
    FirstIffHas(kept, RoleSkill(c, version));
    if LacksRole(c, p, version) {
      PlacedFacts(kept, RoleOf(c, version), {MoveTo}, |Forced(c, p)|);
    }
  }

  lemma MoveOrigin(c: Planning, p: Proposal, version: nat, s: ProposalStep)
    requires ValidPlanning(c) && s in Composed(c, p, version) && s !in Preferring(c, p, version)
    ensures LacksMove(c, p) && s == WanderStep(c, version)
  {
    var preferring := Preferring(c, p, version);
    FirstIffHas(preferring, Some(MoveTo));
    PlacedFacts(preferring, WanderStep(c, version),
                if RoleSkill(c, version).None? then {} else {RoleSkill(c, version).value}, |Forced(c, p)|);
    if HasSkill(Others(c, p), Some(MoveTo)) {
      MovesStay(c, p, version);
    }
  }

  /** A composed step that is not a kept one was inserted. */
  lemma ComposedOrigin(c: Planning, p: Proposal, version: nat, s: ProposalStep)
    requires ValidPlanning(c) && s in Composed(c, p, version)
    ensures s in Others(c, p)
         || (LacksRole(c, p, version) && s == RoleOf(c, version))
         || (LacksMove(c, p) && s == WanderStep(c, version))
  {
    if s in Preferring(c, p, version) {
      PreferringOrigin(c, p, version, s);
    } else {
      MoveOrigin(c, p, version, s);
    }
  }

  lemma MovesStay(c: Planning, p: Proposal, version: nat)
    requires ValidPlanning(c) && HasSkill(Others(c, p), Some(MoveTo))
    ensures HasSkill(Preferring(c, p, version), Some(MoveTo))
  {
    var s :| s in Others(c, p) && s.skill == Some(MoveTo);
    assert Reserved(s, {MoveTo});
    if RoleSkill(c, version).Some? {
      PlacedFacts(Others(c, p), RoleOf(c, version), {MoveTo}, |Forced(c, p)|);
    }
    assert s in Preferring(c, p, version);
  }

  lemma InsertedAreNew(c: Planning, p: Proposal, version: nat)
    requires ValidPlanning(c)
    ensures LacksRole(c, p, version) ==> RoleOf(c, version) !in Others(c, p)
    ensures LacksMove(c, p) ==> WanderStep(c, version) !in Others(c, p)
  {
  }

  lemma ComposedDistinct(c: Planning, p: Proposal, version: nat)
    requires ValidPlanning(c) && ValidProposal(p)
    ensures Distinct(Composed(c, p, version))
  {
    var kept, preferring := Others(c, p), Preferring(c, p, version);
    InputSteps(p);
    RoleSkillIsAuthorized(c, version);
    InsertedAreNew(c, p, version);
    FirstIffHas(kept, RoleSkill(c, version));
    FirstIffHas(preferring, Some(MoveTo));
    if LacksRole(c, p, version) {
      PlacedDistinct(kept, RoleOf(c, version), {MoveTo}, |Forced(c, p)|);
    }
    if !HasSkill(preferring, Some(MoveTo)) {
      assert WanderStep(c, version) !in preferring;
      PlacedDistinct(preferring, WanderStep(c, version),
                     if RoleSkill(c, version).None? then {} else {RoleSkill(c, version).value}, |Forced(c, p)|);
    }
  }

  lemma ThreeDistinct(a: Steps, b: Steps, d: Steps)
    requires Distinct(a) && Distinct(b) && Distinct(d)
    requires forall s :: s in a ==> s !in b && s !in d
    requires forall s :: s in b ==> s !in d
    ensures Distinct(a + b + d)
  {
    var all := a + b + d;
    forall i, j | 0 <= i < j < |all| ensures all[i] != all[j] {
      assert i < |a| ==> all[i] in a;
      assert |a| <= i < |a| + |b| ==> all[i] in b;
      assert |a| <= j < |a| + |b| ==> all[j] in b;
      assert j >= |a| + |b| ==> all[j] in d;
    }
  }

  lemma PiecesDiffer(c: Planning, p: Proposal, version: nat)
    requires ValidPlanning(c) && ValidProposal(p)
    ensures forall s :: s in Forced(c, p) ==> s.skill == Some(SceneTornado)
    ensures forall s :: s in Composed(c, p, version) ==> s.skill.Some? && s.skill != Some(SceneTornado)
    ensures forall s :: s in Social(p) ==> s.skill.None?
  {
    ComposedIsGood(c, p, version);
    GoodMiddleFits(c, p, version, Composed(c, p, version));
  }

  lemma MaterialDistinct(c: Planning, p: Proposal, version: nat)
    requires ValidPlanning(c) && ValidProposal(p)
    ensures Distinct(Material(c, p, version))
  {
    InputSteps(p);
    ComposedDistinct(c, p, version);
    PiecesDiffer(c, p, version);
    ThreeDistinct(Forced(c, p), Composed(c, p, version), Social(p));
  }

  lemma InsertedIdsDiffer(c: Planning, version: nat, s: Skill)
    ensures RoleStep(c, version, s).stepId != WanderStep(c, version).stepId
  {
    assert RoleStep(c, version, s).stepId[0] == 'r';
    assert WanderStep(c, version).stepId[0] == 'w';
  }

  /** The inserted steps are what the ids can clash on. */
  predicate Inserted(c: Planning, p: Proposal, version: nat, s: ProposalStep)
    requires ValidPlanning(c)
  {
    || (LacksRole(c, p, version) && s == RoleOf(c, version))
    || (LacksMove(c, p) && s == WanderStep(c, version))
  }

  lemma InsertedIsNoInput(c: Planning, p: Proposal, version: nat, s: ProposalStep)
    requires ValidPlanning(c) && ValidProposal(p) && Inserted(c, p, version, s) && s in Material(c, p, version)
    ensures s !in Forced(c, p) + Others(c, p) + Social(p) && s in Composed(c, p, version)
  {
    RoleSkillIsAuthorized(c, version);
    InsertedAreNew(c, p, version);
    assert s in Forced(c, p) ==> s.skill == Some(SceneTornado);
    assert s in Social(p) ==> s.skill.None?;
  }

  lemma MaterialOrigin(c: Planning, p: Proposal, version: nat, s: ProposalStep)
    requires ValidPlanning(c) && s in Material(c, p, version)
    ensures (s in Forced(c, p) + Others(c, p) + Social(p) && s in p.steps) || Inserted(c, p, version, s)
  {
    if s in Composed(c, p, version) {
      ComposedOrigin(c, p, version, s);
    }
  }

  lemma InputsDiffer(p: Proposal, x: ProposalStep, y: ProposalStep)
    requires ValidProposal(p) && x in p.steps && y in p.steps && x != y
    ensures x.stepId != y.stepId
  {
    InputSteps(p);
  }

  lemma InsertedDiffer(c: Planning, p: Proposal, version: nat, x: ProposalStep, y: ProposalStep)
    requires ValidPlanning(c) && Inserted(c, p, version, x) && Inserted(c, p, version, y) && x != y
    ensures x.stepId != y.stepId
  {
    if RoleSkill(c, version).Some? {
      InsertedIdsDiffer(c, version, RoleSkill(c, version).value);
    }
  }

  lemma InsertedIsNew(c: Planning, p: Proposal, version: nat, x: ProposalStep, y: ProposalStep)
    requires ValidPlanning(c) && ValidProposal(p) && x in Material(c, p, version) && y in Material(c, p, version)
    requires IdsFit(c, p, version) && Inserted(c, p, version, x) && y in Forced(c, p) + Others(c, p) + Social(p)
    ensures x.stepId != y.stepId
  {
    InsertedIsNoInput(c, p, version, x);
  }

  /** Two steps of the material share an id only when one is inserted and its id is taken. */
  lemma ClashIsTaken(c: Planning, p: Proposal, version: nat, x: ProposalStep, y: ProposalStep)
    requires ValidPlanning(c) && ValidProposal(p) && x in Material(c, p, version) && y in Material(c, p, version)
    requires IdsFit(c, p, version) && x != y
    ensures x.stepId != y.stepId
  {
    MaterialOrigin(c, p, version, x);
    MaterialOrigin(c, p, version, y);
    if Inserted(c, p, version, x) {
      if Inserted(c, p, version, y) {
        InsertedDiffer(c, p, version, x, y);
      } else {
        InsertedIsNew(c, p, version, x, y);
      }
    } else if Inserted(c, p, version, y) {
      InsertedIsNew(c, p, version, y, x);
    } else {
      InputsDiffer(p, x, y);
    }
  }

  lemma FitIds(c: Planning, p: Proposal, version: nat)
    requires ValidPlanning(c) && ValidProposal(p)
    requires var all := Material(c, p, version);
             forall x, y :: x in all && y in all && x != y ==> x.stepId != y.stepId
    ensures IdsFit(c, p, version)
  {
    forall step | Inserted(c, p, version, step) && step in Composed(c, p, version)
      ensures !IdTaken(c, p, version, step)
    {
      assert step in Material(c, p, version);
      InsertedIsNoInput(c, p, version, step);
    }
  }

  lemma MaterialIdsIff(c: Planning, p: Proposal, version: nat)
    requires ValidPlanning(c) && ValidProposal(p)
    ensures IdsDistinct(Material(c, p, version)) <==> IdsFit(c, p, version)
  {
    MaterialDistinct(c, p, version);
    IdsDistinctIff(Material(c, p, version));
    if IdsDistinct(Material(c, p, version)) {
      FitIds(c, p, version);
    }
    if IdsFit(c, p, version) {
      forall x, y | x in Material(c, p, version) && y in Material(c, p, version) && x != y
        ensures x.stepId != y.stepId
      {
        ClashIsTaken(c, p, version, x, y);
      }
    }
  }

  lemma SameElementsSameIds(a: Steps, b: Steps)
    requires Distinct(a) && multiset(a) == multiset(b)
    ensures IdsDistinct(a) <==> IdsDistinct(b)
  {
    DistinctMultiset(a);
    MultisetDistinct(b);
    forall x ensures x in a <==> x in b {
      assert x in a <==> x in multiset(a);
      assert x in b <==> x in multiset(b);
    }
    IdsDistinctIff(a);
    IdsDistinctIff(b);
  }

  lemma RebuiltIds(c: Planning, p: Proposal, middle: Steps)
    ensures UniqueIds(ProposalSlots(Rebuild(c, p, middle))) <==> IdsDistinct(Forced(c, p) + middle + Social(p))
  {
    var steps, all := Rebuild(c, p, middle), Forced(c, p) + middle + Social(p);
    assert forall i :: 0 <= i < |steps| ==> ProposalSlots(steps)[i].stepId == all[i].stepId;
  }

  lemma ArrangedIds(c: Planning, p: Proposal, version: nat, recent: Option<Skill>)
    requires ValidPlanning(c) && ValidProposal(p)
    ensures UniqueIds(ProposalSlots(Rebuild(c, p, Arranged(c, p, version, recent)))) <==> IdsFit(c, p, version)
  {
    var middle := Arranged(c, p, version, recent);
    MaterialIdsIff(c, p, version);
    MaterialDistinct(c, p, version);
    ArrangedElements(c, p, version, recent);
    SameElementsSameIds(Material(c, p, version), Forced(c, p) + middle + Social(p));
    RebuiltIds(c, p, middle);
  }

  /** A diversified proposal passes the layout rules if and only if nothing was left of the input, or three executable
      steps are and the inserted ids are new. */
  lemma DiversifiedFitsIff(c: Planning, p: Proposal, version: nat, recent: seq<RecentAction>)
    requires ValidPlanning(c) && ValidProposal(p) && c.catalog
    ensures ValidLayout(ProposalSlots(Diversified(c, p, version, recent).steps)) <==> Fits(c, p, version)
  {
    var middle := Arranged(c, p, version, MostRecentSuccess(recent));
    ArrangedFacts(c, p, version, MostRecentSuccess(recent));
    ArrangedElements(c, p, version, MostRecentSuccess(recent));
    ComposedKeeps(c, p, version);
    RebuiltLayout(c, p, version, middle);
    ArrangedIds(c, p, version, MostRecentSuccess(recent));
    assert Rebuild(c, p, middle) == [] <==> Forced(c, p) == [] && middle == [] && Social(p) == [];
  }
}
