/** Where every step of a diversified proposal comes from, and in which order they stand. */
module DiversifiedSteps {
  import opened Wrappers
  import opened Skills
  import opened Orders
  import opened Lists
  import opened ActivityPlans
  import opened ActivityCapacities
  import opened FallbackPlans
  import opened PlanDiversifier

  /** The input's step with all its fields; a move that had no target has the catalogue's. */
  predicate OwnStep(c: Planning, s: ProposalStep, t: ProposalStep) {
    t == if s.skill == Some(MoveTo) && s.target.None? then s.(target := c.target) else s
  }

  /** A step with the skill the role would rather use, under an id made of the plan version, the role's bucket and the
      skill. */
  predicate IsRoleStep(c: Planning, version: nat, t: ProposalStep)
    requires ValidPlanning(c)
  {
    && t.skill.Some? && t.skill == RoleSkill(c, version) && t.schema == Some("v1") && t.target.None?
    && t.phase == PhaseForSkill(t.skill.value)
    && t.stepId == "role-" + Decimal(version) + "-" + Decimal(c.bucket % 100000) + "-" + Name(t.skill.value)
  }

  /** A walk to the catalogue's target, where moving is published and authorised. */
  predicate IsWanderStep(c: Planning, version: nat, t: ProposalStep) {
    && t.skill == Some(MoveTo) && t.schema == Some("v1") && t.phase == "movement"
    && c.target.Some? && t.target == c.target
    && (MoveTo, "v1") in c.published && c.authorizes(MoveTo, "v1")
    && t.stepId == "wander-" + Decimal(version) + "-" + Decimal(c.bucket % 100000)
  }

  /** The number that a text of decimal digits reads as. */
  function Reads(s: string): nat
    requires forall i :: 0 <= i < |s| ==> '0' <= s[i] <= '9'
  {
    if s == "" then 0 else Reads(s[..|s| - 1]) * 10 + (s[|s| - 1] as int - '0' as int)
  }

  /** The numbers in step ids are written in decimal, without leading zeros. */
  lemma {:induction false} DecimalReads(n: nat)
    ensures forall i :: 0 <= i < |Decimal(n)| ==> '0' <= Decimal(n)[i] <= '9'
    ensures Decimal(n) != "" && Reads(Decimal(n)) == n && (n > 0 ==> Decimal(n)[0] != '0')
  {
    var digit := "0123456789"[n % 10];
    assert digit as int == '0' as int + n % 10;
    if n < 10 {
      assert Decimal(n)[..0] == "";
    } else {
      DecimalReads(n / 10);
      assert Decimal(n)[..|Decimal(n)| - 1] == Decimal(n / 10);
    }
  }

  /** The input step survives: it is executable, leaves the Lobby only from the Lobby, has room, and is no move without
      a target to go to. */
  predicate Survives(c: Planning, s: ProposalStep) {
    && s.skill.Some? && s.skill != Some(SceneTornado)
    && (c.capacity.None? || IsAvailable(c.capacity.value, s.skill.value))
    && (s.skill == Some(MoveTo) ==> c.target.Some?)
  }

  lemma OthersIff(c: Planning, p: Proposal, s: ProposalStep)
    ensures s in Others(c, p) <==> s in p.steps && Survives(c, s)
    ensures s in Forced(c, p) <==> s in p.steps && c.lobby && s.skill == Some(SceneTornado)
    ensures s in Social(p) <==> s in p.steps && s.skill.None?
  {
  }

  /** One filled step of the middle. */
  predicate MiddleStep(c: Planning, p: Proposal, version: nat, t: ProposalStep)
    requires ValidPlanning(c)
  {
    || (exists s :: s in p.steps && Survives(c, s) && OwnStep(c, s, t))
    || IsRoleStep(c, version, t)
    || IsWanderStep(c, version, t)
  }

  lemma FilledIs(c: Planning, p: Proposal, version: nat, s: ProposalStep)
    requires ValidPlanning(c) && Allowed(c, p, version, s)
    ensures MiddleStep(c, p, version, FillTarget(c, s))
  {
    RoleSkillIsAuthorized(c, version);
    OthersIff(c, p, s);
    if s in Others(c, p) {
      assert OwnStep(c, s, FillTarget(c, s));
    }
  }

  lemma FilledMiddle(c: Planning, p: Proposal, version: nat, arranged: Steps, t: ProposalStep)
    requires ValidPlanning(c) && forall s :: s in arranged ==> Allowed(c, p, version, s)
    requires t in Normalized(c, arranged)
    ensures MiddleStep(c, p, version, t)
  {
    var i :| 0 <= i < |arranged| && Normalized(c, arranged)[i] == t;
    assert arranged[i] in arranged;
    FilledIs(c, p, version, arranged[i]);
  }

  lemma ArrangedAllowed(c: Planning, p: Proposal, version: nat, recent: Option<Skill>)
    requires ValidPlanning(c) && ValidProposal(p)
    ensures var arranged := Arranged(c, p, version, recent);
            |arranged| == MiddleSize(c, p, version) && forall s :: s in arranged ==> Allowed(c, p, version, s)
  {
    ArrangedFacts(c, p, version, recent);
    ArrangedElements(c, p, version, recent);
    ComposedKeeps(c, p, version);
  }

  lemma MiddleComesFrom(c: Planning, p: Proposal, version: nat, recent: Option<Skill>)
    requires ValidPlanning(c) && ValidProposal(p)
    ensures var middle := Normalized(c, Arranged(c, p, version, recent));
            |middle| == MiddleSize(c, p, version) && forall t :: t in middle ==> MiddleStep(c, p, version, t)
  {
    var arranged := Arranged(c, p, version, recent);
    ArrangedAllowed(c, p, version, recent);
    forall t | t in Normalized(c, arranged) ensures MiddleStep(c, p, version, t) {
      FilledMiddle(c, p, version, arranged, t);
    }
  }

  lemma NormalizedConcat(c: Planning, a: Steps, b: Steps)
    ensures Normalized(c, a + b) == Normalized(c, a) + Normalized(c, b)
  {
  }

  lemma NormalizedSame(c: Planning, a: Steps)
    requires forall s :: s in a ==> s.skill != Some(MoveTo)
    ensures Normalized(c, a) == a
  {
  }

  lemma PiecesHaveNoMove(c: Planning, p: Proposal)
    ensures forall s :: s in Forced(c, p) ==> s.skill != Some(MoveTo)
    ensures forall s :: s in Social(p) ==> s.skill != Some(MoveTo)
  {
  }

  lemma RebuiltPieces(c: Planning, p: Proposal, arranged: Steps)
    ensures Rebuild(c, p, arranged) == Forced(c, p) + Normalized(c, arranged) + Social(p)
  {
    PiecesHaveNoMove(c, p);
    NormalizedSame(c, Forced(c, p));
    NormalizedSame(c, Social(p));
    NormalizedConcat(c, Forced(c, p) + arranged, Social(p));
    NormalizedConcat(c, Forced(c, p), arranged);
  }

  lemma DiversifiedPieces(c: Planning, p: Proposal, version: nat, recent: seq<RecentAction>)
    requires ValidPlanning(c) && c.catalog
    ensures var r, middle := Diversified(c, p, version, recent), Arranged(c, p, version, MostRecentSuccess(recent));
            && r.goalId == p.goalId && r.goalSummary == p.goalSummary
            && (r != p ==> r.steps == Rebuild(c, p, middle))
  {
  }

  /** With a catalogue, a proposal that is not returned as it was is the input's forced steps, a middle and the input's
      social steps. Forced and social steps are the input's own, in its order; every step of the middle is a surviving
      input step with its own target, or the catalogue's when it had none, or the role's step, or a walk to the
      catalogue's target. */
  lemma StepsComeFrom(c: Planning, p: Proposal, version: nat, recent: seq<RecentAction>) returns (middle: Steps)
    requires ValidPlanning(c) && ValidProposal(p) && c.catalog
    ensures var r := Diversified(c, p, version, recent);
            && r.goalId == p.goalId && r.goalSummary == p.goalSummary
            && (r != p ==> r.steps == Forced(c, p) + middle + Social(p))
    ensures |middle| == MiddleSize(c, p, version) && forall t :: t in middle ==> MiddleStep(c, p, version, t)
  {
    var arranged := Arranged(c, p, version, MostRecentSuccess(recent));
    MiddleComesFrom(c, p, version, MostRecentSuccess(recent));
    RebuiltPieces(c, p, arranged);
    DiversifiedPieces(c, p, version, recent);
    middle := Normalized(c, arranged);
  }

  /** Forced and social steps stand in the order of the input. */
  lemma PiecesInOrder(c: Planning, p: Proposal, i: nat, j: nat)
    requires i < j
    ensures j < |Forced(c, p)| ==>
              exists k, l :: 0 <= k < l < |p.steps| && p.steps[k] == Forced(c, p)[i] && p.steps[l] == Forced(c, p)[j]
    ensures j < |Social(p)| ==>
              exists k, l :: 0 <= k < l < |p.steps| && p.steps[k] == Social(p)[i] && p.steps[l] == Social(p)[j]
    ensures j < |Others(c, p)| ==>
              exists k, l :: 0 <= k < l < |p.steps| && p.steps[k] == Others(c, p)[i] && p.steps[l] == Others(c, p)[j]
  {
    if j < |Forced(c, p)| {
      var k, l := FilterInOrder(p.steps, (s: ProposalStep) => c.lobby && s.skill == Some(SceneTornado), i, j);
    }
    if j < |Social(p)| {
      var k, l := FilterInOrder(p.steps, (s: ProposalStep) => s.skill.None?, i, j);
    }
    if j < |Others(c, p)| {
      var k, l := FilterInOrder(p.steps, (s: ProposalStep) => KeptOther(c, Forced(c, p), s), i, j);
    }
  }

  /** A move of the input that survives with a target of its own goes where it went. */
  lemma OwnTargetStays(c: Planning, p: Proposal, s: ProposalStep)
    requires s in p.steps && s.skill == Some(MoveTo) && s.target.Some?
    ensures FillTarget(c, s) == s
  {
  }

  // ---- Which skill the role would rather use ----

  /** Without a capacity snapshot the role's candidates take turns from one plan version to the next. */
  lemma RoleSkillTurns(c: Planning, version: nat)
    requires ValidPlanning(c) && c.capacity.None? && RoleCandidates(c) != []
    ensures var turn := if version >= 1 then c.bucket + (version - 1) else c.bucket;
            RoleSkill(c, version) == Some(Round(RoleCandidates(c), turn, 0))
  {
  }

  /** With one, it is a candidate with room that no other candidate stands before in the ranking. */
  lemma RoleSkillRanks(c: Planning, version: nat)
    requires ValidPlanning(c) && c.capacity.Some? && RoleCandidates(c) != []
    ensures var ranking := WeightedOrder(c.capacity.value, c.score, RoleCandidates(c));
            ranking != [] && RoleSkill(c, version) == Some(ranking[0])
  {
    RoleSkillIsAuthorized(c, version);
  }

  lemma RoleCandidatesAre(c: Planning, s: Skill)
    ensures s in RoleCandidates(c)
       <==> && s in ROLE_ORDER && (s, "v1") in c.published && c.authorizes(s, "v1")
            && (c.capacity.None? || IsAvailable(c.capacity.value, s))
  {
  }

  // ---- The last success ----

  /** The name an action's skill call was recorded under, or else requested under, if it succeeded. */
  function SuccessOf(a: RecentAction): Option<Skill> {
    if !a.succeeded then None else if a.skill.Some? then a.skill else a.requested
  }

  /** The last success is that of the first row that has one. */
  lemma {:induction false} MostRecentIs(actions: seq<RecentAction>, i: nat)
    requires i < |actions| && SuccessOf(actions[i]).Some? && forall j :: 0 <= j < i ==> SuccessOf(actions[j]).None?
    ensures MostRecentSuccess(actions) == SuccessOf(actions[i])
    decreases |actions|
  {
    if i > 0 {
      assert SuccessOf(actions[0]).None?;
      assert forall j :: 0 <= j < i - 1 ==> actions[1..][j] == actions[j + 1];
      MostRecentIs(actions[1..], i - 1);
    }
  }

  lemma {:induction false} NoRecentSuccess(actions: seq<RecentAction>)
    requires forall j :: 0 <= j < |actions| ==> SuccessOf(actions[j]).None?
    ensures MostRecentSuccess(actions).None?
    decreases |actions|
  {
    if actions != [] {
      assert SuccessOf(actions[0]).None?;
      NoRecentSuccess(actions[1..]);
    }
  }

  // ---- The order of the middle ----

  /** The position of the first step with the role's skill. */
  predicate FirstWithRole(steps: Steps, role: Option<Skill>, k: nat) {
    role.Some? && k < |steps| && steps[k].skill == role && forall i :: 0 <= i < k ==> steps[i].skill != role
  }

  lemma OpeningPieces(c: Planning, steps: Steps, role: Option<Skill>, k: nat)
    requires FirstWithRole(steps, role, k)
    ensures var rest := steps[..k] + steps[k + 1..];
            Opening(c, steps, role) == [steps[k]] + Rotate(rest, Rotation(c, |rest|))
  {
    var rest := steps[..k] + steps[k + 1..];
    assert FirstWithSkill(steps, role) == Some(k);
    assert ToFront(steps, k) == [steps[k]] + rest;
    assert ToFront(steps, k)[1..] == rest;
  }

  lemma RotationIsRound(c: Planning, rest: Steps, i: nat)
    requires i < |rest|
    ensures Rotate(rest, Rotation(c, |rest|))[i] == Round(rest, c.bucket, i)
  {
    RotateIsRound(rest, c.bucket, i);
  }

  lemma Behind(s: ProposalStep, rest: Steps, i: nat)
    requires i < |rest|
    ensures |[s] + rest| == 1 + |rest| && ([s] + rest)[0] == s && ([s] + rest)[1 + i] == rest[i]
  {
  }

  /** Before ranking, the role's step stands first and the others follow it, turned round by the role's bucket. */
  lemma OpeningWithRole(c: Planning, steps: Steps, role: Option<Skill>, k: nat, i: nat)
    requires FirstWithRole(steps, role, k) && i < |steps| - 1
    ensures |Opening(c, steps, role)| == |steps| && Opening(c, steps, role)[0] == steps[k]
    ensures Opening(c, steps, role)[1 + i] == Round(steps[..k] + steps[k + 1..], c.bucket, i)
  {
    var rest := steps[..k] + steps[k + 1..];
    OpeningPieces(c, steps, role, k);
    RotationIsRound(c, rest, i);
    Behind(steps[k], Rotate(rest, Rotation(c, |rest|)), i);
  }

  /** Without the role's skill all of them are turned round. */
  lemma OpeningWithoutRole(c: Planning, steps: Steps, role: Option<Skill>, i: nat)
    requires (role.None? || forall s :: s in steps ==> s.skill != role) && i < |steps|
    ensures Opening(c, steps, role)[i] == Round(steps, c.bucket, i)
  {
    assert role.Some? ==> FirstWithSkill(steps, role).None?;
    RotateIsRound(steps, c.bucket, i);
  }

  /** Outside the Lobby, when the first step would repeat the last success and some step would not, the first of those
      is pulled to the front. */
  lemma RepeatGivesWay(steps: Steps, recent: Option<Skill>, k: nat)
    requires recent.Some? && 0 < k < |steps| && steps[k].skill != recent
    requires forall i :: 0 <= i < k ==> steps[i].skill == recent
    ensures AvoidRepeat(steps, recent) == [steps[k]] + steps[..k] + steps[k + 1..]
  {
    assert steps[1..][k - 1] == steps[k];
    assert forall i :: 0 <= i < k - 1 ==> steps[1..][i] == steps[i + 1];
    assert FirstOther(steps[1..], recent) == Some(k - 1);
  }

  /** The middle before its targets are filled: the composed steps opened, ranked under a snapshot, and turned from a
      repeat outside the Lobby. */
  lemma ArrangedIs(c: Planning, p: Proposal, version: nat, recent: Option<Skill>)
    requires ValidPlanning(c)
    ensures var opening := Opening(c, Composed(c, p, version), RoleSkill(c, version));
            && (c.capacity.None? && c.lobby ==> Arranged(c, p, version, recent) == opening)
            && (c.capacity.None? && !c.lobby ==> Arranged(c, p, version, recent) == AvoidRepeat(opening, recent))
  {
  }
}
