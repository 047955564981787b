/** Availability and weight of a skill, read off the rules a policy was built from. */
module CapacityRules {
  import opened Wrappers
  import opened Skills
  import opened ActivityCapacities

  /** What `NewPolicy` promises of the policy it builds. */
  predicate BuiltFrom(p: Policy, rules: seq<Rule>) {
    && (forall i :: 0 <= i < |rules| ==> Identity(rules[i]) in p.rules && p.rules[Identity(rules[i])] == rules[i])
    && (forall k :: k in p.rules ==> p.rules[k] in rules && k == (p.rules[k].skill, p.rules[k].sceneId))
  }

  /** Rule `i` is the skill's own rule for this scene. */
  predicate SceneRule(rules: seq<Rule>, skill: Skill, sceneId: Option<int>, i: nat) {
    i < |rules| && rules[i].skill == skill && rules[i].sceneId == sceneId
  }

  predicate HasSceneRule(rules: seq<Rule>, skill: Skill, sceneId: Option<int>) {
    exists r :: r in rules && r.skill == skill && r.sceneId == sceneId
  }

  /** The rule in force: the scene's own, else the general one, which names no scene. */
  predicate Governs(rules: seq<Rule>, skill: Skill, sceneId: Option<int>, i: nat) {
    || SceneRule(rules, skill, sceneId, i)
    || (SceneRule(rules, skill, None, i) && !HasSceneRule(rules, skill, sceneId))
  }

  lemma RuleForIs(p: Policy, rules: seq<Rule>, skill: Skill, sceneId: Option<int>, i: nat)
    requires BuiltFrom(p, rules) && Governs(rules, skill, sceneId, i)
    ensures RuleFor(p, skill, sceneId) == Some(rules[i])
  {
    assert Identity(rules[i]) == (skill, rules[i].sceneId);
    if (skill, sceneId) in p.rules {
      assert p.rules[(skill, sceneId)] in rules;
    }
  }

  lemma NoRuleFor(p: Policy, rules: seq<Rule>, skill: Skill, sceneId: Option<int>)
    requires BuiltFrom(p, rules) && !HasSceneRule(rules, skill, sceneId) && !HasSceneRule(rules, skill, None)
    ensures RuleFor(p, skill, sceneId).None?
  {
    forall k | k in p.rules ensures HasSceneRule(rules, k.0, k.1) {
      assert p.rules[k] in rules;
    }
  }

  /** A governed skill is available exactly while fewer are active than the rule allows. */
  lemma GovernedAvailability(c: Snapshot, rules: seq<Rule>, skill: Skill, i: nat)
    requires BuiltFrom(c.policy, rules) && Governs(rules, skill, c.sceneId, i)
    ensures IsAvailable(c, skill) <==> (if skill in c.active then c.active[skill] else 0) < rules[i].limit
  {
    RuleForIs(c.policy, rules, skill, c.sceneId, i);
  }

  /** A skill without a rule for the scene or in general is always available. */
  lemma UngovernedAvailability(c: Snapshot, rules: seq<Rule>, skill: Skill)
    requires BuiltFrom(c.policy, rules)
    requires !HasSceneRule(rules, skill, c.sceneId) && !HasSceneRule(rules, skill, None)
    ensures IsAvailable(c, skill)
  {
    NoRuleFor(c.policy, rules, skill, c.sceneId);
  }

  /** Its weight is the rule's, lessened by the square of the share that is taken. */
  lemma GovernedWeight(c: Snapshot, rules: seq<Rule>, skill: Skill, i: nat)
    requires ValidSnapshot(c) && BuiltFrom(c.policy, rules) && Governs(rules, skill, c.sceneId, i)
    ensures rules[i].limit > 0
    ensures var active := if skill in c.active then c.active[skill] else 0;
            var free := if active >= rules[i].limit then 0.0 else 1.0 - active as real / rules[i].limit as real;
            EffectiveWeight(c, skill) == rules[i].baseWeight * free * free
  {
    RuleForIs(c.policy, rules, skill, c.sceneId, i);
    assert (skill, rules[i].sceneId) in c.policy.rules;
    var active, limit := if skill in c.active then c.active[skill] else 0, rules[i].limit;
    RatioPositive(active, limit);
    assert RemainingRatio(active, limit) == if active >= limit then 0.0 else 1.0 - active as real / limit as real;
  }

  /** Without a rule it is the skill's configured weight, else one. */
  lemma UngovernedWeight(c: Snapshot, rules: seq<Rule>, skill: Skill)
    requires ValidSnapshot(c) && BuiltFrom(c.policy, rules)
    requires !HasSceneRule(rules, skill, c.sceneId) && !HasSceneRule(rules, skill, None)
    ensures EffectiveWeight(c, skill) == if skill in c.policy.weights then c.policy.weights[skill] else 1.0
  {
    NoRuleFor(c.policy, rules, skill, c.sceneId);
  }
}
