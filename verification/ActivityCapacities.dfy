/** Activity capacity: rules, occupancy, and the weighted ranking of the skills that still have room.
    The score of a skill, the negated logarithm of a hashed number in (0,1), is any positive real. */
module ActivityCapacities {
  import opened Wrappers
  import opened Skills
  import opened Orders

  datatype Scope = Gateway | Scene | SceneInstance

  datatype Rule = Rule(skill: Skill, limit: int, sceneId: Option<int>, baseWeight: real, scope: Scope)

  datatype Policy = Policy(rules: map<(Skill, Option<int>), Rule>, weights: map<Skill, real>)

  datatype Snapshot = Snapshot(sceneId: Option<int>, active: map<Skill, int>, policy: Policy)

  predicate ValidRule(r: Rule) {
    r.limit > 0 && r.baseWeight > 0.0
  }

  predicate ValidPolicy(p: Policy) {
    && (forall k :: k in p.rules ==> ValidRule(p.rules[k]) && k == (p.rules[k].skill, p.rules[k].sceneId))
    && (forall s :: s in p.weights ==> p.weights[s] > 0.0)
  }

  predicate ValidSnapshot(c: Snapshot) {
    ValidPolicy(c.policy) && forall s :: s in c.active ==> c.active[s] >= 0
  }

  function Identity(r: Rule): (Skill, Option<int>) {
    (r.skill, r.sceneId)
  }

  /** Building a policy fails exactly on two rules for one identity or a weight that is not positive; otherwise
      each rule is found under its identity and nothing else is. */
  method NewPolicy(rules: seq<Rule>, weights: map<Skill, real>) returns (r: Option<Policy>)
    requires forall i :: 0 <= i < |rules| ==> ValidRule(rules[i])
    ensures r.Some? <==> (forall i, j :: 0 <= i < j < |rules| ==> Identity(rules[i]) != Identity(rules[j]))
                         && (forall s :: s in weights ==> weights[s] > 0.0)
    ensures r.Some? ==> ValidPolicy(r.value) && r.value.weights == weights
    ensures r.Some? ==> forall i :: 0 <= i < |rules| ==>
              Identity(rules[i]) in r.value.rules && r.value.rules[Identity(rules[i])] == rules[i]
    ensures r.Some? ==> forall k :: k in r.value.rules ==> r.value.rules[k] in rules
  {
    var byIdentity: map<(Skill, Option<int>), Rule> := map[];
    for i := 0 to |rules|
      invariant forall j, k :: 0 <= j < k < i ==> Identity(rules[j]) != Identity(rules[k])
      invariant forall j :: 0 <= j < i ==> Identity(rules[j]) in byIdentity
                                           && byIdentity[Identity(rules[j])] == rules[j]
      invariant forall k :: k in byIdentity ==> byIdentity[k] in rules[..i] && k == Identity(byIdentity[k])
    {
      if Identity(rules[i]) in byIdentity {
        return None;
      }
      byIdentity := byIdentity[Identity(rules[i]) := rules[i]];
    }
    if !(forall s :: s in weights ==> weights[s] > 0.0) {
      return None;
    }
    return Some(Policy(byIdentity, weights));
  }

  /** A rule for the scene itself wins over the skill's general rule. */
  function RuleFor(p: Policy, skill: Skill, sceneId: Option<int>): Option<Rule> {
    if (skill, sceneId) in p.rules then Some(p.rules[(skill, sceneId)])
    else if (skill, None) in p.rules then Some(p.rules[(skill, None)])
    else None
  }

  function LimitFor(p: Policy, skill: Skill, sceneId: Option<int>): Option<int> {
    match RuleFor(p, skill, sceneId)
    case None => None
    case Some(rule) => Some(rule.limit)
  }

  function BaseWeightFor(p: Policy, skill: Skill, sceneId: Option<int>): real {
    match RuleFor(p, skill, sceneId)
    case Some(rule) => rule.baseWeight
    case None => if skill in p.weights then p.weights[skill] else 1.0
  }

  function ActiveCount(c: Snapshot, skill: Skill): int {
    if skill in c.active then c.active[skill] else 0
  }

  function Remaining(c: Snapshot, skill: Skill): Option<int> {
    match LimitFor(c.policy, skill, c.sceneId)
    case None => None
    case Some(limit) => Some(if limit - ActiveCount(c, skill) > 0 then limit - ActiveCount(c, skill) else 0)
  }

  predicate IsAvailable(c: Snapshot, skill: Skill) {
    Remaining(c, skill).None? || Remaining(c, skill).value > 0
  }

  function RemainingRatio(active: int, limit: int): real
    requires limit > 0
  {
    var ratio := 1.0 - active as real / limit as real;
    if ratio > 0.0 then ratio else 0.0
  }

  function Weigh(base: real, active: int, limit: int): real
    requires limit > 0
  {
    base * RemainingRatio(active, limit) * RemainingRatio(active, limit)
  }

  function EffectiveWeight(c: Snapshot, skill: Skill): real
    requires ValidSnapshot(c)
  {
    var base := BaseWeightFor(c.policy, skill, c.sceneId);
    match LimitFor(c.policy, skill, c.sceneId)
    case None => base
    case Some(limit) => Weigh(base, ActiveCount(c, skill), limit)
  }

  lemma Scaling(a: real, b: real, n: real)
    requires n > 0.0
    ensures a * n < b * n <==> a < b
    ensures a * n <= b * n <==> a <= b
  {
    if a < b {
      assert (b - a) * n > 0.0;
    } else if b < a {
      assert (a - b) * n > 0.0;
    }
  }

  lemma RatioPositive(active: int, limit: int)
    requires limit > 0
    ensures RemainingRatio(active, limit) > 0.0 <==> active < limit
  {
    Scaling(active as real / limit as real, 1.0, limit as real);
  }

  lemma ProductPositive(a: real, b: real)
    requires a >= 0.0 && b >= 0.0
    ensures a * b >= 0.0
    ensures a * b > 0.0 <==> a > 0.0 && b > 0.0
  {
  }

  lemma WeighPositive(base: real, active: int, limit: int)
    requires limit > 0 && base > 0.0
    ensures Weigh(base, active, limit) > 0.0 <==> active < limit
    ensures Weigh(base, active, limit) >= 0.0
  {
    var ratio := RemainingRatio(active, limit);
    RatioPositive(active, limit);
    ProductPositive(base, ratio);
    ProductPositive(base * ratio, ratio);
  }

  lemma BaseWeightPositive(c: Snapshot, skill: Skill)
    requires ValidSnapshot(c)
    ensures BaseWeightFor(c.policy, skill, c.sceneId) > 0.0
    ensures LimitFor(c.policy, skill, c.sceneId).Some? ==> LimitFor(c.policy, skill, c.sceneId).value > 0
  {
  }

  /** A skill has a positive weight exactly when it has capacity left. */
  lemma WeightPositiveIffAvailable(c: Snapshot, skill: Skill)
    requires ValidSnapshot(c)
    ensures EffectiveWeight(c, skill) > 0.0 <==> IsAvailable(c, skill)
    ensures EffectiveWeight(c, skill) >= 0.0
  {
    BaseWeightPositive(c, skill);
    var limit := LimitFor(c.policy, skill, c.sceneId);
    if limit.Some? {
      WeighPositive(BaseWeightFor(c.policy, skill, c.sceneId), ActiveCount(c, skill), limit.value);
    }
  }

  // ---- Ranking ----

  datatype Scored = Scored(priority: real, skill: Skill)

  predicate ScoredBefore(a: Scored, b: Scored) {
    a.priority < b.priority || (a.priority == b.priority && StringBefore(Name(a.skill), Name(b.skill)))
  }

  /** A skill's rank key under a scoring of the skills. */
  function Key(c: Snapshot, score: Skill -> real, skill: Skill): Scored
    requires ValidSnapshot(c)
  {
    var w := EffectiveWeight(c, skill);
    Scored(if w > 0.0 then score(skill) / w else 0.0, skill)
  }

  function ScoredOf(c: Snapshot, score: Skill -> real, candidates: seq<Skill>): seq<Scored>
    requires ValidSnapshot(c)
  {
    if candidates == [] then []
    else
      var last := candidates[|candidates| - 1];
      ScoredOf(c, score, candidates[..|candidates| - 1])
      + (if EffectiveWeight(c, last) <= 0.0 then [] else [Key(c, score, last)])
  }

  function SkillsOf(s: seq<Scored>): (r: seq<Skill>)
    ensures |r| == |s| && forall i :: 0 <= i < |s| ==> r[i] == s[i].skill
  {
    seq(|s|, i requires 0 <= i < |s| => s[i].skill)
  }

  function WeightedOrder(c: Snapshot, score: Skill -> real, candidates: seq<Skill>): seq<Skill>
    requires ValidSnapshot(c)
  {
    SkillsOf(Sort(ScoredOf(c, score, Dedup(candidates)), (a, b) => ScoredBefore(a, b)))
  }

  /** The ranking loop computes `WeightedOrder`. */
  method RankCandidates(c: Snapshot, score: Skill -> real, candidates: seq<Skill>) returns (r: seq<Skill>)
    requires ValidSnapshot(c) && forall s :: score(s) > 0.0
    ensures r == WeightedOrder(c, score, candidates)
  {
    var unique := Dedup(candidates);
    var scored: seq<Scored> := [];
    for i := 0 to |unique|
      invariant scored == ScoredOf(c, score, unique[..i])
    {
      var weight := EffectiveWeight(c, unique[i]);
      assert unique[..i + 1][..i] == unique[..i];
      if weight <= 0.0 {
        continue;
      }
      scored := scored + [Scored(score(unique[i]) / weight, unique[i])];
    }
    assert unique[..|unique|] == unique;
    return SkillsOf(Sort(scored, (a, b) => ScoredBefore(a, b)));
  }

  /** Candidates are names, so two with the same name are the same candidate. */
  ghost predicate NamesTellApart(candidates: seq<Skill>) {
    forall a, b :: a in candidates && b in candidates && Name(a) == Name(b) ==> a == b
  }

  lemma CanonicalNamesTellApart(candidates: seq<Skill>)
    requires forall s :: s in candidates ==> Canonical(s)
    ensures NamesTellApart(candidates)
  {
    forall a, b | a in candidates && b in candidates && Name(a) == Name(b) ensures a == b {
      NamesDiffer(a, b);
    }
  }

  lemma ScoredBeforeIsWeakOrder()
    ensures WeakOrder((a: Scored, b: Scored) => ScoredBefore(a, b))
  {
    forall a: Scored, b: Scored | ScoredBefore(a, b) ensures !ScoredBefore(b, a) {
      StringOrderTotal(Name(a.skill), Name(b.skill));
    }
    forall a: Scored, b: Scored, c: Scored | !ScoredBefore(b, a) && !ScoredBefore(c, b) ensures !ScoredBefore(c, a) {
      StringOrderTotal(Name(a.skill), Name(b.skill));
      StringOrderTotal(Name(b.skill), Name(c.skill));
      if ScoredBefore(c, a) && StringBefore(Name(c.skill), Name(a.skill)) {
        if StringBefore(Name(a.skill), Name(b.skill)) {
          StringOrderTransitive(Name(c.skill), Name(a.skill), Name(b.skill));
        }
      }
    }
  }

  lemma {:induction false} ScoredOfMembers(c: Snapshot, score: Skill -> real, candidates: seq<Skill>)
    requires ValidSnapshot(c) && Distinct(candidates)
    ensures Distinct(ScoredOf(c, score, candidates)) && Distinct(SkillsOf(ScoredOf(c, score, candidates)))
    ensures forall x :: x in ScoredOf(c, score, candidates)
                   <==> x.skill in candidates && IsAvailable(c, x.skill) && x == Key(c, score, x.skill)
  {
    if candidates != [] {
      var last, init := candidates[|candidates| - 1], candidates[..|candidates| - 1];
      ScoredOfMembers(c, score, init);
      WeightPositiveIffAvailable(c, last);
      assert candidates == init + [last];
      assert last !in init;
      var s := ScoredOf(c, score, init);
      forall i | 0 <= i < |s| ensures s[i].skill != last {
        assert s[i] in s;
      }
    }
  }

  /** The ranking, as a sequence of keys: distinct, sorted, one key for each candidate with room. */
  lemma RankedKeys(c: Snapshot, score: Skill -> real, candidates: seq<Skill>) returns (keys: seq<Scored>)
    requires ValidSnapshot(c)
    ensures WeightedOrder(c, score, candidates) == SkillsOf(keys)
    ensures Distinct(keys) && Sorted(keys, (a, b) => ScoredBefore(a, b))
    ensures forall x :: x in keys <==> x.skill in candidates && IsAvailable(c, x.skill) && x == Key(c, score, x.skill)
  {
    var scored := ScoredOf(c, score, Dedup(candidates));
    var before := (a: Scored, b: Scored) => ScoredBefore(a, b);
    ScoredOfMembers(c, score, Dedup(candidates));
    SortDistinct(scored, before);
    SortMembers(scored, before);
    ScoredBeforeIsWeakOrder();
    SortSorts(scored, before);
    keys := Sort(scored, before);
  }

  /** The ranking is free of duplicates and lists exactly the candidates with capacity left. */
  lemma RankingMembers(c: Snapshot, score: Skill -> real, candidates: seq<Skill>)
    requires ValidSnapshot(c)
    ensures var r := WeightedOrder(c, score, candidates);
            && Distinct(r)
            && forall s :: s in r <==> s in candidates && IsAvailable(c, s)
  {
    var keys := RankedKeys(c, score, candidates);
    var r := WeightedOrder(c, score, candidates);
    forall i, j | 0 <= i < j < |r| ensures r[i] != r[j] {
      assert keys[i] in keys && keys[j] in keys;
    }
    forall s ensures s in r <==> s in candidates && IsAvailable(c, s) {
      if s in r {
        var i :| 0 <= i < |r| && r[i] == s;
        assert keys[i] in keys;
      }
      if s in candidates && IsAvailable(c, s) {
        assert Key(c, score, s) in keys;
        var i :| 0 <= i < |keys| && keys[i] == Key(c, score, s);
        assert r[i] == s;
      }
    }
  }

  /** The ranking depends on which skills are candidates, not on their order or repetition. */
  lemma RankingDependsOnSet(c: Snapshot, score: Skill -> real, a: seq<Skill>, b: seq<Skill>)
    requires ValidSnapshot(c) && NamesTellApart(a)
    requires forall s :: s in a <==> s in b
    ensures WeightedOrder(c, score, a) == WeightedOrder(c, score, b)
  {
    var ka := RankedKeys(c, score, a);
    var kb := RankedKeys(c, score, b);
    forall x, y | x in ka && y in ka && x != y ensures ScoredBefore(x, y) || ScoredBefore(y, x) {
      StringOrderTotal(Name(x.skill), Name(y.skill));
    }
    SortedUnique(ka, kb, (p, q) => ScoredBefore(p, q));
  }

  /** Two listed candidates stand in the order of their keys. */
  lemma RankingPrecedes(c: Snapshot, score: Skill -> real, candidates: seq<Skill>, x: Skill, y: Skill)
    requires ValidSnapshot(c) && NamesTellApart(candidates)
    requires x in candidates && y in candidates && x != y && IsAvailable(c, x) && IsAvailable(c, y)
    ensures Precedes(WeightedOrder(c, score, candidates), x, y)
       <==> ScoredBefore(Key(c, score, x), Key(c, score, y))
  {
    var keys := RankedKeys(c, score, candidates);
    var r := WeightedOrder(c, score, candidates);
    var kx, ky := Key(c, score, x), Key(c, score, y);
    assert kx in keys && ky in keys;
    StringOrderTotal(Name(x), Name(y));
    SortedPrecedes(keys, (p, q) => ScoredBefore(p, q), kx, ky);
    if Precedes(r, x, y) {
      var i, j :| 0 <= i < j < |r| && r[i] == x && r[j] == y;
      assert keys[i] in keys && keys[j] in keys;
      assert keys[i] == kx && keys[j] == ky;
    }
    if Precedes(keys, kx, ky) {
      var i, j :| 0 <= i < j < |keys| && keys[i] == kx && keys[j] == ky;
      assert r[i] == x && r[j] == y;
    }
  }

  // ---- Occupancy ----

  function Occupied(c: Snapshot, skill: Skill, active: int): Snapshot {
    c.(active := c.active[skill := active])
  }

  lemma RatioFalls(low: int, high: int, limit: int)
    requires low <= high && limit > 0
    ensures RemainingRatio(high, limit) <= RemainingRatio(low, limit)
  {
    Scaling(low as real / limit as real, high as real / limit as real, limit as real);
  }

  lemma ProductFalls(a: real, b: real, c: real, d: real)
    requires 0.0 <= a <= c && 0.0 <= b <= d
    ensures a * b <= c * d
  {
    assert a * b <= c * b;
    assert c * b <= c * d;
  }

  lemma QuotientRises(s: real, low: real, high: real)
    requires s > 0.0 && 0.0 < low <= high
    ensures 0.0 < s / high <= s / low
  {
    var q := s / low;
    Scaling(low, high, q);
    Scaling(s / high, q, high);
  }

  lemma WeighFalls(base: real, low: int, high: int, limit: int)
    requires limit > 0 && base > 0.0 && low <= high
    ensures Weigh(base, high, limit) <= Weigh(base, low, limit)
  {
    var was, now := RemainingRatio(low, limit), RemainingRatio(high, limit);
    RatioFalls(low, high, limit);
    ProductFalls(base, now, base, was);
    ProductPositive(base, now);
    ProductFalls(base * now, now, base * was, was);
  }

  /** A skill's weight never rises with its occupancy. */
  lemma WeightFalls(c: Snapshot, skill: Skill, active: int)
    requires ValidSnapshot(c) && active >= ActiveCount(c, skill) && active >= 0
    ensures ValidSnapshot(Occupied(c, skill, active))
    ensures EffectiveWeight(Occupied(c, skill, active), skill) <= EffectiveWeight(c, skill)
  {
    BaseWeightPositive(c, skill);
    var limit := LimitFor(c.policy, skill, c.sceneId);
    if limit.Some? {
      WeighFalls(BaseWeightFor(c.policy, skill, c.sceneId), ActiveCount(c, skill), active, limit.value);
    }
  }

  /** Raising one skill's occupancy never moves it ahead of a skill it was behind. */
  lemma OccupancyNeverPromotes(c: Snapshot, score: Skill -> real, candidates: seq<Skill>, x: Skill, y: Skill,
                               active: int)
    requires ValidSnapshot(c) && NamesTellApart(candidates) && score(x) > 0.0 && score(y) > 0.0
    requires x != y && active >= ActiveCount(c, x) && active >= 0
    requires Precedes(WeightedOrder(c, score, candidates), y, x)
    ensures ValidSnapshot(Occupied(c, x, active))
    ensures x in WeightedOrder(Occupied(c, x, active), score, candidates)
        ==> Precedes(WeightedOrder(Occupied(c, x, active), score, candidates), y, x)
  {
    var d := Occupied(c, x, active);
    WeightFalls(c, x, active);
    RankingMembers(c, score, candidates);
    RankingMembers(d, score, candidates);
    RankingPrecedes(c, score, candidates, y, x);
    assert IsAvailable(d, y) == IsAvailable(c, y);
    if x in WeightedOrder(d, score, candidates) {
      WeightPositiveIffAvailable(c, x);
      WeightPositiveIffAvailable(d, x);
      QuotientRises(score(x), EffectiveWeight(d, x), EffectiveWeight(c, x));
      assert Key(d, score, y) == Key(c, score, y);
      RankingPrecedes(d, score, candidates, y, x);
    }
  }
}
