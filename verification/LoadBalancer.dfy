/** Weighted round robin over a cached pool of model providers. */
module LoadBalancer {
  import opened Wrappers

  datatype ProviderId = ProviderId(text: string)

  datatype Provider = Provider(id: ProviderId, name: string, weight: int)

  datatype ModelType = Default | Fast | Other(name: string)

  const CACHE_TTL := 300.0

  datatype Unavailable = NoProviderAvailable

  // ---- What the methods compute ----

  function Repeat(id: ProviderId, weight: int): (r: seq<ProviderId>)
    ensures |r| == if weight > 0 then weight else 0
    ensures forall x :: x in r ==> x == id
  {
    if weight <= 0 then [] else [id] + Repeat(id, weight - 1)
  }

  /** Every provider's id, as often as its weight says, in pool order. */
  function Expanded(pool: seq<Provider>): seq<ProviderId> {
    if pool == [] then [] else Repeat(pool[0].id, pool[0].weight) + Expanded(pool[1..])
  }

  function Ids(pool: seq<Provider>): set<ProviderId> {
    set p | p in pool :: p.id
  }

  function Among(sequence: seq<ProviderId>, ids: set<ProviderId>): seq<ProviderId> {
    if sequence == [] then []
    else if sequence[0] in ids then [sequence[0]] + Among(sequence[1..], ids)
    else Among(sequence[1..], ids)
  }

  function Healthy(pool: seq<Provider>, up: set<ProviderId>): seq<Provider> {
    if pool == [] then []
    else if pool[0].id in up then [pool[0]] + Healthy(pool[1..], up)
    else Healthy(pool[1..], up)
  }

  /** The provider a dictionary keyed by id holds: the last one listed under it. */
  function ById(providers: seq<Provider>, id: ProviderId): Option<Provider> {
    if providers == [] then None
    else
      var last := providers[|providers| - 1];
      if last.id == id then Some(last) else ById(providers[..|providers| - 1], id)
  }

  /** The part of the sequence a selection walks over. */
  function Lane(sequence: seq<ProviderId>, providers: seq<Provider>): (r: seq<ProviderId>)
    ensures sequence != [] ==> r != []
  {
    var filtered := Among(sequence, Ids(providers));
    if filtered == [] then sequence else filtered
  }

  /** One selection: the provider, and the counter it leaves. */
  function Pick(sequence: seq<ProviderId>, counter: nat, providers: seq<Provider>): (Provider, nat)
    requires sequence != [] && providers != []
  {
    var lane := Lane(sequence, providers);
    var idx := counter % |lane|;
    var found := ById(providers, lane[idx]);
    (if found.Some? then found.value else providers[0], idx + 1)
  }

  /** The providers a selection chooses among: the healthy ones, all of them when none is healthy. */
  function Candidates(pool: seq<Provider>, up: set<ProviderId>): (r: seq<Provider>)
    ensures pool != [] ==> r != []
  {
    var healthy := Healthy(pool, up);
    if healthy == [] then pool else healthy
  }

  /** What the balancer keeps for one model type. */
  datatype Slot = Slot(
    pool: Option<seq<Provider>>,
    loadedAt: real,
    sequence: Option<seq<ProviderId>>,
    counter: Option<nat>)

  const EMPTY_SLOT := Slot(None, 0.0, None, None)

  /** A cached pool has its expanded sequence and a counter. */
  predicate ValidSlot(s: Slot) {
    s.pool.Some? ==> s.sequence == Some(Expanded(s.pool.value)) && s.counter.Some?
  }

  /** `rows` is what the table holds now; it is read only when the cached pool is missing or too old. */
  function Load(s: Slot, now: real, rows: seq<Provider>): (r: Slot)
    ensures r.pool.Some?
  {
    if s.pool.Some? && now - s.loadedAt < CACHE_TTL then s
    else
      var keep := s.counter.Some? && s.counter.value < |Expanded(rows)|;
      Slot(Some(rows), now, Some(Expanded(rows)), if keep then s.counter else Some(0))
  }

  /** One weighted selection among these providers; without a sequence the first is taken and no counter moves. */
  function Draw(s: Slot, providers: seq<Provider>): (Slot, Provider)
    requires providers != []
  {
    if s.sequence.None? || s.sequence.value == [] then (s, providers[0])
    else
      var (picked, next) := Pick(s.sequence.value, if s.counter.Some? then s.counter.value else 0, providers);
      (s.(counter := Some(next)), picked)
  }

  /** Selecting from a loaded slot. */
  function Choose(s: Slot, up: set<ProviderId>): (Slot, Result<Provider, Unavailable>)
    requires s.pool.Some?
  {
    if s.pool.value == [] then (s, Err(NoProviderAvailable))
    else
      var (next, selected) := Draw(s, Candidates(s.pool.value, up));
      (next, Ok(selected))
  }

  // ---- The balancer ----

  class Balancer {
    var pools: map<ModelType, seq<Provider>>
    var loadedAt: map<ModelType, real>
    var sequences: map<ModelType, seq<ProviderId>>
    var counters: map<ModelType, nat>

    ghost function SlotOf(m: ModelType): Slot
      reads this
    {
      Slot(if m in pools then Some(pools[m]) else None,
           if m in loadedAt then loadedAt[m] else 0.0,
           if m in sequences then Some(sequences[m]) else None,
           if m in counters then Some(counters[m]) else None)
    }

    ghost predicate Valid()
      reads this
    {
      forall m :: ValidSlot(SlotOf(m))
    }

    constructor ()
      ensures Valid() && forall m :: SlotOf(m) == EMPTY_SLOT
    {
      pools, loadedAt, sequences, counters := map[], map[], map[], map[];
    }

    method BuildRrSequence(m: ModelType, providers: seq<Provider>)
      modifies `sequences, `counters
      ensures sequences == old(sequences)[m := Expanded(providers)]
      ensures counters == if m !in old(counters) || old(counters)[m] >= |Expanded(providers)|
                          then old(counters)[m := 0] else old(counters)
    {
      var sequence: seq<ProviderId> := [];
      for i := 0 to |providers|
        invariant sequence + Expanded(providers[i..]) == Expanded(providers)
      {
        sequence := sequence + Repeat(providers[i].id, providers[i].weight);
      }
      assert sequence + Expanded(providers[|providers|..]) == sequence;
      sequences := sequences[m := sequence];
      if m !in counters || counters[m] >= |sequence| {
        counters := counters[m := 0];
      }
    }

    method LoadProviders(m: ModelType, now: real, rows: seq<Provider>) returns (pool: seq<Provider>)
      requires Valid()
      modifies this
      ensures Valid() && SlotOf(m) == Load(old(SlotOf(m)), now, rows) && SlotOf(m).pool == Some(pool)
      ensures forall n :: n != m ==> SlotOf(n) == old(SlotOf(n))
    {
      assert ValidSlot(SlotOf(m));
      if m in pools && now - (if m in loadedAt then loadedAt[m] else 0.0) < CACHE_TTL {
        return pools[m];
      }
      pools := pools[m := rows];
      loadedAt := loadedAt[m := now];
      BuildRrSequence(m, rows);
      assert forall n :: n != m ==> SlotOf(n) == old(SlotOf(n));
      return rows;
    }

    method WeightedSelect(m: ModelType, providers: seq<Provider>) returns (selected: Provider)
      requires providers != []
      modifies `counters
      ensures (SlotOf(m), selected) == Draw(old(SlotOf(m)), providers)
      ensures forall n :: n != m ==> SlotOf(n) == old(SlotOf(n))
    {
      var sequence := if m in sequences then sequences[m] else [];
      if sequence == [] {
        return providers[0];
      }
      var filtered := Among(sequence, Ids(providers));
      if filtered == [] {
        filtered := sequence;
      }
      var idx := (if m in counters then counters[m] else 0) % |filtered|;
      counters := counters[m := idx + 1];
      var found := ById(providers, filtered[idx]);
      return if found.Some? then found.value else providers[0];
    }

    /** `up` is what the health checks answer. */
    method Select(m: ModelType, now: real, rows: seq<Provider>, up: set<ProviderId>)
      returns (r: Result<Provider, Unavailable>)
      requires Valid()
      modifies this
      ensures Valid() && (SlotOf(m), r) == Choose(Load(old(SlotOf(m)), now, rows), up)
      ensures forall n :: n != m ==> SlotOf(n) == old(SlotOf(n))
    {
      var providers := LoadProviders(m, now, rows);
      if providers == [] {
        return Err(NoProviderAvailable);
      }
      var healthy := FilterHealthy(providers, up);
      if healthy == [] {
        healthy := providers;
      }
      var selected := WeightedSelect(m, healthy);
      return Ok(selected);
    }

    static method FilterHealthy(providers: seq<Provider>, up: set<ProviderId>) returns (healthy: seq<Provider>)
      ensures healthy == Healthy(providers, up)
    {
      healthy := [];
      for i := 0 to |providers|
        invariant healthy + Healthy(providers[i..], up) == Healthy(providers, up)
      {
        if providers[i].id in up {
          healthy := healthy + [providers[i]];
        }
      }
      assert providers[|providers|..] == [];
    }

    method InvalidateCache()
      modifies this
      ensures Valid() && forall m :: SlotOf(m) == EMPTY_SLOT
    {
      pools, loadedAt, sequences, counters := map[], map[], map[], map[];
    }
  }

  // ---- Fairness ----

  predicate ValidPool(pool: seq<Provider>) {
    && (forall i :: 0 <= i < |pool| ==> pool[i].weight > 0)
    && (forall i, j :: 0 <= i < j < |pool| ==> pool[i].id != pool[j].id)
  }

  function TotalWeight(pool: seq<Provider>): int {
    if pool == [] then 0 else pool[0].weight + TotalWeight(pool[1..])
  }

  /** The providers of `n` consecutive selections with a fixed pool and fixed health. */
  function Picks(sequence: seq<ProviderId>, counter: nat, providers: seq<Provider>, n: nat): (r: seq<Provider>)
    requires sequence != [] && providers != []
    ensures |r| == n
    decreases n
  {
    if n == 0 then []
    else
      var (picked, next) := Pick(sequence, counter, providers);
      [picked] + Picks(sequence, next, providers, n - 1)
  }

  lemma {:induction false} AmongConcat(a: seq<ProviderId>, b: seq<ProviderId>, ids: set<ProviderId>)
    ensures Among(a + b, ids) == Among(a, ids) + Among(b, ids)
  {
    if a == [] {
      assert a + b == b;
    } else {
      AmongConcat(a[1..], b, ids);
      assert (a + b)[0] == a[0] && (a + b)[1..] == a[1..] + b;
    }
  }

  lemma {:induction false} AmongRepeat(id: ProviderId, weight: int, ids: set<ProviderId>)
    ensures Among(Repeat(id, weight), ids) == if id in ids then Repeat(id, weight) else []
    decreases if weight > 0 then weight else 0
  {
    if weight > 0 {
      AmongRepeat(id, weight - 1, ids);
      assert Repeat(id, weight)[1..] == Repeat(id, weight - 1);
    }
  }

  /** Filtering the expanded sequence is expanding the filtered pool. */
  lemma {:induction false} FilterExpanded(pool: seq<Provider>, ids: set<ProviderId>)
    ensures Among(Expanded(pool), ids) == Expanded(Healthy(pool, ids))
  {
    if pool != [] {
      FilterExpanded(pool[1..], ids);
      AmongConcat(Repeat(pool[0].id, pool[0].weight), Expanded(pool[1..]), ids);
      AmongRepeat(pool[0].id, pool[0].weight, ids);
    }
  }

  lemma {:induction false} ExpandedSize(pool: seq<Provider>)
    requires ValidPool(pool)
    ensures |Expanded(pool)| == TotalWeight(pool) && (pool != [] ==> TotalWeight(pool) > 0)
    ensures forall x :: x in Expanded(pool) ==> x in Ids(pool)
  {
    if pool != [] {
      ExpandedSize(pool[1..]);
      assert pool[0] in pool && forall p :: p in pool[1..] ==> p in pool;
    }
  }

  lemma {:induction false} CountRepeat(id: ProviderId, weight: int)
    ensures multiset(Repeat(id, weight))[id] == if weight > 0 then weight else 0
    decreases if weight > 0 then weight else 0
  {
    if weight > 0 {
      CountRepeat(id, weight - 1);
    }
  }

  lemma CountConcat(a: seq<ProviderId>, b: seq<ProviderId>, id: ProviderId)
    ensures multiset(a + b)[id] == multiset(a)[id] + multiset(b)[id]
  {
  }

  lemma CountAbsent(a: seq<ProviderId>, id: ProviderId)
    requires id !in a
    ensures multiset(a)[id] == 0
  {
  }

  lemma IdsOfTail(pool: seq<Provider>)
    requires ValidPool(pool) && pool != []
    ensures ValidPool(pool[1..]) && pool[0].id !in Expanded(pool[1..])
  {
    ExpandedSize(pool[1..]);
    forall p | p in pool[1..] ensures p.id != pool[0].id {
      var j :| 0 <= j < |pool[1..]| && pool[1..][j] == p;
      assert pool[j + 1] == p;
    }
  }

  /** In the expanded sequence every provider occurs exactly `weight` times. */
  lemma {:induction false} CountExpanded(pool: seq<Provider>, i: nat)
    requires ValidPool(pool) && i < |pool|
    ensures multiset(Expanded(pool))[pool[i].id] == pool[i].weight
  {
    var head, tail := Repeat(pool[0].id, pool[0].weight), Expanded(pool[1..]);
    IdsOfTail(pool);
    CountConcat(head, tail, pool[i].id);
    if i == 0 {
      CountRepeat(pool[0].id, pool[0].weight);
      CountAbsent(tail, pool[0].id);
    } else {
      CountExpanded(pool[1..], i - 1);
      CountAbsent(head, pool[i].id);
    }
  }

  lemma {:induction false} HealthyPool(pool: seq<Provider>, up: set<ProviderId>)
    requires ValidPool(pool)
    ensures ValidPool(Healthy(pool, up))
    ensures forall p :: p in Healthy(pool, up) <==> p in pool && p.id in up
  {
    if pool != [] {
      HealthyPool(pool[1..], up);
      var rest := Healthy(pool[1..], up);
      assert pool == [pool[0]] + pool[1..];
      forall i | 0 <= i < |rest| ensures rest[i].id != pool[0].id && rest[i].weight > 0 {
        assert rest[i] in pool[1..];
      }
    }
  }

  lemma {:induction false} HealthyAgain(pool: seq<Provider>, ids: set<ProviderId>, up: set<ProviderId>)
    requires forall p :: p in pool ==> (p.id in ids <==> p.id in up)
    ensures Healthy(pool, ids) == Healthy(pool, up)
  {
    if pool != [] {
      assert pool[0] in pool && forall p :: p in pool[1..] ==> p in pool;
      HealthyAgain(pool[1..], ids, up);
    }
  }

  lemma {:induction false} HealthyAll(pool: seq<Provider>, ids: set<ProviderId>)
    requires forall p :: p in pool ==> p.id in ids
    ensures Healthy(pool, ids) == pool
  {
    if pool != [] {
      assert pool[0] in pool && forall p :: p in pool[1..] ==> p in pool;
      HealthyAll(pool[1..], ids);
    }
  }

  /** The lane of a selection is the expanded sequence of its candidates, so neither fallback is ever taken. */
  lemma LaneIsExpanded(pool: seq<Provider>, up: set<ProviderId>)
    requires ValidPool(pool) && pool != []
    ensures Lane(Expanded(pool), Candidates(pool, up)) == Expanded(Candidates(pool, up))
    ensures ValidPool(Candidates(pool, up))
  {
    var candidates := Candidates(pool, up);
    HealthyPool(pool, up);
    FilterExpanded(pool, Ids(candidates));
    ExpandedSize(candidates);
    if Healthy(pool, up) == [] {
      HealthyAll(pool, Ids(pool));
    } else {
      forall p | p in pool ensures p.id in Ids(candidates) <==> p.id in up {
        assert p.id in up ==> p in candidates;
        if p.id in Ids(candidates) {
          var c :| c in candidates && c.id == p.id;
        }
      }
      HealthyAgain(pool, Ids(candidates), up);
    }
  }

  lemma {:induction false} ByIdFinds(providers: seq<Provider>, i: nat)
    requires ValidPool(providers) && i < |providers|
    ensures ById(providers, providers[i].id) == Some(providers[i])
  {
    var n := |providers| - 1;
    if i < n {
      ByIdFinds(providers[..n], i);
    }
  }

  /** The ids `n` selections walk over, from a counter that may stand past the end. */
  function Turn(lane: seq<ProviderId>, counter: nat, n: nat): (r: seq<ProviderId>)
    requires lane != []
    ensures |r| == n
    decreases n
  {
    if n == 0 then [] else [lane[counter % |lane|]] + Turn(lane, counter % |lane| + 1, n - 1)
  }

  lemma TurnUnfold(lane: seq<ProviderId>, counter: nat, n: nat)
    requires lane != [] && n > 0
    ensures Turn(lane, counter, n) == [lane[counter % |lane|]] + Turn(lane, counter % |lane| + 1, n - 1)
  {
  }

  lemma ModSmall(a: nat, n: nat)
    requires a < n
    ensures a % n == a
  {
  }

  lemma ModTwice(a: nat, n: nat)
    requires n > 0
    ensures a % n % n == a % n && n % n == 0 % n
  {
  }

  lemma TurnStep(lane: seq<ProviderId>, counter: nat, n: nat)
    requires counter < |lane| && n > 0
    ensures Turn(lane, counter, n) == [lane[counter]] + Turn(lane, counter + 1, n - 1)
  {
    ModSmall(counter, |lane|);
    TurnUnfold(lane, counter, n);
  }

  lemma SliceStep(lane: seq<ProviderId>, from: nat, to: nat)
    requires from < to <= |lane|
    ensures lane[from..to] == [lane[from]] + lane[from + 1..to]
  {
  }

  lemma {:induction false} TurnStraight(lane: seq<ProviderId>, counter: nat, n: nat)
    requires lane != [] && counter + n <= |lane|
    ensures Turn(lane, counter, n) == lane[counter..counter + n]
    decreases n
  {
    if n > 0 {
      TurnStep(lane, counter, n);
      SliceStep(lane, counter, counter + n);
      TurnStraight(lane, counter + 1, n - 1);
    }
  }

  lemma {:induction false} TurnSplit(lane: seq<ProviderId>, counter: nat, n: nat, m: nat)
    requires lane != [] && counter + n == |lane|
    ensures Turn(lane, counter, n + m) == Turn(lane, counter, n) + Turn(lane, 0, m)
    decreases n
  {
    if n == 0 {
      TurnFromEnd(lane, m);
    } else {
      TurnStep(lane, counter, n + m);
      TurnStep(lane, counter, n);
      TurnSplit(lane, counter + 1, n - 1, m);
    }
  }

  lemma TurnFromEnd(lane: seq<ProviderId>, m: nat)
    requires lane != []
    ensures Turn(lane, |lane|, m) == Turn(lane, 0, m)
  {
    ModTwice(0, |lane|);
  }

  lemma TurnAnywhere(lane: seq<ProviderId>, counter: nat, n: nat)
    requires lane != []
    ensures Turn(lane, counter, n) == Turn(lane, counter % |lane|, n)
  {
    ModTwice(counter, |lane|);
  }

  lemma Rotated(lane: seq<ProviderId>, c: nat)
    requires c <= |lane|
    ensures multiset(lane[c..] + lane[..c]) == multiset(lane)
  {
    assert lane == lane[..c] + lane[c..];
    assert multiset(lane[..c] + lane[c..]) == multiset(lane[..c]) + multiset(lane[c..]);
  }

  lemma TurnIsRotation(lane: seq<ProviderId>, c: nat)
    requires lane != [] && c < |lane|
    ensures Turn(lane, c, |lane|) == lane[c..] + lane[..c]
  {
    TurnSplit(lane, c, |lane| - c, c);
    TurnStraight(lane, c, |lane| - c);
    TurnStraight(lane, 0, c);
  }

  /** One full turn is a rotation of the lane. */
  lemma FullTurn(lane: seq<ProviderId>, counter: nat)
    requires lane != []
    ensures multiset(Turn(lane, counter, |lane|)) == multiset(lane)
  {
    TurnAnywhere(lane, counter, |lane|);
    TurnIsRotation(lane, counter % |lane|);
    Rotated(lane, counter % |lane|);
  }

  /** A selection returns the candidate whose id the lane shows. */
  lemma PickIsOnLane(pool: seq<Provider>, up: set<ProviderId>, counter: nat)
    requires ValidPool(pool) && pool != []
    ensures Expanded(pool) != [] && Expanded(Candidates(pool, up)) != []
    ensures var lane := Expanded(Candidates(pool, up));
            var (picked, next) := Pick(Expanded(pool), counter, Candidates(pool, up));
            && picked in Candidates(pool, up) && picked.id == lane[counter % |lane|]
            && next == counter % |lane| + 1
  {
    var candidates := Candidates(pool, up);
    LaneIsExpanded(pool, up);
    ExpandedSize(pool);
    ExpandedSize(candidates);
    var lane := Expanded(candidates);
    assert lane[counter % |lane|] in Ids(candidates);
    var c :| c in candidates && c.id == lane[counter % |lane|];
    var i :| 0 <= i < |candidates| && candidates[i] == c;
    ByIdFinds(candidates, i);
  }

  lemma PicksUnfold(sequence: seq<ProviderId>, counter: nat, providers: seq<Provider>, n: nat)
    requires sequence != [] && providers != [] && n > 0
    ensures var (picked, next) := Pick(sequence, counter, providers);
            Picks(sequence, counter, providers, n) == [picked] + Picks(sequence, next, providers, n - 1)
  {
  }

  lemma {:induction false} PicksFollowLane(pool: seq<Provider>, up: set<ProviderId>, counter: nat, n: nat, k: nat)
    requires ValidPool(pool) && pool != [] && k < n
    ensures Expanded(pool) != [] && Expanded(Candidates(pool, up)) != []
    ensures var pick := Picks(Expanded(pool), counter, Candidates(pool, up), n)[k];
            pick in Candidates(pool, up) && pick.id == Turn(Expanded(Candidates(pool, up)), counter, n)[k]
    decreases n
  {
    var sequence, candidates := Expanded(pool), Candidates(pool, up);
    PickIsOnLane(pool, up, counter);
    PicksUnfold(sequence, counter, candidates, n);
    TurnUnfold(Expanded(candidates), counter, n);
    if k > 0 {
      PicksFollowLane(pool, up, Pick(sequence, counter, candidates).1, n - 1, k - 1);
    }
  }

  lemma {:induction false} CountById(picks: seq<Provider>, ids: seq<ProviderId>, p: Provider)
    requires |picks| == |ids| && forall k :: 0 <= k < |ids| ==> picks[k].id == ids[k]
    requires forall k :: 0 <= k < |ids| ==> (picks[k].id == p.id ==> picks[k] == p)
    ensures multiset(picks)[p] == multiset(ids)[p.id]
  {
    if picks != [] {
      assert picks == [picks[0]] + picks[1..] && ids == [ids[0]] + ids[1..];
      CountById(picks[1..], ids[1..], p);
    }
  }

  /** Any L consecutive selections, L the total weight of the candidates, pick every candidate exactly `weight` times,
      whatever the counter starts from. */
  lemma RoundRobinIsFair(pool: seq<Provider>, up: set<ProviderId>, counter: nat, i: nat)
    requires ValidPool(pool) && pool != [] && i < |Candidates(pool, up)|
    ensures Expanded(pool) != [] && TotalWeight(Candidates(pool, up)) > 0
    ensures var candidates := Candidates(pool, up);
            multiset(Picks(Expanded(pool), counter, candidates, TotalWeight(candidates)))[candidates[i]]
            == candidates[i].weight
  {
    var candidates := Candidates(pool, up);
    LaneIsExpanded(pool, up);
    ExpandedSize(candidates);
    var n := TotalWeight(candidates);
    var lane := Expanded(candidates);
    FullTurn(lane, counter);
    CountExpanded(candidates, i);
    var picks := Picks(Expanded(pool), counter, candidates, n);
    forall k | 0 <= k < n
      ensures picks[k].id == Turn(lane, counter, n)[k]
      ensures picks[k].id == candidates[i].id ==> picks[k] == candidates[i]
    {
      PicksFollowLane(pool, up, counter, n, k);
    }
    CountById(picks, Turn(lane, counter, n), candidates[i]);
  }

  // ---- Fairness across reloads ----

  /** The providers of consecutive selections at these times, while the table holds `rows` and `up` answers. */
  function Selections(s: Slot, times: seq<real>, rows: seq<Provider>, up: set<ProviderId>): seq<Provider>
    decreases |times|
  {
    if times == [] then []
    else
      var (next, r) := Choose(Load(s, times[0], rows), up);
      (if r.Ok? then [r.value] else []) + Selections(next, times[1..], rows, up)
  }

  lemma SelectionsUnfold(s: Slot, times: seq<real>, rows: seq<Provider>, up: set<ProviderId>)
    requires times != []
    ensures var (next, r) := Choose(Load(s, times[0], rows), up);
            r.Ok? ==> Selections(s, times, rows, up) == [r.value] + Selections(next, times[1..], rows, up)
  {
  }

  lemma {:induction false} AmongSize(sequence: seq<ProviderId>, ids: set<ProviderId>)
    ensures |Among(sequence, ids)| <= |sequence|
  {
    if sequence != [] {
      AmongSize(sequence[1..], ids);
    }
  }

  /** A slot that holds the expanded table and a counter no pick could have moved past. */
  predicate Settled(s: Slot, rows: seq<Provider>, up: set<ProviderId>) {
    && s.pool == Some(rows) && s.sequence == Some(Expanded(rows))
    && s.counter.Some? && s.counter.value <= |Lane(Expanded(rows), Candidates(rows, up))|
  }

  /** Reloading an unchanged table may reset such a counter, but only from the end of the lane to its start. */
  lemma ReloadKeepsPick(s: Slot, now: real, rows: seq<Provider>, up: set<ProviderId>)
    requires ValidPool(rows) && rows != [] && Settled(s, rows, up)
    ensures Expanded(rows) != []
    ensures var t, candidates := Load(s, now, rows), Candidates(rows, up);
            && t.pool == Some(rows) && t.sequence == Some(Expanded(rows)) && t.counter.Some?
            && Pick(Expanded(rows), t.counter.value, candidates) == Pick(Expanded(rows), s.counter.value, candidates)
  {
    ExpandedSize(rows);
    var sequence, candidates := Expanded(rows), Candidates(rows, up);
    AmongSize(sequence, Ids(candidates));
    ModTwice(0, |Lane(sequence, candidates)|);
  }

  lemma PickSettles(s: Slot, rows: seq<Provider>, up: set<ProviderId>)
    requires ValidPool(rows) && rows != [] && s.pool == Some(rows) && s.sequence == Some(Expanded(rows))
    requires s.counter.Some?
    ensures Expanded(rows) != []
    ensures var (next, r) := Choose(s, up);
            var (picked, counter) := Pick(Expanded(rows), s.counter.value, Candidates(rows, up));
            && r == Ok(picked) && next.counter == Some(counter) && Settled(next, rows, up)
  {
    ExpandedSize(rows);
  }

  predicate Ready(s: Slot, rows: seq<Provider>) {
    s.pool == Some(rows) && s.sequence == Some(Expanded(rows)) && s.counter.Some?
  }

  lemma {:induction false} SettledSelections(s: Slot, times: seq<real>, rows: seq<Provider>, up: set<ProviderId>)
    requires ValidPool(rows) && rows != [] && Settled(s, rows, up)
    ensures Expanded(rows) != []
    ensures Selections(s, times, rows, up) == Picks(Expanded(rows), s.counter.value, Candidates(rows, up), |times|)
    decreases |times|, 0
  {
    ExpandedSize(rows);
    if times != [] {
      var t := Load(s, times[0], rows);
      ReloadKeepsPick(s, times[0], rows, up);
      SelectionsUnfold(s, times, rows, up);
      ReadySelections(t, times, rows, up);
      PicksUnfold(Expanded(rows), s.counter.value, Candidates(rows, up), |times|);
      PicksUnfold(Expanded(rows), t.counter.value, Candidates(rows, up), |times|);
    }
  }

  /** A selection from a ready slot, and what follows it, are the picks from its counter. */
  lemma {:induction false} ReadySelections(t: Slot, times: seq<real>, rows: seq<Provider>, up: set<ProviderId>)
    requires ValidPool(rows) && rows != [] && Ready(t, rows) && times != []
    ensures Expanded(rows) != []
    ensures var (next, r) := Choose(t, up);
            && r.Ok?
            && [r.value] + Selections(next, times[1..], rows, up)
               == Picks(Expanded(rows), t.counter.value, Candidates(rows, up), |times|)
    decreases |times| - 1, 1
  {
    PickSettles(t, rows, up);
    PicksUnfold(Expanded(rows), t.counter.value, Candidates(rows, up), |times|);
    SettledSelections(Choose(t, up).0, times[1..], rows, up);
  }

  /** Selections at any times, reloading an unchanged table or not, are the picks from the counter the first finds. */
  lemma SelectionsArePicks(s: Slot, times: seq<real>, rows: seq<Provider>, up: set<ProviderId>)
    requires ValidPool(rows) && rows != [] && ValidSlot(s) && times != []
    requires Load(s, times[0], rows).pool == Some(rows)
    ensures Expanded(rows) != [] && Load(s, times[0], rows).counter.Some?
    ensures Selections(s, times, rows, up)
         == Picks(Expanded(rows), Load(s, times[0], rows).counter.value, Candidates(rows, up), |times|)
  {
    LoadIsReady(s, times[0], rows);
    ReadySelections(Load(s, times[0], rows), times, rows, up);
    SelectionsUnfold(s, times, rows, up);
  }

  lemma LoadIsReady(s: Slot, now: real, rows: seq<Provider>)
    requires ValidSlot(s) && Load(s, now, rows).pool == Some(rows)
    ensures Ready(Load(s, now, rows), rows)
  {
  }

  /** Any L consecutive calls of `Select` while table and health stand, L the total weight of the candidates, pick every
      candidate exactly `weight` times, however often the cached pool is reloaded between them. */
  lemma SelectionIsFair(s: Slot, times: seq<real>, rows: seq<Provider>, up: set<ProviderId>, i: nat)
    requires ValidPool(rows) && rows != [] && ValidSlot(s) && i < |Candidates(rows, up)|
    requires |times| == TotalWeight(Candidates(rows, up)) && times != []
    requires Load(s, times[0], rows).pool == Some(rows)
    ensures multiset(Selections(s, times, rows, up))[Candidates(rows, up)[i]] == Candidates(rows, up)[i].weight
  {
    SelectionsArePicks(s, times, rows, up);
    RoundRobinIsFair(rows, up, Load(s, times[0], rows).counter.value, i);
  }
}
