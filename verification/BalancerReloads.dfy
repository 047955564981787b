/** From which rows a selection is made, by the age of the cached pool. */
module BalancerReloads {
  import opened Wrappers
  import opened LoadBalancer

  /** A pool of 300 seconds or more, or none, gives way to the rows the table holds now. */
  lemma OldPoolIsReloaded(s: Slot, now: real, rows: seq<Provider>)
    requires s.pool.None? || now - s.loadedAt >= 300.0
    ensures var r := Load(s, now, rows);
            && r.pool == Some(rows) && r.loadedAt == now && r.sequence == Some(Expanded(rows))
            && r.counter == if s.counter.Some? && s.counter.value < |Expanded(rows)| then s.counter else Some(0)
  {
  }

  /** A younger one is used as it is, whatever the table holds. */
  lemma YoungPoolIsKept(s: Slot, now: real, rows: seq<Provider>)
    requires s.pool.Some? && now - s.loadedAt < 300.0
    ensures Load(s, now, rows) == s
  {
  }

  lemma {:induction false} HealthyIff(pool: seq<Provider>, up: set<ProviderId>, p: Provider)
    ensures p in Healthy(pool, up) <==> p in pool && p.id in up
  {
    if pool != [] {
      HealthyIff(pool[1..], up, p);
    }
  }

  lemma {:induction false} FoundById(providers: seq<Provider>, id: ProviderId)
    ensures ById(providers, id).Some? ==> ById(providers, id).value in providers && ById(providers, id).value.id == id
  {
    if providers != [] {
      FoundById(providers[..|providers| - 1], id);
    }
  }

  lemma PickIsAmong(sequence: seq<ProviderId>, counter: nat, providers: seq<Provider>)
    requires sequence != [] && providers != []
    ensures Pick(sequence, counter, providers).0 in providers
  {
    var lane := Lane(sequence, providers);
    FoundById(providers, lane[counter % |lane|]);
  }

  lemma DrawIsAmong(s: Slot, providers: seq<Provider>)
    requires providers != []
    ensures Draw(s, providers).1 in providers
  {
    if s.sequence.Some? && s.sequence.value != [] {
      PickIsAmong(s.sequence.value, if s.counter.Some? then s.counter.value else 0, providers);
    }
  }

  /** A selection fails exactly on an empty pool; otherwise it is a provider of the pool, and one that is up if any of
      the pool is. */
  lemma ChosenFromPool(s: Slot, up: set<ProviderId>)
    requires s.pool.Some?
    ensures var pool, r := s.pool.value, Choose(s, up).1;
            && (r.Err? <==> pool == [])
            && (r.Ok? ==> r.value in pool)
            && (r.Ok? && (exists p :: p in pool && p.id in up) ==> r.value.id in up)
  {
    var pool := s.pool.value;
    if pool != [] {
      DrawIsAmong(s, Candidates(pool, up));
      HealthyIff(pool, up, Choose(s, up).1.value);
      if p :| p in pool && p.id in up {
        HealthyIff(pool, up, p);
      }
    }
  }

  /** So with an old pool a call picks from the table, and with a young one from the cache. */
  lemma CallPicksFrom(s: Slot, now: real, rows: seq<Provider>, up: set<ProviderId>)
    ensures var young := s.pool.Some? && now - s.loadedAt < 300.0;
            var r := Choose(Load(s, now, rows), up).1;
            && (r.Err? <==> (if young then s.pool.value else rows) == [])
            && (r.Ok? ==> r.value in if young then s.pool.value else rows)
  {
    ChosenFromPool(Load(s, now, rows), up);
  }
}
