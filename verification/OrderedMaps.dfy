/** Insertion-ordered dictionaries: entries with distinct keys, oldest first. */
module OrderedMaps {
  import opened Wrappers

  datatype Entry<K, V> = Entry(key: K, value: V)

  type OrderedMap<K, V> = seq<Entry<K, V>>

  predicate DistinctKeys<K(==), V>(m: OrderedMap<K, V>) {
    forall i, j :: 0 <= i < j < |m| ==> m[i].key != m[j].key
  }

  function Find<K(==), V>(m: OrderedMap<K, V>, key: K): (r: Option<V>)
    ensures r.Some? <==> exists i :: 0 <= i < |m| && m[i].key == key
    ensures r.Some? ==> exists i :: 0 <= i < |m| && m[i].key == key && m[i].value == r.value
  {
    if m == [] then None
    else if m[0].key == key then
      assert m[0].key == key;
      Some(m[0].value)
    else
      var r := Find(m[1..], key);
      assert forall i :: 0 <= i < |m[1..]| ==> m[1..][i] == m[i + 1];
      assert forall i :: 1 <= i < |m| ==> m[i] == m[1..][i - 1];
      r
  }

  predicate Has<K(==), V>(m: OrderedMap<K, V>, key: K) {
    Find(m, key).Some?
  }

  /** `dict.pop(key, None)`. */
  function Pop<K(==), V>(m: OrderedMap<K, V>, key: K): OrderedMap<K, V> {
    if m == [] then []
    else if m[0].key == key then Pop(m[1..], key)
    else [m[0]] + Pop(m[1..], key)
  }

  /** Assignment followed by `move_to_end`. */
  function Put<K(==), V>(m: OrderedMap<K, V>, key: K, value: V): OrderedMap<K, V> {
    Pop(m, key) + [Entry(key, value)]
  }

  /** Dropping oldest entries until at most `limit` remain. */
  function Trim<K, V>(m: OrderedMap<K, V>, limit: nat): (r: OrderedMap<K, V>)
    ensures |r| <= limit
    ensures |m| <= limit ==> r == m
  {
    if |m| > limit then m[|m| - limit..] else m
  }

  /** Keeping the entries that have not expired. */
  function Alive<K, V>(m: OrderedMap<K, V>, expired: V -> bool): OrderedMap<K, V> {
    if m == [] then []
    else if expired(m[0].value) then Alive(m[1..], expired)
    else [m[0]] + Alive(m[1..], expired)
  }

  // ---- Facts ----

  lemma {:induction false} FindMember<K, V>(m: OrderedMap<K, V>, i: nat)
    requires i < |m| && DistinctKeys(m)
    ensures Find(m, m[i].key) == Some(m[i].value)
  {
    if i > 0 {
      FindMember(m[1..], i - 1);
    }
  }

  lemma {:induction false} PopMember<K, V>(m: OrderedMap<K, V>, key: K, x: Entry<K, V>)
    ensures x in Pop(m, key) <==> x in m && x.key != key
  {
    if m != [] {
      PopMember(m[1..], key, x);
      assert m == [m[0]] + m[1..];
    }
  }

  lemma {:induction false} PopSize<K, V>(m: OrderedMap<K, V>, key: K)
    ensures |Pop(m, key)| <= |m|
  {
    if m != [] {
      PopSize(m[1..], key);
    }
  }

  lemma {:induction false} PopDistinct<K, V>(m: OrderedMap<K, V>, key: K)
    requires DistinctKeys(m)
    ensures DistinctKeys(Pop(m, key))
  {
    if m != [] {
      PopDistinct(m[1..], key);
      var rest := Pop(m[1..], key);
      forall i | 0 <= i < |rest| ensures rest[i].key != m[0].key {
        PopMember(m[1..], key, rest[i]);
        var j :| 0 <= j < |m[1..]| && m[1..][j] == rest[i];
        assert m[j + 1] == rest[i];
      }
    }
  }

  lemma {:induction false} PopAbsent<K, V>(m: OrderedMap<K, V>, key: K)
    requires Find(m, key).None?
    ensures Pop(m, key) == m
  {
    if m != [] {
      PopAbsent(m[1..], key);
    }
  }

  lemma Associate<T>(a: seq<T>, b: seq<T>, c: seq<T>)
    ensures a + b + c == a + (b + c)
  {
  }

  lemma {:induction false} PopConcat<K, V>(a: OrderedMap<K, V>, b: OrderedMap<K, V>, key: K)
    ensures Pop(a + b, key) == Pop(a, key) + Pop(b, key)
  {
    if a == [] {
      assert a + b == b;
    } else {
      PopConcat(a[1..], b, key);
      assert (a + b)[0] == a[0] && (a + b)[1..] == a[1..] + b;
      if a[0].key != key {
        Associate([a[0]], Pop(a[1..], key), Pop(b, key));
      }
    }
  }

  lemma {:induction false} FindPop<K, V>(m: OrderedMap<K, V>, key: K, other: K)
    ensures Find(Pop(m, key), other) == if other == key then None else Find(m, other)
  {
    if m != [] {
      FindPop(m[1..], key, other);
      if m[0].key != key {
        assert ([m[0]] + Pop(m[1..], key))[1..] == Pop(m[1..], key);
      }
    }
  }

  lemma {:induction false} FindConcat<K, V>(a: OrderedMap<K, V>, b: OrderedMap<K, V>, key: K)
    ensures Find(a + b, key) == if Find(a, key).Some? then Find(a, key) else Find(b, key)
  {
    if a == [] {
      assert a + b == b;
    } else {
      FindConcat(a[1..], b, key);
      assert (a + b)[1..] == a[1..] + b;
    }
  }

  lemma FindPut<K, V>(m: OrderedMap<K, V>, key: K, value: V, other: K)
    ensures Find(Put(m, key, value), other) == if other == key then Some(value) else Find(m, other)
  {
    FindPop(m, key, other);
    FindConcat(Pop(m, key), [Entry(key, value)], other);
  }

  lemma PutFacts<K, V>(m: OrderedMap<K, V>, key: K, value: V)
    ensures DistinctKeys(m) ==> DistinctKeys(Put(m, key, value))
    ensures |Put(m, key, value)| <= |m| + 1
    ensures Find(m, key).None? ==> Put(m, key, value) == m + [Entry(key, value)]
  {
    PopSize(m, key);
    if DistinctKeys(m) {
      PopDistinct(m, key);
      var rest := Pop(m, key);
      forall i | 0 <= i < |rest| ensures rest[i].key != key {
        PopMember(m, key, rest[i]);
      }
    }
    if Find(m, key).None? {
      PopAbsent(m, key);
    }
  }

  lemma {:induction false} AliveMember<K, V>(m: OrderedMap<K, V>, expired: V -> bool, x: Entry<K, V>)
    ensures x in Alive(m, expired) <==> x in m && !expired(x.value)
  {
    if m != [] {
      AliveMember(m[1..], expired, x);
      assert m == [m[0]] + m[1..];
    }
  }

  lemma {:induction false} AliveSize<K, V>(m: OrderedMap<K, V>, expired: V -> bool)
    ensures |Alive(m, expired)| <= |m|
  {
    if m != [] {
      AliveSize(m[1..], expired);
    }
  }

  lemma {:induction false} AliveDistinct<K, V>(m: OrderedMap<K, V>, expired: V -> bool)
    requires DistinctKeys(m)
    ensures DistinctKeys(Alive(m, expired))
  {
    if m != [] {
      AliveDistinct(m[1..], expired);
      var rest := Alive(m[1..], expired);
      forall i | 0 <= i < |rest| ensures rest[i].key != m[0].key {
        AliveMember(m[1..], expired, rest[i]);
        var j :| 0 <= j < |m[1..]| && m[1..][j] == rest[i];
        assert m[j + 1] == rest[i];
      }
    }
  }

  lemma {:induction false} AliveAll<K, V>(m: OrderedMap<K, V>, expired: V -> bool)
    requires forall i :: 0 <= i < |m| ==> !expired(m[i].value)
    ensures Alive(m, expired) == m
  {
    if m != [] {
      AliveAll(m[1..], expired);
    }
  }

  /** One round of a loop that pops the expired entries of a snapshot. */
  lemma {:induction false} AliveStep<K, V>(items: OrderedMap<K, V>, expired: V -> bool, i: nat)
    requires DistinctKeys(items) && i < |items|
    ensures Alive(items[..i + 1], expired) + items[i + 1..]
         == if expired(items[i].value) then Pop(Alive(items[..i], expired) + items[i..], items[i].key)
            else Alive(items[..i], expired) + items[i..]
  {
    var before, key := Alive(items[..i], expired), items[i].key;
    AliveConcat(items[..i], [items[i]], expired);
    assert items[..i + 1] == items[..i] + [items[i]];
    assert Alive([items[i]], expired) == if expired(items[i].value) then [] else [items[i]];
    if expired(items[i].value) {
      PopConcat(before, items[i..], key);
      AliveAbsent(items[..i], expired, key);
      PopHead(items[i..]);
    } else {
      assert items[i..] == [items[i]] + items[i + 1..];
    }
  }

  lemma {:induction false} PopHead<K, V>(m: OrderedMap<K, V>)
    requires m != [] && DistinctKeys(m)
    ensures Pop(m, m[0].key) == m[1..]
  {
    PopAbsent(m[1..], m[0].key);
  }

  lemma {:induction false} AliveAbsent<K, V>(m: OrderedMap<K, V>, expired: V -> bool, key: K)
    requires forall i :: 0 <= i < |m| ==> m[i].key != key
    ensures Pop(Alive(m, expired), key) == Alive(m, expired)
  {
    if m != [] {
      AliveAbsent(m[1..], expired, key);
    }
  }

  lemma {:induction false} AliveConcat<K, V>(a: OrderedMap<K, V>, b: OrderedMap<K, V>, expired: V -> bool)
    ensures Alive(a + b, expired) == Alive(a, expired) + Alive(b, expired)
  {
    if a == [] {
      assert a + b == b;
    } else {
      AliveConcat(a[1..], b, expired);
      assert (a + b)[0] == a[0] && (a + b)[1..] == a[1..] + b;
      if !expired(a[0].value) {
        Associate([a[0]], Alive(a[1..], expired), Alive(b, expired));
      }
    }
  }

  /** An entry survives expiry exactly when it is there and has not expired. */
  lemma {:induction false} FindAlive<K, V>(m: OrderedMap<K, V>, expired: V -> bool, key: K)
    requires DistinctKeys(m)
    ensures Find(Alive(m, expired), key)
         == if Find(m, key).Some? && !expired(Find(m, key).value) then Find(m, key) else None
  {
    if m != [] {
      assert DistinctKeys(m[1..]);
      FindAlive(m[1..], expired, key);
      if m[0].key == key {
        assert Find(m[1..], key).None?;
      }
      if !expired(m[0].value) {
        assert ([m[0]] + Alive(m[1..], expired))[1..] == Alive(m[1..], expired);
      }
    }
  }

  lemma TrimDistinct<K, V>(m: OrderedMap<K, V>, limit: nat)
    requires DistinctKeys(m)
    ensures DistinctKeys(Trim(m, limit))
  {
    if |m| > limit {
      var r := m[|m| - limit..];
      forall i, j | 0 <= i < j < |r| ensures r[i].key != r[j].key {
        assert r[i] == m[|m| - limit + i] && r[j] == m[|m| - limit + j];
      }
    }
  }

  /** The newest entry survives trimming. */
  lemma FindTrimmedLast<K, V>(m: OrderedMap<K, V>, x: Entry<K, V>, limit: nat)
    requires limit > 0 && DistinctKeys(m + [x])
    ensures Find(Trim(m + [x], limit), x.key) == Some(x.value)
  {
    var r := Trim(m + [x], limit);
    TrimDistinct(m + [x], limit);
    assert r[|r| - 1] == x;
    FindMember(r, |r| - 1);
  }

  /** Popping the newest entry again after a trim leaves the trimmed rest. */
  lemma PopTrimmedLast<K, V>(m: OrderedMap<K, V>, x: Entry<K, V>, limit: nat)
    requires limit > 0 && DistinctKeys(m + [x])
    ensures Pop(Trim(m + [x], limit), x.key) == Trim(m, limit - 1)
  {
    var rest := Trim(m, limit - 1);
    assert Trim(m + [x], limit) == rest + [x];
    forall i | 0 <= i < |rest| ensures rest[i].key != x.key {
      var j := i + |m| - |rest|;
      assert rest[i] == m[j] == (m + [x])[j] && (m + [x])[|m|] == x;
    }
    PopConcat(rest, [x], x.key);
    PopAbsent(rest, x.key);
  }

  lemma FindPutTrimmed<K, V>(m: OrderedMap<K, V>, key: K, value: V, limit: nat)
    requires limit > 0 && DistinctKeys(m) && Find(m, key).None?
    ensures Find(Trim(Put(m, key, value), limit), key) == Some(value)
  {
    PutFacts(m, key, value);
    FindTrimmedLast(m, Entry(key, value), limit);
  }
}
