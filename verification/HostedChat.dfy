/** The hosted-chat service: duplicate suppression, out-of-order send results, stable pending sends and the
    reference-counted per-target locks. Every method of the class is one critical section under the state lock. */
module HostedChat {
  import opened Wrappers
  import opened OrderedMaps

  datatype EventKey = EventKey(gateway: string, event: string)

  datatype Target = Target(gateway: string, session: string, role: string)

  datatype MessageId = MessageId(text: string)

  datatype RequestId = RequestId(text: string)

  datatype ChatType = Friend | Private

  datatype SendRequest = SendRequest(session: string, avatar: string, role: string, chat: ChatType, content: string)

  datatype SendStatus = Sent | Failed | Cancelled | DeliveryUnknown

  datatype SendResult = SendResult(message: MessageId, session: string, avatar: string, role: string, chat: ChatType,
                                   status: SendStatus, reason: Option<string>)

  datatype Receipt = Receipt(request: RequestId, message: MessageId)

  datatype Outbound = Outbound(requestId: RequestId, request: SendRequest, expiresAt: real)

  datatype HeldResult = HeldResult(result: SendResult, expiresAt: real)

  datatype PendingSend = PendingSend(requestId: RequestId, request: SendRequest, expiresAt: real)

  datatype Limits = Limits(maxQueue: int, ttl: real, maxEntries: int)

  predicate ValidLimits(l: Limits) {
    l.maxQueue > 0 && l.ttl > 0.0 && l.maxEntries > 0
  }

  datatype Books = Books(
    processed: OrderedMap<EventKey, real>,
    outbound: OrderedMap<MessageId, Outbound>,
    byRequest: OrderedMap<RequestId, MessageId>,
    results: OrderedMap<MessageId, HeldResult>,
    pending: OrderedMap<EventKey, PendingSend>)

  const EMPTY_BOOKS := Books([], [], [], [], [])

  /** `made` counts the lock objects created so far, so a new lock differs from every earlier one. */
  datatype Queue = Queue(queued: int, refs: map<Target, int>, locks: map<Target, nat>, made: nat)

  const EMPTY_QUEUE := Queue(0, map[], map[], 0)

  datatype ResultReply = Held | Matched | Mismatch

  predicate Matches(request: SendRequest, result: SendResult) {
    && request.session == result.session
    && request.avatar == result.avatar
    && request.role == result.role
    && request.chat == result.chat
  }

  // ---- What each critical section does ----

  function Lapsed(now: real): real -> bool {
    (t: real) => t <= now
  }

  function OutboundLapsed(now: real): Outbound -> bool {
    (o: Outbound) => o.expiresAt <= now
  }

  function HeldLapsed(now: real): HeldResult -> bool {
    (h: HeldResult) => h.expiresAt <= now
  }

  function PendingLapsed(now: real): PendingSend -> bool {
    (p: PendingSend) => p.expiresAt <= now
  }

  /** `byRequest` without the request ids of the lapsed outbound entries. */
  function WithoutLapsed(byRequest: OrderedMap<RequestId, MessageId>, outbound: OrderedMap<MessageId, Outbound>,
                         now: real)
    : OrderedMap<RequestId, MessageId>
  {
    if outbound == [] then byRequest
    else
      var last := outbound[|outbound| - 1].value;
      var earlier := WithoutLapsed(byRequest, outbound[..|outbound| - 1], now);
      if last.expiresAt <= now then Pop(earlier, last.requestId) else earlier
  }

  function Expire(b: Books, now: real): Books {
    Books(Alive(b.processed, Lapsed(now)),
          Alive(b.outbound, OutboundLapsed(now)),
          WithoutLapsed(b.byRequest, b.outbound, now),
          Alive(b.results, HeldLapsed(now)),
          Alive(b.pending, PendingLapsed(now)))
  }

  function Claim(b: Books, limits: Limits, event: EventKey, now: real): (Books, bool)
    requires ValidLimits(limits)
  {
    var c := Expire(b, now);
    if Has(c.processed, event) then (c, false)
    else (c.(processed := Trim(Put(c.processed, event, now + limits.ttl), limits.maxEntries)), true)
  }

  function Release(b: Books, event: EventKey): Books {
    b.(processed := Pop(b.processed, event))
  }

  function Discard(b: Books, event: EventKey): Books {
    b.(pending := Pop(b.pending, event))
  }

  /** The pending send of an event, dropped first when it has lapsed. */
  function LookUp(b: Books, event: EventKey, now: real): (Books, Option<PendingSend>) {
    match Find(b.pending, event)
    case None => (b, None)
    case Some(p) => if p.expiresAt <= now then (Discard(b, event), None) else (b, Some(p))
  }

  function StorePending(b: Books, limits: Limits, event: EventKey, p: PendingSend): Books
    requires ValidLimits(limits)
  {
    b.(pending := Trim(Put(b.pending, event, p), limits.maxEntries))
  }

  /** Both maps drop an outbound message. */
  function Settle(b: Books, message: MessageId, requestId: RequestId): Books {
    b.(outbound := Pop(b.outbound, message), byRequest := Pop(b.byRequest, requestId))
  }

  function Recorded(b: Books, limits: Limits, request: SendRequest, receipt: Receipt, now: real): Books
    requires ValidLimits(limits)
  {
    b.(outbound := Trim(Put(b.outbound, receipt.message, Outbound(receipt.request, request, now + limits.ttl)),
                        limits.maxEntries),
       byRequest := Trim(Put(b.byRequest, receipt.request, receipt.message), limits.maxEntries))
  }

  /** The section after an accepted send; the flag is false when a held result names another conversation. */
  function Accept(b: Books, limits: Limits, event: EventKey, request: SendRequest, receipt: Receipt, now: real)
    : (Books, bool)
    requires ValidLimits(limits)
  {
    var c := Expire(b, now);
    var d := Discard(Recorded(c, limits, request, receipt, now), event).(results := Pop(c.results, receipt.message));
    match Find(c.results, receipt.message)
    case None => (d, true)
    case Some(held) => (Settle(d, receipt.message, receipt.request), Matches(request, held.result))
  }

  function Kept(b: Books, limits: Limits, result: SendResult, now: real): Books
    requires ValidLimits(limits)
  {
    b.(results := Trim(Put(b.results, result.message, HeldResult(result, now + limits.ttl)), limits.maxEntries))
  }

  /** The section of a send result after its own event is claimed. */
  function Handle(b: Books, limits: Limits, result: SendResult, now: real): (Books, ResultReply)
    requires ValidLimits(limits)
  {
    var c := Expire(b, now);
    match Find(c.outbound, result.message)
    case None => (Kept(c, limits, result, now), Held)
    case Some(o) =>
      if Matches(o.request, result) then (Settle(c, result.message, o.requestId), Matched) else (c, Mismatch)
  }

  function Enter(q: Queue, limits: Limits, target: Target): (Queue, bool) {
    if q.queued >= limits.maxQueue then (q, false)
    else
      var count := if target in q.refs then q.refs[target] else 0;
      (q.(queued := q.queued + 1, refs := q.refs[target := count + 1]), true)
  }

  /** The `finally` section: the last task of a target takes the lock away with it. */
  function Leave(q: Queue, target: Target): Queue
    requires target in q.refs
  {
    var remaining := q.refs[target] - 1;
    if remaining == 0 then q.(queued := q.queued - 1, refs := q.refs - {target}, locks := q.locks - {target})
    else q.(queued := q.queued - 1, refs := q.refs[target := remaining])
  }

  /** `setdefault` builds a lock object either way and keeps the one already there. */
  function LockFor(q: Queue, target: Target): (Queue, nat) {
    if target in q.locks then (q.(made := q.made + 1), q.locks[target])
    else (q.(locks := q.locks[target := q.made], made := q.made + 1), q.made)
  }

  // ---- What every section keeps ----

  predicate WellKeyed(b: Books) {
    && DistinctKeys(b.processed)
    && DistinctKeys(b.outbound)
    && DistinctKeys(b.byRequest)
    && DistinctKeys(b.results)
    && DistinctKeys(b.pending)
  }

  predicate Capped(b: Books, limits: Limits) {
    && |b.processed| <= limits.maxEntries
    && |b.outbound| <= limits.maxEntries
    && |b.byRequest| <= limits.maxEntries
    && |b.results| <= limits.maxEntries
    && |b.pending| <= limits.maxEntries
  }

  predicate Sound(b: Books, limits: Limits) {
    WellKeyed(b) && Capped(b, limits)
  }

  lemma {:induction false} WithoutLapsedSound(byRequest: OrderedMap<RequestId, MessageId>,
                                              outbound: OrderedMap<MessageId, Outbound>, now: real)
    requires DistinctKeys(byRequest)
    ensures DistinctKeys(WithoutLapsed(byRequest, outbound, now))
    ensures |WithoutLapsed(byRequest, outbound, now)| <= |byRequest|
  {
    if outbound != [] {
      var earlier := outbound[..|outbound| - 1];
      var last := outbound[|outbound| - 1].value;
      WithoutLapsedSound(byRequest, earlier, now);
      PopDistinct(WithoutLapsed(byRequest, earlier, now), last.requestId);
      PopSize(WithoutLapsed(byRequest, earlier, now), last.requestId);
    }
  }

  lemma ExpireSound(b: Books, limits: Limits, now: real)
    requires Sound(b, limits)
    ensures Sound(Expire(b, now), limits)
  {
    AliveDistinct(b.processed, Lapsed(now));
    AliveSize(b.processed, Lapsed(now));
    AliveDistinct(b.outbound, OutboundLapsed(now));
    AliveSize(b.outbound, OutboundLapsed(now));
    AliveDistinct(b.results, HeldLapsed(now));
    AliveSize(b.results, HeldLapsed(now));
    AliveDistinct(b.pending, PendingLapsed(now));
    AliveSize(b.pending, PendingLapsed(now));
    WithoutLapsedSound(b.byRequest, b.outbound, now);
  }

  lemma PutTrimmed<K, V>(m: OrderedMap<K, V>, key: K, value: V, limit: nat)
    requires DistinctKeys(m)
    ensures DistinctKeys(Trim(Put(m, key, value), limit))
    ensures |Trim(Put(m, key, value), limit)| <= limit
  {
    PutFacts(m, key, value);
    TrimDistinct(Put(m, key, value), limit);
  }

  lemma Popped<K, V>(m: OrderedMap<K, V>, key: K)
    requires DistinctKeys(m)
    ensures DistinctKeys(Pop(m, key)) && |Pop(m, key)| <= |m|
  {
    PopDistinct(m, key);
    PopSize(m, key);
  }

  lemma ClaimSound(b: Books, limits: Limits, event: EventKey, now: real)
    requires ValidLimits(limits) && Sound(b, limits)
    ensures Sound(Claim(b, limits, event, now).0, limits)
  {
    ExpireSound(b, limits, now);
    PutTrimmed(Expire(b, now).processed, event, now + limits.ttl, limits.maxEntries);
  }

  lemma DiscardSound(b: Books, limits: Limits, event: EventKey)
    requires Sound(b, limits)
    ensures Sound(Discard(b, event), limits) && Sound(Release(b, event), limits)
  {
    Popped(b.pending, event);
    Popped(b.processed, event);
  }

  lemma LookUpSound(b: Books, limits: Limits, event: EventKey, now: real)
    requires Sound(b, limits)
    ensures Sound(LookUp(b, event, now).0, limits)
  {
    DiscardSound(b, limits, event);
  }

  lemma StoreSound(b: Books, limits: Limits, event: EventKey, p: PendingSend)
    requires ValidLimits(limits) && Sound(b, limits)
    ensures Sound(StorePending(b, limits, event, p), limits)
  {
    PutTrimmed(b.pending, event, p, limits.maxEntries);
  }

  lemma SettleSound(b: Books, limits: Limits, message: MessageId, requestId: RequestId)
    requires Sound(b, limits)
    ensures Sound(Settle(b, message, requestId), limits)
  {
    Popped(b.outbound, message);
    Popped(b.byRequest, requestId);
  }

  lemma RecordedSound(b: Books, limits: Limits, request: SendRequest, receipt: Receipt, now: real)
    requires ValidLimits(limits) && Sound(b, limits)
    ensures Sound(Recorded(b, limits, request, receipt, now), limits)
  {
    PutTrimmed(b.outbound, receipt.message, Outbound(receipt.request, request, now + limits.ttl), limits.maxEntries);
    PutTrimmed(b.byRequest, receipt.request, receipt.message, limits.maxEntries);
  }

  lemma AcceptSound(b: Books, limits: Limits, event: EventKey, request: SendRequest, receipt: Receipt, now: real)
    requires ValidLimits(limits) && Sound(b, limits)
    ensures Sound(Accept(b, limits, event, request, receipt, now).0, limits)
  {
    var c := Expire(b, now);
    ExpireSound(b, limits, now);
    RecordedSound(c, limits, request, receipt, now);
    DiscardSound(Recorded(c, limits, request, receipt, now), limits, event);
    Popped(c.results, receipt.message);
    var d := Discard(Recorded(c, limits, request, receipt, now), event).(results := Pop(c.results, receipt.message));
    SettleSound(d, limits, receipt.message, receipt.request);
  }

  lemma HandleSound(b: Books, limits: Limits, result: SendResult, now: real)
    requires ValidLimits(limits) && Sound(b, limits)
    ensures Sound(Handle(b, limits, result, now).0, limits)
  {
    var c := Expire(b, now);
    ExpireSound(b, limits, now);
    PutTrimmed(c.results, result.message, HeldResult(result, now + limits.ttl), limits.maxEntries);
    match Find(c.outbound, result.message)
    case None =>
    case Some(o) => SettleSound(c, limits, result.message, o.requestId);
  }

  // ---- The service ----

  method TrimState<K, V>(state: OrderedMap<K, V>, maxEntries: nat) returns (r: OrderedMap<K, V>)
    ensures r == Trim(state, maxEntries)
  {
    r := state;
    while |r| > maxEntries
      invariant |r| <= |state| && r == state[|state| - |r|..]
      invariant |state| > maxEntries ==> |r| >= maxEntries
      invariant |state| <= maxEntries ==> r == state
    {
      r := r[1..];
    }
  }

  method PopExpired<K(==), V>(state: OrderedMap<K, V>, expired: V -> bool) returns (r: OrderedMap<K, V>)
    requires DistinctKeys(state)
    ensures r == Alive(state, expired)
  {
    r := state;
    for i := 0 to |state|
      invariant r == Alive(state[..i], expired) + state[i..]
    {
      AliveStep(state, expired, i);
      if expired(state[i].value) {
        r := Pop(r, state[i].key);
      }
    }
    assert state[..|state|] == state;
  }

  class HostedChatService {
    const limits: Limits
    var queued: int
    var refs: map<Target, int>
    var locks: map<Target, nat>
    var made: nat
    var processed: OrderedMap<EventKey, real>
    var outbound: OrderedMap<MessageId, Outbound>
    var byRequest: OrderedMap<RequestId, MessageId>
    var results: OrderedMap<MessageId, HeldResult>
    var pending: OrderedMap<EventKey, PendingSend>

    ghost function Stored(): Books
      reads this
    {
      Books(processed, outbound, byRequest, results, pending)
    }

    ghost function Waiting(): Queue
      reads this
    {
      Queue(queued, refs, locks, made)
    }

    ghost predicate Valid()
      reads this
    {
      ValidLimits(limits) && Sound(Stored(), limits)
    }

    constructor (limits: Limits)
      requires ValidLimits(limits)
      ensures Valid() && this.limits == limits
      ensures Stored() == EMPTY_BOOKS && Waiting() == EMPTY_QUEUE
    {
      this.limits := limits;
      queued, refs, locks, made := 0, map[], map[], 0;
      processed, outbound, byRequest, results, pending := [], [], [], [], [];
    }

    method ExpireOutbound(now: real)
      requires DistinctKeys(outbound)
      modifies `outbound, `byRequest
      ensures outbound == Alive(old(outbound), OutboundLapsed(now))
      ensures byRequest == WithoutLapsed(old(byRequest), old(outbound), now)
    {
      var items, mapped := outbound, byRequest;
      for i := 0 to |items|
        invariant outbound == Alive(items[..i], OutboundLapsed(now)) + items[i..]
        invariant byRequest == WithoutLapsed(mapped, items[..i], now)
      {
        AliveStep(items, OutboundLapsed(now), i);
        assert items[..i + 1][..i] == items[..i];
        if items[i].value.expiresAt <= now {
          outbound := Pop(outbound, items[i].key);
          byRequest := Pop(byRequest, items[i].value.requestId);
        }
      }
      assert items[..|items|] == items;
    }

    method ExpireState(now: real)
      requires Valid()
      modifies `processed, `outbound, `byRequest, `results, `pending
      ensures Valid() && Stored() == Expire(old(Stored()), now)
    {
      ExpireSound(Stored(), limits, now);
      processed := PopExpired(processed, Lapsed(now));
      ExpireOutbound(now);
      results := PopExpired(results, HeldLapsed(now));
      pending := PopExpired(pending, PendingLapsed(now));
    }

    method ClaimEvent(event: EventKey, now: real) returns (claimed: bool)
      requires Valid()
      modifies `processed, `outbound, `byRequest, `results, `pending
      ensures Valid() && (Stored(), claimed) == Claim(old(Stored()), limits, event, now)
    {
      ClaimSound(Stored(), limits, event, now);
      ExpireState(now);
      if Has(processed, event) {
        return false;
      }
      processed := Put(processed, event, now + limits.ttl);
      processed := TrimState(processed, limits.maxEntries);
      return true;
    }

    method ReleaseEvent(event: EventKey)
      requires Valid()
      modifies `processed
      ensures Valid() && Stored() == Release(old(Stored()), event)
    {
      DiscardSound(Stored(), limits, event);
      processed := Pop(processed, event);
    }

    method DiscardPendingSend(event: EventKey)
      requires Valid()
      modifies `pending
      ensures Valid() && Stored() == Discard(old(Stored()), event)
    {
      DiscardSound(Stored(), limits, event);
      pending := Pop(pending, event);
    }

    method EnterQueue(target: Target) returns (entered: bool)
      modifies `queued, `refs
      ensures (Waiting(), entered) == Enter(old(Waiting()), limits, target)
    {
      if queued >= limits.maxQueue {
        return false;
      }
      queued := queued + 1;
      refs := refs[target := (if target in refs then refs[target] else 0) + 1];
      return true;
    }

    method LeaveQueue(target: Target)
      requires target in refs
      modifies `queued, `refs, `locks
      ensures Waiting() == Leave(old(Waiting()), target)
    {
      queued := queued - 1;
      var remaining := refs[target] - 1;
      if remaining == 0 {
        refs := refs - {target};
      } else {
        refs := refs[target := remaining];
      }
      if remaining == 0 {
        locks := locks - {target};
      }
    }

    method GetLock(target: Target) returns (lock: nat)
      modifies `locks, `made
      ensures (Waiting(), lock) == LockFor(old(Waiting()), target)
    {
      if target !in locks {
        locks := locks[target := made];
      }
      lock := locks[target];
      made := made + 1;
    }

    method LookUpPending(event: EventKey, now: real) returns (found: Option<PendingSend>)
      requires Valid()
      modifies `pending
      ensures Valid() && (Stored(), found) == LookUp(old(Stored()), event, now)
    {
      LookUpSound(Stored(), limits, event, now);
      found := Find(pending, event);
      if found.Some? && found.value.expiresAt <= now {
        pending := Pop(pending, event);
        found := None;
      }
    }

    method StorePendingSend(event: EventKey, p: PendingSend)
      requires Valid()
      modifies `pending
      ensures Valid() && Stored() == StorePending(old(Stored()), limits, event, p)
    {
      StoreSound(Stored(), limits, event, p);
      pending := Put(pending, event, p);
      pending := TrimState(pending, limits.maxEntries);
    }

    method RecordOutbound(request: SendRequest, receipt: Receipt, now: real)
      requires Valid()
      modifies `outbound, `byRequest
      ensures Valid() && Stored() == Recorded(old(Stored()), limits, request, receipt, now)
    {
      RecordedSound(Stored(), limits, request, receipt, now);
      outbound := Put(outbound, receipt.message, Outbound(receipt.request, request, now + limits.ttl));
      byRequest := Put(byRequest, receipt.request, receipt.message);
      outbound := TrimState(outbound, limits.maxEntries);
      byRequest := TrimState(byRequest, limits.maxEntries);
    }

    method SettleMessage(message: MessageId, requestId: RequestId)
      requires Valid()
      modifies `outbound, `byRequest
      ensures Valid() && Stored() == Settle(old(Stored()), message, requestId)
    {
      SettleSound(Stored(), limits, message, requestId);
      outbound := Pop(outbound, message);
      byRequest := Pop(byRequest, requestId);
    }

    method TakeResult(message: MessageId) returns (held: Option<HeldResult>)
      requires Valid()
      modifies `results
      ensures Valid() && held == Find(old(results), message)
      ensures Stored() == old(Stored()).(results := Pop(old(results), message))
    {
      Popped(results, message);
      held := Find(results, message);
      results := Pop(results, message);
    }

    method AcceptSend(event: EventKey, request: SendRequest, receipt: Receipt, now: real) returns (ok: bool)
      requires Valid()
      modifies `processed, `outbound, `byRequest, `results, `pending
      ensures Valid() && (Stored(), ok) == Accept(old(Stored()), limits, event, request, receipt, now)
    {
      ExpireState(now);
      RecordOutbound(request, receipt, now);
      DiscardPendingSend(event);
      var held := TakeResult(receipt.message);
      if held.None? {
        return true;
      }
      SettleMessage(receipt.message, receipt.request);
      return Matches(request, held.value.result);
    }

    method HandleSendResult(result: SendResult, now: real) returns (reply: ResultReply)
      requires Valid()
      modifies `processed, `outbound, `byRequest, `results, `pending
      ensures Valid() && (Stored(), reply) == Handle(old(Stored()), limits, result, now)
    {
      ExpireState(now);
      var request := Find(outbound, result.message);
      if request.None? {
        HoldResult(result, now);
        return Held;
      }
      if !Matches(request.value.request, result) {
        return Mismatch;
      }
      SettleMessage(result.message, request.value.requestId);
      return Matched;
    }

    method HoldResult(result: SendResult, now: real)
      requires Valid()
      modifies `results
      ensures Valid() && Stored() == Kept(old(Stored()), limits, result, now)
    {
      PutTrimmed(results, result.message, HeldResult(result, now + limits.ttl), limits.maxEntries);
      results := Put(results, result.message, HeldResult(result, now + limits.ttl));
      results := TrimState(results, limits.maxEntries);
    }
  }

  datatype LimitError = LimitsMustBePositive

  method NewService(limits: Limits) returns (r: Result<HostedChatService, LimitError>)
    ensures r.Ok? <==> ValidLimits(limits)
    ensures r.Ok? ==> fresh(r.value) && r.value.Valid() && r.value.limits == limits
    ensures r.Ok? ==> r.value.Stored() == EMPTY_BOOKS && r.value.Waiting() == EMPTY_QUEUE
  {
    if !ValidLimits(limits) {
      return Err(LimitsMustBePositive);
    }
    var service := new HostedChatService(limits);
    return Ok(service);
  }
}
