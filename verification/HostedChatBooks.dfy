/** What the hosted-chat books guarantee: the two outbound maps mirror each other, and a send result may arrive on
    either side of its accept. */
module HostedChatBooks {
  import opened Wrappers
  import opened OrderedMaps
  import opened HostedChat

  // ---- The outbound map and the request-id map mirror each other ----

  function Mirror(outbound: OrderedMap<MessageId, Outbound>): (r: OrderedMap<RequestId, MessageId>)
    ensures |r| == |outbound|
  {
    if outbound == [] then []
    else [Entry(outbound[0].value.requestId, outbound[0].key)] + Mirror(outbound[1..])
  }

  lemma {:induction false} MirrorAt(outbound: OrderedMap<MessageId, Outbound>, i: nat)
    requires i < |outbound|
    ensures Mirror(outbound)[i] == Entry(outbound[i].value.requestId, outbound[i].key)
  {
    if i > 0 {
      MirrorAt(outbound[1..], i - 1);
    }
  }

  predicate Mirrored(b: Books) {
    DistinctKeys(b.outbound) && DistinctKeys(b.byRequest) && b.byRequest == Mirror(b.outbound)
  }

  /** Mirroring makes the two maps inverse to each other. */
  lemma MirrorIsInverse(b: Books, message: MessageId, requestId: RequestId)
    requires Mirrored(b)
    ensures Find(b.byRequest, requestId) == Some(message)
       <==> Find(b.outbound, message).Some? && Find(b.outbound, message).value.requestId == requestId
  {
    if Find(b.byRequest, requestId) == Some(message) {
      var i :| 0 <= i < |b.byRequest| && b.byRequest[i].key == requestId && b.byRequest[i].value == message;
      MirrorAt(b.outbound, i);
      FindMember(b.outbound, i);
    }
    if Find(b.outbound, message).Some? {
      var o := Find(b.outbound, message).value;
      var i :| 0 <= i < |b.outbound| && b.outbound[i].key == message && b.outbound[i].value == o;
      MirrorAt(b.outbound, i);
      FindMember(b.byRequest, i);
    }
  }

  lemma {:induction false} PopAt<K, V>(m: OrderedMap<K, V>, i: nat)
    requires DistinctKeys(m) && i < |m|
    ensures Pop(m, m[i].key) == m[..i] + m[i + 1..]
  {
    if i == 0 {
      PopHead(m);
    } else {
      PopAt(m[1..], i - 1);
      assert m[1..][..i - 1] == m[1..i] && m[1..][i..] == m[i + 1..];
    }
  }

  lemma {:induction false} MirrorConcat(left: OrderedMap<MessageId, Outbound>, right: OrderedMap<MessageId, Outbound>)
    ensures Mirror(left + right) == Mirror(left) + Mirror(right)
  {
    if left == [] {
      assert left + right == right;
    } else {
      MirrorConcat(left[1..], right);
      assert (left + right)[0] == left[0] && (left + right)[1..] == left[1..] + right;
      Associate([Entry(left[0].value.requestId, left[0].key)], Mirror(left[1..]), Mirror(right));
    }
  }

  lemma {:induction false} MirrorSplit(outbound: OrderedMap<MessageId, Outbound>, i: nat)
    requires i <= |outbound|
    ensures Mirror(outbound[..i]) == Mirror(outbound)[..i]
    ensures Mirror(outbound[i..]) == Mirror(outbound)[i..]
  {
    assert outbound[..i] + outbound[i..] == outbound;
    MirrorConcat(outbound[..i], outbound[i..]);
  }

  lemma MirrorPop(outbound: OrderedMap<MessageId, Outbound>, i: nat)
    requires DistinctKeys(outbound) && DistinctKeys(Mirror(outbound)) && i < |outbound|
    ensures Pop(Mirror(outbound), outbound[i].value.requestId) == Mirror(Pop(outbound, outbound[i].key))
  {
    PopAt(outbound, i);
    MirrorAt(outbound, i);
    PopAt(Mirror(outbound), i);
    MirrorConcat(outbound[..i], outbound[i + 1..]);
    MirrorSplit(outbound, i);
    MirrorSplit(outbound, i + 1);
  }

  lemma MirrorTrim(outbound: OrderedMap<MessageId, Outbound>, limit: nat)
    ensures Mirror(Trim(outbound, limit)) == Trim(Mirror(outbound), limit)
  {
    if |outbound| > limit {
      MirrorSplit(outbound, |outbound| - limit);
    }
  }

  /** The expiry loop, after its first `i` rounds. */
  lemma {:induction false} MirrorExpire(outbound: OrderedMap<MessageId, Outbound>, now: real, i: nat)
    requires DistinctKeys(outbound) && DistinctKeys(Mirror(outbound)) && i <= |outbound|
    ensures var left := Alive(outbound[..i], OutboundLapsed(now)) + outbound[i..];
            && DistinctKeys(left) && DistinctKeys(Mirror(left))
            && WithoutLapsed(Mirror(outbound), outbound[..i], now) == Mirror(left)
  {
    if i == 0 {
      assert Alive(outbound[..0], OutboundLapsed(now)) + outbound[0..] == outbound;
    } else {
      MirrorExpire(outbound, now, i - 1);
      var alive := Alive(outbound[..i - 1], OutboundLapsed(now));
      var before := alive + outbound[i - 1..];
      AliveStep(outbound, OutboundLapsed(now), i - 1);
      assert outbound[..i][..i - 1] == outbound[..i - 1];
      assert before[|alive|] == outbound[i - 1];
      MirrorPop(before, |alive|);
      PopDistinct(before, outbound[i - 1].key);
      PopDistinct(Mirror(before), outbound[i - 1].value.requestId);
    }
  }

  lemma ExpireMirrored(b: Books, now: real)
    requires Mirrored(b)
    ensures Mirrored(Expire(b, now))
  {
    MirrorExpire(b.outbound, now, |b.outbound|);
    assert b.outbound[..|b.outbound|] == b.outbound;
    var alive := Alive(b.outbound, OutboundLapsed(now));
    assert alive + b.outbound[|b.outbound|..] == alive;
  }

  lemma SettleMirrored(b: Books, message: MessageId)
    requires Mirrored(b) && Has(b.outbound, message)
    ensures Mirrored(Settle(b, message, Find(b.outbound, message).value.requestId))
  {
    var o := Find(b.outbound, message).value;
    var i :| 0 <= i < |b.outbound| && b.outbound[i].key == message && b.outbound[i].value == o;
    MirrorPop(b.outbound, i);
    PopDistinct(b.outbound, message);
    PopDistinct(b.byRequest, o.requestId);
  }

  predicate FreshIds(b: Books, receipt: Receipt) {
    Find(b.outbound, receipt.message).None? && Find(b.byRequest, receipt.request).None?
  }

  lemma {:induction false} FindWithoutLapsed(byRequest: OrderedMap<RequestId, MessageId>,
                                             outbound: OrderedMap<MessageId, Outbound>, now: real, requestId: RequestId)
    requires Find(byRequest, requestId).None?
    ensures Find(WithoutLapsed(byRequest, outbound, now), requestId).None?
  {
    if outbound != [] {
      var earlier := outbound[..|outbound| - 1];
      FindWithoutLapsed(byRequest, earlier, now, requestId);
      FindPop(WithoutLapsed(byRequest, earlier, now), outbound[|outbound| - 1].value.requestId, requestId);
    }
  }

  lemma ExpireKeepsFresh(b: Books, now: real, receipt: Receipt)
    requires DistinctKeys(b.outbound) && FreshIds(b, receipt)
    ensures FreshIds(Expire(b, now), receipt)
  {
    FindAlive(b.outbound, OutboundLapsed(now), receipt.message);
    FindWithoutLapsed(b.byRequest, b.outbound, now, receipt.request);
  }

  lemma {:induction false} PutMirrored(outbound: OrderedMap<MessageId, Outbound>, message: MessageId, o: Outbound)
    requires DistinctKeys(outbound) && DistinctKeys(Mirror(outbound))
    requires Find(outbound, message).None? && Find(Mirror(outbound), o.requestId).None?
    ensures DistinctKeys(Put(outbound, message, o)) && DistinctKeys(Put(Mirror(outbound), o.requestId, message))
    ensures Put(Mirror(outbound), o.requestId, message) == Mirror(Put(outbound, message, o))
    ensures Put(outbound, message, o) == outbound + [Entry(message, o)]
  {
    PutFacts(outbound, message, o);
    PutFacts(Mirror(outbound), o.requestId, message);
    MirrorConcat(outbound, [Entry(message, o)]);
    assert Mirror([Entry(message, o)]) == [Entry(o.requestId, message)];
  }

  lemma {:induction false} TrimMirrored(outbound: OrderedMap<MessageId, Outbound>, limit: nat)
    requires DistinctKeys(outbound) && DistinctKeys(Mirror(outbound))
    ensures DistinctKeys(Trim(outbound, limit)) && DistinctKeys(Trim(Mirror(outbound), limit))
    ensures Trim(Mirror(outbound), limit) == Mirror(Trim(outbound, limit))
  {
    MirrorTrim(outbound, limit);
    TrimDistinct(outbound, limit);
    TrimDistinct(Mirror(outbound), limit);
  }

  lemma {:induction false} RecordedMirrored(b: Books, limits: Limits, request: SendRequest, receipt: Receipt, now: real)
    requires ValidLimits(limits) && Mirrored(b) && FreshIds(b, receipt)
    ensures Mirrored(Recorded(b, limits, request, receipt, now))
  {
    var o := Outbound(receipt.request, request, now + limits.ttl);
    PutMirrored(b.outbound, receipt.message, o);
    TrimMirrored(Put(b.outbound, receipt.message, o), limits.maxEntries);
  }

  lemma {:induction false} RecordedFinds(b: Books, limits: Limits, request: SendRequest, receipt: Receipt, now: real)
    requires ValidLimits(limits) && DistinctKeys(b.outbound) && FreshIds(b, receipt)
    ensures Find(Recorded(b, limits, request, receipt, now).outbound, receipt.message)
         == Some(Outbound(receipt.request, request, now + limits.ttl))
  {
    var o := Outbound(receipt.request, request, now + limits.ttl);
    FindPutTrimmed(b.outbound, receipt.message, o, limits.maxEntries);
  }

  /** Inserting, expiring and trimming under fresh ids keep the two maps mirrored. */
  lemma AcceptMirrored(b: Books, limits: Limits, event: EventKey, request: SendRequest, receipt: Receipt, now: real)
    requires ValidLimits(limits) && Mirrored(b) && FreshIds(b, receipt)
    ensures Mirrored(Accept(b, limits, event, request, receipt, now).0)
  {
    ExpireMirrored(b, now);
    ExpireKeepsFresh(b, now, receipt);
    RecordedMirrored(Expire(b, now), limits, request, receipt, now);
    RecordedFinds(Expire(b, now), limits, request, receipt, now);
    var d := Discard(Recorded(Expire(b, now), limits, request, receipt, now), event)
             .(results := Pop(Expire(b, now).results, receipt.message));
    SettleMirrored(d, receipt.message);
  }

  lemma HandleMirrored(b: Books, limits: Limits, result: SendResult, now: real)
    requires ValidLimits(limits) && Mirrored(b)
    ensures Mirrored(Handle(b, limits, result, now).0)
  {
    ExpireMirrored(b, now);
    if Has(Expire(b, now).outbound, result.message) {
      SettleMirrored(Expire(b, now), result.message);
    }
  }

  // ---- A result on either side of its accept ----

  predicate NoneLapsed<K(!new), V(!new)>(m: OrderedMap<K, V>, lapsed: V -> bool) {
    forall i :: 0 <= i < |m| ==> !lapsed(m[i].value)
  }

  predicate NothingLapsed(b: Books, now: real) {
    && NoneLapsed(b.processed, Lapsed(now))
    && NoneLapsed(b.outbound, OutboundLapsed(now))
    && NoneLapsed(b.results, HeldLapsed(now))
    && NoneLapsed(b.pending, PendingLapsed(now))
  }

  lemma {:induction false} WithoutNone(byRequest: OrderedMap<RequestId, MessageId>,
                                       outbound: OrderedMap<MessageId, Outbound>, now: real)
    requires NoneLapsed(outbound, OutboundLapsed(now))
    ensures WithoutLapsed(byRequest, outbound, now) == byRequest
  {
    if outbound != [] {
      assert outbound[|outbound| - 1].value.expiresAt > now by {
        assert !OutboundLapsed(now)(outbound[|outbound| - 1].value);
      }
      WithoutNone(byRequest, outbound[..|outbound| - 1], now);
    }
  }

  lemma ExpireNothing(b: Books, now: real)
    requires NothingLapsed(b, now)
    ensures Expire(b, now) == b
  {
    AliveAll(b.processed, Lapsed(now));
    AliveAll(b.outbound, OutboundLapsed(now));
    AliveAll(b.results, HeldLapsed(now));
    AliveAll(b.pending, PendingLapsed(now));
    WithoutNone(b.byRequest, b.outbound, now);
  }

  lemma NoneLapsedPop<K(!new), V(!new)>(m: OrderedMap<K, V>, lapsed: V -> bool, key: K)
    requires NoneLapsed(m, lapsed)
    ensures NoneLapsed(Pop(m, key), lapsed)
  {
    var r := Pop(m, key);
    forall i | 0 <= i < |r| ensures !lapsed(r[i].value) {
      PopMember(m, key, r[i]);
      var j :| 0 <= j < |m| && m[j] == r[i];
    }
  }

  lemma NoneLapsedAppend<K(!new), V(!new)>(m: OrderedMap<K, V>, lapsed: V -> bool, x: Entry<K, V>, limit: nat)
    requires NoneLapsed(m, lapsed) && !lapsed(x.value)
    ensures NoneLapsed(Trim(m + [x], limit), lapsed)
  {
  }

  lemma AliveLapsesNot<K(!new), V(!new)>(m: OrderedMap<K, V>, lapsed: V -> bool)
    ensures NoneLapsed(Alive(m, lapsed), lapsed)
  {
    var r := Alive(m, lapsed);
    forall i | 0 <= i < |r| ensures !lapsed(r[i].value) {
      AliveMember(m, lapsed, r[i]);
    }
  }

  lemma ExpireLeavesNothing(b: Books, now: real)
    ensures NothingLapsed(Expire(b, now), now)
  {
    AliveLapsesNot(b.processed, Lapsed(now));
    AliveLapsesNot(b.outbound, OutboundLapsed(now));
    AliveLapsesNot(b.results, HeldLapsed(now));
    AliveLapsesNot(b.pending, PendingLapsed(now));
  }

  lemma NoneLapsedPut<K(!new), V(!new)>(m: OrderedMap<K, V>, lapsed: V -> bool, key: K, value: V, limit: nat)
    requires NoneLapsed(m, lapsed) && !lapsed(value)
    ensures NoneLapsed(Trim(Put(m, key, value), limit), lapsed)
  {
    NoneLapsedPop(m, lapsed, key);
    NoneLapsedAppend(Pop(m, key), lapsed, Entry(key, value), limit);
  }

  /** An event is claimed exactly when no claim of it is alive, and nothing lapsed is left behind. */
  lemma ClaimedIff(b: Books, limits: Limits, event: EventKey, now: real)
    requires ValidLimits(limits) && WellKeyed(b)
    ensures Claim(b, limits, event, now).1 <==> !(Has(b.processed, event) && Find(b.processed, event).value > now)
    ensures NothingLapsed(Claim(b, limits, event, now).0, now)
  {
    FindAlive(b.processed, Lapsed(now), event);
    ExpireLeavesNothing(b, now);
    NoneLapsedPut(Expire(b, now).processed, Lapsed(now), event, now + limits.ttl, limits.maxEntries);
  }

  /** The accept section leaves nothing lapsed behind. */
  lemma AcceptLeavesNothing(b: Books, limits: Limits, event: EventKey, request: SendRequest, receipt: Receipt,
                            now: real)
    requires ValidLimits(limits)
    ensures NothingLapsed(Accept(b, limits, event, request, receipt, now).0, now)
  {
    var c := Expire(b, now);
    var o := Outbound(receipt.request, request, now + limits.ttl);
    ExpireLeavesNothing(b, now);
    NoneLapsedPut(c.outbound, OutboundLapsed(now), receipt.message, o, limits.maxEntries);
    NoneLapsedPop(Recorded(c, limits, request, receipt, now).outbound, OutboundLapsed(now), receipt.message);
    NoneLapsedPop(c.pending, PendingLapsed(now), event);
    NoneLapsedPop(c.results, HeldLapsed(now), receipt.message);
  }

  /** Nor does the section of a send result. */
  lemma HandleLeavesNothing(b: Books, limits: Limits, result: SendResult, now: real)
    requires ValidLimits(limits)
    ensures NothingLapsed(Handle(b, limits, result, now).0, now)
  {
    var c := Expire(b, now);
    ExpireLeavesNothing(b, now);
    NoneLapsedPut(c.results, HeldLapsed(now), result.message, HeldResult(result, now + limits.ttl), limits.maxEntries);
    NoneLapsedPop(c.outbound, OutboundLapsed(now), result.message);
  }

  /** The books once a message is both accepted and answered. */
  function Completed(b: Books, limits: Limits, event: EventKey): Books
    requires ValidLimits(limits)
  {
    b.(outbound := Trim(b.outbound, limits.maxEntries - 1),
       byRequest := Trim(b.byRequest, limits.maxEntries - 1),
       pending := Pop(b.pending, event))
  }

  ghost predicate Unanswered(b: Books, limits: Limits, receipt: Receipt, result: SendResult) {
    && ValidLimits(limits)
    && Sound(b, limits)
    && FreshIds(b, receipt)
    && result.message == receipt.message
    && Find(b.results, receipt.message).None?
  }

  lemma {:induction false} SettleRecorded(b: Books, limits: Limits, request: SendRequest, receipt: Receipt, now: real)
    requires ValidLimits(limits) && Sound(b, limits) && FreshIds(b, receipt)
    ensures Settle(Recorded(b, limits, request, receipt, now), receipt.message, receipt.request)
         == b.(outbound := Trim(b.outbound, limits.maxEntries - 1),
               byRequest := Trim(b.byRequest, limits.maxEntries - 1))
  {
    var o := Outbound(receipt.request, request, now + limits.ttl);
    PutFacts(b.outbound, receipt.message, o);
    PutFacts(b.byRequest, receipt.request, receipt.message);
    PopTrimmedLast(b.outbound, Entry(receipt.message, o), limits.maxEntries);
    PopTrimmedLast(b.byRequest, Entry(receipt.request, receipt.message), limits.maxEntries);
  }

  /** The books after an accept that finds no held result. */
  function Accepted(b: Books, limits: Limits, event: EventKey, request: SendRequest, receipt: Receipt, now: real): Books
    requires ValidLimits(limits)
  {
    Discard(Recorded(b, limits, request, receipt, now), event)
  }

  lemma {:induction false} AcceptedLasts(b: Books, limits: Limits, event: EventKey, request: SendRequest,
                                         receipt: Receipt, now: real, later: real)
    requires ValidLimits(limits) && Sound(b, limits) && FreshIds(b, receipt)
    requires NothingLapsed(b, later) && later < now + limits.ttl
    ensures Expire(Accepted(b, limits, event, request, receipt, now), later)
         == Accepted(b, limits, event, request, receipt, now)
  {
    var o := Outbound(receipt.request, request, now + limits.ttl);
    PutFacts(b.outbound, receipt.message, o);
    NoneLapsedAppend(b.outbound, OutboundLapsed(later), Entry(receipt.message, o), limits.maxEntries);
    NoneLapsedPop(b.pending, PendingLapsed(later), event);
    ExpireNothing(Accepted(b, limits, event, request, receipt, now), later);
  }

  lemma {:induction false} AcceptFirst(b: Books, limits: Limits, event: EventKey, request: SendRequest,
                                       receipt: Receipt, now: real)
    requires ValidLimits(limits) && NothingLapsed(b, now) && Find(b.results, receipt.message).None?
    ensures Accept(b, limits, event, request, receipt, now) == (Accepted(b, limits, event, request, receipt, now), true)
  {
    ExpireNothing(b, now);
    PopAbsent(b.results, receipt.message);
  }

  lemma {:induction false} ResultFirst(b: Books, limits: Limits, result: SendResult, now: real, later: real)
    requires ValidLimits(limits) && Sound(b, limits)
    requires Find(b.outbound, result.message).None? && Find(b.results, result.message).None?
    requires NothingLapsed(b, now) && NothingLapsed(b, later) && later < now + limits.ttl
    ensures Handle(b, limits, result, now) == (Kept(b, limits, result, now), Held)
    ensures Expire(Kept(b, limits, result, now), later) == Kept(b, limits, result, now)
    ensures Find(Kept(b, limits, result, now).results, result.message) == Some(HeldResult(result, now + limits.ttl))
    ensures Pop(Kept(b, limits, result, now).results, result.message) == Trim(b.results, limits.maxEntries - 1)
  {
    ExpireNothing(b, now);
    var x := Entry(result.message, HeldResult(result, now + limits.ttl));
    PutFacts(b.results, result.message, x.value);
    NoneLapsedAppend(b.results, HeldLapsed(later), x, limits.maxEntries);
    ExpireNothing(Kept(b, limits, result, now), later);
    FindTrimmedLast(b.results, x, limits.maxEntries);
    PopTrimmedLast(b.results, x, limits.maxEntries);
  }

  lemma {:induction false} AcceptThenResult(b: Books, limits: Limits, event: EventKey, request: SendRequest,
                                            receipt: Receipt, result: SendResult, acceptAt: real, resultAt: real)
    requires Unanswered(b, limits, receipt, result) && Matches(request, result)
    requires NothingLapsed(b, acceptAt) && NothingLapsed(b, resultAt) && resultAt < acceptAt + limits.ttl
    ensures Accept(b, limits, event, request, receipt, acceptAt).1
    ensures Handle(Accept(b, limits, event, request, receipt, acceptAt).0, limits, result, resultAt)
         == (Completed(b, limits, event), Matched)
  {
    AcceptFirst(b, limits, event, request, receipt, acceptAt);
    AcceptedLasts(b, limits, event, request, receipt, acceptAt, resultAt);
    RecordedFinds(b, limits, request, receipt, acceptAt);
    SettleRecorded(b, limits, request, receipt, acceptAt);
  }

  lemma {:induction false} ResultThenAccept(b: Books, limits: Limits, event: EventKey, request: SendRequest,
                                            receipt: Receipt, result: SendResult, acceptAt: real, resultAt: real)
    requires Unanswered(b, limits, receipt, result)
    requires NothingLapsed(b, acceptAt) && NothingLapsed(b, resultAt) && acceptAt < resultAt + limits.ttl
    ensures Handle(b, limits, result, resultAt).1 == Held
    ensures Accept(Handle(b, limits, result, resultAt).0, limits, event, request, receipt, acceptAt)
         == (Completed(b, limits, event).(results := Trim(b.results, limits.maxEntries - 1)), Matches(request, result))
  {
    ResultFirst(b, limits, result, resultAt, acceptAt);
    SettleRecorded(b, limits, request, receipt, acceptAt);
    var h := Kept(b, limits, result, resultAt);
    assert Settle(Recorded(h, limits, request, receipt, acceptAt), receipt.message, receipt.request)
        == Settle(Recorded(b, limits, request, receipt, acceptAt), receipt.message, receipt.request)
           .(results := h.results);
  }

  /** A matching result leaves the same books before and after its accept, exactly when the map of held results has
      room for it; at the limit the early result evicts the oldest held one. */
  lemma OrderIsIrrelevantIff(b: Books, limits: Limits, event: EventKey, request: SendRequest, receipt: Receipt,
                             result: SendResult, acceptAt: real, resultAt: real)
    requires Unanswered(b, limits, receipt, result) && Matches(request, result)
    requires NothingLapsed(b, acceptAt) && NothingLapsed(b, resultAt)
    requires acceptAt < resultAt + limits.ttl && resultAt < acceptAt + limits.ttl
    ensures Handle(Accept(b, limits, event, request, receipt, acceptAt).0, limits, result, resultAt).0
         == Accept(Handle(b, limits, result, resultAt).0, limits, event, request, receipt, acceptAt).0
       <==> |b.results| < limits.maxEntries
  {
    AcceptThenResult(b, limits, event, request, receipt, result, acceptAt, resultAt);
    ResultThenAccept(b, limits, event, request, receipt, result, acceptAt, resultAt);
  }

  /** A result that names another conversation is refused on either side of the accept. */
  lemma MismatchIsRefused(b: Books, limits: Limits, event: EventKey, request: SendRequest, receipt: Receipt,
                          result: SendResult, acceptAt: real, resultAt: real)
    requires Unanswered(b, limits, receipt, result) && !Matches(request, result)
    requires NothingLapsed(b, acceptAt) && NothingLapsed(b, resultAt)
    requires acceptAt < resultAt + limits.ttl && resultAt < acceptAt + limits.ttl
    ensures Handle(Accept(b, limits, event, request, receipt, acceptAt).0, limits, result, resultAt)
         == (Accept(b, limits, event, request, receipt, acceptAt).0, Mismatch)
    ensures !Accept(Handle(b, limits, result, resultAt).0, limits, event, request, receipt, acceptAt).1
  {
    AcceptFirst(b, limits, event, request, receipt, acceptAt);
    AcceptedLasts(b, limits, event, request, receipt, acceptAt, resultAt);
    RecordedFinds(b, limits, request, receipt, acceptAt);
    ResultThenAccept(b, limits, event, request, receipt, result, acceptAt, resultAt);
  }

  /** A result for another session, avatar, role or kind of chat is refused on either side of the accept; one that
      agrees in all four is not. */
  lemma ForeignIsRefused(b: Books, limits: Limits, event: EventKey, request: SendRequest, receipt: Receipt,
                         result: SendResult, acceptAt: real, resultAt: real)
    requires Unanswered(b, limits, receipt, result)
    requires NothingLapsed(b, acceptAt) && NothingLapsed(b, resultAt)
    requires acceptAt < resultAt + limits.ttl && resultAt < acceptAt + limits.ttl
    ensures var foreign := || result.session != request.session || result.avatar != request.avatar
                           || result.role != request.role || result.chat != request.chat;
            && Handle(Accept(b, limits, event, request, receipt, acceptAt).0, limits, result, resultAt).1
               == (if foreign then Mismatch else Matched)
            && Accept(Handle(b, limits, result, resultAt).0, limits, event, request, receipt, acceptAt).1 == !foreign
  {
    if Matches(request, result) {
      AcceptThenResult(b, limits, event, request, receipt, result, acceptAt, resultAt);
      ResultThenAccept(b, limits, event, request, receipt, result, acceptAt, resultAt);
    } else {
      MismatchIsRefused(b, limits, event, request, receipt, result, acceptAt, resultAt);
    }
  }

  /** Expiring keeps exactly the entries whose time lies ahead. */
  lemma ExpireIff(b: Books, now: real)
    ensures forall x :: x in Expire(b, now).processed <==> x in b.processed && x.value > now
    ensures forall x :: x in Expire(b, now).outbound <==> x in b.outbound && x.value.expiresAt > now
    ensures forall x :: x in Expire(b, now).results <==> x in b.results && x.value.expiresAt > now
    ensures forall x :: x in Expire(b, now).pending <==> x in b.pending && x.value.expiresAt > now
  {
    forall x ensures x in Expire(b, now).processed <==> x in b.processed && x.value > now {
      AliveMember(b.processed, Lapsed(now), x);
    }
    forall x ensures x in Expire(b, now).outbound <==> x in b.outbound && x.value.expiresAt > now {
      AliveMember(b.outbound, OutboundLapsed(now), x);
    }
    forall x ensures x in Expire(b, now).results <==> x in b.results && x.value.expiresAt > now {
      AliveMember(b.results, HeldLapsed(now), x);
    }
    forall x ensures x in Expire(b, now).pending <==> x in b.pending && x.value.expiresAt > now {
      AliveMember(b.pending, PendingLapsed(now), x);
    }
  }

  // ---- An eviction ----

  const ONE_ENTRY := Limits(1, 1.0, 1)

  const REQUEST := SendRequest("session", "1", "1", Private, "hello")

  function Answered(message: string): SendResult {
    SendResult(MessageId(message), "session", "1", "1", Private, Sent, None)
  }

  /** With room for one entry, books that hold another message's result: a matching result evicts it when it arrives
      before its accept, and not when it arrives after. */
  lemma EarlyResultEvicts(event: EventKey)
    ensures var b := EMPTY_BOOKS.(results := [Entry(MessageId("old"), HeldResult(Answered("old"), 10.0))]);
            var receipt, result := Receipt(RequestId("request"), MessageId("new")), Answered("new");
            && Sound(b, ONE_ENTRY) && Matches(REQUEST, result)
            && Handle(Accept(b, ONE_ENTRY, event, REQUEST, receipt, 0.0).0, ONE_ENTRY, result, 0.0).0
               != Accept(Handle(b, ONE_ENTRY, result, 0.0).0, ONE_ENTRY, event, REQUEST, receipt, 0.0).0
  {
    var b := EMPTY_BOOKS.(results := [Entry(MessageId("old"), HeldResult(Answered("old"), 10.0))]);
    var receipt := Receipt(RequestId("request"), MessageId("new"));
    OrderIsIrrelevantIff(b, ONE_ENTRY, event, REQUEST, receipt, Answered("new"), 0.0, 0.0);
  }
}
