/** One chat event over a whole run: every send attempt carries the same request, and none follows a settled one. */
module HostedChatEvents {
  import opened Wrappers
  import opened OrderedMaps
  import opened HostedChat
  import opened HostedChatRuns

  // ---- What the sections do to one event's entries, when nothing of it lapses or is evicted ----

  /** The event's claim and its pending send, where present, outlive `now`. */
  predicate Lasts(b: Books, e: EventKey, now: real) {
    && (Has(b.processed, e) ==> Find(b.processed, e).value > now)
    && (Has(b.pending, e) ==> Find(b.pending, e).value.expiresAt > now)
  }

  /** The action finds the event's entries alive and has room for what it stores. */
  predicate Quiet(b: Books, limits: Limits, a: Action, e: EventKey) {
    match a
    case Deliver(_, _, _, now) => Lasts(b, e, now) && |Expire(b, now).processed| < limits.maxEntries
    case ClaimOnly(_, now) => Lasts(b, e, now) && |Expire(b, now).processed| < limits.maxEntries
    case LookFor(_, now) => Lasts(b, e, now)
    case Build(_, _) => |b.pending| < limits.maxEntries
    case Reply(_, Accepted(_, now)) => Lasts(b, e, now)
    case Answer(_, now) => Lasts(b, e, now)
    case _ => true
  }

  lemma ExpireKeeps(b: Books, e: EventKey, now: real)
    requires WellKeyed(b) && Lasts(b, e, now)
    ensures Find(Expire(b, now).processed, e) == Find(b.processed, e)
    ensures Find(Expire(b, now).pending, e) == Find(b.pending, e)
  {
    FindAlive(b.processed, Lapsed(now), e);
    FindAlive(b.pending, PendingLapsed(now), e);
  }

  lemma ClaimKeeps(b: Books, limits: Limits, event: EventKey, now: real, e: EventKey)
    requires ValidLimits(limits) && WellKeyed(b) && Lasts(b, e, now)
    requires |Expire(b, now).processed| < limits.maxEntries
    ensures Has(Claim(b, limits, event, now).0.processed, e) <==> Has(b.processed, e) || event == e
    ensures Find(Claim(b, limits, event, now).0.pending, e) == Find(b.pending, e)
    ensures event == e ==> Claim(b, limits, event, now).1 == !Has(b.processed, e)
  {
    ExpireKeeps(b, e, now);
    var c := Expire(b, now);
    PutFacts(c.processed, event, now + limits.ttl);
    FindPut(c.processed, event, now + limits.ttl, e);
  }

  lemma LookUpKeeps(b: Books, event: EventKey, now: real, e: EventKey)
    requires Lasts(b, e, now)
    ensures Find(LookUp(b, event, now).0.pending, e) == Find(b.pending, e)
    ensures event == e ==> LookUp(b, event, now).1 == Find(b.pending, e)
    ensures LookUp(b, event, now).0.processed == b.processed
  {
    FindPop(b.pending, event, e);
  }

  lemma StoreKeeps(b: Books, limits: Limits, event: EventKey, p: PendingSend, e: EventKey)
    requires ValidLimits(limits) && |b.pending| < limits.maxEntries
    ensures Find(StorePending(b, limits, event, p).pending, e) == if event == e then Some(p) else Find(b.pending, e)
  {
    PutFacts(b.pending, event, p);
    FindPut(b.pending, event, p, e);
  }

  lemma AcceptKeeps(b: Books, limits: Limits, event: EventKey, request: SendRequest, receipt: Receipt, now: real,
                    e: EventKey)
    requires ValidLimits(limits) && WellKeyed(b) && Lasts(b, e, now)
    ensures Find(Accept(b, limits, event, request, receipt, now).0.processed, e) == Find(b.processed, e)
    ensures event != e ==> Find(Accept(b, limits, event, request, receipt, now).0.pending, e) == Find(b.pending, e)
  {
    ExpireKeeps(b, e, now);
    FindPop(Expire(b, now).pending, event, e);
  }

  lemma HandleKeeps(b: Books, limits: Limits, result: SendResult, now: real, e: EventKey)
    requires ValidLimits(limits) && WellKeyed(b) && Lasts(b, e, now)
    ensures Find(Handle(b, limits, result, now).0.processed, e) == Find(b.processed, e)
    ensures Find(Handle(b, limits, result, now).0.pending, e) == Find(b.pending, e)
  {
    ExpireKeeps(b, e, now);
  }

  // ---- The invariant of one event ----

  predicate Attempted(sent: seq<Attempt>, e: EventKey) {
    exists i :: 0 <= i < |sent| && sent[i].event == e
  }

  /** Every attempt for the event carries this pending send. */
  predicate AllCarry(sent: seq<Attempt>, e: EventKey, p: PendingSend) {
    forall i :: 0 <= i < |sent| && sent[i].event == e ==> sent[i] == Attempt(e, p.requestId, p.request)
  }

  /** What a phase of the event's task says; `over` is whether the event is settled. */
  predicate PhaseFits(p: Phase, over: bool, attempted: bool, stored: Option<PendingSend>) {
    match p
    case Building(_) => !over && !attempted
    case Ready(_, send) => !over && stored == Some(send)
    case Sending(_, send) => !over && stored == Some(send)
    case Leaving(outcome) => over <==> !outcome.Retried?
    case Closing(outcome) => over <==> !outcome.Retried?
    case _ => !over
  }

  ghost predicate Alone(tasks: map<nat, Task>, e: EventKey) {
    forall t, u :: t in tasks && u in tasks && tasks[t].event == e && tasks[u].event == e ==> t == u
  }

  ghost predicate TasksFit(tasks: map<nat, Task>, e: EventKey, claimed: bool, over: bool, attempted: bool,
                           stored: Option<PendingSend>) {
    forall t :: t in tasks && tasks[t].event == e ==> claimed && PhaseFits(tasks[t].phase, over, attempted, stored)
  }

  ghost predicate SameAttempts(sent: seq<Attempt>, e: EventKey) {
    forall i, j :: 0 <= i < |sent| && 0 <= j < |sent| && sent[i].event == e && sent[j].event == e ==> sent[i] == sent[j]
  }

  ghost predicate Steady(s: System, e: EventKey) {
    var claimed, stored, over := Has(s.books.processed, e), Find(s.books.pending, e), e in s.settled;
    && Alone(s.tasks, e)
    && TasksFit(s.tasks, e, claimed, over, Attempted(s.sent, e), stored)
    && (over ==> claimed)
    && SameAttempts(s.sent, e)
    && (!over && Attempted(s.sent, e) ==> stored.Some? && AllCarry(s.sent, e, stored.value))
  }

  /** A step that moves one task on: the event's own task must fit the new view, any other leaves the view alone. */
  lemma MoveFits(tasks: map<nat, Task>, t: nat, p: Phase, e: EventKey, claimed: bool,
                 over: bool, attempted: bool, stored: Option<PendingSend>,
                 over': bool, attempted': bool, stored': Option<PendingSend>)
    requires t in tasks && Alone(tasks, e) && TasksFit(tasks, e, claimed, over, attempted, stored)
    requires tasks[t].event == e ==> PhaseFits(p, over', attempted', stored')
    requires tasks[t].event != e ==> over' == over && attempted' == attempted && stored' == stored
    ensures Alone(Shift(tasks, t, p), e) && TasksFit(Shift(tasks, t, p), e, claimed, over', attempted', stored')
  {
  }

  lemma StepDeliverSteady(s: System, limits: Limits, a: Action, e: EventKey)
    requires ValidLimits(limits) && Enabled(s, limits, a) && (a.Deliver? || a.ClaimOnly?)
    requires WellKeyed(s.books) && Quiet(s.books, limits, a, e) && Steady(s, e)
    ensures Steady(Next(s, limits, a), e)
  {
    ClaimKeeps(s.books, limits, a.event, a.now, e);
  }

  lemma StepTaskSteady(s: System, limits: Limits, a: Action, e: EventKey)
    requires ValidLimits(limits) && Enabled(s, limits, a)
    requires a.Join? || a.TakeSlot? || a.FetchLock? || a.Acquire? || a.Exit?
    requires Steady(s, e)
    ensures Steady(Next(s, limits, a), e)
  {
    var over, attempted, stored := e in s.settled, Attempted(s.sent, e), Find(s.books.pending, e);
    MoveFits(s.tasks, a.task, Next(s, limits, a).tasks[a.task].phase, e, Has(s.books.processed, e),
             over, attempted, stored, over, attempted, stored);
  }

  lemma SettledSteady(s: System, t: nat, outcome: Outcome, e: EventKey)
    requires Steady(s, e) && t in s.tasks && (s.tasks[t].phase.Building? || s.tasks[t].phase.Sending?)
    ensures Steady(Settled(s, t, outcome), e)
  {
    var attempted, stored := Attempted(s.sent, e), Find(s.books.pending, e);
    MoveFits(s.tasks, t, Leaving(outcome), e, Has(s.books.processed, e),
             e in s.settled, attempted, stored, e in Settled(s, t, outcome).settled, attempted, stored);
  }

  lemma StepLookSteady(s: System, limits: Limits, a: Action, e: EventKey)
    requires ValidLimits(limits) && Enabled(s, limits, a) && a.LookFor?
    requires Quiet(s.books, limits, a, e) && Steady(s, e)
    ensures Steady(Next(s, limits, a), e)
  {
    LookUpKeeps(s.books, s.tasks[a.task].event, a.now, e);
  }

  lemma StepBuildSteady(s: System, limits: Limits, a: Action, e: EventKey)
    requires ValidLimits(limits) && Enabled(s, limits, a) && a.Build?
    requires Quiet(s.books, limits, a, e) && Steady(s, e)
    ensures Steady(Next(s, limits, a), e)
  {
    StoreKeeps(s.books, limits, s.tasks[a.task].event, a.built, e);
  }

  lemma StepSendSteady(s: System, limits: Limits, a: Action, e: EventKey)
    requires ValidLimits(limits) && Enabled(s, limits, a) && a.Send? && Steady(s, e)
    ensures Steady(Next(s, limits, a), e)
  {
    var p := s.tasks[a.task].phase.send;
    var sent := Next(s, limits, a).sent;
    assert sent[|s.sent|] == Attempt(s.tasks[a.task].event, p.requestId, p.request);
    assert forall i :: 0 <= i < |s.sent| ==> sent[i] == s.sent[i];
  }

  lemma StepAcceptSteady(s: System, limits: Limits, a: Action, e: EventKey)
    requires ValidLimits(limits) && Enabled(s, limits, a) && a.Reply? && a.answer.Accepted?
    requires WellKeyed(s.books) && Quiet(s.books, limits, a, e) && Steady(s, e)
    ensures Steady(Next(s, limits, a), e)
  {
    var n, task := Next(s, limits, a), s.tasks[a.task];
    AcceptKeeps(s.books, limits, task.event, task.phase.send.request, a.answer.receipt, a.answer.now, e);
    MoveFits(s.tasks, a.task, n.tasks[a.task].phase, e, Has(s.books.processed, e),
             e in s.settled, Attempted(s.sent, e), Find(s.books.pending, e),
             e in n.settled, Attempted(s.sent, e), Find(n.books.pending, e));
  }

  lemma CloseFits(tasks: map<nat, Task>, t: nat, e: EventKey, claimed: bool,
                  over: bool, attempted: bool, stored: Option<PendingSend>,
                  claimed': bool, stored': Option<PendingSend>)
    requires t in tasks && Alone(tasks, e) && TasksFit(tasks, e, claimed, over, attempted, stored)
    requires tasks[t].event != e ==> claimed' == claimed && stored' == stored
    ensures Alone(tasks - {t}, e) && TasksFit(tasks - {t}, e, claimed', over, attempted, stored')
  {
  }

  /** Closing a task of another event leaves this one's entries alone. */
  lemma CloseKeepsOthers(s: System, limits: Limits, t: nat, e: EventKey)
    requires ValidLimits(limits) && Enabled(s, limits, Close(t)) && s.tasks[t].event != e
    ensures var n := Next(s, limits, Close(t));
            && Find(n.books.processed, e) == Find(s.books.processed, e)
            && Find(n.books.pending, e) == Find(s.books.pending, e)
  {
    FindPop(s.books.pending, s.tasks[t].event, e);
    FindPop(s.books.processed, s.tasks[t].event, e);
  }

  /** Closing the event's own task gives its claim back exactly after a retryable failure, which leaves the pending
      send. */
  lemma CloseOwn(s: System, limits: Limits, t: nat, e: EventKey)
    requires ValidLimits(limits) && Enabled(s, limits, Close(t)) && s.tasks[t].event == e
    ensures var n := Next(s, limits, Close(t));
            && (if s.tasks[t].phase.outcome.Retried? then Find(n.books.pending, e) == Find(s.books.pending, e)
                else Has(n.books.processed, e) == Has(s.books.processed, e))
  {
    FindPop(s.books.pending, e, e);
  }

  lemma StepCloseSteady(s: System, limits: Limits, a: Action, e: EventKey)
    requires ValidLimits(limits) && Enabled(s, limits, a) && a.Close? && Steady(s, e)
    ensures Steady(Next(s, limits, a), e)
  {
    var n := Next(s, limits, a);
    if s.tasks[a.task].event == e {
      CloseOwn(s, limits, a.task, e);
    } else {
      CloseKeepsOthers(s, limits, a.task, e);
    }
    CloseFits(s.tasks, a.task, e, Has(s.books.processed, e), e in s.settled, Attempted(s.sent, e),
              Find(s.books.pending, e), Has(n.books.processed, e), Find(n.books.pending, e));
  }

  lemma StepSteady(s: System, limits: Limits, a: Action, e: EventKey)
    requires ValidLimits(limits) && Enabled(s, limits, a)
    requires WellKeyed(s.books) && Quiet(s.books, limits, a, e) && Steady(s, e)
    ensures Steady(Next(s, limits, a), e)
  {
    match a
    case Deliver(_, _, _, _) => StepDeliverSteady(s, limits, a, e);
    case ClaimOnly(_, _) => StepDeliverSteady(s, limits, a, e);
    case LookFor(_, _) => StepLookSteady(s, limits, a, e);
    case Build(_, _) => StepBuildSteady(s, limits, a, e);
    case Send(_) => StepSendSteady(s, limits, a, e);
    case FailBuild(t, permanent) => SettledSteady(s, t, Failure(permanent), e);
    case Reply(t, Declined(permanent)) => SettledSteady(s, t, Failure(permanent), e);
    case Reply(_, _) => StepAcceptSteady(s, limits, a, e);
    case Close(_) => StepCloseSteady(s, limits, a, e);
    case Answer(result, now) => HandleKeeps(s.books, limits, result, now, e);
    case _ => StepTaskSteady(s, limits, a, e);
  }

  /** A run along which nothing of the event lapses or is evicted. */
  ghost predicate QuietRun(s: System, limits: Limits, actions: seq<Action>, e: EventKey)
    requires ValidLimits(limits)
    decreases |actions|
  {
    actions != [] ==>
      && Enabled(s, limits, actions[0])
      && Quiet(s.books, limits, actions[0], e)
      && QuietRun(Next(s, limits, actions[0]), limits, actions[1..], e)
  }

  lemma {:induction false} RunSteady(s: System, limits: Limits, actions: seq<Action>, e: EventKey)
    requires ValidLimits(limits) && Sound(s.books, limits) && QuietRun(s, limits, actions, e) && Steady(s, e)
    ensures Run(s, limits, actions).Some? && Steady(Run(s, limits, actions).value, e)
    ensures Sound(Run(s, limits, actions).value.books, limits)
    decreases |actions|
  {
    if actions != [] {
      StepSound(s, limits, actions[0]);
      StepSteady(s, limits, actions[0], e);
      RunSteady(Next(s, limits, actions[0]), limits, actions[1..], e);
    }
  }

  /** All send attempts of one event, across retryable failures and redeliveries, carry one request id and one body. */
  lemma AttemptsAgree(limits: Limits, actions: seq<Action>, e: EventKey, i: nat, j: nat)
    requires ValidLimits(limits) && QuietRun(START, limits, actions, e) && Run(START, limits, actions).Some?
    requires var sent := Run(START, limits, actions).value.sent;
             i < |sent| && j < |sent| && sent[i].event == e && sent[j].event == e
    ensures var sent := Run(START, limits, actions).value.sent;
            sent[i].requestId == sent[j].requestId && sent[i].request == sent[j].request
  {
    RunSteady(START, limits, actions, e);
  }

  lemma StepSilent(s: System, limits: Limits, a: Action, e: EventKey)
    requires ValidLimits(limits) && Enabled(s, limits, a) && Steady(s, e) && e in s.settled
    ensures e in Next(s, limits, a).settled
    ensures s.sent <= Next(s, limits, a).sent
    ensures forall i :: |s.sent| <= i < |Next(s, limits, a).sent| ==> Next(s, limits, a).sent[i].event != e
  {
  }

  /** Once an attempt was accepted or failed permanently, further deliveries of the event send nothing. */
  lemma {:induction false} SettledIsSilent(s: System, limits: Limits, actions: seq<Action>, e: EventKey)
    requires ValidLimits(limits) && Sound(s.books, limits) && QuietRun(s, limits, actions, e)
    requires Steady(s, e) && e in s.settled
    ensures Run(s, limits, actions).Some? && s.sent <= Run(s, limits, actions).value.sent
    ensures var sent := Run(s, limits, actions).value.sent;
            forall i :: |s.sent| <= i < |sent| ==> sent[i].event != e
    decreases |actions|
  {
    if actions != [] {
      StepSound(s, limits, actions[0]);
      StepSteady(s, limits, actions[0], e);
      StepSilent(s, limits, actions[0], e);
      SettledIsSilent(Next(s, limits, actions[0]), limits, actions[1..], e);
    }
  }
}
