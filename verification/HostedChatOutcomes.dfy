/** What becomes of a chat event after its attempt succeeds, fails for good, or fails for now, told by the actions. */
module HostedChatOutcomes {
  import opened Wrappers
  import opened OrderedMaps
  import opened HostedChat
  import opened HostedChatRuns
  import opened HostedChatEvents

  // ---- Runs in pieces ----

  lemma {:induction false} RunInPieces(s: System, limits: Limits, first: seq<Action>, second: seq<Action>)
    requires ValidLimits(limits)
    ensures Run(s, limits, first + second)
         == if Run(s, limits, first).Some? then Run(Run(s, limits, first).value, limits, second) else None
    decreases |first|
  {
    if first == [] {
      assert first + second == second;
    } else {
      assert (first + second)[0] == first[0] && (first + second)[1..] == first[1..] + second;
      if Enabled(s, limits, first[0]) {
        RunInPieces(Next(s, limits, first[0]), limits, first[1..], second);
      }
    }
  }

  lemma {:induction false} QuietInPieces(s: System, limits: Limits, first: seq<Action>, second: seq<Action>,
                                         e: EventKey)
    requires ValidLimits(limits) && QuietRun(s, limits, first + second, e)
    ensures QuietRun(s, limits, first, e) && Run(s, limits, first).Some?
    ensures QuietRun(Run(s, limits, first).value, limits, second, e)
    decreases |first|
  {
    if first == [] {
      assert first + second == second;
    } else {
      assert (first + second)[0] == first[0] && (first + second)[1..] == first[1..] + second;
      QuietInPieces(Next(s, limits, first[0]), limits, first[1..], second, e);
    }
  }

  /** A quiet run from a steady state, taken in two pieces. */
  lemma SteadyPieces(s: System, limits: Limits, first: seq<Action>, second: seq<Action>, e: EventKey)
    requires ValidLimits(limits) && Sound(s.books, limits) && Steady(s, e) && QuietRun(s, limits, first + second, e)
    ensures QuietRun(s, limits, first, e) && Run(s, limits, first).Some?
    ensures var m := Run(s, limits, first).value;
            && Sound(m.books, limits) && Steady(m, e) && QuietRun(m, limits, second, e)
            && Run(s, limits, first + second) == Run(m, limits, second)
  {
    QuietInPieces(s, limits, first, second, e);
    RunInPieces(s, limits, first, second);
    RunSteady(s, limits, first, e);
  }

  lemma OneStep(s: System, limits: Limits, a: Action, e: EventKey)
    requires ValidLimits(limits) && QuietRun(s, limits, [a], e)
    ensures Enabled(s, limits, a) && Quiet(s.books, limits, a, e) && Run(s, limits, [a]) == Some(Next(s, limits, a))
  {
    assert [a][1..] == [];
  }

  // ---- Done for good ----

  /** The event's attempt is accepted, or fails in a way that is not to be tried again. */
  predicate Ends(s: System, a: Action, e: EventKey) {
    match a
    case FailBuild(t, permanent) => permanent && t in s.tasks && s.tasks[t].event == e
    case Reply(t, Declined(permanent)) => permanent && t in s.tasks && s.tasks[t].event == e
    case Reply(t, Accepted(_, _)) => t in s.tasks && s.tasks[t].event == e
    case _ => false
  }

  ghost predicate HasTask(s: System, e: EventKey) {
    exists t :: t in s.tasks && s.tasks[t].event == e
  }

  /** A task of the event that will discard its pending send. */
  predicate WillDiscard(s: System, t: nat, e: EventKey) {
    && t in s.tasks && s.tasks[t].event == e
    && (s.tasks[t].phase == Leaving(Refused) || s.tasks[t].phase == Closing(Refused))
  }

  /** A settled event has no pending send, unless its task has yet to discard it. */
  ghost predicate Cleared(s: System, e: EventKey) {
    e in s.settled && Has(s.books.pending, e) ==> exists t :: WillDiscard(s, t, e)
  }

  lemma EndsSettles(s: System, limits: Limits, a: Action, e: EventKey)
    requires ValidLimits(limits) && Enabled(s, limits, a) && Steady(s, e) && Ends(s, a, e)
    requires WellKeyed(s.books) && Quiet(s.books, limits, a, e)
    ensures e in Next(s, limits, a).settled && Cleared(Next(s, limits, a), e)
    ensures Next(s, limits, a).sent == s.sent
  {
    var n := Next(s, limits, a);
    if a.Reply? && a.answer.Accepted? {
      FindPop(Recorded(Expire(s.books, a.answer.now), limits, s.tasks[a.task].phase.send.request, a.answer.receipt,
                       a.answer.now).pending, e, e);
    } else {
      assert WillDiscard(n, a.task, e);
    }
  }

  /** A settled event stays cleared, whatever else happens quietly. */
  lemma StepCleared(s: System, limits: Limits, a: Action, e: EventKey)
    requires ValidLimits(limits) && Enabled(s, limits, a) && WellKeyed(s.books) && Quiet(s.books, limits, a, e)
    requires Steady(s, e) && e in s.settled && Cleared(s, e)
    ensures e in Next(s, limits, a).settled && Cleared(Next(s, limits, a), e)
  {
    match a
    case Deliver(_, event, _, now) => ClaimKeeps(s.books, limits, event, now, e); OthersCleared(s, limits, a, e);
    case ClaimOnly(event, now) => ClaimKeeps(s.books, limits, event, now, e); OthersCleared(s, limits, a, e);
    case LookFor(t, now) => LookUpKeeps(s.books, s.tasks[t].event, now, e); OthersCleared(s, limits, a, e);
    case Build(t, built) => StoreKeeps(s.books, limits, s.tasks[t].event, built, e); OthersCleared(s, limits, a, e);
    case Reply(t, Accepted(receipt, now)) =>
      AcceptKeeps(s.books, limits, s.tasks[t].event, s.tasks[t].phase.send.request, receipt, now, e);
      OthersCleared(s, limits, a, e);
    case Answer(result, now) => HandleKeeps(s.books, limits, result, now, e); OthersCleared(s, limits, a, e);
    case Close(t) => CloseCleared(s, limits, t, e);
    case _ => OthersCleared(s, limits, a, e);
  }

  /** A task on its way to discard is moved on by its own exit alone. */
  lemma DiscardStays(s: System, limits: Limits, a: Action, t: nat, e: EventKey)
    requires ValidLimits(limits) && Enabled(s, limits, a) && !a.Close? && WillDiscard(s, t, e)
    ensures WillDiscard(Next(s, limits, a), t, e)
  {
  }

  lemma OthersCleared(s: System, limits: Limits, a: Action, e: EventKey)
    requires ValidLimits(limits) && Enabled(s, limits, a) && !a.Close?
    requires Steady(s, e) && e in s.settled && Cleared(s, e)
    requires Find(Next(s, limits, a).books.pending, e) == Find(s.books.pending, e)
             || (a.Build? && s.tasks[a.task].event == e) || (a.Reply? && s.tasks[a.task].event == e)
    ensures e in Next(s, limits, a).settled && Cleared(Next(s, limits, a), e)
  {
    if Has(s.books.pending, e) {
      var t :| WillDiscard(s, t, e);
      DiscardStays(s, limits, a, t, e);
    }
  }

  lemma CloseCleared(s: System, limits: Limits, t: nat, e: EventKey)
    requires ValidLimits(limits) && Enabled(s, limits, Close(t)) && WellKeyed(s.books)
    requires Steady(s, e) && e in s.settled && Cleared(s, e)
    ensures e in Next(s, limits, Close(t)).settled && Cleared(Next(s, limits, Close(t)), e)
  {
    var n := Next(s, limits, Close(t));
    if s.tasks[t].event == e {
      FindPop(s.books.pending, e, e);
    } else {
      CloseKeepsOthers(s, limits, t, e);
      if Has(s.books.pending, e) {
        var u :| WillDiscard(s, u, e);
        assert WillDiscard(n, u, e);
      }
    }
  }

  lemma {:induction false} RunCleared(s: System, limits: Limits, actions: seq<Action>, e: EventKey)
    requires ValidLimits(limits) && Sound(s.books, limits) && QuietRun(s, limits, actions, e)
    requires Steady(s, e) && e in s.settled && Cleared(s, e)
    ensures Run(s, limits, actions).Some?
    ensures var last := Run(s, limits, actions).value; Steady(last, e) && e in last.settled && Cleared(last, e)
    decreases |actions|
  {
    if actions != [] {
      StepSound(s, limits, actions[0]);
      StepSteady(s, limits, actions[0], e);
      StepCleared(s, limits, actions[0], e);
      RunCleared(Next(s, limits, actions[0]), limits, actions[1..], e);
    }
  }

  /** After such an action, whatever follows quietly: no further attempt carries the event, its claim is held, and once
      its task has closed no pending send of it remains. */
  lemma EndedIsSilent(limits: Limits, before: seq<Action>, a: Action, after: seq<Action>, e: EventKey)
    requires ValidLimits(limits) && QuietRun(START, limits, before + ([a] + after), e)
    requires Run(START, limits, before).Some? && Ends(Run(START, limits, before).value, a, e)
    ensures Run(START, limits, before + ([a] + after)).Some?
    ensures var s, last := Run(START, limits, before).value, Run(START, limits, before + ([a] + after)).value;
            && s.sent <= last.sent
            && (forall i :: |s.sent| <= i < |last.sent| ==> last.sent[i].event != e)
            && Has(last.books.processed, e)
            && (!HasTask(last, e) ==> !Has(last.books.pending, e))
  {
    SteadyPieces(START, limits, before, [a] + after, e);
    var s := Run(START, limits, before).value;
    SteadyPieces(s, limits, [a], after, e);
    OneStep(s, limits, a, e);
    EndsSettles(s, limits, a, e);
    SettledIsSilent(Next(s, limits, a), limits, after, e);
    RunCleared(Next(s, limits, a), limits, after, e);
  }

  // ---- Failed for now ----

  /** The event's attempt fails in a way that is to be tried again: the queue is full, or the request cannot be built or
      sent for now. */
  predicate Defers(s: System, limits: Limits, a: Action, e: EventKey) {
    match a
    case Join(t) => t in s.tasks && s.tasks[t].event == e && s.queue.queued >= limits.maxQueue
    case FailBuild(t, permanent) => !permanent && t in s.tasks && s.tasks[t].event == e
    case Reply(t, Declined(permanent)) => !permanent && t in s.tasks && s.tasks[t].event == e
    case _ => false
  }

  /** The event's task is on its way out to be tried again, with this pending send left. */
  predicate Deferred(s: System, t: nat, e: EventKey, stored: Option<PendingSend>) {
    && t in s.tasks && s.tasks[t].event == e && Find(s.books.pending, e) == stored
    && (s.tasks[t].phase == Leaving(Retried) || s.tasks[t].phase == Closing(Retried))
  }

  lemma DefersDefers(s: System, limits: Limits, a: Action, e: EventKey)
    requires ValidLimits(limits) && Enabled(s, limits, a) && Defers(s, limits, a, e)
    ensures Deferred(Next(s, limits, a), a.task, e, Find(s.books.pending, e))
  {
  }

  /** The pending send of the event survives whatever is done for other events. */
  lemma PendingStays(s: System, limits: Limits, a: Action, t: nat, e: EventKey)
    requires ValidLimits(limits) && Enabled(s, limits, a) && WellKeyed(s.books) && Quiet(s.books, limits, a, e)
    requires Alone(s.tasks, e) && t in s.tasks && s.tasks[t].event == e && a != Close(t)
    requires s.tasks[t].phase.Leaving? || s.tasks[t].phase.Closing?
    ensures Find(Next(s, limits, a).books.pending, e) == Find(s.books.pending, e)
  {
    match a
    case Deliver(_, event, _, now) => ClaimKeeps(s.books, limits, event, now, e);
    case ClaimOnly(event, now) => ClaimKeeps(s.books, limits, event, now, e);
    case LookFor(u, now) => LookUpKeeps(s.books, s.tasks[u].event, now, e);
    case Build(u, built) => StoreKeeps(s.books, limits, s.tasks[u].event, built, e);
    case Reply(u, Accepted(receipt, now)) =>
      AcceptKeeps(s.books, limits, s.tasks[u].event, s.tasks[u].phase.send.request, receipt, now, e);
    case Answer(result, now) => HandleKeeps(s.books, limits, result, now, e);
    case Close(u) => CloseKeepsOthers(s, limits, u, e);
    case _ =>
  }

  /** And its task only goes on to close. */
  lemma TaskStays(s: System, limits: Limits, a: Action, t: nat, e: EventKey, stored: Option<PendingSend>)
    requires ValidLimits(limits) && Enabled(s, limits, a) && Deferred(s, t, e, stored) && a != Close(t)
    ensures var n := Next(s, limits, a);
            && t in n.tasks && n.tasks[t].event == e
            && (n.tasks[t].phase == Leaving(Retried) || n.tasks[t].phase == Closing(Retried))
  {
  }

  /** Until that task closes nothing touches the event's pending send, and nothing else works on the event. */
  lemma StepDeferred(s: System, limits: Limits, a: Action, t: nat, e: EventKey, stored: Option<PendingSend>)
    requires ValidLimits(limits) && Enabled(s, limits, a) && WellKeyed(s.books) && Quiet(s.books, limits, a, e)
    requires Steady(s, e) && Deferred(s, t, e, stored) && a != Close(t)
    ensures Deferred(Next(s, limits, a), t, e, stored)
  {
    PendingStays(s, limits, a, t, e);
    TaskStays(s, limits, a, t, e, stored);
  }

  predicate LeavesOpen(actions: seq<Action>, t: nat) {
    actions == [] || (actions[0] != Close(t) && LeavesOpen(actions[1..], t))
  }

  lemma {:induction false} RunDeferred(s: System, limits: Limits, actions: seq<Action>, t: nat, e: EventKey,
                                       stored: Option<PendingSend>)
    requires ValidLimits(limits) && Sound(s.books, limits) && QuietRun(s, limits, actions, e)
    requires Steady(s, e) && Deferred(s, t, e, stored) && LeavesOpen(actions, t)
    ensures Run(s, limits, actions).Some? && Deferred(Run(s, limits, actions).value, t, e, stored)
    decreases |actions|
  {
    if actions != [] {
      StepSound(s, limits, actions[0]);
      StepSteady(s, limits, actions[0], e);
      StepDeferred(s, limits, actions[0], t, e, stored);
      RunDeferred(Next(s, limits, actions[0]), limits, actions[1..], t, e, stored);
    }
  }

  /** Closing gives the claim back and leaves the pending send. */
  lemma CloseReleases(s: System, limits: Limits, t: nat, e: EventKey, stored: Option<PendingSend>)
    requires ValidLimits(limits) && Deferred(s, t, e, stored) && Enabled(s, limits, Close(t)) && Steady(s, e)
    ensures var n := Next(s, limits, Close(t));
            !Has(n.books.processed, e) && Find(n.books.pending, e) == stored && !HasTask(n, e)
  {
    FindPop(s.books.processed, e, e);
  }

  /** And the next delivery is taken up. */
  lemma DeliverClaims(s: System, limits: Limits, u: nat, k: Target, now: real, e: EventKey)
    requires ValidLimits(limits) && Enabled(s, limits, Deliver(u, e, k, now)) && WellKeyed(s.books)
    requires Quiet(s.books, limits, Deliver(u, e, k, now), e) && !Has(s.books.processed, e)
    ensures var n := Next(s, limits, Deliver(u, e, k, now));
            && u in n.tasks && n.tasks[u] == Task(e, k, HostedChatRuns.Claimed)
            && Find(n.books.pending, e) == Find(s.books.pending, e)
  {
    ClaimKeeps(s.books, limits, e, now, e);
  }

  /** After such a failure, once the task closes, the claim is given back and the pending send of before the failure is
      kept, whatever else happened quietly in between; and the next delivery of the event is claimed, with that pending
      send to hand. */
  lemma DeferredIsRetried(limits: Limits, before: seq<Action>, a: Action, between: seq<Action>, t: nat,
                          again: Action, e: EventKey)
    requires ValidLimits(limits) && again.Deliver? && again.event == e
    requires QuietRun(START, limits, before + ([a] + (between + ([Close(t)] + [again]))), e)
    requires Run(START, limits, before).Some? && Defers(Run(START, limits, before).value, limits, a, e) && a.task == t
    requires LeavesOpen(between, t)
    ensures var s := Run(START, limits, before).value;
            var closed := Run(START, limits, before + ([a] + (between + [Close(t)])));
            var redelivered := Run(START, limits, before + ([a] + (between + ([Close(t)] + [again]))));
            && closed.Some? && redelivered.Some?
            && !Has(closed.value.books.processed, e)
            && Find(closed.value.books.pending, e) == Find(s.books.pending, e)
            && again.task in redelivered.value.tasks
            && redelivered.value.tasks[again.task] == Task(e, again.target, HostedChatRuns.Claimed)
            && Find(redelivered.value.books.pending, e) == Find(s.books.pending, e)
  {
    var rest := between + ([Close(t)] + [again]);
    SteadyPieces(START, limits, before, [a] + rest, e);
    var s := Run(START, limits, before).value;
    SteadyPieces(s, limits, [a], rest, e);
    OneStep(s, limits, a, e);
    DefersDefers(s, limits, a, e);
    DeferredThenRetried(Next(s, limits, a), limits, between, t, again, e, Find(s.books.pending, e));
    RunInPieces(START, limits, before, [a] + (between + [Close(t)]));
    RunInPieces(s, limits, [a], between + [Close(t)]);
  }

  lemma DeferredThenRetried(s: System, limits: Limits, between: seq<Action>, t: nat, again: Action, e: EventKey,
                            stored: Option<PendingSend>)
    requires ValidLimits(limits) && again.Deliver? && again.event == e && Sound(s.books, limits) && Steady(s, e)
    requires QuietRun(s, limits, between + ([Close(t)] + [again]), e) && Deferred(s, t, e, stored)
    requires LeavesOpen(between, t)
    ensures var closed := Run(s, limits, between + [Close(t)]);
            var redelivered := Run(s, limits, between + ([Close(t)] + [again]));
            && closed.Some? && redelivered.Some?
            && !Has(closed.value.books.processed, e) && Find(closed.value.books.pending, e) == stored
            && again.task in redelivered.value.tasks
            && redelivered.value.tasks[again.task] == Task(e, again.target, HostedChatRuns.Claimed)
            && Find(redelivered.value.books.pending, e) == stored
  {
    SteadyPieces(s, limits, between, [Close(t)] + [again], e);
    RunDeferred(s, limits, between, t, e, stored);
    var m := Run(s, limits, between).value;
    SteadyPieces(m, limits, [Close(t)], [again], e);
    OneStep(m, limits, Close(t), e);
    CloseReleases(m, limits, t, e, stored);
    var n := Next(m, limits, Close(t));
    OneStep(n, limits, again, e);
    DeliverClaims(n, limits, again.task, again.target, again.now, e);
    RunInPieces(s, limits, between, [Close(t)]);
  }
}
