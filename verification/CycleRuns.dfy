/** What every interleaving of cycle transactions keeps, for any proposals, however stale the snapshots
    they were built from, and for any order and repetition of deliveries. */
module CycleRuns {
  import opened Wrappers
  import opened ActivityPlans
  import Skills
  import Runs = ActivityPlanRuns
  import opened CycleRows

  function RunRow(row: Row, ds: seq<Delivery>): Row
    decreases |ds|
  {
    if ds == [] then row else RunRow(After(row, ds[0]), ds[1..])
  }

  /** The plan columns agree with the stored body. */
  predicate ColumnsAgree(row: Row) {
    if row.body.Some? then row == Columns(row, row.body.value)
    else
      && row.planId.None? && row.goal.None? && row.phase.None? && row.status.None? && row.current.None?
      && row.version == 0
  }

  predicate SequenceAtMost(a: Option<int>, b: Option<int>) {
    a.Some? ==> b.Some? && a.value <= b.value
  }

  /** The same stored plan version, perhaps further along. */
  predicate SamePlan(a: Row, b: Row) {
    && a.version == b.version
    && (a.body.Some? <==> b.body.Some?)
    && (a.body.Some? ==>
          && b.body.value.planId == a.body.value.planId
          && Slots(b.body.value.steps) == Slots(a.body.value.steps)
          && Runs.Cursor(a.body.value) <= Runs.Cursor(b.body.value))
  }

  // ---- One transaction ----

  /** The current step is rewritten in place while its attempt may go on, and passed otherwise. */
  lemma TransitionForm(p: Plan, c: nat, e: Runs.PlanEvent)
    requires UniqueIds(Slots(p.steps)) && p.current.Some? && IndexOf(p.steps, p.current.value) == Some(c)
    requires Runs.Transition(p, e).Ok? && !e.Close?
    ensures c < |p.steps|
    ensures var r := Runs.StepAfter(p.steps[c], e);
            Runs.Transition(p, e).value == if r.status == Started || r.status == Pending
                                           then p.(steps := ReplaceStep(p.steps, r))
                                           else AdvanceAfterTerminal(p, r)
  {
  }

  lemma ForwardBy(p: Plan, e: Runs.PlanEvent)
    requires ValidPlan(p) && Runs.Transition(p, e).Ok? && !e.Close?
    ensures var q := Runs.Transition(p, e).value;
            && Slots(q.steps) == Slots(p.steps) && |q.steps| == |p.steps|
            && Runs.Cursor(p) <= Runs.Cursor(q) && q.planId == p.planId && q.version == p.version
  {
    var c := Runs.Cursor(p);
    TransitionForm(p, c, e);
    var r := Runs.StepAfter(p.steps[c], e);
    if r.status == Started || r.status == Pending {
      Runs.ReplaceOne(p.steps, c, r);
    } else {
      Runs.AdvanceIsNext(p, c, r);
    }
  }

  lemma ForwardClose(p: Plan)
    requires ValidPlan(p) && Runs.Transition(p, Runs.Close).Ok?
    ensures var q := Runs.Transition(p, Runs.Close).value;
            && Slots(q.steps) == Slots(p.steps) && |q.steps| == |p.steps|
            && Runs.Cursor(p) <= Runs.Cursor(q) && q.planId == p.planId && q.version == p.version
  {
  }

  /** A transition leaves the step layout alone and moves the cursor forward, never back. */
  lemma Forward(p: Plan, e: Runs.PlanEvent, q: Plan)
    requires ValidPlan(p) && Runs.Transition(p, e) == Ok(q)
    ensures Slots(q.steps) == Slots(p.steps) && |q.steps| == |p.steps|
    ensures Runs.Cursor(p) <= Runs.Cursor(q) && q.planId == p.planId && q.version == p.version
  {
    if e.Close? {
      ForwardClose(p);
    } else {
      ForwardBy(p, e);
    }
  }

  lemma ForwardInvalidate(p: Plan, stepId: string)
    requires ValidPlan(p) && InvalidateMoveTarget(p, stepId).Ok?
    ensures var q := InvalidateMoveTarget(p, stepId).value;
            Slots(q.steps) == Slots(p.steps) && Runs.Cursor(q) == Runs.Cursor(p) && ValidPlan(q)
  {
    Runs.Invalidated(p);
    var c := Runs.Cursor(p);
    var q := InvalidateMoveTarget(p, stepId).value;
    Runs.ReplaceOne(p.steps, c, q.steps[c]);
  }

  /** The plan a transaction other than `prepare` would store, when it stores one. */
  function Stores(row: Row, op: Operation): Option<Plan>
    requires !op.Prepare? && Loads(row)
  {
    if op.Close? then
      if row.body.None? then None else Some(ClosePlan(row.body.value))
    else if op.PassiveStep? || op.ChatOpportunity? then
      if AtSocialStep(row) then Some(CompleteSocialOpportunity(row.body.value).value) else None
    else if !Targets(row, op.bound) then None
    else
      match BoundTransition(row.body.value, op.bound.value.stepId, op)
      case Ok(plan) => Some(plan)
      case Err(_) => None
  }

  lemma StoresForward(row: Row, d: Delivery)
    requires !d.op.Prepare? && Loads(row) && Stores(row, d.op).Some?
    ensures row.body.Some?
    ensures var p, q := row.body.value, Stores(row, d.op).value;
            && Slots(q.steps) == Slots(p.steps) && Runs.Cursor(p) <= Runs.Cursor(q)
            && q.planId == p.planId && q.version == p.version
  {
    var p, q := row.body.value, Stores(row, d.op).value;
    match d.op
    case Close =>
      Forward(p, Runs.Close, q);
    case PassiveStep =>
      Forward(p, Runs.SocialOpportunity, q);
    case ChatOpportunity =>
      Forward(p, Runs.SocialOpportunity, q);
    case SkillStarted(b) =>
      Forward(p, Runs.SkillStarted(b.value.stepId), q);
    case SkillFinished(b, s, r, c) =>
      Forward(p, Runs.SkillTerminal(b.value.stepId, s, r, !s && c), q);
    case DecisionRejected(b, t) =>
      if t && CurrentStep(p).Ok? && CurrentStep(p).value.skill == Some(Skills.MoveTo) {
        ForwardInvalidate(p, b.value.stepId);
      } else {
        Forward(p, Runs.SkillTerminal(b.value.stepId, false, false, false), q);
      }
  }

  /** Outside `prepare`, the row after a transaction is the row before it, or holds the stored plan's columns
      and, for an ordered event, that event's mark. */
  lemma AfterShape(row: Row, d: Delivery)
    requires !d.op.Prepare?
    ensures After(row, d) == row
         || (Granted(d) && Loads(row) && Stores(row, d.op).Some?
             && var next := Columns(row, Stores(row, d.op).value);
             if d.op.ChatOpportunity? then After(row, d) == next
             else Admits(row, d.event)
                  && After(row, d) == next.(lastEvent := Some(d.event.rowId), lastSequence := Some(d.event.sequence)))
  {
  }

  /** One delivery: columns stay in agreement, the sequence never falls, and either the same plan is carried
      forward or a replacement was written, which is one version above whatever was stored. */
  lemma StepKept(row: Row, d: Delivery)
    requires ColumnsAgree(row)
    ensures var next := After(row, d);
            && ColumnsAgree(next)
            && SequenceAtMost(row.lastSequence, next.lastSequence)
            && (SamePlan(row, next)
                || (d.op.Prepare? && d.op.proposed.Some? && next.version == row.version + 1
                    && next.body == Some(d.op.proposed.value.(version := row.version + 1))))
  {
    if !d.op.Prepare? {
      AfterShape(row, d);
      if After(row, d) != row {
        StoresForward(row, d);
      }
    }
  }

  /** An ordered event that is older than the stored one, or that shares its sequence under another row id,
      leaves the row unchanged. */
  lemma StaleEventChangesNothing(row: Row, d: Delivery)
    requires !d.op.ChatOpportunity? && row.lastSequence.Some?
    requires d.event.sequence < row.lastSequence.value
          || (d.event.sequence == row.lastSequence.value && row.lastEvent != Some(d.event.rowId))
    ensures After(row, d) == row
  {
    if !d.op.Prepare? {
      AfterShape(row, d);
    }
  }

  /** A delivery whose event is no longer being processed, or whose token, fence or generation has moved on, fails and
      leaves the row unchanged. */
  lemma LostClaimChangesNothing(row: Row, d: Delivery)
    requires d.locked.None?
          || !d.locked.value.processing
          || d.locked.value.token != d.event.token
          || d.locked.value.claimedFence != d.event.fence
          || d.locked.value.fence != d.event.fence
          || d.locked.value.generation != d.event.generation
    ensures Transact(row, d) == Err(Unavailable) && After(row, d) == row
  {
  }

  // ---- Whole runs ----

  /** Over every interleaving the columns agree with the body, the stored sequence and version never fall, and
      while the version is unchanged so are the plan and its step layout, with the cursor only moving forward. */
  lemma {:induction false} RunKept(row: Row, ds: seq<Delivery>)
    requires ColumnsAgree(row)
    ensures var last := RunRow(row, ds);
            && ColumnsAgree(last)
            && SequenceAtMost(row.lastSequence, last.lastSequence)
            && row.version <= last.version
            && (row.version == last.version ==> SamePlan(row, last))
    decreases |ds|
  {
    if ds != [] {
      StepKept(row, ds[0]);
      RunKept(After(row, ds[0]), ds[1..]);
    }
  }

  /** An ended cycle is final: no run of deliveries of any kind changes its row. */
  lemma {:induction false} EndedIsFinal(row: Row, ds: seq<Delivery>)
    requires row.cycle == CycleEnded
    ensures RunRow(row, ds) == row
    decreases |ds|
  {
    if ds != [] {
      EndedChangesNothing(row, ds[0]);
      EndedIsFinal(row, ds[1..]);
    }
  }

  lemma EndedChangesNothing(row: Row, d: Delivery)
    requires row.cycle == CycleEnded
    ensures After(row, d) == row
  {
  }

  // ---- Runs in which the cycle's status changes ----

  /** Between deliveries other components activate, stop or supersede the cycle; they touch no plan column. */
  datatype Happening = Delivered(d: Delivery) | Turned(status: CycleStatus)

  function Next(row: Row, h: Happening): Row {
    match h
    case Delivered(d) => After(row, d)
    case Turned(status) => row.(cycle := status)
  }

  function LifeRow(row: Row, hs: seq<Happening>): Row
    decreases |hs|
  {
    if hs == [] then row else LifeRow(Next(row, hs[0]), hs[1..])
  }

  /** A run keeps what `RunKept` says, wherever in it the cycle is activated or ends. */
  lemma {:induction false} LifeKept(row: Row, hs: seq<Happening>)
    requires ColumnsAgree(row)
    ensures var last := LifeRow(row, hs);
            && ColumnsAgree(last)
            && SequenceAtMost(row.lastSequence, last.lastSequence)
            && row.version <= last.version
            && (row.version == last.version ==> SamePlan(row, last))
    decreases |hs|
  {
    if hs != [] {
      if hs[0].Delivered? {
        StepKept(row, hs[0].d);
      }
      LifeKept(Next(row, hs[0]), hs[1..]);
    }
  }

  /** From the moment the cycle ends, and until something activates it again, the row stays as it was then. */
  lemma {:induction false} LifeAfterEnd(row: Row, hs: seq<Happening>)
    requires row.cycle == CycleEnded
    requires forall h :: h in hs && h.Turned? ==> h.status == CycleEnded
    ensures LifeRow(row, hs) == row
    decreases |hs|
  {
    if hs != [] {
      assert hs[0] in hs;
      if hs[0].Delivered? {
        EndedChangesNothing(row, hs[0].d);
      }
      LifeAfterEnd(row, hs[1..]);
    }
  }

  // ---- Redelivery ----

  /** A skill-started event is stored once, and recording the start is all that is done under its row id. */
  predicate OneEventPerId(d: Delivery, ds: seq<Delivery>) {
    forall k :: 0 <= k < |ds| && ds[k].event.rowId == d.event.rowId ==>
      ds[k].event.sequence == d.event.sequence && ds[k].op == d.op
  }

  /** The same event claimed again: the token, the fence and what the lock finds may all differ. */
  predicate Redelivers(again: Delivery, d: Delivery) {
    again.event.rowId == d.event.rowId && again.event.sequence == d.event.sequence && again.op == d.op
  }

  /** A delivery that was written, not dropped by the guard or by the checks before it. */
  predicate Takes(row: Row, d: Delivery)
    requires !d.op.Prepare?
  {
    Granted(d) && Loads(row) && Stores(row, d.op).Some? && Admits(row, d.event)
  }

  /** The step is current and under way. */
  predicate UnderWay(row: Row, bound: Binding) {
    && row.body.Some? && row.body.value.current == Some(bound.stepId)
    && CurrentStep(row.body.value).Ok?
    && CurrentStep(row.body.value).value.status == Started
    && CurrentStep(row.body.value).value.skill.Some?
  }

  lemma TakenStartIsUnderWay(row: Row, d: Delivery)
    requires d.op.SkillStarted? && Takes(row, d)
    ensures UnderWay(After(row, d), d.op.bound.value)
    ensures After(row, d).lastSequence == Some(d.event.sequence) && After(row, d).lastEvent == Some(d.event.rowId)
  {
    var p := row.body.value;
    var c := Runs.Cursor(p);
    Runs.TransitionShape(p, c, Runs.SkillStarted(d.op.bound.value.stepId));
    Runs.ReplaceOne(p.steps, c, Runs.StepAfter(p.steps[c], Runs.SkillStarted(d.op.bound.value.stepId)));
  }

  /** Starting a step that is under way rewrites it with itself. */
  lemma RestartIsIdentity(row: Row, d: Delivery)
    requires d.op.SkillStarted? && d.op.bound.Some? && UnderWay(row, d.op.bound.value)
    ensures After(row, d).body == row.body
  {
    if Loads(row) && Targets(row, d.op.bound) {
      var p := row.body.value;
      var c := Runs.Cursor(p);
      Runs.ReplaceOne(p.steps, c, p.steps[c]);
      assert p.steps[c].(status := Started, attempts := AttemptOf(p.steps[c])) == p.steps[c];
      assert p.steps[c := p.steps[c]] == p.steps;
      assert p.(steps := p.steps) == p;
    }
  }

  /** What a taken start leaves behind until another version is installed: a later sequence, or its own mark
      on a row where the step is still under way. */
  predicate StartSettled(row: Row, d: Delivery)
    requires d.op.SkillStarted? && d.op.bound.Some?
  {
    && row.lastSequence.Some?
    && d.event.sequence <= row.lastSequence.value
    && (row.lastSequence.value == d.event.sequence ==>
          row.lastEvent == Some(d.event.rowId) && UnderWay(row, d.op.bound.value))
  }

  lemma StartStaysSettled(row: Row, d: Delivery, next: Delivery)
    requires ColumnsAgree(row) && d.op.SkillStarted? && d.op.bound.Some? && StartSettled(row, d)
    requires OneEventPerId(d, [next]) && After(row, next).version == row.version
    ensures StartSettled(After(row, next), d)
  {
    assert [next][0] == next;
    if row.lastSequence.value == d.event.sequence && After(row, next) != row {
      if next.event.rowId == d.event.rowId && !next.op.ChatOpportunity? {
        RestartIsIdentity(row, next);
        AfterShape(row, next);
        assert After(row, next).body == row.body;
      } else if next.op.Prepare? {
        StepKept(row, next);
      } else {
        AfterShape(row, next);
      }
    }
  }

  /** From a settled row, redelivery changes no plan until `prepare` installs another version. */
  lemma {:induction false} StartedRedelivery(row: Row, d: Delivery, ds: seq<Delivery>, again: Delivery)
    requires ColumnsAgree(row) && d.op.SkillStarted? && d.op.bound.Some? && StartSettled(row, d)
    requires OneEventPerId(d, ds) && RunRow(row, ds).version == row.version && Redelivers(again, d)
    ensures After(RunRow(row, ds), again).body == RunRow(row, ds).body
    decreases |ds|
  {
    if ds == [] {
      if row.lastSequence.value == d.event.sequence {
        RestartIsIdentity(row, again);
      } else {
        StaleEventChangesNothing(row, again);
      }
    } else {
      StepKept(row, ds[0]);
      RunKept(After(row, ds[0]), ds[1..]);
      assert OneEventPerId(d, [ds[0]]);
      StartStaysSettled(row, d, ds[0]);
      assert OneEventPerId(d, ds[1..]);
      StartedRedelivery(After(row, ds[0]), d, ds[1..], again);
    }
  }

  /** So: take a skill-started event, let anything happen short of another version, deliver it again under any claim,
      and the stored plan is what it was. */
  lemma StartedRedeliveryIsIdempotent(row: Row, d: Delivery, ds: seq<Delivery>, again: Delivery)
    requires ColumnsAgree(row) && d.op.SkillStarted? && Takes(row, d)
    requires OneEventPerId(d, ds) && RunRow(After(row, d), ds).version == row.version && Redelivers(again, d)
    ensures After(RunRow(After(row, d), ds), again).body == RunRow(After(row, d), ds).body
  {
    TakenStartIsUnderWay(row, d);
    StepKept(row, d);
    StartedRedelivery(After(row, d), d, ds, again);
  }

  /** After a taken success, the cursor stands past the step. */
  lemma TakenSuccessMovesOn(row: Row, d: Delivery)
    requires d.op.SkillFinished? && d.op.succeeded && Takes(row, d)
    ensures var p, q := row.body.value, After(row, d).body;
            && q.Some? && Slots(q.value.steps) == Slots(p.steps)
            && Runs.Cursor(q.value) == Runs.Cursor(p) + 1
            && Runs.Cursor(p) < |p.steps| && p.steps[Runs.Cursor(p)].stepId == d.op.bound.value.stepId
    ensures ColumnsAgree(row) ==> After(row, d).version == row.version
  {
    var p := row.body.value;
    var e := Runs.SkillTerminal(d.op.bound.value.stepId, true, d.op.retryable, false);
    var c := Runs.Cursor(p);
    Runs.TransitionShape(p, c, e);
    Runs.AdvanceIsNext(p, c, Runs.StepAfter(p.steps[c], e));
  }

  /** A step the cursor has passed is never current again in the same plan. */
  lemma PassedIsNotCurrent(p: Plan, q: Plan, c: nat)
    requires UniqueIds(Slots(p.steps)) && Slots(q.steps) == Slots(p.steps)
    requires c < |p.steps| && c < Runs.Cursor(q)
    ensures q.current != Some(p.steps[c].stepId)
  {
    assert |q.steps| == |p.steps|;
    assert Slots(q.steps)[c] == Slots(p.steps)[c];
    Runs.IndexOfUnique(q.steps, c);
  }

  /** Redelivering a taken successful skill-finished event at any later point, under any claim, until `prepare` installs
      another version, leaves the whole row unchanged. */
  lemma SuccessRedelivery(row: Row, d: Delivery, ds: seq<Delivery>, again: Delivery)
    requires ColumnsAgree(row) && d.op.SkillFinished? && d.op.succeeded && Takes(row, d) && Redelivers(again, d)
    requires var last := RunRow(After(row, d), ds); last.version == row.version
    ensures After(RunRow(After(row, d), ds), again) == RunRow(After(row, d), ds)
  {
    TakenSuccessMovesOn(row, d);
    StepKept(row, d);
    RunKept(After(row, d), ds);
    var last := RunRow(After(row, d), ds);
    PassedIsNotCurrent(row.body.value, last.body.value, Runs.Cursor(row.body.value));
  }

  /** A taken failure either keeps the step current and pending, or moves past it. */
  lemma TakenFailure(row: Row, d: Delivery)
    requires d.op.SkillFinished? && !d.op.succeeded && Takes(row, d)
    ensures CurrentStep(row.body.value).Ok? && After(row, d).body.Some?
    ensures After(row, d).lastSequence == Some(d.event.sequence) && After(row, d).lastEvent == Some(d.event.rowId)
    ensures var p, q, cur := row.body.value, After(row, d).body.value, CurrentStep(row.body.value).value;
            && Slots(q.steps) == Slots(p.steps) && Runs.Cursor(p) < |p.steps|
            && p.current == Some(p.steps[Runs.Cursor(p)].stepId)
            && if (d.op.retryable || d.op.corrected) && AttemptOf(cur) < cur.maxAttempts
               then CurrentStep(q) == Ok(cur.(status := Pending, attempts := AttemptOf(cur)))
                    && q.current == p.current && q.status == p.status && q.planId == p.planId
               else Runs.Cursor(q) == Runs.Cursor(p) + 1
  {
    var p := row.body.value;
    var e := Runs.SkillTerminal(d.op.bound.value.stepId, false, d.op.retryable, d.op.corrected);
    var c := Runs.Cursor(p);
    Runs.TransitionShape(p, c, e);
    if Runs.StepAfter(p.steps[c], e).status == Pending {
      Runs.ReplaceOne(p.steps, c, Runs.StepAfter(p.steps[c], e));
    } else {
      Runs.AdvanceIsNext(p, c, Runs.StepAfter(p.steps[c], e));
    }
  }

  /** An accepted terminal always stores a different plan. */
  lemma TerminalChanges(p: Plan, e: Runs.PlanEvent)
    requires ValidPlan(p) && e.SkillTerminal? && Runs.Transition(p, e).Ok?
    ensures Runs.Transition(p, e).value != p
  {
    var c := Runs.Cursor(p);
    Runs.TransitionShape(p, c, e);
    assert Runs.StepAfter(p.steps[c], e) != p.steps[c];
    assert Runs.Apply(p, e).steps[c] != p.steps[c];
  }

  /** The event's mark, or that of a later one. */
  predicate Marked(row: Row, e: Event) {
    && row.lastSequence.Some?
    && (row.lastSequence.value > e.sequence
        || (row.lastSequence.value == e.sequence && row.lastEvent == Some(e.rowId)))
  }

  lemma StepMarked(row: Row, e: Event, d: Delivery)
    requires Marked(row, e)
    ensures Marked(After(row, d), e)
  {
    if !d.op.Prepare? {
      AfterShape(row, d);
    }
  }

  lemma {:induction false} RunMarked(row: Row, e: Event, ds: seq<Delivery>)
    requires Marked(row, e)
    ensures Marked(RunRow(row, ds), e)
    decreases |ds|
  {
    if ds != [] {
      StepMarked(row, e, ds[0]);
      RunMarked(After(row, ds[0]), e, ds[1..]);
    }
  }

  /** A terminal about the current executable step of a loaded plan is accepted, and changes it. */
  lemma CurrentTerminalChanges(row: Row, d: Delivery)
    requires d.op.SkillFinished? && Granted(d) && Loads(row) && Targets(row, d.op.bound) && Admits(row, d.event)
    requires CurrentStep(row.body.value).Ok? && CurrentStep(row.body.value).value.skill.Some?
    ensures After(row, d).body != row.body
  {
    var p, stepId := row.body.value, d.op.bound.value.stepId;
    TerminalChanges(p, Runs.SkillTerminal(stepId, d.op.succeeded, d.op.retryable, !d.op.succeeded && d.op.corrected));
  }

  /** What makes a redelivered failure burn another attempt: its claim holds, the plan still loads and is active, the
      step is still current, and no later event has been stored. */
  predicate BurnsAgain(row: Row, again: Delivery)
    requires again.op.SkillFinished? && again.op.bound.Some?
  {
    && Granted(again) && Loads(row) && row.cycle != CycleEnded
    && row.body.Some? && row.body.value.status == Active
    && row.body.value.current == Some(again.op.bound.value.stepId)
    && row.lastSequence == Some(again.event.sequence)
  }

  /** The bound step is an executable step of every later form of the plan. */
  lemma StepStaysExecutable(p: Plan, q: Plan, c: nat)
    requires ValidPlan(p) && ValidPlan(q) && Slots(q.steps) == Slots(p.steps) && c < |p.steps| && p.steps[c].skill.Some?
    requires q.current == Some(p.steps[c].stepId)
    ensures CurrentStep(q).Ok? && CurrentStep(q).value.skill.Some?
  {
    assert Slots(q.steps)[c] == Slots(p.steps)[c] && |q.steps| == |p.steps|;
    Runs.IndexOfUnique(q.steps, c);
  }

  /** Redelivering a failure is not idempotent: at any later point before another version, under any claim, the second
      delivery changes the stored plan again exactly when `BurnsAgain` holds. */
  lemma FailureRedelivery(row: Row, d: Delivery, ds: seq<Delivery>, again: Delivery)
    requires ColumnsAgree(row) && d.op.SkillFinished? && !d.op.succeeded && Takes(row, d) && Redelivers(again, d)
    requires RunRow(After(row, d), ds).version == row.version
    ensures var last := RunRow(After(row, d), ds);
            After(last, again).body != last.body <==> BurnsAgain(last, again)
  {
    TakenFailure(row, d);
    StepKept(row, d);
    RunKept(After(row, d), ds);
    RunMarked(After(row, d), d.event, ds);
    var last, c := RunRow(After(row, d), ds), Runs.Cursor(row.body.value);
    if BurnsAgain(last, again) {
      var e := Runs.SkillTerminal(d.op.bound.value.stepId, false, d.op.retryable, d.op.corrected);
      Runs.TransitionShape(row.body.value, c, e);
      StepStaysExecutable(row.body.value, last.body.value, c);
      CurrentTerminalChanges(last, again);
    } else {
      AfterShape(last, again);
    }
  }

  /** Right after it was taken, a failure that left the step open burns another attempt. */
  lemma FailureRedeliveredAtOnce(row: Row, d: Delivery, again: Delivery)
    requires ColumnsAgree(row) && d.op.SkillFinished? && !d.op.succeeded && Takes(row, d) && Redelivers(again, d)
    requires Granted(again) && Loads(After(row, d))
    ensures After(After(row, d), again).body != After(row, d).body
       <==> (d.op.retryable || d.op.corrected)
            && AttemptOf(CurrentStep(row.body.value).value) < CurrentStep(row.body.value).value.maxAttempts
  {
    TakenFailure(row, d);
    StepKept(row, d);
    FailureRedelivery(row, d, [], again);
    var p, next, cur := row.body.value, After(row, d), CurrentStep(row.body.value).value;
    if !((d.op.retryable || d.op.corrected) && AttemptOf(cur) < cur.maxAttempts) {
      PassedIsNotCurrent(p, next.body.value, Runs.Cursor(p));
    }
  }

  // ---- Replaced plans ----

  predicate HoldsPlan(row: Row, planId: string) {
    row.body.Some? && row.body.value.planId == planId
  }

  /** A `prepare` that brings a plan id back while another plan is stored: the claim holds, the stored plan loads, the
      proposal is valid and has a current step, and the guard admits the event. A proposal retargeted from a stale
      snapshot is enough. */
  predicate Reinstalls(row: Row, d: Delivery, planId: string) {
    && d.op.Prepare? && d.op.proposed.Some? && d.op.proposed.value.planId == planId
    && Granted(d) && Loads(row)
    && Replaces(row.body, d.op.proposed)
    && ValidPlan(d.op.proposed.value.(version := row.version + 1))
    && d.op.proposed.value.current.Some?
    && Admits(row, d.event)
  }

  lemma ReinstalledIff(row: Row, d: Delivery, planId: string)
    requires !HoldsPlan(row, planId)
    ensures HoldsPlan(After(row, d), planId) <==> Reinstalls(row, d, planId)
  {
    if !d.op.Prepare? {
      AfterShape(row, d);
      if After(row, d) != row {
        StoresForward(row, d);
      }
    } else if Granted(d) && Loads(row) && Replaces(row.body, d.op.proposed) && d.op.proposed.Some? {
      var plan := d.op.proposed.value.(version := row.version + 1);
      assert ValidPlan(plan) ==> (CurrentStep(plan).Ok? <==> plan.current.Some?);
    }
  }

  /** The plan is stored somewhere along the run. */
  predicate HeldAlong(row: Row, ds: seq<Delivery>, planId: string)
    decreases |ds|
  {
    HoldsPlan(row, planId) || (ds != [] && HeldAlong(After(row, ds[0]), ds[1..], planId))
  }

  predicate ReinstalledAlong(row: Row, ds: seq<Delivery>, planId: string)
    decreases |ds|
  {
    ds != [] && (Reinstalls(row, ds[0], planId) || ReinstalledAlong(After(row, ds[0]), ds[1..], planId))
  }

  /** A replaced plan is stored again along a run exactly when some delivery of the run reinstalls it. */
  lemma {:induction false} OldPlanReturnsIff(row: Row, planId: string, ds: seq<Delivery>)
    requires !HoldsPlan(row, planId)
    ensures HeldAlong(row, ds, planId) <==> ReinstalledAlong(row, ds, planId)
    decreases |ds|
  {
    if ds != [] {
      ReinstalledIff(row, ds[0], planId);
      if !HoldsPlan(After(row, ds[0]), planId) {
        OldPlanReturnsIff(After(row, ds[0]), planId, ds[1..]);
      }
    }
  }

  /** Once the stored plan has another id, and as long as no `prepare` reinstalls the old one, no skill or rejection
      event bound to the old plan ever changes the row. */
  lemma {:induction false} OldPlanIsInert(row: Row, planId: string, ds: seq<Delivery>, d: Delivery)
    requires !HoldsPlan(row, planId) && !ReinstalledAlong(row, ds, planId)
    requires d.op.SkillStarted? || d.op.SkillFinished? || d.op.DecisionRejected?
    requires d.op.bound.Some? && d.op.bound.value.planId == planId
    ensures After(RunRow(row, ds), d) == RunRow(row, ds)
    decreases |ds|
  {
    if ds != [] {
      ReinstalledIff(row, ds[0], planId);
      OldPlanIsInert(After(row, ds[0]), planId, ds[1..], d);
    }
  }

  // ---- What `prepare` reports ----

  /** A successful `prepare` reports the stored plan exactly when it had nothing to replace or the guard let the
      replacement through; otherwise the decision is bound to a plan that was never stored. */
  lemma PrepareReportsStored(row: Row, d: Delivery)
    requires ColumnsAgree(row) && d.op.Prepare? && Transact(row, d).Ok?
    ensures Some(Transact(row, d).value.1.plan) == After(row, d).body
       <==> !Replaces(row.body, d.op.proposed) || Admits(row, d.event)
  {
  }

  // ---- Rows that load ----

  /** A transaction leaves a loadable row loadable, except a taken start, skill outcome or plain rejection of a
      step that is overdrawn. */
  predicate Overdraws(row: Row, d: Delivery) {
    && !d.op.Prepare? && Takes(row, d)
    && (d.op.SkillStarted? || d.op.SkillFinished? || d.op.DecisionRejected?)
    && Runs.Overdrawn(CurrentStep(row.body.value).value)
    && !(d.op.DecisionRejected? && d.op.targetRejected
         && CurrentStep(row.body.value).value.skill == Some(Skills.MoveTo))
  }

  lemma StaysLoadableIff(row: Row, d: Delivery)
    requires Loads(row)
    ensures Loads(After(row, d)) <==> !Overdraws(row, d)
  {
    if !d.op.Prepare? {
      AfterShape(row, d);
      if Granted(d) && Stores(row, d.op).Some? && (d.op.ChatOpportunity? || Admits(row, d.event)) {
        StoredLoadsIff(row, d);
      }
    }
  }

  lemma StoredLoadsIff(row: Row, d: Delivery)
    requires Loads(row) && !d.op.Prepare? && Granted(d) && Stores(row, d.op).Some?
    requires d.op.ChatOpportunity? || Admits(row, d.event)
    ensures ValidPlan(Stores(row, d.op).value) <==> !Overdraws(row, d)
  {
    var p := row.body.value;
    match d.op
    case Close =>
    case PassiveStep => SocialStaysValid(p);
    case ChatOpportunity => SocialStaysValid(p);
    case DecisionRejected(_, _) => RejectionLoadsIff(row, d);
    case SkillStarted(b) => Runs.KeepsValidIff(p, Runs.SkillStarted(b.value.stepId));
    case SkillFinished(b, s, r, c) => Runs.KeepsValidIff(p, Runs.SkillTerminal(b.value.stepId, s, r, !s && c));
  }

  lemma RejectionLoadsIff(row: Row, d: Delivery)
    requires Loads(row) && d.op.DecisionRejected? && Granted(d) && Stores(row, d.op).Some? && Admits(row, d.event)
    ensures ValidPlan(Stores(row, d.op).value) <==> !Overdraws(row, d)
  {
    var p := row.body.value;
    if d.op.targetRejected && CurrentStep(p).value.skill == Some(Skills.MoveTo) {
      Runs.Invalidated(p);
    } else {
      Runs.KeepsValidIff(p, Runs.SkillTerminal(d.op.bound.value.stepId, false, false, false));
    }
  }

  lemma SocialStaysValid(p: Plan)
    requires ValidPlan(p) && CompleteSocialOpportunity(p).Ok?
    ensures ValidPlan(CompleteSocialOpportunity(p).value)
  {
    var c := Runs.Cursor(p);
    Runs.AdvanceValid(p, c, p.steps[c].(status := Succeeded));
  }

  /** A row whose plan no longer loads is stuck: no delivery of any kind ever changes it again. */
  lemma {:induction false} UnloadableIsStuck(row: Row, ds: seq<Delivery>)
    requires !Loads(row)
    ensures RunRow(row, ds) == row
    decreases |ds|
  {
    if ds != [] {
      UnloadableIsStuck(row, ds[1..]);
    }
  }

  /** Without target rejections and retargets, every plan stays in its run, so every row along the way loads. */
  predicate Fresh(d: Delivery) {
    && (d.op.Prepare? && d.op.proposed.Some? ==> Runs.InRun(d.op.proposed.value))
    && !(d.op.DecisionRejected? && d.op.targetRejected)
  }

  predicate RowInRun(row: Row) {
    row.body.Some? ==> Runs.InRun(row.body.value)
  }

  lemma SkillStoresInRun(row: Row, op: Operation)
    requires Loads(row) && row.body.Some? && Runs.InRun(row.body.value)
    requires op.SkillStarted? || op.SkillFinished? || (op.DecisionRejected? && !op.targetRejected)
    requires Stores(row, op).Some?
    ensures Runs.InRun(Stores(row, op).value)
  {
    var p, stepId := row.body.value, op.bound.value.stepId;
    if op.SkillStarted? {
      Runs.StartKept(p, stepId);
    } else if op.SkillFinished? {
      Runs.TerminalKept(p, stepId, op.succeeded, op.retryable, !op.succeeded && op.corrected);
    } else {
      Runs.TerminalKept(p, stepId, false, false, false);
    }
  }

  lemma StoresInRun(row: Row, op: Operation)
    requires Loads(row) && row.body.Some? && Runs.InRun(row.body.value)
    requires !op.Prepare? && !(op.DecisionRejected? && op.targetRejected) && Stores(row, op).Some?
    ensures Runs.InRun(Stores(row, op).value)
  {
    if op.Close? {
      Runs.CloseKept(row.body.value);
    } else if op.PassiveStep? || op.ChatOpportunity? {
      Runs.SocialKept(row.body.value);
    } else {
      SkillStoresInRun(row, op);
    }
  }

  lemma PrepareShape(row: Row, d: Delivery)
    requires d.op.Prepare?
    ensures After(row, d).body == row.body
         || (d.op.proposed.Some? && After(row, d).body == Some(d.op.proposed.value.(version := row.version + 1)))
  {
  }

  lemma PrepareInRun(row: Row, d: Delivery)
    requires RowInRun(row) && row.version >= 0 && Fresh(d) && d.op.Prepare?
    ensures RowInRun(After(row, d))
  {
    PrepareShape(row, d);
    if d.op.proposed.Some? {
      ReversionInRun(d.op.proposed.value, row.version + 1);
    }
  }

  lemma StepInRun(row: Row, d: Delivery)
    requires ColumnsAgree(row) && RowInRun(row) && row.version >= 0 && Fresh(d)
    ensures RowInRun(After(row, d)) && After(row, d).version >= 0
  {
    StepKept(row, d);
    if d.op.Prepare? {
      PrepareInRun(row, d);
    } else {
      AfterShape(row, d);
      if After(row, d) != row {
        StoresInRun(row, d.op);
      }
    }
  }

  lemma ReversionInRun(p: Plan, version: int)
    requires Runs.InRun(p) && version >= 1
    ensures Runs.InRun(p.(version := version))
  {
    assert p.(version := version).steps == p.steps;
  }

  lemma {:induction false} FreshRunsLoad(row: Row, ds: seq<Delivery>)
    requires ColumnsAgree(row) && RowInRun(row) && row.version >= 0
    requires forall k :: 0 <= k < |ds| ==> Fresh(ds[k])
    ensures RowInRun(RunRow(row, ds)) && Loads(RunRow(row, ds))
    decreases |ds|
  {
    if ds == [] {
      if row.body.Some? {
        Runs.InRunIsValid(row.body.value);
      }
    } else {
      StepKept(row, ds[0]);
      StepInRun(row, ds[0]);
      FreshRunsLoad(After(row, ds[0]), ds[1..]);
    }
  }
}
