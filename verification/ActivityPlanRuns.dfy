/** Whole runs of an activity plan: the inductive invariant behind plan validity, the progress measure,
    and exactly when a single transition leaves a plan that still loads. */
module ActivityPlanRuns {
  import opened Wrappers
  import opened Skills
  import opened ActivityPlans

  // ---- Invariant ----

  /** The cursor: the current step's position, or the number of steps once none is current. */
  function Cursor(p: Plan): nat {
    if p.current.None? then |p.steps|
    else
      match IndexOf(p.steps, p.current.value)
      case None => |p.steps|
      case Some(i) => i
  }

  predicate ReadyStep(s: Step) {
    if s.skill.None? then s.status == Pending && s.attempts == 0
    else if s.status == Pending then 0 <= s.attempts < s.maxAttempts
    else s.status == Started && 1 <= s.attempts <= s.maxAttempts
  }

  predicate DoneStep(s: Step) {
    (s.status == Succeeded || s.status == Skipped) && 0 <= s.attempts <= s.maxAttempts
  }

  predicate FreshStep(s: Step) {
    s.status == Pending && s.attempts == 0
  }

  /** A plan in the middle of a run that began with a freshly materialised plan. */
  predicate InRun(p: Plan) {
    && Text(p.planId, 128) && Text(p.goalId, 128) && Text(p.goalSummary, 512) && Text(p.phase, 64)
    && p.version >= 1
    && ValidLayout(Slots(p.steps))
    && (forall i :: 0 <= i < |p.steps| ==> ValidIdentity(p.steps[i]))
    && (p.current.Some? ==> IndexOf(p.steps, p.current.value).Some?)
    && (p.status == Active ==> p.current.Some?)
    && (p.status == Completed ==> p.current.None?)
    && p.status != Abandoned
    && (forall i :: 0 <= i < Cursor(p) ==> DoneStep(p.steps[i]))
    && (Cursor(p) < |p.steps| ==> ReadyStep(p.steps[Cursor(p)]) && p.phase == p.steps[Cursor(p)].phase)
    && (forall i :: Cursor(p) < i < |p.steps| ==> FreshStep(p.steps[i]))
  }

  lemma {:induction false} IndexOfUnique(steps: seq<Step>, i: nat)
    requires UniqueIds(Slots(steps)) && i < |steps|
    ensures IndexOf(steps, steps[i].stepId) == Some(i)
  {
    assert forall j :: 0 <= j < i ==> Slots(steps)[j].stepId != Slots(steps)[i].stepId;
  }

  /** Replacing the step at `i` by one with the same id touches that position alone. */
  lemma ReplaceOne(steps: seq<Step>, i: nat, r: Step)
    requires UniqueIds(Slots(steps)) && i < |steps| && r.stepId == steps[i].stepId && r.skill == steps[i].skill
    ensures ReplaceStep(steps, r) == steps[i := r]
    ensures Slots(ReplaceStep(steps, r)) == Slots(steps)
    ensures UniqueIds(Slots(steps[i := r]))
    ensures IndexOf(steps[i := r], r.stepId) == Some(i)
  {
    var slots := Slots(steps);
    forall j | 0 <= j < |steps|
      ensures ReplaceStep(steps, r)[j] == steps[i := r][j]
    {
      if j != i {
        assert slots[if j < i then j else i].stepId != slots[if j < i then i else j].stepId;
      }
    }
    assert ReplaceStep(steps, r) == steps[i := r];
    assert Slots(steps[i := r]) == Slots(steps);
    IndexOfUnique(steps[i := r], i);
  }

  lemma AdvanceIsNext(p: Plan, i: nat, done: Step)
    requires UniqueIds(Slots(p.steps)) && i < |p.steps|
    requires done.stepId == p.steps[i].stepId && done.skill == p.steps[i].skill
    ensures IndexOf(p.steps, done.stepId) == Some(i)
    ensures var q := AdvanceAfterTerminal(p, done);
            && q.steps == p.steps[i := done]
            && Slots(q.steps) == Slots(p.steps)
            && Cursor(q) == i + 1
            && (q.current.Some? <==> i + 1 < |p.steps|)
            && (q.current.Some? ==> IndexOf(q.steps, q.current.value) == Some(i + 1)
                                    && q.phase == p.steps[i + 1].phase && q.status == p.status)
            && (q.current.None? ==> q.status == Completed && q.phase == p.phase)
            && q.planId == p.planId && q.goalId == p.goalId && q.goalSummary == p.goalSummary && q.version == p.version
  {
    IndexOfUnique(p.steps, i);
    ReplaceOne(p.steps, i, done);
    if i + 1 < |p.steps| {
      IndexOfUnique(p.steps[i := done], i + 1);
    }
  }

  /** The invariant implies everything a load of the stored plan would check. */
  lemma InRunIsValid(p: Plan)
    requires InRun(p)
    ensures ValidPlan(p)
  {
    forall i | 0 <= i < |p.steps| ensures ValidStep(p.steps[i]) {
      if i != Cursor(p) {
        assert DoneStep(p.steps[i]) || FreshStep(p.steps[i]);
      }
    }
  }

  lemma MaterializedInRun(p: Proposal, planId: string, version: int, available: set<(Skill, string)>, lobby: bool)
    requires p.steps != [] && Materialize(p, planId, version, available, lobby).Ok?
    ensures InRun(Materialize(p, planId, version, available, lobby).value)
    ensures Cursor(Materialize(p, planId, version, available, lobby).value) == 0
  {
    var plan := Materialize(p, planId, version, available, lobby).value;
    assert plan.steps[0].stepId == plan.current.value;
    assert forall i :: 0 <= i < |plan.steps| ==> plan.steps[i] == MaterializeStep(p.steps[i]);
  }

  // ---- Runs ----

  datatype PlanEvent =
    | SkillStarted(stepId: string)
    | SkillTerminal(stepId: string, succeeded: bool, retryable: bool, corrected: bool)
    | SocialOpportunity
    | Close

  function Transition(p: Plan, e: PlanEvent): Result<Plan, PlanError> {
    match e
    case SkillStarted(id) => RecordStepStarted(p, id)
    case SkillTerminal(id, succeeded, retryable, corrected) =>
      RecordStepTerminal(p, id, succeeded, retryable, corrected)
    case SocialOpportunity => CompleteSocialOpportunity(p)
    case Close => Ok(ClosePlan(p))
  }

  /** A rejected event raises and stores nothing. */
  function Apply(p: Plan, e: PlanEvent): Plan {
    match Transition(p, e)
    case Ok(q) => q
    case Err(_) => p
  }

  function Run(p: Plan, events: seq<PlanEvent>): Plan
    decreases |events|
  {
    if events == [] then p else Run(Apply(p, events[0]), events[1..])
  }

  /** An accepted event that ends an attempt: a terminal or a taken social opportunity. */
  predicate EndsAttempt(p: Plan, e: PlanEvent) {
    (e.SkillTerminal? || e.SocialOpportunity?) && Transition(p, e).Ok?
  }

  function AttemptsEnded(p: Plan, events: seq<PlanEvent>): nat
    decreases |events|
  {
    if events == [] then 0
    else (if EndsAttempt(p, events[0]) then 1 else 0) + AttemptsEnded(Apply(p, events[0]), events[1..])
  }

  function SumMax(steps: seq<Step>, from: nat): int
    requires from <= |steps|
    decreases |steps| - from
  {
    if from == |steps| then 0 else steps[from].maxAttempts + SumMax(steps, from + 1)
  }

  /** Attempts still open: those of the later steps, those left to the current one, and the one under way. */
  function Remaining(p: Plan): int {
    var c := Cursor(p);
    if c >= |p.steps| then 0
    else SumMax(p.steps, c + 1) + p.steps[c].maxAttempts - p.steps[c].attempts
         + (if p.steps[c].status == Started then 1 else 0)
  }

  lemma {:induction false} SumMaxFrame(a: seq<Step>, b: seq<Step>, from: nat)
    requires |a| == |b| && from <= |a|
    requires forall i :: from <= i < |a| ==> a[i].maxAttempts == b[i].maxAttempts
    ensures SumMax(a, from) == SumMax(b, from)
    decreases |a| - from
  {
    if from < |a| {
      SumMaxFrame(a, b, from + 1);
    }
  }

  /** A validated plan opens at most thirteen attempts: two for each of six skills and one social opportunity. */
  lemma {:induction false} SumMaxBound(steps: seq<Step>, from: nat)
    requires from <= |steps|
    requires forall i :: 0 <= i < |steps| ==> ValidIdentity(steps[i])
    requires forall i :: 0 <= i < |steps| && steps[i].skill.None? ==> steps[i].maxAttempts == 1
    ensures |steps| - from <= SumMax(steps, from)
    ensures SumMax(steps, from) <= |steps| - from + Executables(Slots(steps)) - Executables(Slots(steps)[..from])
    decreases |steps| - from
  {
    var slots := Slots(steps);
    if from == |steps| {
      assert slots[..from] == slots;
    } else {
      SumMaxBound(steps, from + 1);
      assert slots[..from + 1][..from] == slots[..from];
      assert slots[..from + 1][from] == slots[from];
    }
  }

  lemma {:induction false} SumMaxPositive(steps: seq<Step>, from: nat)
    requires from <= |steps| && forall i :: 0 <= i < |steps| ==> ValidIdentity(steps[i])
    ensures SumMax(steps, from) >= |steps| - from
    decreases |steps| - from
  {
    if from < |steps| {
      SumMaxPositive(steps, from + 1);
    }
  }

  /** The current step is rewritten in place. */
  lemma Stay(p: Plan, r: Step)
    requires InRun(p) && Cursor(p) < |p.steps|
    requires var s := p.steps[Cursor(p)]; r == s.(status := r.status, attempts := r.attempts) && ReadyStep(r)
    ensures var q := p.(steps := ReplaceStep(p.steps, r));
            && InRun(q) && Cursor(q) == Cursor(p) && Slots(q.steps) == Slots(p.steps)
            && q.steps == p.steps[Cursor(p) := r]
            && Remaining(q) == SumMax(p.steps, Cursor(p) + 1) + r.maxAttempts - r.attempts
                             + (if r.status == Started then 1 else 0)
  {
    var c := Cursor(p);
    ReplaceOne(p.steps, c, r);
    SumMaxFrame(p.steps, p.steps[c := r], c + 1);
  }

  /** The current step is finished and the next one, if any, becomes current. */
  lemma Advance(p: Plan, done: Step)
    requires InRun(p) && Cursor(p) < |p.steps|
    requires var s := p.steps[Cursor(p)]; done == s.(status := done.status, attempts := done.attempts) && DoneStep(done)
    ensures IndexOf(p.steps, done.stepId).Some?
    ensures var q := AdvanceAfterTerminal(p, done);
            && InRun(q) && Cursor(q) == Cursor(p) + 1 && Slots(q.steps) == Slots(p.steps)
            && Remaining(q) == SumMax(p.steps, Cursor(p) + 1)
  {
    var c := Cursor(p);
    AdvanceIsNext(p, c, done);
    var q := AdvanceAfterTerminal(p, done);
    SumMaxFrame(p.steps, q.steps, c + 1);
    forall i | 0 <= i < c + 1 ensures DoneStep(q.steps[i]) {
    }
  }

  /** What one accepted or rejected event does to a plan in a run. */
  predicate StepKept(p: Plan, q: Plan, ended: bool) {
    && InRun(q)
    && Slots(q.steps) == Slots(p.steps)
    && q.planId == p.planId && q.version == p.version
    && 0 <= Remaining(q)
    && (if ended then Cursor(p) <= Cursor(q) <= Cursor(p) + 1 && Remaining(q) < Remaining(p)
        else Cursor(q) == Cursor(p) && Remaining(q) == Remaining(p))
  }

  lemma StartKept(p: Plan, stepId: string)
    requires InRun(p) && RecordStepStarted(p, stepId).Ok?
    ensures StepKept(p, RecordStepStarted(p, stepId).value, false)
  {
    var cur := p.steps[Cursor(p)];
    SumMaxPositive(p.steps, Cursor(p) + 1);
    Stay(p, cur.(status := Started, attempts := AttemptOf(cur)));
  }

  lemma TerminalKept(p: Plan, stepId: string, succeeded: bool, retryable: bool, corrected: bool)
    requires InRun(p) && RecordStepTerminal(p, stepId, succeeded, retryable, corrected).Ok?
    ensures StepKept(p, RecordStepTerminal(p, stepId, succeeded, retryable, corrected).value, true)
  {
    var cur := p.steps[Cursor(p)];
    SumMaxPositive(p.steps, Cursor(p) + 1);
    if !succeeded && (retryable || corrected) && AttemptOf(cur) < cur.maxAttempts {
      Stay(p, cur.(status := Pending, attempts := AttemptOf(cur)));
    } else {
      Advance(p, cur.(status := if succeeded then Succeeded else Skipped, attempts := AttemptOf(cur)));
    }
  }

  lemma SocialKept(p: Plan)
    requires InRun(p) && CompleteSocialOpportunity(p).Ok?
    ensures StepKept(p, CompleteSocialOpportunity(p).value, true)
  {
    SumMaxPositive(p.steps, Cursor(p) + 1);
    Advance(p, p.steps[Cursor(p)].(status := Succeeded));
  }

  lemma RefusedKept(p: Plan)
    requires InRun(p)
    ensures StepKept(p, p, false)
  {
    SumMaxPositive(p.steps, if Cursor(p) < |p.steps| then Cursor(p) + 1 else Cursor(p));
  }

  lemma CloseKept(p: Plan)
    requires InRun(p)
    ensures StepKept(p, ClosePlan(p), false)
  {
    RefusedKept(p);
  }

  /** One event keeps the invariant, moves the cursor by at most one, and lowers the measure exactly when it
      ends an attempt; a start, a close or a rejected event leaves measure and cursor alone. */
  lemma StepInRun(p: Plan, e: PlanEvent)
    requires InRun(p)
    ensures StepKept(p, Apply(p, e), EndsAttempt(p, e))
  {
    if Transition(p, e).Err? {
      RefusedKept(p);
    } else {
      match e
      case SkillStarted(id) => StartKept(p, id);
      case SkillTerminal(id, succeeded, retryable, corrected) => TerminalKept(p, id, succeeded, retryable, corrected);
      case SocialOpportunity => SocialKept(p);
      case Close => CloseKept(p);
    }
  }

  /** Along every run the invariant, hence validity on the next load, is kept although no transition
      re-validates; the attempts ended are paid for by the measure, and the cursor never moves faster
      than they do. */
  lemma {:induction false} RunInvariant(p: Plan, events: seq<PlanEvent>)
    requires InRun(p)
    ensures var q := Run(p, events);
            && InRun(q) && ValidPlan(q)
            && Slots(q.steps) == Slots(p.steps)
            && Cursor(p) <= Cursor(q) <= Cursor(p) + AttemptsEnded(p, events)
            && 0 <= Remaining(q) <= Remaining(p) - AttemptsEnded(p, events)
    decreases |events|
  {
    if events == [] {
      InRunIsValid(p);
      SumMaxPositive(p.steps, if Cursor(p) < |p.steps| then Cursor(p) + 1 else Cursor(p));
    } else {
      StepInRun(p, events[0]);
      RunInvariant(Apply(p, events[0]), events[1..]);
    }
  }

  /** While a step is current the measure is positive, so it reaches zero exactly when the plan has run out. */
  lemma RemainingZeroIffDone(p: Plan)
    requires InRun(p)
    ensures Remaining(p) == 0 <==> p.current.None?
  {
    if Cursor(p) < |p.steps| {
      SumMaxPositive(p.steps, Cursor(p) + 1);
    }
  }

  /** Every run from a materialised plan stores only plans that load again; it has ended between one attempt
      per finished step and the plan's attempt budget, never more than thirteen; and once the budget is
      spent no step is current. */
  lemma MaterializedRun(p: Proposal, planId: string, version: int, available: set<(Skill, string)>, lobby: bool,
                        events: seq<PlanEvent>)
    requires p.steps != [] && Materialize(p, planId, version, available, lobby).Ok?
    ensures var plan := Materialize(p, planId, version, available, lobby).value;
            var q := Run(plan, events);
            && ValidPlan(q)
            && Cursor(q) <= AttemptsEnded(plan, events) <= SumMax(plan.steps, 0) <= 13
            && (AttemptsEnded(plan, events) == SumMax(plan.steps, 0) ==> q.current.None?)
            && (q.current.None? ==> |plan.steps| <= AttemptsEnded(plan, events))
  {
    MaterializedInRun(p, planId, version, available, lobby);
    var plan := Materialize(p, planId, version, available, lobby).value;
    assert forall i :: 0 <= i < |plan.steps| ==> plan.steps[i] == MaterializeStep(p.steps[i]);
    RunInvariant(plan, events);
    RemainingZeroIffDone(Run(plan, events));
    assert Remaining(plan) == SumMax(plan.steps, 0);
    SumMaxBound(plan.steps, 0);
    assert |Slots(Run(plan, events).steps)| == |plan.steps|;
  }

  /** A plan under way always has an event that ends an attempt of its current step. */
  lemma AlwaysProgress(p: Plan)
    requires InRun(p) && p.current.Some?
    ensures EndsAttempt(p, SkillTerminal(p.current.value, true, false, false)) || EndsAttempt(p, SocialOpportunity)
  {
    var s := p.steps[Cursor(p)];
    if s.skill.None? {
      assert ValidIdentity(s);
    }
  }

  // ---- What the steps record ----

  /** An accepted terminal report about a step: its outcome, and whether it allowed another attempt. */
  datatype Report = Report(succeeded: bool, again: bool)

  function ReportsOf(p: Plan, e: PlanEvent, id: string): seq<Report> {
    if e.SkillTerminal? && e.stepId == id && Transition(p, e).Ok? then [Report(e.succeeded, e.retryable || e.corrected)]
    else []
  }

  function Reports(p: Plan, events: seq<PlanEvent>, id: string): seq<Report>
    decreases |events|
  {
    if events == [] then [] else ReportsOf(p, events[0], id) + Reports(Apply(p, events[0]), events[1..], id)
  }

  /** The last report settled nothing: it failed, allowed another attempt, and one was left. */
  predicate Open(s: Step, rs: seq<Report>) {
    rs == [] || (!rs[|rs| - 1].succeeded && rs[|rs| - 1].again && |rs| < s.maxAttempts)
  }

  /** The step's status and attempt count are exactly what its reports amount to. */
  predicate Follows(s: Step, rs: seq<Report>) {
    && s.attempts == |rs| + (if s.status == Started then 1 else 0)
    && (s.status == Succeeded <==> rs != [] && rs[|rs| - 1].succeeded)
    && (s.status == Skipped <==> !Open(s, rs) && !rs[|rs| - 1].succeeded)
    && (s.status == Pending || s.status == Started <==> Open(s, rs))
    && (forall k :: 0 <= k < |rs| - 1 ==> !rs[k].succeeded && rs[k].again)
  }

  /** What an accepted event other than a close makes of the current step. */
  function StepAfter(s: Step, e: PlanEvent): Step {
    var attempts := AttemptOf(s);
    match e
    case SkillStarted(_) => s.(status := Started, attempts := attempts)
    case SkillTerminal(_, succeeded, retryable, corrected) =>
      s.(status := if succeeded then Succeeded
                   else if (retryable || corrected) && attempts < s.maxAttempts then Pending
                   else Skipped,
         attempts := attempts)
    case SocialOpportunity => s.(status := Succeeded)
    case Close => s
  }

  lemma TransitionShape(p: Plan, c: nat, e: PlanEvent)
    requires UniqueIds(Slots(p.steps)) && p.current.Some? && IndexOf(p.steps, p.current.value) == Some(c)
    requires Transition(p, e).Ok? && !e.Close?
    ensures c < |p.steps| && Apply(p, e).steps == p.steps[c := StepAfter(p.steps[c], e)]
    ensures e.SkillStarted? || e.SkillTerminal? ==> e.stepId == p.steps[c].stepId && p.steps[c].skill.Some?
    ensures e.SkillStarted? ==> p.steps[c].status == Pending || p.steps[c].status == Started
    ensures e.SocialOpportunity? ==> p.steps[c].skill.None?
  {
    ReplaceOne(p.steps, c, StepAfter(p.steps[c], e));
  }

  lemma StepAfterFollows(s: Step, e: PlanEvent, rs: seq<Report>)
    requires ReadyStep(s) && s.skill.Some? && Follows(s, rs) && (e.SkillStarted? || e.SkillTerminal?)
    ensures Follows(StepAfter(s, e),
                    if e.SkillStarted? then rs else rs + [Report(e.succeeded, e.retryable || e.corrected)])
  {
  }

  lemma StepFollows(p: Plan, e: PlanEvent, i: nat, rs: seq<Report>)
    requires UniqueIds(Slots(p.steps)) && i < |p.steps| && p.steps[i].skill.Some? && Follows(p.steps[i], rs)
    requires p.current.Some? ==> Cursor(p) < |p.steps| && ReadyStep(p.steps[Cursor(p)])
    requires p.current.Some? ==> IndexOf(p.steps, p.current.value) == Some(Cursor(p))
    ensures |Apply(p, e).steps| == |p.steps|
    ensures Follows(Apply(p, e).steps[i], rs + ReportsOf(p, e, p.steps[i].stepId))
  {
    assert rs + [] == rs;
    if Transition(p, e).Ok? && !e.Close? {
      var c := Cursor(p);
      IndexOfUnique(p.steps, i);
      TransitionShape(p, c, e);
      if c == i && !e.SocialOpportunity? {
        StepAfterFollows(p.steps[i], e, rs);
      }
    }
  }

  predicate Tracks(p: Plan, i: nat, rs: seq<Report>) {
    InRun(p) && i < |p.steps| && p.steps[i].skill.Some? && Follows(p.steps[i], rs)
  }

  lemma StepKeepsFollowing(p: Plan, e: PlanEvent, i: nat, rs: seq<Report>)
    requires Tracks(p, i, rs)
    ensures Tracks(Apply(p, e), i, rs + ReportsOf(p, e, p.steps[i].stepId))
    ensures |Apply(p, e).steps| == |p.steps| && Apply(p, e).steps[i].stepId == p.steps[i].stepId
  {
    StepInRun(p, e);
    StepFollows(p, e, i, rs);
    assert Slots(Apply(p, e).steps)[i] == Slots(p.steps)[i];
  }

  lemma Associate<T>(a: seq<T>, b: seq<T>, c: seq<T>)
    ensures a + b + c == a + (b + c)
  {
  }

  lemma {:induction false} RunTracks(p: Plan, events: seq<PlanEvent>, i: nat, rs: seq<Report>)
    requires Tracks(p, i, rs)
    ensures |Run(p, events).steps| == |p.steps|
    ensures Tracks(Run(p, events), i, rs + Reports(p, events, p.steps[i].stepId))
    decreases |events|
  {
    if events == [] {
      assert rs + [] == rs;
    } else {
      var id := p.steps[i].stepId;
      var now := ReportsOf(p, events[0], id);
      StepKeepsFollowing(p, events[0], i, rs);
      RunTracks(Apply(p, events[0]), events[1..], i, rs + now);
      Associate(rs, now, Reports(Apply(p, events[0]), events[1..], id));
    }
  }

  /** Along every run, a step's attempts are its accepted reports plus the one under way, it succeeded exactly
      when its last report did, and it was skipped exactly when its last report failed for good. */
  lemma RunFollows(p: Plan, events: seq<PlanEvent>, i: nat, rs: seq<Report>)
    requires InRun(p) && i < |p.steps| && p.steps[i].skill.Some? && Follows(p.steps[i], rs)
    ensures |Run(p, events).steps| == |p.steps|
    ensures Follows(Run(p, events).steps[i], rs + Reports(p, events, p.steps[i].stepId))
  {
    RunTracks(p, events, i, rs);
  }

  // ---- When one transition leaves a plan that loads ----

  /** The current step has used up its attempts while waiting to be started again. */
  predicate Overdrawn(s: Step) {
    s.status != Started && s.attempts >= s.maxAttempts
  }

  lemma StayValid(p: Plan, i: nat, r: Step, version: int)
    requires ValidPlan(p) && i < |p.steps| && p.current == Some(p.steps[i].stepId) && version >= 1
    requires var s := p.steps[i]; r == s.(status := r.status, attempts := r.attempts, target := r.target)
    ensures var q := p.(steps := ReplaceStep(p.steps, r), version := version);
            && q.steps == p.steps[i := r] && CurrentStep(q) == Ok(r) && CurrentStep(p) == Ok(p.steps[i])
            && (ValidPlan(q) <==> ValidStep(r))
  {
    IndexOfUnique(p.steps, i);
    ReplaceOne(p.steps, i, r);
    var q := p.(steps := ReplaceStep(p.steps, r), version := version);
    assert q.steps[i] == r;
  }

  lemma AdvanceValid(p: Plan, i: nat, done: Step)
    requires ValidPlan(p) && i < |p.steps| && p.current == Some(p.steps[i].stepId)
    requires var s := p.steps[i]; done == s.(status := done.status, attempts := done.attempts)
    ensures IndexOf(p.steps, done.stepId).Some?
    ensures ValidPlan(AdvanceAfterTerminal(p, done)) <==> ValidStep(done)
  {
    AdvanceIsNext(p, i, done);
    var q := AdvanceAfterTerminal(p, done);
    assert q.steps[i] == done;
    if i + 1 < |p.steps| {
      assert ValidStep(p.steps[i + 1]);
    }
  }

  /** On any plan that loads, in a run or not: an accepted start, and likewise an accepted terminal, leaves
      a plan that loads if and only if the current step is not overdrawn. */
  lemma KeepsValidIff(p: Plan, e: PlanEvent)
    requires ValidPlan(p) && Transition(p, e).Ok? && (e.SkillStarted? || e.SkillTerminal?)
    ensures ValidPlan(Transition(p, e).value) <==> !Overdrawn(CurrentStep(p).value)
  {
    var i := IndexOf(p.steps, p.current.value).value;
    var cur := p.steps[i];
    var attempts := AttemptOf(cur);
    if e.SkillStarted? {
      StayValid(p, i, cur.(status := Started, attempts := attempts), p.version);
    } else if !e.succeeded && (e.retryable || e.corrected) && attempts < cur.maxAttempts {
      StayValid(p, i, cur.(status := Pending, attempts := attempts), p.version);
    } else {
      AdvanceValid(p, i, cur.(status := if e.succeeded then Succeeded else Skipped, attempts := attempts));
    }
  }

  /** The current step after its target was rejected: the attempt counts, but not past the maximum. */
  function Rejected(s: Step): Step {
    s.(target := None, status := Pending,
       attempts := if s.attempts + 1 <= s.maxAttempts then s.attempts + 1 else s.maxAttempts)
  }

  lemma RejectedIsValid(s: Step)
    requires ValidStep(s) && s.skill.Some?
    ensures ValidStep(Rejected(s))
  {
  }

  lemma InvalidatedShape(p: Plan, i: nat)
    requires i < |p.steps| && p.current == Some(p.steps[i].stepId) && CurrentStep(p) == Ok(p.steps[i])
    requires InvalidateMoveTarget(p, p.current.value).Ok?
    ensures p.steps[i].skill == Some(MoveTo)
    ensures InvalidateMoveTarget(p, p.current.value) == Ok(p.(steps := ReplaceStep(p.steps, Rejected(p.steps[i]))))
  {
  }

  lemma Invalidated(p: Plan)
    requires ValidPlan(p) && p.current.Some? && InvalidateMoveTarget(p, p.current.value).Ok?
    ensures var q := InvalidateMoveTarget(p, p.current.value).value;
            ValidPlan(q) && q.current == p.current && CurrentStep(q) == Ok(Rejected(CurrentStep(p).value))
  {
    var i := IndexOf(p.steps, p.current.value).value;
    var r := Rejected(p.steps[i]);
    StayValid(p, i, r, p.version);
    InvalidatedShape(p, i);
    RejectedIsValid(p.steps[i]);
    assert p.(steps := ReplaceStep(p.steps, r)) == p.(steps := ReplaceStep(p.steps, r), version := p.version);
  }

  /** Invalidating a move target keeps a loadable plan loadable, but the next start of that step is one the
      store cannot load again exactly when the rejected attempt was the last one. */
  lemma InvalidateThenStart(p: Plan)
    requires ValidPlan(p) && p.current.Some? && InvalidateMoveTarget(p, p.current.value).Ok?
    ensures var q := InvalidateMoveTarget(p, p.current.value).value;
            && ValidPlan(q) && RecordStepStarted(q, p.current.value).Ok?
            && (ValidPlan(RecordStepStarted(q, p.current.value).value)
                <==> CurrentStep(p).value.attempts + 1 < CurrentStep(p).value.maxAttempts)
  {
    Invalidated(p);
    KeepsValidIff(InvalidateMoveTarget(p, p.current.value).value, SkillStarted(p.current.value));
  }

  /** Retargeting forgets that an attempt is under way without giving it back: the next start loads again
      exactly when attempts are left. */
  lemma RetargetThenStart(p: Plan, target: Option<string>, version: int)
    requires ValidPlan(p) && p.current.Some? && version >= 1 && OptionalText(target, 256)
    requires ReplaceMoveTarget(p, p.current.value, target, version).Ok?
    ensures var q := ReplaceMoveTarget(p, p.current.value, target, version).value;
            && ValidPlan(q)
            && RecordStepStarted(q, p.current.value).Ok?
            && (ValidPlan(RecordStepStarted(q, p.current.value).value)
                <==> CurrentStep(p).value.attempts < CurrentStep(p).value.maxAttempts)
  {
    var i := IndexOf(p.steps, p.current.value).value;
    var r := p.steps[i].(target := target, status := Pending);
    StayValid(p, i, r, version);
    var q := ReplaceMoveTarget(p, p.current.value, target, version).value;
    KeepsValidIff(q, SkillStarted(p.current.value));
  }

  // ---- A plan that gets stuck ----

  const TRAP_PROPOSAL := Proposal("g", "s",
    [ProposalStep("a", "x", Some(Jump), Some("v1"), None, "i"),
     ProposalStep("b", "y", Some(MoveTo), Some("v1"), Some("t"), "i"),
     ProposalStep("c", "z", Some(SignIn), Some("v1"), None, "i")])

  const TRAP_SKILLS := {(Jump, "v1"), (MoveTo, "v1"), (SignIn, "v1")}

  /** The plan of `TRAP_PROPOSAL` with its first two steps at these stages. */
  function Staged(first: StepStatus, done: int, second: StepStatus, tried: int): (steps: seq<Step>)
    ensures |steps| == 3 && steps[0].stepId == "a" && steps[1].stepId == "b" && steps[2].stepId == "c"
    ensures forall i :: 0 <= i < 3 ==> steps[i].skill.Some?
  {
    [Step("a", "x", Some(Jump), Some("v1"), None, "i", 2, first, done),
     Step("b", "y", Some(MoveTo), Some("v1"), Some("t"), "i", 2, second, tried),
     Step("c", "z", Some(SignIn), Some("v1"), None, "i", 2, Pending, 0)]
  }

  function FreshTrapPlan(): Plan {
    Plan("p", "g", "s", "x", Active, 1, Some("a"), Staged(Pending, 0, Pending, 0))
  }

  /** Its second step, a move, is under way for the first time. */
  function TrapPlan(): Plan {
    Plan("p", "g", "s", "y", Active, 1, Some("b"), Staged(Succeeded, 1, Started, 1))
  }

  lemma StagedLayout(steps: seq<Step>)
    requires |steps| == 3 && steps[0].stepId == "a" && steps[1].stepId == "b" && steps[2].stepId == "c"
    requires forall i :: 0 <= i < 3 ==> steps[i].skill.Some?
    ensures ValidLayout(Slots(steps))
  {
    var slots := Slots(steps);
    var one, two := [Slot("a", false)], [Slot("a", false), Slot("b", false)];
    assert slots == [Slot("a", false), Slot("b", false), Slot("c", false)];
    assert one[..0] == [] && two[..1] == one && slots[..2] == two;
    assert Executables(one) == 1;
    assert Executables(two) == 2;
    assert Executables(slots) == 3;
  }

  lemma TrapPlanInRun()
    ensures InRun(TrapPlan())
    ensures CurrentStep(TrapPlan()) == Ok(TrapPlan().steps[1])
  {
    var p := TrapPlan();
    StagedLayout(p.steps);
    IndexOfUnique(p.steps, 1);
    assert Cursor(p) == 1;
  }

  lemma TrapSteps()
    ensures MaterializeSteps(TRAP_PROPOSAL.steps) == Staged(Pending, 0, Pending, 0)
    ensures AllAvailable(TRAP_PROPOSAL.steps, TRAP_SKILLS)
  {
  }

  lemma TrapProposalIsValid()
    ensures ValidProposal(TRAP_PROPOSAL)
  {
    TrapSteps();
    StagedLayout(MaterializeSteps(TRAP_PROPOSAL.steps));
    assert ProposalSlots(TRAP_PROPOSAL.steps) == Slots(MaterializeSteps(TRAP_PROPOSAL.steps));
  }

  lemma FreshTrapPlanIsValid()
    ensures ValidPlan(FreshTrapPlan())
  {
    var p := FreshTrapPlan();
    StagedLayout(p.steps);
    IndexOfUnique(p.steps, 0);
  }

  lemma TrapProposalMaterializes()
    ensures Materialize(TRAP_PROPOSAL, "p", 1, TRAP_SKILLS, false) == Ok(FreshTrapPlan())
  {
    TrapSteps();
    FreshTrapPlanIsValid();
  }

  lemma FirstStepSucceeds()
    ensures Apply(FreshTrapPlan(), SkillTerminal("a", true, false, false))
         == Plan("p", "g", "s", "y", Active, 1, Some("b"), Staged(Succeeded, 1, Pending, 0))
  {
    var p := FreshTrapPlan();
    StagedLayout(p.steps);
    IndexOfUnique(p.steps, 0);
    var done := p.steps[0].(status := Succeeded, attempts := 1);
    ReplaceOne(p.steps, 0, done);
    assert p.steps[0 := done] == Staged(Succeeded, 1, Pending, 0);
  }

  lemma SecondStepStarts()
    ensures Apply(Plan("p", "g", "s", "y", Active, 1, Some("b"), Staged(Succeeded, 1, Pending, 0)), SkillStarted("b"))
         == TrapPlan()
  {
    var p := Plan("p", "g", "s", "y", Active, 1, Some("b"), Staged(Succeeded, 1, Pending, 0));
    StagedLayout(p.steps);
    IndexOfUnique(p.steps, 1);
    var started := p.steps[1].(status := Started, attempts := 1);
    ReplaceOne(p.steps, 1, started);
    assert p.steps[1 := started] == Staged(Succeeded, 1, Started, 1);
  }

  /** The trap plan is what two events make of a materialised valid proposal. */
  lemma TrapPlanIsReached()
    ensures ValidProposal(TRAP_PROPOSAL) && Materialize(TRAP_PROPOSAL, "p", 1, TRAP_SKILLS, false).Ok?
    ensures Run(Materialize(TRAP_PROPOSAL, "p", 1, TRAP_SKILLS, false).value,
                [SkillTerminal("a", true, false, false), SkillStarted("b")]) == TrapPlan()
  {
    TrapProposalIsValid();
    TrapProposalMaterializes();
    FirstStepSucceeds();
    SecondStepStarts();
    var events := [SkillTerminal("a", true, false, false), SkillStarted("b")];
    assert events[1..] == [SkillStarted("b")] && events[1..][1..] == [];
  }

  /** A run of a materialised proposal reaches a plan whose first attempt at a move is rejected, and the start that
      follows leaves a plan the next load refuses. */
  lemma TrapPlanIsTrapped()
    ensures Materialize(TRAP_PROPOSAL, "p", 1, TRAP_SKILLS, false).Ok?
    ensures var p := Run(Materialize(TRAP_PROPOSAL, "p", 1, TRAP_SKILLS, false).value,
                         [SkillTerminal("a", true, false, false), SkillStarted("b")]);
            && InvalidateMoveTarget(p, "b").Ok?
            && var q := InvalidateMoveTarget(p, "b").value;
               ValidPlan(q) && RecordStepStarted(q, "b").Ok? && !ValidPlan(RecordStepStarted(q, "b").value)
  {
    TrapPlanIsReached();
    TrapPlanInRun();
    InRunIsValid(TrapPlan());
    InvalidateThenStart(TrapPlan());
  }
}
