/** Concrete rows on which the cycle repository breaks a promise. */
module CycleExamples {
  import opened Wrappers
  import opened ActivityPlans
  import opened CycleRows
  import opened CycleRuns
  import Runs = ActivityPlanRuns

  /** An active cycle that stores `plan`, last written by event row 1. */
  function Holding(plan: Plan, sequence: int): (row: Row)
    ensures ColumnsAgree(row) && row.body == Some(plan)
  {
    Row(CycleActive, Some(plan.planId), Some((plan.goalId, plan.goalSummary)), Some(plan), Some(plan.phase),
        Some(plan.status), plan.current, plan.version, Some(1), Some(sequence))
  }

  /** A delivery whose claim holds. */
  function Claimed(rowId: int, sequence: int, fence: int, op: Operation): (d: Delivery)
    ensures Granted(d)
  {
    Delivery(Some(Locked(true, "token", fence, 1, fence)), Event(rowId, sequence, "token", fence, 1), op)
  }

  lemma ReversionLoads(p: Plan, planId: string, version: int)
    requires ValidPlan(p) && Text(planId, 128) && version >= 1
    ensures var q := p.(planId := planId, version := version); ValidPlan(q) && CurrentStep(q) == CurrentStep(p)
  {
    assert p.(planId := planId, version := version).steps == p.steps;
  }

  lemma TrapPlanLoads()
    ensures ValidPlan(Runs.TrapPlan()) && CurrentStep(Runs.TrapPlan()) == Ok(Runs.TrapPlan().steps[1])
  {
    Runs.TrapPlanInRun();
    Runs.InRunIsValid(Runs.TrapPlan());
  }

  const FAILURE := SkillFinished(Some(Binding("p", "b")), false, true, false)

  lemma FailureIsTaken(row: Row)
    requires row == Holding(Runs.TrapPlan(), 5)
    ensures Takes(row, Claimed(6, 6, 1, FAILURE)) && !Overdraws(row, Claimed(6, 6, 1, FAILURE))
  {
    TrapPlanLoads();
  }

  /** The second claim of the same failure is taken too. */
  lemma FailureIsTakenAgain(row: Row, d: Delivery, again: Delivery)
    requires ColumnsAgree(row) && d.op == FAILURE && Takes(row, d) && Redelivers(again, d) && Granted(again)
    requires Loads(After(row, d)) && After(After(row, d), again).body != After(row, d).body
    ensures Takes(After(row, d), again)
  {
    AfterShape(After(row, d), again);
  }

  /** A retryable failure of the last attempt but one, delivered twice: the first delivery leaves the step current with
      one attempt unused, and the redelivery moves past it. */
  lemma FailureBurnsBoth(row: Row, d: Delivery, again: Delivery)
    requires ColumnsAgree(row) && d.op == FAILURE && Takes(row, d) && Redelivers(again, d) && Granted(again)
    requires Loads(After(row, d)) && row.body.Some? && CurrentStep(row.body.value).Ok?
    requires var cur := CurrentStep(row.body.value).value; AttemptOf(cur) + 1 == cur.maxAttempts
    ensures var cur, once := CurrentStep(row.body.value).value, After(row, d);
            && once.body.Some?
            && CurrentStep(once.body.value) == Ok(cur.(status := Pending, attempts := cur.maxAttempts - 1))
            && After(once, again).body.Some?
            && Runs.Cursor(After(once, again).body.value) == Runs.Cursor(row.body.value) + 1
  {
    FailureRedeliveredAtOnce(row, d, again);
    FailureIsTakenAgain(row, d, again);
    TakenFailure(row, d);
    TakenFailure(After(row, d), again);
  }

  /** A first attempt of two fails; the failure, claimed and delivered twice under growing fences, uses up both. */
  lemma FailureBurnsTwice()
    ensures var row, step := Holding(Runs.TrapPlan(), 5), Runs.TrapPlan().steps[1];
            var d, again := Claimed(6, 6, 1, FAILURE), Claimed(6, 6, 2, FAILURE);
            var once := After(row, d);
            && Takes(row, d) && Redelivers(again, d) && step.maxAttempts == 2 && once.body.Some?
            && CurrentStep(once.body.value) == Ok(step.(status := Pending, attempts := 1))
            && After(once, again).body.Some?
            && Runs.Cursor(After(once, again).body.value) == Runs.Cursor(Runs.TrapPlan()) + 1
  {
    var row, d := Holding(Runs.TrapPlan(), 5), Claimed(6, 6, 1, FAILURE);
    FailureIsTaken(row);
    StaysLoadableIff(row, d);
    TrapPlanLoads();
    FailureBurnsBoth(row, d, Claimed(6, 6, 2, FAILURE));
  }

  /** A `prepare` for an event that is older than the stored one reports, and binds a decision to, a plan that is not
      stored. */
  lemma PrepareReportsUnstored()
    ensures var row := Holding(Runs.TrapPlan(), 5);
            var d := Claimed(3, 3, 1, Prepare(Some(Runs.TrapPlan().(planId := "q"))));
            && Transact(row, d).Ok? && Transact(row, d).value.1.Prepared?
            && Transact(row, d).value.1.plan.planId == "q" && Transact(row, d).value.1.binding.planId == "q"
            && After(row, d) == row && HoldsPlan(row, "p")
  {
    TrapPlanLoads();
    ReversionLoads(Runs.TrapPlan(), "q", 2);
  }

  function StaleRetarget(): Plan {
    var p := Runs.TrapPlan();
    p.(steps := ReplaceStep(p.steps, p.steps[1].(target := Some("u"), status := Pending)), version := 2)
  }

  lemma StaleRetargetLoads()
    ensures ReplaceMoveTarget(Runs.TrapPlan(), "b", Some("u"), 2) == Ok(StaleRetarget())
    ensures ValidPlan(StaleRetarget()) && CurrentStep(StaleRetarget()).Ok?
    ensures CurrentStep(StaleRetarget()).value.stepId == "b" && CurrentStep(StaleRetarget()).value.skill.Some?
  {
    TrapPlanLoads();
    Runs.StayValid(Runs.TrapPlan(), 1, Runs.TrapPlan().steps[1].(target := Some("u"), status := Pending), 2);
  }

  const LATE_SUCCESS := SkillFinished(Some(Binding("p", "b")), true, false, false)

  lemma StaleRetargetReinstalls(row: Row)
    requires row == Holding(Runs.TrapPlan().(planId := "q", version := 2), 5)
    ensures Reinstalls(row, Claimed(6, 6, 1, Prepare(Some(StaleRetarget()))), "p")
    ensures After(row, Claimed(6, 6, 1, Prepare(Some(StaleRetarget())))).body == Some(StaleRetarget().(version := 3))
    ensures After(row, Claimed(6, 6, 1, Prepare(Some(StaleRetarget())))).lastSequence == Some(6)
    ensures After(row, Claimed(6, 6, 1, Prepare(Some(StaleRetarget())))).cycle == CycleActive
  {
    TrapPlanLoads();
    ReversionLoads(Runs.TrapPlan(), "q", 2);
    StaleRetargetLoads();
    ReversionLoads(StaleRetarget(), "p", 3);
  }

  /** Plan `p` was replaced by plan `q`; a retarget of `p` built from a stale snapshot is prepared; and a terminal
      bound to `p`, which plan `q` would have ignored, is taken again. */
  lemma StaleRetargetRevivesOldPlan()
    ensures var row := Holding(Runs.TrapPlan().(planId := "q", version := 2), 5);
            var prepare, late := Claimed(6, 6, 1, Prepare(Some(StaleRetarget()))), Claimed(7, 7, 1, LATE_SUCCESS);
            && !HoldsPlan(row, "p") && After(row, late) == row
            && After(After(row, prepare), late).body != After(row, prepare).body
  {
    var row := Holding(Runs.TrapPlan().(planId := "q", version := 2), 5);
    StaleRetargetReinstalls(row);
    StaleRetargetLoads();
    ReversionLoads(StaleRetarget(), "p", 3);
    var prepare := Claimed(6, 6, 1, Prepare(Some(StaleRetarget())));
    CurrentTerminalChanges(After(row, prepare), Claimed(7, 7, 1, LATE_SUCCESS));
  }
}
