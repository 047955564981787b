/** The control-cycle row that stores an activity plan, and the locked transactions that update it.
    Each transaction holds the cycle lock, so it is one atomic step on the row. */
module CycleRows {
  import opened Wrappers
  import opened ActivityPlans
  import Skills

  datatype CycleStatus = CyclePending | CycleActive | CycleEnded

  /** The activity columns of a control cycle. A missing plan is stored as nulls, status `inactive`, version 0. */
  datatype Row = Row(
    cycle: CycleStatus,
    planId: Option<string>,
    goal: Option<(string, string)>,
    body: Option<Plan>,
    phase: Option<string>,
    status: Option<PlanStatus>,
    current: Option<string>,
    version: int,
    lastEvent: Option<int>,
    lastSequence: Option<int>)

  /** A claimed gateway event as the worker holds it. */
  datatype Event = Event(rowId: int, sequence: int, token: string, fence: int, generation: int)

  /** What the row lock reads beside the cycle: the event row and the session row. */
  datatype Locked = Locked(processing: bool, token: string, claimedFence: int, generation: int, fence: int)

  /** The plan and step a decision was bound to; missing columns read as empty strings. */
  datatype Binding = Binding(planId: string, stepId: string)

  datatype Failure = Unavailable

  datatype Reply = Done | Prepared(plan: Plan, binding: Binding)

  datatype Operation =
    | Prepare(proposed: Option<Plan>)
    | SkillStarted(bound: Option<Binding>)
    | SkillFinished(bound: Option<Binding>, succeeded: bool, retryable: bool, corrected: bool)
    | DecisionRejected(bound: Option<Binding>, targetRejected: bool)
    | PassiveStep
    | ChatOpportunity
    | Close

  /** One delivery of an event; `locked` is what the lock query finds, nothing when a row is missing. */
  datatype Delivery = Delivery(locked: Option<Locked>, event: Event, op: Operation)

  // ---- Pure parts ----

  predicate ClaimHolds(l: Locked, e: Event) {
    && l.processing
    && l.token == e.token
    && l.claimedFence == e.fence
    && l.generation == e.generation
    && l.fence == e.fence
  }

  predicate Granted(d: Delivery) {
    d.locked.Some? && ClaimHolds(d.locked.value, d.event)
  }

  /** The guard of the ordered update. */
  predicate Admits(row: Row, e: Event) {
    && row.cycle != CycleEnded
    && (row.lastSequence.None?
        || row.lastSequence.value < e.sequence
        || (row.lastSequence.value == e.sequence && row.lastEvent == Some(e.rowId)))
  }

  function Columns(row: Row, plan: Plan): Row {
    row.(planId := Some(plan.planId), goal := Some((plan.goalId, plan.goalSummary)), body := Some(plan),
         phase := Some(plan.phase), status := Some(plan.status), current := plan.current, version := plan.version)
  }

  /** An update the guard refuses is dropped silently when the row already holds this sequence or a later one. */
  function WriteState(row: Row, e: Event, plan: Plan): Result<Row, Failure> {
    if Admits(row, e) then
      Ok(Columns(row, plan).(lastEvent := Some(e.rowId), lastSequence := Some(e.sequence)))
    else if row.lastSequence.None? || row.lastSequence.value < e.sequence then Err(Unavailable)
    else Ok(row)
  }

  function WriteHostedChatState(row: Row, plan: Plan): Result<Row, Failure> {
    if row.cycle != CycleEnded then Ok(Columns(row, plan)) else Err(Unavailable)
  }

  predicate Loads(row: Row) {
    row.body.Some? ==> ValidPlan(row.body.value)
  }

  function SequenceOrZero(row: Row): int {
    if row.lastSequence.Some? then row.lastSequence.value else 0
  }

  predicate Replaces(body: Option<Plan>, proposed: Option<Plan>) {
    || (proposed.Some? && (body.None? || proposed.value.planId != body.value.planId
                           || proposed.value.version > body.value.version))
    || body.None?
    || body.value.status != Active
  }

  function PrepareStep(row: Row, e: Event, proposed: Option<Plan>): Result<(Row, Reply), Failure> {
    if Replaces(row.body, proposed) then
      if proposed.None? then Err(Unavailable)
      else
        var plan := proposed.value.(version := row.version + 1);
        if !ValidPlan(plan) then Err(Unavailable)
        else
          match WriteState(row, e, plan)
          case Err(f) => Err(f)
          case Ok(next) => WithBinding(next, plan)
    else if SequenceOrZero(row) < e.sequence then
      match WriteState(row, e, row.body.value)
      case Err(f) => Err(f)
      case Ok(next) => WithBinding(next, row.body.value)
    else WithBinding(row, row.body.value)
  }

  function WithBinding(row: Row, plan: Plan): Result<(Row, Reply), Failure> {
    match CurrentStep(plan)
    case Err(_) => Err(Unavailable)
    case Ok(step) => Ok((row, Prepared(plan, Binding(plan.planId, step.stepId))))
  }

  /** The plan transition a skill or rejection event asks for. */
  function BoundTransition(plan: Plan, stepId: string, op: Operation): Result<Plan, PlanError>
    requires op.SkillStarted? || op.SkillFinished? || op.DecisionRejected?
  {
    match op
    case SkillStarted(_) => RecordStepStarted(plan, stepId)
    case SkillFinished(_, succeeded, retryable, corrected) =>
      RecordStepTerminal(plan, stepId, succeeded, retryable, !succeeded && corrected)
    case DecisionRejected(_, targetRejected) =>
      if targetRejected && CurrentStep(plan).Ok? && CurrentStep(plan).value.skill == Some(Skills.MoveTo)
      then InvalidateMoveTarget(plan, stepId)
      else RecordStepTerminal(plan, stepId, false, false, false)
  }


  predicate Targets(row: Row, bound: Option<Binding>) {
    && row.body.Some? && row.body.value.status == Active
    && bound.Some? && bound.value.planId == row.body.value.planId
    && row.body.value.current == Some(bound.value.stepId)
  }

  function Store(written: Result<Row, Failure>): Result<(Row, Reply), Failure> {
    match written
    case Err(f) => Err(f)
    case Ok(next) => Ok((next, Done))
  }

  function TerminalStep(row: Row, e: Event, op: Operation): Result<(Row, Reply), Failure>
    requires op.SkillStarted? || op.SkillFinished? || op.DecisionRejected?
  {
    if !Targets(row, op.bound) then Ok((row, Done))
    else
      match BoundTransition(row.body.value, op.bound.value.stepId, op)
      case Err(_) => Err(Unavailable)
      case Ok(plan) => Store(WriteState(row, e, plan))
  }

  predicate AtSocialStep(row: Row) {
    && row.body.Some? && row.body.value.status == Active && row.body.value.current.Some?
    && CurrentStep(row.body.value).Ok?
    && CurrentStep(row.body.value).value.phase == "social" && CurrentStep(row.body.value).value.skill.None?
  }

  function SocialStep(row: Row, e: Event, ordered: bool): Result<(Row, Reply), Failure> {
    if !AtSocialStep(row) then Ok((row, Done))
    else
      match CompleteSocialOpportunity(row.body.value)
      case Err(_) => Err(Unavailable)
      case Ok(plan) => Store(if ordered then WriteState(row, e, plan) else WriteHostedChatState(row, plan))
  }

  function CloseStep(row: Row, e: Event): Result<(Row, Reply), Failure> {
    if row.body.None? then Ok((row, Done))
    else Store(WriteState(row, e, ClosePlan(row.body.value)))
  }

  function Transact(row: Row, d: Delivery): Result<(Row, Reply), Failure> {
    if !Granted(d) || !Loads(row) then Err(Unavailable)
    else
      match d.op
      case Prepare(proposed) => PrepareStep(row, d.event, proposed)
      case PassiveStep => SocialStep(row, d.event, true)
      case ChatOpportunity => SocialStep(row, d.event, false)
      case Close => CloseStep(row, d.event)
      case _ => TerminalStep(row, d.event, d.op)
  }

  /** A failed transaction is rolled back. */
  function After(row: Row, d: Delivery): Row {
    match Transact(row, d)
    case Ok(result) => result.0
    case Err(_) => row
  }

  // ---- The repository ----

  class CycleRepository {
    var cycle: CycleStatus
    var planId: Option<string>
    var goal: Option<(string, string)>
    var body: Option<Plan>
    var phase: Option<string>
    var status: Option<PlanStatus>
    var current: Option<string>
    var version: int
    var lastEvent: Option<int>
    var lastSequence: Option<int>

    function Stored(): Row
      reads this
    {
      Row(cycle, planId, goal, body, phase, status, current, version, lastEvent, lastSequence)
    }

    constructor ()
      ensures Stored() == Row(CyclePending, None, None, None, None, None, None, 0, None, None)
    {
      cycle := CyclePending;
      planId, goal, body, phase, status, current := None, None, None, None, None, None;
      version, lastEvent, lastSequence := 0, None, None;
    }

    method SetColumns(plan: Plan)
      modifies this
      ensures Stored() == Columns(old(Stored()), plan)
    {
      planId, goal := Some(plan.planId), Some((plan.goalId, plan.goalSummary));
      body, phase, status := Some(plan), Some(plan.phase), Some(plan.status);
      current, version := plan.current, plan.version;
    }

    method Rollback(saved: Row)
      modifies this
      ensures Stored() == saved
    {
      cycle, planId, goal, body := saved.cycle, saved.planId, saved.goal, saved.body;
      phase, status, current := saved.phase, saved.status, saved.current;
      version, lastEvent, lastSequence := saved.version, saved.lastEvent, saved.lastSequence;
    }

    method Write(e: Event, plan: Plan) returns (ok: bool)
      modifies this
      ensures ok == WriteState(old(Stored()), e, plan).Ok?
      ensures Stored() == if ok then WriteState(old(Stored()), e, plan).value else old(Stored())
    {
      if Admits(Stored(), e) {
        SetColumns(plan);
        lastEvent, lastSequence := Some(e.rowId), Some(e.sequence);
        return true;
      }
      ok := lastSequence.Some? && lastSequence.value >= e.sequence;
    }

    method WriteHostedChat(plan: Plan) returns (ok: bool)
      modifies this
      ensures ok == WriteHostedChatState(old(Stored()), plan).Ok?
      ensures Stored() == if ok then Columns(old(Stored()), plan) else old(Stored())
    {
      ok := cycle != CycleEnded;
      if ok {
        SetColumns(plan);
      }
    }

    method PreparePlan(d: Delivery) returns (r: Result<Reply, Failure>)
      requires d.op.Prepare?
      modifies this
      ensures Stored() == After(old(Stored()), d)
      ensures r == match Transact(old(Stored()), d) { case Ok(result) => Ok(result.1) case Err(f) => Err(f) }
    {
      var saved := Stored();
      if !Granted(d) || !Loads(saved) {
        return Err(Unavailable);
      }
      var plan: Plan;
      if Replaces(body, d.op.proposed) {
        if d.op.proposed.None? {
          return Err(Unavailable);
        }
        plan := d.op.proposed.value.(version := version + 1);
        if !ValidPlan(plan) {
          return Err(Unavailable);
        }
        var ok := Write(d.event, plan);
        if !ok {
          return Err(Unavailable);
        }
      } else {
        plan := body.value;
        if SequenceOrZero(saved) < d.event.sequence {
          var ok := Write(d.event, plan);
          if !ok {
            return Err(Unavailable);
          }
        }
      }
      var step := CurrentStep(plan);
      if step.Err? {
        Rollback(saved);
        return Err(Unavailable);
      }
      return Ok(Prepared(plan, Binding(plan.planId, step.value.stepId)));
    }

    method RecordTerminalEvent(d: Delivery) returns (r: Result<Reply, Failure>)
      requires d.op.SkillStarted? || d.op.SkillFinished? || d.op.DecisionRejected?
      modifies this
      ensures Stored() == After(old(Stored()), d)
      ensures r == match Transact(old(Stored()), d) { case Ok(result) => Ok(result.1) case Err(f) => Err(f) }
    {
      if !Granted(d) || !Loads(Stored()) {
        return Err(Unavailable);
      }
      if !Targets(Stored(), d.op.bound) {
        return Ok(Done);
      }
      var updated := BoundTransition(body.value, d.op.bound.value.stepId, d.op);
      if updated.Err? {
        return Err(Unavailable);
      }
      var ok := Write(d.event, updated.value);
      return if ok then Ok(Done) else Err(Unavailable);
    }

    method CompletePassiveStep(d: Delivery) returns (r: Result<Reply, Failure>)
      requires d.op.PassiveStep? || d.op.ChatOpportunity?
      modifies this
      ensures Stored() == After(old(Stored()), d)
      ensures r == match Transact(old(Stored()), d) { case Ok(result) => Ok(result.1) case Err(f) => Err(f) }
    {
      if !Granted(d) || !Loads(Stored()) {
        return Err(Unavailable);
      }
      if !AtSocialStep(Stored()) {
        return Ok(Done);
      }
      var updated := CompleteSocialOpportunity(body.value);
      if updated.Err? {
        return Err(Unavailable);
      }
      var ok;
      if d.op.PassiveStep? {
        ok := Write(d.event, updated.value);
      } else {
        ok := WriteHostedChat(updated.value);
      }
      return if ok then Ok(Done) else Err(Unavailable);
    }

    method CloseActivity(d: Delivery) returns (r: Result<Reply, Failure>)
      requires d.op.Close?
      modifies this
      ensures Stored() == After(old(Stored()), d)
      ensures r == match Transact(old(Stored()), d) { case Ok(result) => Ok(result.1) case Err(f) => Err(f) }
    {
      if !Granted(d) || !Loads(Stored()) {
        return Err(Unavailable);
      }
      if body.None? {
        return Ok(Done);
      }
      var ok := Write(d.event, ClosePlan(body.value));
      return if ok then Ok(Done) else Err(Unavailable);
    }
  }
}
