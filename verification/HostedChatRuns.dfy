/** Every interleaving of hosted-chat tasks, each step one critical section or one await of a task. */
module HostedChatRuns {
  import opened Wrappers
  import opened OrderedMaps
  import opened HostedChat
  import opened HostedChatBooks
  import Sets

  datatype Outcome = Finished | Refused | Retried

  /** Where a task stands. It holds its target's lock from `Looking` to `Sending`; an exception or the end of the
      send gives the lock and the slot back before the task reaches `Leaving`. */
  datatype Phase =
    | Claimed
    | Entered
    | Slotted
    | Queued(lock: nat)
    | Looking(lock: nat)
    | Building(lock: nat)
    | Ready(lock: nat, send: PendingSend)
    | Sending(lock: nat, send: PendingSend)
    | Leaving(outcome: Outcome)
    | Closing(outcome: Outcome)

  datatype Task = Task(event: EventKey, target: Target, phase: Phase)

  datatype Attempt = Attempt(event: EventKey, requestId: RequestId, request: SendRequest)

  /** `sent` and `settled` are history: the send attempts in order, and the events with an accepted or permanently
      failed attempt. */
  datatype System = System(
    books: Books,
    queue: Queue,
    tasks: map<nat, Task>,
    sent: seq<Attempt>,
    settled: set<EventKey>)

  const START := System(EMPTY_BOOKS, EMPTY_QUEUE, map[], [], {})

  datatype Answer = Accepted(receipt: Receipt, now: real) | Declined(permanent: bool)

  datatype Action =
    | Deliver(task: nat, event: EventKey, target: Target, now: real)
    | ClaimOnly(event: EventKey, now: real)
    | Join(task: nat)
    | TakeSlot(task: nat)
    | FetchLock(task: nat)
    | Acquire(task: nat)
    | LookFor(task: nat, now: real)
    | Build(task: nat, built: PendingSend)
    | FailBuild(task: nat, permanent: bool)
    | Send(task: nat)
    | Reply(task: nat, answer: Answer)
    | Exit(task: nat)
    | Close(task: nat)
    | Answer(result: SendResult, now: real)

  predicate IsCounted(p: Phase) {
    !p.Claimed? && !p.Closing?
  }

  predicate InSlot(p: Phase) {
    IsCounted(p) && !p.Entered? && !p.Leaving?
  }

  predicate HasLock(p: Phase) {
    InSlot(p) && !p.Slotted?
  }

  /** The generate-and-send section. */
  predicate Holds(p: Phase) {
    HasLock(p) && !p.Queued?
  }

  function Counted(tasks: map<nat, Task>): set<nat> {
    set t | t in tasks && IsCounted(tasks[t].phase)
  }

  function CountedFor(tasks: map<nat, Task>, k: Target): set<nat> {
    set t | t in tasks && IsCounted(tasks[t].phase) && tasks[t].target == k
  }

  function Slots(tasks: map<nat, Task>): set<nat> {
    set t | t in tasks && InSlot(tasks[t].phase)
  }

  predicate LockFree(tasks: map<nat, Task>, lock: nat) {
    forall t :: t in tasks && Holds(tasks[t].phase) ==> tasks[t].phase.lock != lock
  }

  predicate Enabled(s: System, limits: Limits, a: Action) {
    match a
    case Deliver(t, _, _, _) => t !in s.tasks
    case ClaimOnly(_, _) => true
    case Join(t) => t in s.tasks && s.tasks[t].phase.Claimed?
    case TakeSlot(t) => t in s.tasks && s.tasks[t].phase.Entered? && |Slots(s.tasks)| < limits.maxQueue
    case FetchLock(t) => t in s.tasks && s.tasks[t].phase.Slotted?
    case Acquire(t) => t in s.tasks && s.tasks[t].phase.Queued? && LockFree(s.tasks, s.tasks[t].phase.lock)
    case LookFor(t, _) => t in s.tasks && s.tasks[t].phase.Looking?
    case Build(t, _) => t in s.tasks && s.tasks[t].phase.Building?
    case FailBuild(t, _) => t in s.tasks && s.tasks[t].phase.Building?
    case Send(t) => t in s.tasks && s.tasks[t].phase.Ready?
    case Reply(t, _) => t in s.tasks && s.tasks[t].phase.Sending?
    case Exit(t) => t in s.tasks && s.tasks[t].phase.Leaving? && s.tasks[t].target in s.queue.refs
    case Close(t) => t in s.tasks && s.tasks[t].phase.Closing?
    case Answer(_, _) => true
  }

  function Shift(tasks: map<nat, Task>, t: nat, p: Phase): map<nat, Task>
    requires t in tasks
  {
    tasks[t := tasks[t].(phase := p)]
  }

  function Move(s: System, t: nat, p: Phase): System
    requires t in s.tasks
  {
    s.(tasks := Shift(s.tasks, t, p))
  }

  function Failure(permanent: bool): Outcome {
    if permanent then Refused else Retried
  }

  function Settled(s: System, t: nat, outcome: Outcome): System
    requires t in s.tasks
  {
    Move(s, t, Leaving(outcome)).(settled := if outcome.Retried? then s.settled else s.settled + {s.tasks[t].event})
  }

  function Next(s: System, limits: Limits, a: Action): System
    requires ValidLimits(limits) && Enabled(s, limits, a)
  {
    match a
    case Deliver(t, event, target, now) =>
      var (books, claimed) := Claim(s.books, limits, event, now);
      if claimed then s.(books := books, tasks := s.tasks[t := Task(event, target, Claimed)]) else s.(books := books)
    case ClaimOnly(event, now) => s.(books := Claim(s.books, limits, event, now).0)
    case Join(t) =>
      var (queue, entered) := Enter(s.queue, limits, s.tasks[t].target);
      if entered then Move(s, t, Entered).(queue := queue) else Move(s, t, Closing(Retried))
    case TakeSlot(t) => Move(s, t, Slotted)
    case FetchLock(t) =>
      var (queue, lock) := LockFor(s.queue, s.tasks[t].target);
      Move(s, t, Queued(lock)).(queue := queue)
    case Acquire(t) => Move(s, t, Looking(s.tasks[t].phase.lock))
    case LookFor(t, now) =>
      var (books, found) := LookUp(s.books, s.tasks[t].event, now);
      var lock := s.tasks[t].phase.lock;
      Move(s, t, if found.Some? then Ready(lock, found.value) else Building(lock)).(books := books)
    case Build(t, built) =>
      Move(s, t, Ready(s.tasks[t].phase.lock, built)).(books := StorePending(s.books, limits, s.tasks[t].event, built))
    case FailBuild(t, permanent) => Settled(s, t, Failure(permanent))
    case Send(t) =>
      var p := s.tasks[t].phase;
      Move(s, t, Sending(p.lock, p.send))
        .(sent := s.sent + [Attempt(s.tasks[t].event, p.send.requestId, p.send.request)])
    case Reply(t, Declined(permanent)) => Settled(s, t, Failure(permanent))
    case Reply(t, Accepted(receipt, now)) =>
      var (books, ok) := Accept(s.books, limits, s.tasks[t].event, s.tasks[t].phase.send.request, receipt, now);
      Settled(s, t, if ok then Finished else Refused).(books := books)
    case Exit(t) => Move(s, t, Closing(s.tasks[t].phase.outcome)).(queue := Leave(s.queue, s.tasks[t].target))
    case Close(t) =>
      var books := match s.tasks[t].phase.outcome
        case Finished => s.books
        case Refused => Discard(s.books, s.tasks[t].event)
        case Retried => Release(s.books, s.tasks[t].event);
      s.(books := books, tasks := s.tasks - {t})
    case Answer(result, now) => s.(books := Handle(s.books, limits, result, now).0)
  }

  /** The state after a run of actions; nothing when one of them was not enabled. */
  function Run(s: System, limits: Limits, actions: seq<Action>): Option<System>
    requires ValidLimits(limits)
    decreases |actions|
  {
    if actions == [] then Some(s)
    else if Enabled(s, limits, actions[0]) then Run(Next(s, limits, actions[0]), limits, actions[1..])
    else None
  }

  // ---- The queue and the locks ----

  ghost predicate CountsAgree(tasks: map<nat, Task>, q: Queue, limits: Limits) {
    && q.queued == |Counted(tasks)| <= limits.maxQueue
    && (forall k :: k in q.refs ==> q.refs[k] == |CountedFor(tasks, k)| && q.refs[k] > 0)
    && (forall t :: t in tasks && IsCounted(tasks[t].phase) ==> tasks[t].target in q.refs)
  }

  ghost predicate LocksAgree(tasks: map<nat, Task>, q: Queue) {
    && (forall t :: t in tasks && HasLock(tasks[t].phase) ==>
          tasks[t].target in q.locks && q.locks[tasks[t].target] == tasks[t].phase.lock)
    && (forall k :: k in q.locks ==> k in q.refs && q.locks[k] < q.made)
    && (forall k, l :: k in q.locks && l in q.locks && q.locks[k] == q.locks[l] ==> k == l)
  }

  ghost predicate Exclusive(tasks: map<nat, Task>) {
    forall t, u :: t in tasks && u in tasks && t != u && Holds(tasks[t].phase) && Holds(tasks[u].phase) ==>
      tasks[t].phase.lock != tasks[u].phase.lock
  }

  ghost predicate QueueInvariant(s: System, limits: Limits) {
    CountsAgree(s.tasks, s.queue, limits) && LocksAgree(s.tasks, s.queue) && Exclusive(s.tasks)
  }

  lemma ShiftCounted(tasks: map<nat, Task>, t: nat, p: Phase)
    requires t in tasks
    ensures Counted(Shift(tasks, t, p)) == if IsCounted(p) then Counted(tasks) + {t} else Counted(tasks) - {t}
  {
  }

  lemma ShiftCountedFor(tasks: map<nat, Task>, t: nat, p: Phase, k: Target)
    requires t in tasks
    ensures CountedFor(Shift(tasks, t, p), k)
         == if IsCounted(p) && tasks[t].target == k then CountedFor(tasks, k) + {t} else CountedFor(tasks, k) - {t}
  {
  }

  lemma MoveSizes(tasks: map<nat, Task>, t: nat, p: Phase, k: Target)
    requires t in tasks && IsCounted(tasks[t].phase) == IsCounted(p)
    ensures |Counted(Shift(tasks, t, p))| == |Counted(tasks)|
    ensures |CountedFor(Shift(tasks, t, p), k)| == |CountedFor(tasks, k)|
  {
    ShiftCounted(tasks, t, p);
    ShiftCountedFor(tasks, t, p, k);
    assert Counted(Shift(tasks, t, p)) == Counted(tasks);
    assert CountedFor(Shift(tasks, t, p), k) == CountedFor(tasks, k);
  }

  lemma JoinSize(tasks: map<nat, Task>, t: nat, p: Phase, k: Target)
    requires t in tasks && !IsCounted(tasks[t].phase) && IsCounted(p)
    ensures |CountedFor(Shift(tasks, t, p), k)| == |CountedFor(tasks, k)| + if tasks[t].target == k then 1 else 0
  {
    ShiftCountedFor(tasks, t, p, k);
    assert t !in CountedFor(tasks, k);
  }

  lemma AbsentSize(tasks: map<nat, Task>, q: Queue, limits: Limits, k: Target)
    requires CountsAgree(tasks, q, limits) && k !in q.refs
    ensures |CountedFor(tasks, k)| == 0
  {
    assert CountedFor(tasks, k) == {};
  }

  /** A step that keeps a task counted keeps the counts. */
  lemma MoveCounts(tasks: map<nat, Task>, q: Queue, limits: Limits, t: nat, p: Phase)
    requires CountsAgree(tasks, q, limits) && t in tasks && IsCounted(tasks[t].phase) == IsCounted(p)
    ensures CountsAgree(Shift(tasks, t, p), q, limits)
  {
    MoveSizes(tasks, t, p, tasks[t].target);
    forall k | k in q.refs ensures q.refs[k] == |CountedFor(Shift(tasks, t, p), k)| {
      MoveSizes(tasks, t, p, k);
    }
  }

  lemma JoinCount(tasks: map<nat, Task>, q: Queue, limits: Limits, t: nat, k: Target)
    requires CountsAgree(tasks, q, limits) && t in tasks && tasks[t].phase.Claimed? && q.queued < limits.maxQueue
    requires k in q.refs || k == tasks[t].target
    ensures var refs := Enter(q, limits, tasks[t].target).0.refs;
            k in refs && refs[k] == |CountedFor(Shift(tasks, t, Entered), k)| && refs[k] > 0
  {
    JoinSize(tasks, t, Entered, k);
    if k !in q.refs {
      AbsentSize(tasks, q, limits, k);
    }
  }

  lemma JoinCounts(tasks: map<nat, Task>, q: Queue, limits: Limits, t: nat)
    requires CountsAgree(tasks, q, limits) && t in tasks && tasks[t].phase.Claimed? && q.queued < limits.maxQueue
    ensures CountsAgree(Shift(tasks, t, Entered), Enter(q, limits, tasks[t].target).0, limits)
  {
    ShiftCounted(tasks, t, Entered);
    assert t !in Counted(tasks);
    forall k | k in q.refs || k == tasks[t].target
      ensures var refs := Enter(q, limits, tasks[t].target).0.refs;
              k in refs && refs[k] == |CountedFor(Shift(tasks, t, Entered), k)| && refs[k] > 0
    {
      JoinCount(tasks, q, limits, t, k);
    }
  }

  lemma ExitCount(tasks: map<nat, Task>, q: Queue, limits: Limits, t: nat, k: Target)
    requires CountsAgree(tasks, q, limits) && t in tasks && tasks[t].phase.Leaving? && tasks[t].target in q.refs
    requires k in q.refs
    ensures var refs, left := Leave(q, tasks[t].target).refs,
                              CountedFor(Shift(tasks, t, Closing(tasks[t].phase.outcome)), k);
            if k in refs then refs[k] == |left| && refs[k] > 0 else left == {}
  {
    ShiftCountedFor(tasks, t, Closing(tasks[t].phase.outcome), k);
    assert t in CountedFor(tasks, tasks[t].target);
  }

  lemma ExitCounts(tasks: map<nat, Task>, q: Queue, limits: Limits, t: nat)
    requires CountsAgree(tasks, q, limits) && t in tasks && tasks[t].phase.Leaving? && tasks[t].target in q.refs
    ensures CountsAgree(Shift(tasks, t, Closing(tasks[t].phase.outcome)), Leave(q, tasks[t].target), limits)
  {
    var target := tasks[t].target;
    var now := Shift(tasks, t, Closing(tasks[t].phase.outcome));
    ShiftCounted(tasks, t, Closing(tasks[t].phase.outcome));
    assert t in Counted(tasks);
    forall k | k in Leave(q, target).refs
      ensures Leave(q, target).refs[k] == |CountedFor(now, k)| && Leave(q, target).refs[k] > 0
    {
      ExitCount(tasks, q, limits, t, k);
    }
    forall u | u in now && IsCounted(now[u].phase) ensures now[u].target in Leave(q, target).refs {
      ExitCount(tasks, q, limits, t, now[u].target);
      assert u in CountedFor(now, now[u].target);
    }
  }

  lemma CloseCounts(tasks: map<nat, Task>, q: Queue, limits: Limits, t: nat)
    requires CountsAgree(tasks, q, limits) && t in tasks && tasks[t].phase.Closing?
    ensures CountsAgree(tasks - {t}, q, limits)
  {
    assert Counted(tasks - {t}) == Counted(tasks);
    forall k ensures CountedFor(tasks - {t}, k) == CountedFor(tasks, k) {
    }
  }

  lemma DeliverCounts(tasks: map<nat, Task>, q: Queue, limits: Limits, t: nat, task: Task)
    requires CountsAgree(tasks, q, limits) && t !in tasks && task.phase.Claimed?
    ensures CountsAgree(tasks[t := task], q, limits)
  {
    assert Counted(tasks[t := task]) == Counted(tasks);
    forall k ensures CountedFor(tasks[t := task], k) == CountedFor(tasks, k) {
    }
  }

  lemma TwoCounted(tasks: map<nat, Task>, t: nat, u: nat)
    requires t in tasks && u in tasks && t != u && tasks[t].target == tasks[u].target
    requires IsCounted(tasks[t].phase) && IsCounted(tasks[u].phase)
    ensures |CountedFor(tasks, tasks[t].target)| >= 2
  {
    Sets.SubsetSize({t, u}, CountedFor(tasks, tasks[t].target));
  }

  /** The last task of a target leaves no other task holding or awaiting the lock it takes away. */
  lemma ExitLocks(tasks: map<nat, Task>, q: Queue, limits: Limits, t: nat)
    requires CountsAgree(tasks, q, limits) && LocksAgree(tasks, q)
    requires t in tasks && tasks[t].phase.Leaving? && tasks[t].target in q.refs
    ensures LocksAgree(Shift(tasks, t, Closing(tasks[t].phase.outcome)), Leave(q, tasks[t].target))
  {
    var target := tasks[t].target;
    forall u | u in tasks && u != t && HasLock(tasks[u].phase)
      ensures tasks[u].target == target ==> q.refs[target] >= 2
    {
      if tasks[u].target == target {
        TwoCounted(tasks, t, u);
      }
    }
  }

  lemma FetchLocks(tasks: map<nat, Task>, q: Queue, limits: Limits, t: nat)
    requires CountsAgree(tasks, q, limits) && LocksAgree(tasks, q) && t in tasks && tasks[t].phase.Slotted?
    ensures var (next, lock) := LockFor(q, tasks[t].target);
            LocksAgree(Shift(tasks, t, Queued(lock)), next)
  {
  }

  lemma MoveLocks(tasks: map<nat, Task>, q: Queue, t: nat, p: Phase)
    requires LocksAgree(tasks, q) && t in tasks
    requires HasLock(p) ==> HasLock(tasks[t].phase) && p.lock == tasks[t].phase.lock
    ensures LocksAgree(Shift(tasks, t, p), q)
  {
  }

  lemma MoveExclusive(tasks: map<nat, Task>, t: nat, p: Phase)
    requires Exclusive(tasks) && t in tasks
    requires Holds(p) ==> (Holds(tasks[t].phase) && p.lock == tasks[t].phase.lock) || LockFree(tasks, p.lock)
    ensures Exclusive(Shift(tasks, t, p))
  {
  }

  predicate IsMove(a: Action) {
    !a.Deliver? && !a.ClaimOnly? && !a.Answer? && !a.Join? && !a.Exit? && !a.Close? && !a.FetchLock?
  }

  /** Most steps only move one counted task on, with the lock it has. */
  lemma MoveShape(s: System, limits: Limits, a: Action)
    requires ValidLimits(limits) && Enabled(s, limits, a) && IsMove(a)
    ensures var n := Next(s, limits, a);
            && a.task in s.tasks && a.task in n.tasks && n.queue == s.queue
            && n.tasks == Shift(s.tasks, a.task, n.tasks[a.task].phase)
            && IsCounted(s.tasks[a.task].phase) && IsCounted(n.tasks[a.task].phase)
    ensures var p := Next(s, limits, a).tasks[a.task].phase;
            && (HasLock(p) ==> HasLock(s.tasks[a.task].phase) && p.lock == s.tasks[a.task].phase.lock)
            && (Holds(p) ==> Holds(s.tasks[a.task].phase) || LockFree(s.tasks, p.lock))
  {
  }

  lemma StepMove(s: System, limits: Limits, a: Action)
    requires ValidLimits(limits) && Enabled(s, limits, a) && IsMove(a) && QueueInvariant(s, limits)
    ensures QueueInvariant(Next(s, limits, a), limits)
  {
    MoveShape(s, limits, a);
    var p := Next(s, limits, a).tasks[a.task].phase;
    MoveCounts(s.tasks, s.queue, limits, a.task, p);
    MoveLocks(s.tasks, s.queue, a.task, p);
    MoveExclusive(s.tasks, a.task, p);
  }

  lemma StepJoin(s: System, limits: Limits, t: nat)
    requires ValidLimits(limits) && Enabled(s, limits, Join(t)) && QueueInvariant(s, limits)
    ensures QueueInvariant(Next(s, limits, Join(t)), limits)
  {
    if s.queue.queued < limits.maxQueue {
      JoinCounts(s.tasks, s.queue, limits, t);
      MoveLocks(s.tasks, s.queue, t, Entered);
      MoveExclusive(s.tasks, t, Entered);
    } else {
      MoveCounts(s.tasks, s.queue, limits, t, Closing(Retried));
      MoveLocks(s.tasks, s.queue, t, Closing(Retried));
      MoveExclusive(s.tasks, t, Closing(Retried));
    }
  }

  lemma StepFetch(s: System, limits: Limits, t: nat)
    requires ValidLimits(limits) && Enabled(s, limits, FetchLock(t)) && QueueInvariant(s, limits)
    ensures QueueInvariant(Next(s, limits, FetchLock(t)), limits)
  {
    var lock := LockFor(s.queue, s.tasks[t].target).1;
    MoveCounts(s.tasks, s.queue, limits, t, Queued(lock));
    FetchLocks(s.tasks, s.queue, limits, t);
    MoveExclusive(s.tasks, t, Queued(lock));
  }

  lemma StepExit(s: System, limits: Limits, t: nat)
    requires ValidLimits(limits) && Enabled(s, limits, Exit(t)) && QueueInvariant(s, limits)
    ensures QueueInvariant(Next(s, limits, Exit(t)), limits)
  {
    ExitCounts(s.tasks, s.queue, limits, t);
    ExitLocks(s.tasks, s.queue, limits, t);
    MoveExclusive(s.tasks, t, Closing(s.tasks[t].phase.outcome));
  }

  lemma StepDeliver(s: System, limits: Limits, a: Action)
    requires ValidLimits(limits) && Enabled(s, limits, a) && a.Deliver? && QueueInvariant(s, limits)
    ensures QueueInvariant(Next(s, limits, a), limits)
  {
    DeliverCounts(s.tasks, s.queue, limits, a.task, Task(a.event, a.target, Claimed));
  }

  lemma StepClose(s: System, limits: Limits, t: nat)
    requires ValidLimits(limits) && Enabled(s, limits, Close(t)) && QueueInvariant(s, limits)
    ensures QueueInvariant(Next(s, limits, Close(t)), limits)
  {
    CloseCounts(s.tasks, s.queue, limits, t);
  }

  lemma StepQueue(s: System, limits: Limits, a: Action)
    requires ValidLimits(limits) && Enabled(s, limits, a) && QueueInvariant(s, limits)
    ensures QueueInvariant(Next(s, limits, a), limits)
  {
    if IsMove(a) {
      StepMove(s, limits, a);
    } else {
      match a
      case Deliver(_, _, _, _) => StepDeliver(s, limits, a);
      case ClaimOnly(_, _) =>
      case Answer(_, _) =>
      case Join(t) => StepJoin(s, limits, t);
      case FetchLock(t) => StepFetch(s, limits, t);
      case Exit(t) => StepExit(s, limits, t);
      case Close(t) => StepClose(s, limits, t);
    }
  }

  /** The queue invariant holds after every interleaving. */
  lemma {:induction false} RunQueue(s: System, limits: Limits, actions: seq<Action>)
    requires ValidLimits(limits) && QueueInvariant(s, limits) && Run(s, limits, actions).Some?
    ensures QueueInvariant(Run(s, limits, actions).value, limits)
    decreases |actions|
  {
    if actions != [] {
      StepQueue(s, limits, actions[0]);
      RunQueue(Next(s, limits, actions[0]), limits, actions[1..]);
    }
  }

  lemma StartQueue(limits: Limits)
    requires ValidLimits(limits)
    ensures QueueInvariant(START, limits)
  {
    assert Counted(START.tasks) == {};
  }

  /** Two tasks for one target are never both between taking the lock and giving it back. */
  lemma MutualExclusion(limits: Limits, actions: seq<Action>, t: nat, u: nat)
    requires ValidLimits(limits) && Run(START, limits, actions).Some?
    requires var tasks := Run(START, limits, actions).value.tasks;
             && t in tasks && u in tasks && tasks[t].target == tasks[u].target
             && Holds(tasks[t].phase) && Holds(tasks[u].phase)
    ensures t == u
  {
    StartQueue(limits);
    RunQueue(START, limits, actions);
  }

  lemma KeepsLock(s: System, limits: Limits, a: Action, t: nat)
    requires ValidLimits(limits) && Enabled(s, limits, a) && t in s.tasks && HasLock(s.tasks[t].phase)
    requires t in Next(s, limits, a).tasks && HasLock(Next(s, limits, a).tasks[t].phase)
    ensures Next(s, limits, a).tasks[t].phase.lock == s.tasks[t].phase.lock
    ensures Next(s, limits, a).tasks[t].target == s.tasks[t].target
  {
  }

  /** While a task holds or awaits a lock, every step leaves that lock in place for its target. */
  lemma LockNeverReplaced(s: System, limits: Limits, a: Action, t: nat)
    requires ValidLimits(limits) && Enabled(s, limits, a) && QueueInvariant(s, limits)
    requires t in s.tasks && HasLock(s.tasks[t].phase)
    requires t in Next(s, limits, a).tasks && HasLock(Next(s, limits, a).tasks[t].phase)
    ensures Next(s, limits, a).tasks[t].phase.lock == s.tasks[t].phase.lock
    ensures s.tasks[t].target in Next(s, limits, a).queue.locks
    ensures Next(s, limits, a).queue.locks[s.tasks[t].target] == s.tasks[t].phase.lock
  {
    StepQueue(s, limits, a);
    KeepsLock(s, limits, a, t);
  }

  /** A waiting task is blocked only by a task for its own target. */
  lemma OnlyOwnTargetBlocks(s: System, limits: Limits, t: nat)
    requires QueueInvariant(s, limits) && t in s.tasks && s.tasks[t].phase.Queued?
    ensures Enabled(s, limits, Acquire(t))
       <==> forall u :: u in s.tasks && Holds(s.tasks[u].phase) ==> s.tasks[u].target != s.tasks[t].target
  {
  }

  /** A task that was let into the queue always finds a slot: the inner semaphore never blocks. */
  lemma SlotIsFree(s: System, limits: Limits, t: nat)
    requires QueueInvariant(s, limits) && t in s.tasks && s.tasks[t].phase.Entered?
    ensures Enabled(s, limits, TakeSlot(t))
  {
    assert t in Counted(s.tasks) && t !in Slots(s.tasks);
    Sets.SubsetSize(Slots(s.tasks), Counted(s.tasks));
  }

  /** The reference count a leaving task gives back is there. */
  lemma ExitIsEnabled(s: System, limits: Limits, t: nat)
    requires QueueInvariant(s, limits) && t in s.tasks && s.tasks[t].phase.Leaving?
    ensures Enabled(s, limits, Exit(t))
  {
    assert IsCounted(s.tasks[t].phase);
  }

  /** A drained service keeps no count and no lock. */
  lemma DrainedIsEmpty(s: System, limits: Limits)
    requires QueueInvariant(s, limits) && s.tasks == map[]
    ensures s.queue.queued == 0 && s.queue.refs == map[] && s.queue.locks == map[]
  {
    assert Counted(s.tasks) == {};
    forall k ensures k !in s.queue.refs {
      assert CountedFor(s.tasks, k) == {};
    }
  }

  // ---- The queue count is the sum of the reference counts ----

  ghost function Sum(m: map<Target, int>): int {
    if m == map[] then 0
    else
      var k :| k in m;
      m[k] + Sum(m - {k})
  }

  lemma {:induction false} SumWithout(m: map<Target, int>, k: Target)
    requires k in m
    ensures Sum(m) == m[k] + Sum(m - {k})
    decreases |m|
  {
    var j :| j in m && Sum(m) == m[j] + Sum(m - {j});
    if j != k {
      SumWithout(m - {j}, k);
      SumWithout(m - {k}, j);
      assert m - {j} - {k} == m - {k} - {j};
    }
  }

  lemma SumUpdated(m: map<Target, int>, k: Target, v: int)
    ensures Sum(m[k := v]) == Sum(m) - (if k in m then m[k] else 0) + v
  {
    SumWithout(m[k := v], k);
    if k in m {
      SumWithout(m, k);
      assert m[k := v] - {k} == m - {k};
    } else {
      assert m[k := v] - {k} == m;
    }
  }

  lemma StepSum(s: System, limits: Limits, a: Action)
    requires ValidLimits(limits) && Enabled(s, limits, a) && s.queue.queued == Sum(s.queue.refs)
    ensures Next(s, limits, a).queue.queued == Sum(Next(s, limits, a).queue.refs)
  {
    match a
    case Join(t) =>
      var target := s.tasks[t].target;
      SumUpdated(s.queue.refs, target, (if target in s.queue.refs then s.queue.refs[target] else 0) + 1);
    case Exit(t) =>
      var target := s.tasks[t].target;
      SumWithout(s.queue.refs, target);
      SumUpdated(s.queue.refs, target, s.queue.refs[target] - 1);
    case _ =>
  }

  lemma {:induction false} QueuedIsSum(s: System, limits: Limits, actions: seq<Action>)
    requires ValidLimits(limits) && s.queue.queued == Sum(s.queue.refs) && Run(s, limits, actions).Some?
    ensures Run(s, limits, actions).value.queue.queued == Sum(Run(s, limits, actions).value.queue.refs)
    decreases |actions|
  {
    if actions != [] {
      StepSum(s, limits, actions[0]);
      QueuedIsSum(Next(s, limits, actions[0]), limits, actions[1..]);
    }
  }

  // ---- Every map stays within its limit ----

  lemma StepSound(s: System, limits: Limits, a: Action)
    requires ValidLimits(limits) && Enabled(s, limits, a) && Sound(s.books, limits)
    ensures Sound(Next(s, limits, a).books, limits)
  {
    match a
    case Deliver(t, event, target, now) => ClaimSound(s.books, limits, event, now);
    case ClaimOnly(event, now) => ClaimSound(s.books, limits, event, now);
    case LookFor(t, now) => LookUpSound(s.books, limits, s.tasks[t].event, now);
    case Build(t, built) => StoreSound(s.books, limits, s.tasks[t].event, built);
    case Reply(t, Accepted(receipt, now)) =>
      AcceptSound(s.books, limits, s.tasks[t].event, s.tasks[t].phase.send.request, receipt, now);
    case Close(t) => DiscardSound(s.books, limits, s.tasks[t].event);
    case Answer(result, now) => HandleSound(s.books, limits, result, now);
    case _ =>
  }

  lemma {:induction false} RunSound(s: System, limits: Limits, actions: seq<Action>)
    requires ValidLimits(limits) && Sound(s.books, limits) && Run(s, limits, actions).Some?
    ensures Sound(Run(s, limits, actions).value.books, limits)
    decreases |actions|
  {
    if actions != [] {
      StepSound(s, limits, actions[0]);
      RunSound(Next(s, limits, actions[0]), limits, actions[1..]);
    }
  }

  // ---- The outbound maps mirror each other ----

  /** The receipt names a message and a request id that are not outstanding. */
  predicate FreshReceipt(s: System, a: Action) {
    a.Reply? && a.answer.Accepted? ==> FreshIds(s.books, a.answer.receipt)
  }

  lemma StepMirrored(s: System, limits: Limits, a: Action)
    requires ValidLimits(limits) && Enabled(s, limits, a) && Mirrored(s.books) && FreshReceipt(s, a)
    ensures Mirrored(Next(s, limits, a).books)
  {
    match a
    case Deliver(_, _, _, now) => ExpireMirrored(s.books, now);
    case ClaimOnly(_, now) => ExpireMirrored(s.books, now);
    case Reply(t, Accepted(receipt, now)) =>
      AcceptMirrored(s.books, limits, s.tasks[t].event, s.tasks[t].phase.send.request, receipt, now);
    case Answer(result, now) => HandleMirrored(s.books, limits, result, now);
    case _ =>
  }

  ghost predicate FreshRun(s: System, limits: Limits, actions: seq<Action>)
    requires ValidLimits(limits)
    decreases |actions|
  {
    actions != [] ==>
      && Enabled(s, limits, actions[0])
      && FreshReceipt(s, actions[0])
      && FreshRun(Next(s, limits, actions[0]), limits, actions[1..])
  }

  lemma {:induction false} RunMirrored(s: System, limits: Limits, actions: seq<Action>)
    requires ValidLimits(limits) && Mirrored(s.books) && FreshRun(s, limits, actions)
    ensures Run(s, limits, actions).Some? && Mirrored(Run(s, limits, actions).value.books)
    decreases |actions|
  {
    if actions != [] {
      StepMirrored(s, limits, actions[0]);
      RunMirrored(Next(s, limits, actions[0]), limits, actions[1..]);
    }
  }
}
