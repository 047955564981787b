# Verification of the LLM gateway runtime

This project models the deterministic core of the LLM Gateway v2 runtime, and three self-contained algorithms beside
it, and proves properties of that model over all inputs, runs and interleavings. `dafny verify dfyconfig.toml` checks
everything.

| modules | what they model |
|---|---|
| `ActivityPlans`, `PlanRules`, `ActivityPlanRuns` | the activity plan: validators and what they demand, transitions, and whole runs of them |
| `CycleRows`, `CycleOutcomes`, `CycleRuns`, `CycleExamples` | the cycle row that stores a plan, its locked transactions and what each leaves, every interleaving of deliveries, and concrete rows |
| `ActivityCapacities`, `CapacityRules`, `FallbackPlans`, `FallbackChoices`, `PlanDiversifier`, `DiversifiedSteps`, `PlanExamples` | the capacity ranking, the fallback plan builder, and the proposal diversifier with concrete proposals |
| `ArgumentPaths`, `LeasePermissions`, `DecisionPlanning`, `DecisionOutcomes` | argument paths, lease authorisation and selection, the decision planner, and what it decides in each situation |
| `OrderedMaps`, `HostedChat`, `HostedChatBooks`, `HostedChatRuns`, `HostedChatEvents`, `HostedChatOutcomes` | the hosted-chat service: its critical sections, its maps, every interleaving of its tasks, and what becomes of an event |
| `LoadBalancer`, `BalancerReloads` | weighted round robin over a cached provider pool |
| `MonitorPaging`, `MonitorFilters` | keyset paging of monitor records and the event stream that follows the first page |
| `RateLimiter` | the sliding-window request limiter |
| `Skills`, `Orders`, `Lists`, `Sets`, `Wrappers` | skill names, stable sorting and list surgery, walks round a list, sizes of sets, option and result types |

Objects whose methods update fields are classes (`CycleRepository`, `HostedChatService`, `Balancer`, `Limiter`): each
method is proved equal to a function of the old state, and the theorems over whole runs are about those functions.
A locked database transaction, or a section under the service's state lock, is one atomic step. The concurrent
protocol of the hosted chat is a state machine whose steps are the critical sections and the awaits between them.

## What the proofs found

Some promises of the code hold only under a condition. Each has a lemma with the exact condition, and a concrete input
on which it fails.

- A move step whose target is rejected, or which is retargeted, at its last attempt stays pending with no attempts
  left. The next start stores a plan that no longer loads (`KeepsValidIff`, `InvalidateThenStart`,
  `RetargetThenStart`; a run that gets there is `TrapPlanIsTrapped`), and from then on no delivery ever changes that row
  (`UnloadableIsStuck`).
- Redelivering a retryable failure burns a second attempt (`FailureRedelivery`, `FailureRedeliveredAtOnce`;
  `FailureBurnsTwice`).
- A plan that was replaced comes back when a proposal retargeted from a stale snapshot is prepared after the
  replacement, and then skill events bound to the old plan are taken again (`OldPlanReturnsIff`, `OldPlanIsInert`;
  `StaleRetargetRevivesOldPlan`).
- `prepare` can report, and bind a decision to, a plan that the ordered guard did not store (`PrepareReportsStored`;
  `PrepareReportsUnstored`).
- A matching chat result that arrives early evicts the oldest held result when the map of held results is full
  (`OrderIsIrrelevantIff`; `EarlyResultEvicts`).
- A diversified proposal can repeat a step id or fall below three executable steps, and the plan validators then refuse
  it (`DiversifiedFitsIff`; `DiversifiedIsRefused`, `RepeatedIdIsRefused`).
- A monitor record that becomes visible below the stream's current cursor is never sent, even when it lies above the
  page's `streamCursor` (`StreamIsCompleteIff`, `HandoffIsCompleteIff`; `LateRecordIsLost`). A record whose update time
  moves is sent again under the same id (`RecordIsSentTwice`); each version of it is sent at most once
  (`StreamAscends`).
- Two requests with the same timestamp count once in the limiter (`BoundHoldsIff`, and `BoundHoldsAtIff` for one
  setting; `EqualTimesPassTogether`).

## Model

| member | source | states |
|---|---|---|
| `ActivityPlanRuns.MaterializedInRun` | src/core/integration/llm_gateway_v2/activity_plan.py:287-332 | A materialised plan satisfies the run invariant: cursor on the first step, every step pending with no attempts. |
| `ActivityPlanRuns.InRunIsValid` | src/core/integration/llm_gateway_v2/activity_plan.py:93-124 | The run invariant implies every step and plan validator (the plan validator is at 199-220). |
| `ActivityPlanRuns.RunInvariant` | src/core/integration/llm_gateway_v2/activity_plan.py:339-434 | Over every run of start, terminal, social and close events the invariant holds, so every stored plan loads again although no transition re-validates; step ids never change, the cursor only moves forward, and each ended attempt is paid for by the measure. |
| `ActivityPlanRuns.StepInRun` | src/core/integration/llm_gateway_v2/activity_plan.py:365-434 | One event of any kind, accepted or refused, keeps the invariant; a start leaves the measure as it is and a terminal or social completion lowers it. |
| `ActivityPlanRuns.RemainingZeroIffDone` | src/core/integration/llm_gateway_v2/activity_plan.py:339-362 | The measure reaches zero exactly when no step is current. |
| `ActivityPlanRuns.MaterializedRun` | src/core/integration/llm_gateway_v2/activity_plan.py:287-434 | From a materialised plan, the attempts ended never exceed the sum of maxAttempts, which is at most 13; once they equal it nothing is current; and a finished plan has ended at least one attempt per step. |
| `ActivityPlanRuns.AlwaysProgress` | src/core/integration/llm_gateway_v2/activity_plan.py:376-395 | While a step is current some event is accepted that ends an attempt of it. |
| `ActivityPlanRuns.RunFollows` | src/core/integration/llm_gateway_v2/activity_plan.py:365-395 | Along every run a step's attempts are its accepted reports plus the one under way, it is succeeded exactly when its last report succeeded, and skipped exactly when the last one failed for good. |
| `ActivityPlanRuns.KeepsValidIff` | src/core/integration/llm_gateway_v2/activity_plan.py:365-395 | On any plan that loads, an accepted start or terminal leaves a plan that loads if and only if the current step has attempts left or is under way. |
| `ActivityPlanRuns.InvalidateThenStart` | src/core/integration/llm_gateway_v2/activity_plan.py:398-410 | After a rejected move target the next start loads again exactly when the rejected attempt was not the last. |
| `ActivityPlanRuns.RetargetThenStart` | src/core/integration/llm_gateway_v2/activity_plan.py:413-426 | After a retarget the next start loads again exactly when attempts were left. |
| `ActivityPlanRuns.TrapPlanIsReached` | src/core/integration/llm_gateway_v2/activity_plan.py:287-434 | A concrete valid proposal materialises, and a success and a start make the trap plan of it. |
| `ActivityPlanRuns.TrapPlanIsTrapped` | src/core/integration/llm_gateway_v2/activity_plan.py:398-410 | A run of two events from a materialised valid proposal reaches a plan for which a rejected target followed by a start stores a plan the next load refuses. |
| `PlanRules.ProposalIsValidIff` | src/core/integration/llm_gateway_v2/activity_plan.py:127-186 | A proposal is valid exactly when its texts are bounded, every step is a social step or a call of a canonical skill under schema v1 with a target only for a move, ids differ, there are three to six calls, and at most one social step, which comes last. |
| `PlanRules.PlanLoadsIff` | src/core/integration/llm_gateway_v2/activity_plan.py:199-220 | A stored plan loads exactly when this holds of it, its attempts are within bounds, its current step is one of its steps and of its phase, an active plan has one and a completed one has none (the step validator is at 93-124). |
| `PlanRules.MaterializesIff` | src/core/integration/llm_gateway_v2/activity_plan.py:287-332 | A valid proposal materialises exactly when every call is published, the Lobby's opens with the tornado, and id and version are valid; the plan is active at its first step and each step is a fresh copy with two attempts, or one for the social step. |
| `CycleRows.CycleRepository.PreparePlan` | src/core/integration/llm_gateway_v2/activity_plan_repository.py:261-314 | The stored row after `prepare`, and its reply, are those of the transaction on the old row, including the roll-back when no step is current. |
| `CycleRows.CycleRepository.RecordTerminalEvent` | src/core/integration/llm_gateway_v2/activity_plan_repository.py:417-464 | The same for started, finished and rejected events. |
| `CycleRows.CycleRepository.CompletePassiveStep` | src/core/integration/llm_gateway_v2/activity_plan_repository.py:370-397 | The same for passive completion and for the chat opportunity, which writes without the ordered guard. |
| `CycleRows.CycleRepository.CloseActivity` | src/core/integration/llm_gateway_v2/activity_plan_repository.py:399-415 | The same for closing. |
| `CycleRows.CycleRepository.Write` | src/core/integration/llm_gateway_v2/activity_plan_repository.py:495-512 | The ordered update: written when the guard admits the event, silently dropped when the row holds this sequence or a later one, an error otherwise. |
| `CycleOutcomes.PrepareInstalls` | src/core/integration/llm_gateway_v2/activity_plan_repository.py:261-314 | Over no plan, an inactive one, or an active one that the proposal supersedes by another id or a higher version, an in-time `prepare` stores a valid proposal with a current step one version above the row and reports it with that step. |
| `CycleOutcomes.PrepareKeeps` | src/core/integration/llm_gateway_v2/activity_plan_repository.py:273-300 | An active plan stays, and is reported, when nothing is proposed or its own id at no higher version; only the mark moves, to a later event. |
| `CycleOutcomes.PrepareFails` | src/core/integration/llm_gateway_v2/activity_plan_repository.py:281-289 | Nothing proposed over no plan or an inactive one is an error, and so is a superseding proposal that is invalid or has no current step; the row stays. |
| `CycleOutcomes.StartRecorded` | src/core/integration/llm_gateway_v2/activity_plan_repository.py:417-464 | A started event about the current executable step stores it as under way, at its next attempt or the one under way, and nothing else changes. |
| `CycleOutcomes.FinishRecorded` | src/core/integration/llm_gateway_v2/activity_plan_repository.py:417-464 | A success moves on to the next step and its phase, or completes the plan; a failure to be retried or corrected with an attempt left keeps the step pending; any other skips it. |
| `CycleOutcomes.RejectionRecorded` | src/core/integration/llm_gateway_v2/activity_plan_repository.py:346-358 | A move whose target was rejected loses its target and an attempt, up to the last; any other rejected step is skipped. |
| `CycleOutcomes.UnboundIsIgnored` | src/core/integration/llm_gateway_v2/activity_plan_repository.py:433-450 | An event bound to anything but the current step of the active plan is done and changes nothing. |
| `CycleOutcomes.SocialRecorded` | src/core/integration/llm_gateway_v2/activity_plan_repository.py:370-397 | At the social step a passive completion or a chat opportunity moves on; the chat leaves the mark of the row alone. |
| `CycleOutcomes.ClosedIsInert` | src/core/integration/llm_gateway_v2/activity_plan_repository.py:399-415 | Closing stores the plan as paused, and no later skill event, rejection, social event or close changes it. |
| `CycleRuns.StepKept` | src/core/integration/llm_gateway_v2/activity_plan_repository.py:261-314 | One delivery of any kind, with any proposal: the plan columns agree with the body, the stored sequence does not fall, and either the same plan moved forward or a replacement was written exactly one version above the stored one. |
| `CycleRuns.RunKept` | src/core/integration/llm_gateway_v2/activity_plan_repository.py:130-157 | The same over every interleaving of deliveries: sequence and version never fall, and while the version stands so do plan id and step layout, with a forward-only cursor. |
| `CycleRuns.LifeKept` | src/core/integration/llm_gateway_v2/activity_plan_repository.py:130-177 | The same when the cycle is activated, stopped or superseded anywhere in the run. |
| `CycleRuns.StaleEventChangesNothing` | src/core/integration/llm_gateway_v2/activity_plan_repository.py:130-157 | An ordered event older than the stored one, or sharing its sequence under another row id, leaves the row unchanged. |
| `CycleRuns.EndedIsFinal` | src/core/integration/llm_gateway_v2/activity_plan_repository.py:130-177 | The row of an ended cycle is never changed by any run of deliveries. |
| `CycleRuns.LifeAfterEnd` | src/core/integration/llm_gateway_v2/activity_plan_repository.py:130-177 | From the moment a cycle ends part-way through a run, and until something activates it again, its row stays as it was. |
| `CycleRuns.StartedRedeliveryIsIdempotent` | src/core/integration/llm_gateway_v2/activity_plan_repository.py:417-464 | A taken skill-started event, claimed and delivered again at any later point before another version is installed, under any token and fence, leaves the stored plan unchanged. |
| `CycleRuns.SuccessRedelivery` | src/core/integration/llm_gateway_v2/activity_plan_repository.py:433-459 | A taken successful skill-finished event, claimed and delivered again at any later point before another version is installed, under any token and fence, leaves the whole row unchanged. |
| `CycleRuns.FailureRedelivery` | src/core/integration/llm_gateway_v2/activity_plan_repository.py:145-150 | A taken failure, claimed and delivered again at any later point before another version is installed, changes the stored plan if and only if the new claim holds, the plan still loads and is active on the failed step, and no later event has been stored. |
| `CycleRuns.FailureRedeliveredAtOnce` | src/core/integration/llm_gateway_v2/activity_plan_repository.py:417-464 | Directly after it was taken, the second delivery burns an attempt exactly when the first left the step open for another. |
| `CycleExamples.FailureBurnsTwice` | src/core/integration/llm_gateway_v2/activity_plan_repository.py:417-464 | A concrete row on which one retryable failure of a first attempt, delivered under two claims, uses up both attempts and skips the step. |
| `CycleRuns.OldPlanIsInert` | src/core/integration/llm_gateway_v2/activity_plan_repository.py:433-459 | Once the stored plan has another id, and as long as no `prepare` reinstalls the old one, no skill or rejection event bound to the old plan ever changes the row. |
| `CycleRuns.OldPlanReturnsIff` | src/core/integration/llm_gateway_v2/activity_plan_repository.py:261-314 | A replaced plan id is stored again along a run if and only if some delivery of the run is a `prepare` with a good claim that proposes it, validly and with a current step, over a loadable row, and that the replacement test and the ordered guard let through. |
| `CycleExamples.StaleRetargetRevivesOldPlan` | src/core/integration/llm_gateway_v2/activity_planner.py:521-564 | A concrete row whose plan replaced another: a retarget of the replaced plan, built from a stale snapshot, is stored, and a terminal bound to the replaced plan, ignored before, is taken. |
| `CycleRuns.PrepareReportsStored` | src/core/integration/llm_gateway_v2/activity_plan_repository.py:269-314 | A successful `prepare` reports the stored plan if and only if it had nothing to replace or the guard admitted the replacement. |
| `CycleExamples.PrepareReportsUnstored` | src/core/integration/llm_gateway_v2/activity_plan_repository.py:269-314 | A concrete row for which a late `prepare` succeeds and binds its decision to a plan that is not stored. |
| `CycleRuns.StaysLoadableIff` | src/core/integration/llm_gateway_v2/activity_plan_repository.py:489-493 | A transaction leaves a loadable row loadable if and only if it is not a taken start, outcome or plain rejection of a step that is out of attempts. |
| `CycleRuns.UnloadableIsStuck` | src/core/integration/llm_gateway_v2/activity_plan_repository.py:489-493 | A row whose plan no longer loads is never changed again by any delivery. |
| `CycleRuns.FreshRunsLoad` | src/core/integration/llm_gateway_v2/activity_plan_repository.py:261-464 | Without retargets and target rejections every row of every run loads. |
| `ActivityCapacities.NewPolicy` | src/core/integration/llm_gateway_v2/activity_capacity.py:32-54 | Policy construction fails exactly on a repeated skill and scene or a bad base weight; otherwise it holds the given rules. |
| `CapacityRules.GovernedAvailability` | src/core/integration/llm_gateway_v2/activity_capacity.py:56-61 | With a policy built from a rule list, a skill is available exactly while fewer are active than its governing rule allows: the scene's own rule, else the general one. |
| `CapacityRules.GovernedWeight` | src/core/integration/llm_gateway_v2/activity_capacity.py:146-165 | Its effective weight is that rule's base weight times the square of the free share. |
| `CapacityRules.UngovernedAvailability` | src/core/integration/llm_gateway_v2/activity_capacity.py:56-61 | A skill without a rule for the scene or in general is always available. |
| `ActivityCapacities.WeightPositiveIffAvailable` | src/core/integration/llm_gateway_v2/activity_capacity.py:146-165 | The effective weight is positive if and only if the skill is available. |
| `ActivityCapacities.RankCandidates` | src/core/integration/llm_gateway_v2/activity_capacity.py:167-188 | The loop that scores and sorts computes the ranking. |
| `ActivityCapacities.RankingMembers` | src/core/integration/llm_gateway_v2/activity_capacity.py:167-188 | The ranking is a duplicate-free list of exactly the candidates with remaining capacity. |
| `ActivityCapacities.RankingDependsOnSet` | src/core/integration/llm_gateway_v2/activity_capacity.py:167-188 | Candidate lists with the same members, in any order and repetition, have the same ranking. |
| `ActivityCapacities.RankingPrecedes` | src/core/integration/llm_gateway_v2/activity_capacity.py:167-188 | One ranked skill stands before another exactly when its key is smaller. |
| `ActivityCapacities.OccupancyNeverPromotes` | src/core/integration/llm_gateway_v2/activity_capacity.py:159-188 | Raising one skill's occupancy never moves it ahead of a skill it was behind. |
| `FallbackPlans.SafeFallbackPlan` | src/core/integration/llm_gateway_v2/activity_planner.py:579-714 | The fallback fails if and only if fewer than three skills are usable, the required first step is not published and authorised, or plan fields are refused; otherwise it is a valid active plan of the three selected skills, the first authorised, then a social step, with a move whenever one is usable. |
| `FallbackPlans.ChooseFirst` | src/core/integration/llm_gateway_v2/activity_planner.py:618-647 | A first step is found exactly when the Lobby's tornado, or elsewhere some usable skill, is authorised; the "no remaining capacity" error cannot occur; and it is the first choice. |
| `FallbackChoices.FirstChoiceIs` | src/core/integration/llm_gateway_v2/activity_planner.py:618-647 | Outside the Lobby the first choice is the authorised skill at the bucket's place, or under a capacity snapshot the first of their ranking. |
| `FallbackChoices.SelectionIs` | src/core/integration/llm_gateway_v2/activity_planner.py:648-669 | The plan takes the first choice and the first two that follow it, a usable move taking the place of the second of these when it would be missing. |
| `FallbackChoices.MoveIsPlaced` | src/core/integration/llm_gateway_v2/activity_planner.py:649-664 | A move that may follow stands at the place the bucket gives it and the other skills keep their order, ranked under a snapshot. |
| `FallbackChoices.OthersTurn` | src/core/integration/llm_gateway_v2/activity_planner.py:665-667 | Without a move to place they turn round by the bucket. |
| `FallbackChoices.StepIdIs` | src/core/integration/llm_gateway_v2/activity_planner.py:672-681 | Three skills have step ids of their own; any other is named by its place, counted from one, and its name. |
| `FallbackPlans.StepIdsDiffer` | src/core/integration/llm_gateway_v2/activity_planner.py:672-681 | Distinct skills at distinct positions get distinct step ids, none of them the social step's. |
| `PlanDiversifier.Diversify` | src/core/integration/llm_gateway_v2/activity_planner.py:739-863 | Without a catalogue the proposal is returned; otherwise it is rebuilt around an arranged middle whose size is exact, which keeps every kept step except at most one for each insertion that finds no room, keeps the role's skill and a move where there is room, is ranked by capacity, and does not repeat the last success outside the Lobby; the layout rules accept it if and only if `Fits` holds of the proposal and the context. |
| `DiversifiedSteps.StepsComeFrom` | src/core/integration/llm_gateway_v2/activity_planner.py:739-863 | A rebuilt proposal is the input's forced steps, a middle, and its social steps; every middle step is a surviving input step with all its fields, a move without a target having the catalogue's, or the role's step, or a walk to the catalogue's target. |
| `DiversifiedSteps.PiecesInOrder` | src/core/integration/llm_gateway_v2/activity_planner.py:755-764 | Forced, kept and social steps stand in the order of the input. |
| `DiversifiedSteps.OpeningWithRole` | src/core/integration/llm_gateway_v2/activity_planner.py:825-840 | Before ranking, the role's step stands first and the others follow it, turned round by the bucket. |
| `DiversifiedSteps.RepeatGivesWay` | src/core/integration/llm_gateway_v2/activity_planner.py:883-908 | When the first step would repeat the last success, the first that would not is pulled to the front and the others keep their order. |
| `DiversifiedSteps.MostRecentIs` | src/core/integration/llm_gateway_v2/activity_planner.py:866-880 | The last success is that of the first history row that succeeded under a recorded or requested name. |
| `DiversifiedSteps.RoleSkillTurns` | src/core/integration/llm_gateway_v2/activity_planner.py:911-951 | Without a snapshot the role's candidates take turns from one plan version to the next. |
| `DiversifiedSteps.DecimalReads` | src/core/integration/llm_gateway_v2/activity_planner.py:799-810 | The numbers in step ids are written in decimal without leading zeros. |
| `PlanDiversifier.ComposedKeeps` | src/core/integration/llm_gateway_v2/activity_planner.py:786-823 | The middle has the kept steps, and one more for each missing kind while there is room; every kept step stays in its place except at most one for each insertion that finds none. |
| `PlanDiversifier.DiversifiedFitsIff` | src/core/integration/llm_gateway_v2/activity_planner.py:854-863 | With a catalogue, the layout rules accept the diversified proposal if and only if nothing was left of it (so the input is returned), or forced, kept and inserted steps number three or more and no inserted id is that of a surviving step. |
| `PlanExamples.DiversifiedIsRefused` | src/core/integration/llm_gateway_v2/activity_planner.py:739-863 | A concrete valid proposal, opening with the Lobby exit, whose diversified form outside the Lobby is refused by every materialisation. |
| `PlanExamples.RepeatedIdIsRefused` | src/core/integration/llm_gateway_v2/activity_planner.py:799-823 | A concrete valid proposal with a step under the id of the move step that is inserted; every materialisation of its diversified form is refused. |
| `PlanDiversifier.AppendOrReplace` | src/core/integration/llm_gateway_v2/activity_planner.py:954-975 | Below six executable steps the step is appended at the end; otherwise it takes the place of the last step whose skill is not reserved; when all are reserved nothing changes. |
| `PlanDiversifier.AvoidRepeat` | src/core/integration/llm_gateway_v2/activity_planner.py:883-908 | The result holds the same steps and opens with the recent skill only when every step has it. |
| `PlanDiversifier.AvoidRepeatKeepsRank` | src/core/integration/llm_gateway_v2/activity_planner.py:841-853 | Pulling a step forward to avoid a repeat leaves the rest in capacity order. |
| `Lists.SortIsStable` | src/core/integration/llm_gateway_v2/activity_planner.py:841-848 | Sorting leaves entries that tie in the order they had, as `list.sort` does. |
| `PlanDiversifier.RoleSkillIsAuthorized` | src/core/integration/llm_gateway_v2/activity_planner.py:911-951 | The role's skill is published, authorised, has room and is never a move. |
| `ArgumentPaths.ArgumentLeafPaths` | src/core/integration/llm_gateway_v2/decision_service.py:156-170 | The recursive loop computes the dotted names of the argument object's leaves. |
| `ArgumentPaths.LeavesAreLeafWalks` | src/core/integration/llm_gateway_v2/decision_service.py:156-170 | A path is produced exactly when walking the object along it ends at a leaf. |
| `ArgumentPaths.ContainsPathIffWalk` | src/core/integration/llm_gateway_v2/decision_service.py:173-174 | For non-empty dot-free keys and a well-formed path, the string test holds if and only if walking the object along the path reaches a value. |
| `ArgumentPaths.DottedLeavesPrefixFree` | src/core/integration/llm_gateway_v2/decision_service.py:156-174 | No produced path is a proper dotted prefix of another. |
| `ArgumentPaths.ArgumentsFitTree` | src/core/integration/llm_gateway_v2/decision_service.py:369-382 | The string tests decide the tree condition: every leaf at an allowed path, every required path reached. |
| `LeasePermissions.ArgumentsPermittedTree` | src/core/integration/llm_gateway_v2/decision_service.py:329-382 | The argument part of the permission check, read off the tree; without a hint the object must be empty. |
| `LeasePermissions.PermittedIff` | src/core/integration/llm_gateway_v2/decision_service.py:295-382 | A well-formed call is permitted if and only if calls are allowed, the lease's kind lets the role call the skill (spelled out kind by kind, with the two vehicles and their exits), it is not `ground`, goal metadata names the account and the skill, the schema is published, generated arguments are the service's own, and the argument check passes. |
| `LeasePermissions.ValidCallIff` | src/core/agents/gateway_v2_models.py:81-106 | What a call needs of its arguments to be constructed at all: a mapping, a named action to play, numeric coordinates to move to. |
| `LeasePermissions.AuthorisedArguments` | src/core/integration/llm_gateway_v2/decision_service.py:177-270 | An authorised call carries what its skill insists on; without a hint it carries nothing; otherwise the last hint decides what it may and must carry. |
| `LeasePermissions.ExitIsSelected` | src/core/integration/llm_gateway_v2/decision_service.py:295-326 | A balloon rider's candidate to get out is what selection returns. |
| `LeasePermissions.NormalizeIdempotent` | src/core/integration/llm_gateway_v2/decision_service.py:273-292 | Normalising twice is normalising once, and an authorised action is already normal. |
| `LeasePermissions.NormalizeIs` | src/core/integration/llm_gateway_v2/decision_service.py:273-292 | A call of one of the four skills with generated arguments, under schema v1, gets those and keeps everything else; any other action stays as it is. |
| `LeasePermissions.SelectAction` | src/core/integration/llm_gateway_v2/decision_service.py:385-409 | The first candidate authorised after normalisation; with none, waiting, else doing nothing, else stopping, as far as the lease allows; an error exactly when there is neither. |
| `LeasePermissions.FreezePreserves` | src/core/integration/llm_gateway_v2/decision_service.py:854-897 | Freezing sends an authorised action unchanged and never sends an unpermitted call of a skill with generated or required arguments. |
| `DecisionPlanning.ForcedSkill` | src/core/integration/llm_gateway_v2/decision_service.py:615-648 | The first forced skill, round the list from the starting position, that can be called, else a safe wait; nothing exactly when none can be called and the lease allows no safe kind. |
| `DecisionPlanning.LocalActivity` | src/core/integration/llm_gateway_v2/decision_service.py:527-612 | The first candidate with room, in rotated or capacity order, that has a permitted action; nothing exactly when the lease is no skill-calling observation lease or no candidate has one; what is found is authorised. |
| `DecisionPlanning.ChooseDeterministic` | src/core/integration/llm_gateway_v2/decision_service.py:1035-1091 | Room transition, forced actions, then the plan's step; the action is authorised, and each of the three stops occurs if and only if its own branch fails. |
| `DecisionPlanning.AskModel` | src/core/integration/llm_gateway_v2/decision_service.py:1113-1171 | With a current fence, the selection among the model's candidates, or a node error exactly when there are none, one is malformed or none can be selected; out of reach, a local fallback or a wait. |
| `DecisionPlanning.Choose` | src/core/integration/llm_gateway_v2/decision_service.py:1007-1199 | The choice is that of the stages: room transition, forced actions, the plan's step, then the deadline's or the model's; on every branch, whatever candidates the model returns, the chosen action is authorised, normal and follows the current plan step. |
| `DecisionOutcomes.ModelAnswers` | src/core/integration/llm_gateway_v2/decision_service.py:1113-1139 | Before the deadline, when room, force and plan say nothing and the fence is current: the first candidate authorised once normalised is chosen; with none, waiting, else doing nothing, else stopping; without a candidate, with a malformed one, or with none of these allowed, planning reports an error of the graph. |
| `DecisionOutcomes.ModelUnreachable` | src/core/integration/llm_gateway_v2/decision_service.py:1140-1171 | A model that timed out, is overloaded or answers late gives way to the first local activity, else the staggered wait; any other failure, or no leave to wait, is reported. |
| `DecisionOutcomes.SkippedIff` | src/core/integration/llm_gateway_v2/decision_service.py:1113-1132 | The choice is a skipped model call if and only if the model would be asked under a stale fence. |
| `DecisionOutcomes.LateDecides` | src/core/integration/llm_gateway_v2/decision_service.py:1092-1112 | Past the deadline the model is not asked: the first local activity, else the staggered wait, else nothing to do, else an error, under the resumed plan. |
| `DecisionOutcomes.BeginsIff` | src/core/integration/llm_gateway_v2/decision_service.py:1012-1029 | Planning begins unless a decision exists, no account is named, or the lease is a conversation, each with its own result. |
| `DecisionOutcomes.RoomActionIff` | src/core/integration/llm_gateway_v2/decision_service.py:416-458 | The room is left exactly in the initial room on a permitting observation lease, before the deadline or under a forced wait, in the first schema published. |
| `DecisionOutcomes.RoomDecides` | src/core/integration/llm_gateway_v2/decision_service.py:1036-1050 | The room transition is chosen unless the deterministic plan's step is another skill and the lease allows waiting or doing nothing instead (the override is at 1185-1196). |
| `DecisionOutcomes.ForcedSkillDecides` | src/core/integration/llm_gateway_v2/decision_service.py:1068-1069 | A forced skill is the first that can be called, from the starting position round the list. |
| `DecisionOutcomes.ForcedWaitDecides` | src/core/integration/llm_gateway_v2/decision_service.py:1070-1077 | A forced wait is a wait, else nothing to do, else the reported refusal. |
| `DecisionOutcomes.StepDecides` | src/core/integration/llm_gateway_v2/decision_service.py:1078-1091 | The plan's step is called when it can be, else deferred by a safe wait, else reported; at the social step the role waits. |
| `DecisionOutcomes.LocalOrderHas` | src/core/integration/llm_gateway_v2/decision_service.py:527-575 | Local activities are tried for the skills of the fixed order, and for moving under a snapshot: published, not excluded, with room, and not the last one called. |
| `DecisionOutcomes.LocalFoundIs` | src/core/integration/llm_gateway_v2/decision_service.py:576-612 | On an observation lease that allows calls, the first skill in that order that can be called. |
| `DecisionOutcomes.CatalogueMove` | src/core/integration/llm_gateway_v2/decision_service.py:673-720 | With a catalogue a move goes to its target's coordinates, which must be in the current scene; the other argument sources are `GeneratedCall`, `HintedCall` and `PlainCall`. |
| `DecisionPlanning.FinalizeMove` | src/core/integration/llm_gateway_v2/decision_service.py:1295-1351 | A move goes out only as the same call to the coordinates allocated for the catalogue target that its own coordinates belong to, and is authorised; otherwise a safe wait replaces it, and other actions pass unchanged. |
| `DecisionPlanning.RetargetedMoveIsValid` | src/core/integration/llm_gateway_v2/decision_service.py:1343-1351 | Replacing a move's target by coordinates gives a valid move with that target. |
| `DecisionPlanning.PlanDecision` | src/core/integration/llm_gateway_v2/decision_service.py:1007-1293 | The outcome is what the choice plans, and whatever candidates the model returns, every action handed to the store is authorised by the lease, and every move goes to the allocated coordinates of the chosen action's own target; at most three are handed over, each further one only after a full activity; the second avoids the full skill, the third only waits; success exactly when a decision exists or the last submission is stored. |
| `DecisionOutcomes.PlanSkipsIff` | src/core/integration/llm_gateway_v2/decision_service.py:1113-1132 | The planner ends with a skipped model call, handing nothing over, if and only if it would ask the model under a stale fence. |
| `DecisionOutcomes.ModelReachesStore` | src/core/integration/llm_gateway_v2/decision_service.py:1133-1216 | The model's first authorised candidate, when it is no move, is what the planner hands over first. |
| `DecisionOutcomes.MoveGoesOutIff` | src/core/integration/llm_gateway_v2/decision_service.py:1295-1351 | A move goes out to the allocated coordinates, all other arguments kept, if and only if there are some and the lease permits the call with them; otherwise a safe wait goes out. |
| `DecisionOutcomes.FullActivity` | src/core/integration/llm_gateway_v2/decision_service.py:1216-1259 | After a full activity the first local activity without it, else the deadline's wait, is handed over next, unbound. |
| `DecisionOutcomes.FullAgain` | src/core/integration/llm_gateway_v2/decision_service.py:1260-1265 | When that one's activity is full too, only the deadline's wait is left. |
| `DecisionOutcomes.LastWriteDecides` | src/core/integration/llm_gateway_v2/decision_service.py:1266-1293 | What the store said last decides how planning ends. |
| `HostedChat.NewService` | src/core/integration/llm_gateway_v2/hosted_chat.py:247-285 | Construction fails exactly when a limit is not positive; a new service has empty books and an empty queue. |
| `HostedChat.HostedChatService.ExpireState` | src/core/integration/llm_gateway_v2/hosted_chat.py:587-600 | The four loops drop exactly the lapsed entries, and the request ids of the lapsed outbound messages. |
| `HostedChat.TrimState` | src/core/integration/llm_gateway_v2/hosted_chat.py:602-604 | Popping from the old end keeps exactly the newest entries up to the limit. |
| `HostedChat.HostedChatService.ClaimEvent` | src/core/integration/llm_gateway_v2/hosted_chat.py:556-566 | One critical section: expire, then claim unless already processed, within the limit. |
| `HostedChat.HostedChatService.ReleaseEvent` | src/core/integration/llm_gateway_v2/hosted_chat.py:568-570 | One critical section: the claim of the event goes and nothing else. |
| `HostedChat.HostedChatService.DiscardPendingSend` | src/core/integration/llm_gateway_v2/hosted_chat.py:572-574 | One critical section: the pending send of the event goes and nothing else. |
| `HostedChat.HostedChatService.LookUpPending` | src/core/integration/llm_gateway_v2/hosted_chat.py:430-434 | One critical section: the pending send of the event, dropped first when it has lapsed. |
| `HostedChat.HostedChatService.StorePendingSend` | src/core/integration/llm_gateway_v2/hosted_chat.py:450-453 | One critical section: the pending send becomes the newest, within the limit. |
| `HostedChat.HostedChatService.AcceptSend` | src/core/integration/llm_gateway_v2/hosted_chat.py:461-482 | One critical section: expire, record in both maps, trim, drop the pending send, and settle with a held result. |
| `HostedChat.HostedChatService.HandleSendResult` | src/core/integration/llm_gateway_v2/hosted_chat.py:352-367 | One critical section: hold an early result, refuse one for another conversation, or settle the message. |
| `HostedChat.HostedChatService.EnterQueue` | src/core/integration/llm_gateway_v2/hosted_chat.py:388-392 | Refused at the limit; otherwise the queue count and the target's reference count rise by one. |
| `HostedChat.HostedChatService.LeaveQueue` | src/core/integration/llm_gateway_v2/hosted_chat.py:405-414 | Both counts fall by one and the last task of a target removes its lock. |
| `HostedChat.HostedChatService.GetLock` | src/core/integration/llm_gateway_v2/hosted_chat.py:426-427 | The target's lock, created when it has none. |
| `HostedChat.AcceptSound` | src/core/integration/llm_gateway_v2/hosted_chat.py:461-482 | After the accept section keys are distinct and every map is within the limit. |
| `HostedChat.HandleSound` | src/core/integration/llm_gateway_v2/hosted_chat.py:352-367 | The same after a send result. |
| `HostedChatBooks.MirrorIsInverse` | src/core/integration/llm_gateway_v2/hosted_chat.py:461-470 | Mirrored maps are inverse to each other. |
| `HostedChatBooks.ClaimedIff` | src/core/integration/llm_gateway_v2/hosted_chat.py:556-566 | An event is claimed exactly when no claim of it is alive, and nothing lapsed is left behind. |
| `HostedChatBooks.ExpireIff` | src/core/integration/llm_gateway_v2/hosted_chat.py:587-600 | Expiring keeps exactly the entries whose time lies ahead, in all four timed maps. |
| `HostedChatBooks.AcceptLeavesNothing` | src/core/integration/llm_gateway_v2/hosted_chat.py:461-482 | Nothing lapsed is left after the accept section. |
| `HostedChatBooks.HandleLeavesNothing` | src/core/integration/llm_gateway_v2/hosted_chat.py:352-367 | Nothing lapsed is left after the section of a send result. |
| `HostedChatBooks.AcceptMirrored` | src/core/integration/llm_gateway_v2/hosted_chat.py:461-482 | Under fresh ids, expiry, insertion and trimming in the accept section keep the outbound and request-id maps mirrored. |
| `HostedChatBooks.HandleMirrored` | src/core/integration/llm_gateway_v2/hosted_chat.py:352-367 | A send result keeps them mirrored. |
| `HostedChatBooks.ExpireMirrored` | src/core/integration/llm_gateway_v2/hosted_chat.py:592-595 | Expiry keeps them mirrored. |
| `HostedChatBooks.OrderIsIrrelevantIff` | src/core/integration/llm_gateway_v2/hosted_chat.py:339-367 | Within the time to live, a matching result leaves the same books before and after its accept if and only if the held results have room for one more. |
| `HostedChatBooks.EarlyResultEvicts` | src/core/integration/llm_gateway_v2/hosted_chat.py:352-367 | Concrete books with room for one held result, on which the two orders leave different books. |
| `HostedChatBooks.MismatchIsRefused` | src/core/integration/llm_gateway_v2/hosted_chat.py:474-479 | A result for another conversation is refused on either side of its accept. |
| `HostedChatBooks.ForeignIsRefused` | src/core/integration/llm_gateway_v2/hosted_chat.py:606-613 | A result that differs in session, avatar, role or kind of chat is refused on either side of its accept, and one that agrees in all four is not. |
| `HostedChatRuns.MutualExclusion` | src/core/integration/llm_gateway_v2/hosted_chat.py:426-429 | In every interleaving two tasks for one target are never both between taking and giving back the lock. |
| `HostedChatRuns.LockNeverReplaced` | src/core/integration/llm_gateway_v2/hosted_chat.py:405-429 | While a task holds or awaits its lock, every step leaves that lock in place for its target. |
| `HostedChatRuns.RunQueue` | src/core/integration/llm_gateway_v2/hosted_chat.py:388-414 | In every interleaving the queue count is the number of counted tasks, within the limit, and each reference count the number of its target's tasks. |
| `HostedChatRuns.QueuedIsSum` | src/core/integration/llm_gateway_v2/hosted_chat.py:388-414 | In every interleaving the queue count is the sum of the reference counts. |
| `HostedChatRuns.SlotIsFree` | src/core/integration/llm_gateway_v2/hosted_chat.py:393-394 | A task let into the queue always finds a semaphore slot. |
| `HostedChatRuns.RunSound` | src/core/integration/llm_gateway_v2/hosted_chat.py:602-604 | In every interleaving every map is within its limit after each critical section. |
| `HostedChatRuns.RunMirrored` | src/core/integration/llm_gateway_v2/hosted_chat.py:461-482 | In every interleaving with fresh ids the two outbound maps mirror each other. |
| `HostedChatEvents.AttemptsAgree` | src/core/integration/llm_gateway_v2/hosted_chat.py:429-460 | In every interleaving in which nothing of the event lapses or is evicted, all its send attempts, across retryable failures and redeliveries, carry one request id and one body. |
| `HostedChatOutcomes.EndedIsSilent` | src/core/integration/llm_gateway_v2/hosted_chat.py:287-337 | After an attempt is accepted or fails for good, in any quiet run: no later attempt carries the event, its claim stays held, and once its task has closed no pending send of it remains. |
| `HostedChatOutcomes.DeferredIsRetried` | src/core/integration/llm_gateway_v2/hosted_chat.py:309-337 | After a full queue or a failure to be retried, in any quiet run: closing gives the claim back and keeps the pending send, and the next delivery of the event is claimed with that pending send to hand. |
| `LoadBalancer.Balancer.BuildRrSequence` | src/core/llm/balancer.py:166-177 | The loop builds the expanded sequence, and the counter restarts when it is missing or past the end. |
| `LoadBalancer.Balancer.LoadProviders` | src/core/llm/balancer.py:120-164 | The cached pool within its time to live, otherwise the table's rows with their expanded sequence and a counter kept or restarted; the slots of other model types stay. |
| `BalancerReloads.OldPoolIsReloaded` | src/core/llm/balancer.py:120-164 | A pool of 300 seconds or more, or none, gives way to the rows the table holds now. |
| `BalancerReloads.CallPicksFrom` | src/core/llm/balancer.py:51-83 | A call picks from the cached pool while it is younger than 300 seconds and from the table otherwise, and fails exactly when that pool is empty. |
| `LoadBalancer.Balancer.WeightedSelect` | src/core/llm/balancer.py:179-205 | The provider and the counter are those of one draw, for any sequence, the empty one included, and any providers. |
| `LoadBalancer.Balancer.Select` | src/core/llm/balancer.py:51-83 | The slot after loading from the cache or the table decides the reply: an error exactly on an empty pool, otherwise a draw among the healthy providers, all of them when none is healthy; with an empty sequence the first is taken and no counter moves. |
| `BalancerReloads.ChosenFromPool` | src/core/llm/balancer.py:72-83 | The provider is one of the pool, and one that is up if any of the pool is. |
| `LoadBalancer.Balancer.InvalidateCache` | src/core/llm/balancer.py:110-116 | Pools, load times, sequences and counters are all forgotten. |
| `LoadBalancer.FilterExpanded` | src/core/llm/balancer.py:188-192 | Filtering the expanded sequence is expanding the filtered pool. |
| `LoadBalancer.LaneIsExpanded` | src/core/llm/balancer.py:188-205 | With a loaded pool the walk is over the candidates' own expanded sequence, so neither fallback is taken. |
| `LoadBalancer.RoundRobinIsFair` | src/core/llm/balancer.py:179-205 | Any L consecutive picks from one expanded pool with fixed health, L the candidates' total weight, pick each candidate exactly `weight` times, whatever the counter starts from. |
| `LoadBalancer.SelectionIsFair` | src/core/llm/balancer.py:51-205 | Any L consecutive calls of `select` while table and health stand pick each candidate exactly `weight` times, however often the cached pool is reloaded between them. |
| `MonitorPaging.NextPage` | src/core/integration/llm_gateway_v2/monitor_repository.py:321-362 | A page is the first entries of the listing, `has_more` tells whether entries remain, and listing from the next cursor gives exactly those. |
| `MonitorPaging.ListingMembers` | src/core/integration/llm_gateway_v2/monitor_repository.py:228-241 | A listing holds exactly the table's records the query wants beyond the cursor, each once. |
| `MonitorFilters.ListedIff` | src/core/integration/llm_gateway_v2/monitor_repository.py:228-241 | A record is listed if and only if it is stored, has the kind, status and session asked for, and lies beyond the cursor by time and record id. |
| `MonitorFilters.ListedInOrder` | src/core/integration/llm_gateway_v2/monitor_repository.py:228-241 | Pages run from the newest record back and the stream from the oldest on, by time and then record id. |
| `MonitorPaging.ListingAscends` | src/core/integration/llm_gateway_v2/monitor_repository.py:228-241 | In a listing one position is after another exactly when its key is strictly further on. |
| `MonitorPaging.WalkIsListing` | src/core/integration/llm_gateway_v2/monitor_repository.py:228-241 | Following the next cursor while there is more ends and returns every record below the cursor once, in strictly descending key order. |
| `MonitorPaging.IterMonitorEvents` | src/api/routes/monitor.py:73-102 | The polling loop, advancing its cursor record by record, sends what the stream specification says. |
| `MonitorPaging.StreamAscends` | src/api/routes/monitor.py:84-102 | Over any tables with unique keys, everything the stream sends lies beyond its first cursor in strictly ascending key order, so no version is sent twice, and its cursor never moves back. |
| `MonitorPaging.SentIff` | src/api/routes/monitor.py:84-102 | In any run of polls whose last leaves nothing behind, a version of the final table is sent if and only if it arrived beyond the cursor of its time. |
| `MonitorPaging.StreamIsCompleteIff` | src/api/routes/monitor.py:84-102 | While records come, go and are updated under new keys, a caught-up stream has sent every version of the final table beyond its first cursor once, in ascending order, if and only if none of them arrived at or below the stream's cursor of that time. |
| `MonitorPaging.HandoffIsCompleteIff` | src/api/routes/monitor.py:33-39 | The first page, the older pages and the caught-up stream from `streamCursor` deliver every version of the final table exactly once, in order, if and only if none of them arrived at or below the stream's cursor of that time. |
| `MonitorPaging.RecordIsSentTwice` | src/core/integration/llm_gateway_v2/monitor_repository.py:35-60 | A concrete row whose update time moves between two polls: one record id is sent twice. |
| `MonitorPaging.LateRecordIsLost` | src/api/routes/monitor.py:84-102 | A concrete table in which a record above `streamCursor` is never sent because a newer one was sent before it appeared. |
| `RateLimiter.Limiter.Dispatch` | src/api/middleware.py:111-141 | One request: the client's set is trimmed, extended and counted, its key renewed, other clients untouched; refused exactly when the count exceeds the limit. |
| `RateLimiter.StoredIsRecent` | src/api/middleware.py:123-130 | Over every run the stored set is exactly the timestamps less than a window old. |
| `RateLimiter.ExpiryLosesNothing` | src/api/middleware.py:130-130 | Key expiry never discards an entry the next trim would have kept. |
| `RateLimiter.ForwardsIff` | src/api/middleware.py:126-141 | A request passes if and only if at most `max_requests` distinct timestamps, refused ones included, lie in the window ending with it. |
| `RateLimiter.RequestsAreBounded` | src/api/middleware.py:123-141 | With strictly increasing times at most `max_requests` requests pass in every half-open interval of one window. |
| `RateLimiter.StampsAreBounded` | src/api/middleware.py:123-141 | With any nondecreasing times the requests that pass in such an interval carry at most `max_requests` distinct timestamps. |
| `RateLimiter.BoundHoldsIff` | src/api/middleware.py:128-129 | The bound on requests holds for every setting of the limiter if and only if no timestamp repeats. |
| `RateLimiter.BoundHoldsAtIff` | src/api/middleware.py:123-141 | For one `max_requests` and window, the bound on requests holds in every interval if and only if no request that finds at most `max_requests` distinct recent timestamps ends a window in which more requests than that were forwarded. |
| `RateLimiter.EqualTimesPassTogether` | src/api/middleware.py:128-129 | Two requests with one timestamp both pass a limit of one. |

## Left out

- SQL text, sessions, row locks and advisory locks: each mutation is one atomic step on a row or a table. The ordering of
  record ids is lexicographic by character; the theorems use only that it is a strict total order.
- The inbox, outbox, terminal and claim repositories and the scene catalogue and target allocator are not part of this
  model: what they answer is a parameter.
- Model calls, prompts, retrieval and the shape of the agent graph: a proposal or a candidate list is
  arbitrary, and the answer is the selection among the candidates.
- HTTP clients, HMAC headers, routing, logging, metrics, audit records, token usage and server-sent-event text.
- SHA-256, logarithms and random choice: role buckets are arbitrary numbers, log scores arbitrary positive reals.
- Floating point: weights and times are reals, so rounding and non-finite values do not occur.
- Python's whitespace stripping and Unicode normalisation of text fields: a text constraint is its length limits.
- Python's cross-type equality of numbers and booleans when generated arguments are compared.
- Free-text reasons and error categories: enumerations, since nothing branches on their text. Whether a failure reason
  suppresses a retry, and whether it names a rejected target, are flags of the event.
- Parsing of session snapshots and event payloads: the planner receives the scene, whether it is the initial room, the
  last skill, and the place in the list of forced skills to start from.
- The coordinator's choice between resuming, retargeting and regenerating a plan: `prepare` takes any proposal, however
  stale, which covers each of its choices.
- `plan_runtime.py`, `capacity.py`, `event_admission.py`, `resilience.py`, the argument generators, the v1 webhooks and the
  offline analysis agent: small members beside the chosen cores.
- Cancellation of asyncio tasks, lock fairness and claim renewal timing.
- The JSON and base64 text of a monitor cursor: a cursor is absent, malformed, or the key it encodes.
- Heartbeats and waiting times of the monitor stream: a poll sees one state of the table.
- MonitorPaging.StreamIsCompleteIff: assumes unique keys and that a version which has left the table does not return under
  the same key, because update times come from a clock that moves on.
- HostedChatEvents.AttemptsAgree: assumes, like the two theorems of `HostedChatOutcomes`, that nothing of the event
  lapses or is evicted, because a lapsed or evicted pending send is built anew under a new request id.
- HostedChatRuns.RunMirrored: assumes that a receipt names a message and a request id that are not outstanding, because the
  service does not check either.
- LoadBalancer.SelectionIsFair: assumes that the table's rows and the providers' health stay the same over the L calls,
  because a change of either changes the lane that the counter walks.
- Who activates, stops or supersedes a cycle: its status may change anywhere in a run (`LifeKept`), and no rule is
  proved about when it does.
- RateLimiter.StoredIsRecent: assumes times that do not decrease from one request to the next, because a clock read before
  another request's pipeline can be older than what that pipeline stored.
