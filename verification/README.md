# Canary agent: verified models of its hard parts

This project models, in Dafny 4.11, the parts of the Canary agent runtime whose correctness cannot be read
off one function: what survives crashes, what interleaves, what is merged, cut, summarised, streamed or
compiled. `dafny verify dfyconfig.toml` checks everything.

| Part | Files | Source |
|---|---|---|
| Durable turns with crash recovery | `TurnItems`, `TurnMeaning`, `TurnMachine`, `TurnSafety`, `TurnTheorems`, `TurnEnds`, `TurnOnce`, `TurnOrder`, `TurnLimits`, `TurnDeterminism`, `TurnSameModel`, `TurnConversation`, `TurnExamples`, `AgentLoop` | `canary-agent-runtime/src/agent_loop.rs`, `canary-agent-kernel/src/projection.rs` |
| Leases and compare-and-commit | `SessionProtocol` | `canary-agent-runtime/src/session.rs`, `canary-agent-store-json/src/store.rs` |
| Revision control | `Merge`, `Ancestors`, `RevisionProtocol`, `RevisionTasks`, `StaleMerge` | `canary-agent-revision/src/merge.rs`, `canary-agent-revision/src/controller.rs` |
| Context window | `ContextBlocks`, `ContextBuilder`, `ContextOutcome`, `ContextCache` | `canary-agent-runtime/src/context.rs` |
| Evaluation environment | `TaskGraphs`, `EnvironmentRun`, `EnvironmentFacts`, `EnvironmentOutcome`, `Environment` | `canary-agent-eval/src/program.rs`, `canary-agent-eval/src/environment.rs` |
| Streaming decoders | `SseStream`, `StreamMeaning`, `ResponseItems`, `ResponseMeaning`, `EventCapture`, `EventText` | `canary-agent-openai/src` |
| Kernel-operation filter | `SeccompFilter` | `canary-agent-tools/src/sandbox/linux.rs` |

`Prelude` holds shared vocabulary. Where a method follows a description that is itself a function, another result says what that
description means without it: `TurnMeaning`, `TurnEnds`, `RevisionTasks`, `ContextOutcome`, `EnvironmentOutcome`, `StreamMeaning` and
`ResponseMeaning` hold these.

## How the models are built

**Turns.** `TurnMachine` is the protocol as a state machine: a durable thread, a program counter and a log of
what an observer sees. Each action is what happens between two points at which the process may die, so a
crash is a return to `Idle` from anywhere; the theorems quantify over every list of enabled actions.
`AgentLoop` is the loop in its own form: a class that loads the thread, changes a working copy and commits
it, with the nested loops of the source. Every commit and every start of a function in it performs one
enabled action of the machine, so whatever is proved of all runs is proved of the loop, also when it dies in
the middle. What the model, the functions, the hooks and the caller do is arbitrary but given
(`Surroundings`), and each action must be the one they dictate: `Traced` says that the class is always in a state
reached that way, and `OnlyTheHostChooses` that this leaves the loop no choice. `run_turn_internal` appears as
`StartTurn` and `ContinueTurn`, its two cases.

What a method of the loop appends is said by functions of how each call ended (`CallEnd`): `RoundItems` for a response,
`PendingItems` for recovery, `ExecutionItems` for an approved call. What these make of what the function did, the caller or the hook
is said item by item in the contracts of the single steps (`SettledAs`, `AnsweredAs`, `AbortedAs`), and how a turn ended by `Told`.

What is assumed of the surroundings stands in `TurnMachine.Enabled`: call ids are not reused within a turn, the function
registry does not change, a suspension made by a function names its own call and is deferred exactly when it
comes before execution, and a host recovers a running turn before it starts a new one (the code checks only
for a pending suspension, `canary-agent-runtime/src/agent_loop.rs:826-843`; `OlderTurnsAreForgotten` says what it would lose).

Where the code does less than one might expect, the model does the same, and the exact condition is proved:

- Aborting an approved call answers only that call (`agent_loop.rs:696-716`). `ResumeAbortAnswersAll` says when
  that answers everything; `AbortedResumeLosesCall` is a run in which it does not.
- A recovered call that suspends after executing loses its output and leaves later calls answered
  (`agent_loop.rs:1823-1858`). Whenever recovery is due, the pending calls are a tail of the response if and only if
  every such call that had others pending behind it has been answered since (`RecoveryReadsTail`); `LateSuspensionLeavesGap` says when one makes a gap,
  and `PendingNeedNotBeTail` is a run that ends with one.
- `max_function_calls` does not bound the executions of a turn, because recovery counts no calls against it and starts the
  count anew (`agent_loop.rs:1654`, `agent_loop.rs:894`). It holds in a turn that was never recovered (`LimitHoldsUntilRecovery`), each recovery
  may add what it found pending and the limit once more (`RecoveryRaisesLimit`), and a configuration keeps it in all runs
  if and only if it executes nothing at all (`LimitIsKeptOnlyTrivially`; for every other one it builds a run that breaks the limit).
- The output of a call that suspended late comes after the host's answer, so it does not stand in the block of its call, and a build
  can send it without the call. `TurnInPlaceIff` and `AskedInPlaceIff` say exactly when the outputs of a turn are in place,
  `BuildsSendCallsIff` and `RequestsSendCallsIff` that this is just what builds need, and `OutputLosesCall` is a run with such a build.
- Recovery runs no hooks, so a crash can turn an error into an execution (`CrashSkipsHook`), and it drops the output of a call that
  suspends after executing (`CrashDropsOutput`). Where neither happens and no call is aborted, it leaves no trace
  (`CrashesLeaveNoTrace`), and with a model that answers alike the whole conversation is the same (`SameModelSameConversation`).
- Done arguments that come after the done item of their slot replace it by what was announced (`canary-agent-openai/src/responses.rs:383-415`).
  `LateArgumentsReplaceItem` says when that changes nothing; `LateArgumentsLoseItem` is a stream that it spoils.

A resumed call that suspends again is not stored (`agent_loop.rs:742-746`), and recovery gives up on a function that is
no longer registered (`agent_loop.rs:1656`); both stand in the contracts of `RunApproved` and `RecoverCall`.

**Leases.** The classes of `SessionProtocol` and the steps of its `System` share one function for each effect. A deletion
restarts the revision numbers of a thread (`canary-agent-store-json/src/store.rs:166-195`): `TokenIdentifiesVersion` says exactly when two
moments of a run have the same token, and `DeletedThreadReusesToken` is a run in which a stale copy is accepted.

**Revisions.** Objects are unordered maps (section 4 of RFC 8259). `RevisionProtocol` splits commit, branch creation and merge at
every store operation and lets any number of them interleave. `commit_merge` reads the target head again, so a
merge that lands is the merge of its recorded parents when no commit came in between (`MergeLands`). Otherwise it is so
if and only if that commit clashes nowhere with the source and touched nothing that the source left alone (`MergeOfParentsIff`);
`StaleMergeLosesEdit` is a run in which it did. The merge base minimises the sum of distances and need
not be a lowest common ancestor.

**Context.** Token estimates are a function parameter; the built-in estimator is defined over the JSON length
of each message. The compactor may answer anything.

**Environment.** `EnvironmentRun` describes an environment by its events; `Environment` is the class that
changes its state in place and restores it on failure, proved to do the same.

**Decoders.** UTF-8 validation, trimming and JSON parsing are parameters of `SseStream`. Frames end
as in the code, at `\n\n` or `\r\n\r\n` only, a subset of sections 9.2.5 and 9.2.6 of the WHATWG HTML Living Standard.
`ResponseItems` starts at decoded events. `EventCapture` works on bytes, with characters as in sections 3 and 4 of RFC 3629.

**Filter.** `SeccompFilter` contains an interpreter for the instructions used, and the call numbers of both
supported architectures.

Identifiers and texts whose content does not matter are natural numbers; 64-bit saturation and wrap-around are written out.

## Model

| member | source | states |
|---|---|---|
| `TurnOnce.AutomaticallyAtMostOnce` | canary-agent-runtime/src/agent_loop.rs:1113-1151 | In every run, with crashes and recoveries anywhere, a call of a function not registered as idempotent is executed at most once without an approval |
| `TurnOnce.EveryRepetitionIsApproved` | canary-agent-runtime/src/agent_loop.rs:651-695 | Every other execution directly follows an approval of that very call, so no approval is used twice |
| `TurnOnce.ActionKeepsOnce` | canary-agent-runtime/src/agent_loop.rs:1654-1721 | Every single action, recovery included, keeps the execution log within these bounds |
| `TurnLimits.RecoveryRaisesLimit` | canary-agent-runtime/src/agent_loop.rs:1076-1080 | In every run the unapproved executions of a turn number at most the call limit, plus, for each recovery of the turn, the calls it found pending and the limit once more |
| `TurnLimits.LimitHoldsUntilRecovery` | canary-agent-runtime/src/agent_loop.rs:1076-1080 | In a turn that was never recovered the call limit holds |
| `TurnLimits.LimitIsKeptOnlyTrivially` | canary-agent-runtime/src/agent_loop.rs:1654-1656 | Every run keeps the limit if and only if nothing can be executed at all: with any other configuration some run executes more calls than the limit |
| `TurnTheorems.ModelSeesEveryOutput` | canary-agent-runtime/src/agent_loop.rs:894-905 | Whenever a model request is built, each call of each earlier response in the turn has exactly one output, after the response |
| `TurnTheorems.EndedTurnsAreAnswered` | canary-agent-runtime/src/agent_loop.rs:1082-1548 | The same holds of every turn that completed, failed or was aborted, unless the abort was that of an approved call |
| `TurnTheorems.ResumeAbortAnswersAll` | canary-agent-runtime/src/agent_loop.rs:696-716 | Aborting an approved call leaves every call answered if and only if that call was the only pending one |
| `TurnExamples.AbortedResumeLosesCall` | canary-agent-runtime/src/agent_loop.rs:696-716 | A run from the empty thread whose turn ends with a call that never gets an output |
| `TurnTheorems.ProjectionNamesSuspendedTurn` | canary-agent-kernel/src/projection.rs:50-157 | In every durable state a suspension is open exactly when some turn is suspended; it is recorded in that turn, which is last, and all earlier turns have ended |
| `TurnTheorems.WhenANewTurnMayStart` | canary-agent-runtime/src/agent_loop.rs:826-843 | An idle, recovered host may start a turn exactly when every stored turn has ended |
| `TurnTheorems.WhenRecoveryIsDue` | canary-agent-runtime/src/agent_loop.rs:844-857 | An idle host must recover exactly when the last stored turn is running |
| `TurnSafety.EveryRunIsOk` | canary-agent-runtime/src/agent_loop.rs:798-1614 | Every reachable state is well-formed: nothing is answered twice or unasked, all turns but the last have ended, and the loop position fits the stored items |
| `TurnSafety.ActionKeepsState` | canary-agent-runtime/src/agent_loop.rs:798-1885 | Each of the seventeen actions keeps that invariant |
| `TurnSafety.ActionGrowsDisk` | canary-agent-runtime/src/agent_loop.rs:2018-2024 | No action drops or changes a stored item: turns stay in place and only get longer |
| `TurnEnds.StatusIsTold` | canary-agent-runtime/src/agent_loop.rs:894-1885 | In every run the status of a stored turn is what its items end with: completed exactly behind a reply without calls, which is not empty unless that is allowed, failed exactly behind a failure mark, aborted exactly behind an abort mark, suspended exactly behind a suspension that nothing has answered |
| `TurnSafety.PendingIsUnanswered` | canary-agent-runtime/src/agent_loop.rs:1887-1933 | What recovery finds pending is exactly the set of unanswered calls, with their start recorded or not |
| `TurnTheorems.AttemptsCountUp` | canary-agent-runtime/src/agent_loop.rs:656-667 | Attempts count up from one; recovery stays at the largest 32-bit number, and an approval goes from it to zero |
| `TurnOrder.RecoveryReadsTail` | canary-agent-runtime/src/agent_loop.rs:1887-1933 | Whenever recovery is due, the pending calls are the last response from some position on if and only if every call of the turn that suspended late before other pending calls has been answered by now |
| `TurnOrder.LateSuspensionLeavesGap` | canary-agent-runtime/src/agent_loop.rs:1823-1858 | From any state in which the pending calls are a tail, a recovered call that suspends after executing and is resumed with input leaves them a tail if and only if no later call was pending |
| `TurnExamples.PendingNeedNotBeTail` | canary-agent-runtime/src/agent_loop.rs:1823-1858 | A run from the empty thread, through a crash, a late suspension and the host's answer, at the end of which recovery is due and the pending calls are not a tail |
| `TurnOrder.InOrderGivesSuffix` | canary-agent-runtime/src/agent_loop.rs:1921-1933 | Calls answered in order leave a suffix pending |
| `TurnOrder.SuffixGivesInOrder` | canary-agent-runtime/src/agent_loop.rs:1921-1933 | And only calls answered in order do |
| `TurnOrder.ActionKeepsOrder` | canary-agent-runtime/src/agent_loop.rs:1654-1885 | Every action keeps answered calls ahead of unanswered ones, counting the call a suspension holds as answered |
| `TurnDeterminism.OutputsAreDetermined` | canary-agent-runtime/src/agent_loop.rs:1639-1885 | Functions give a result or ask the host first, alike every time, the host approves what recovery holds back and decides the rest alike, and no hook fails, no call suspends after executing or is aborted and the limit is kept: then the outputs of a turn are at every moment a prefix of the answers to its responses, in order, and all of them once it ends or asks the model |
| `TurnDeterminism.CrashesLeaveNoTrace` | canary-agent-runtime/src/agent_loop.rs:1639-1885 | In such surroundings, functions that may not be repeated included, two finished turns with the same responses have the same outputs in the same order, wherever their runs crashed and recovered |
| `TurnSameModel.SameModelSameConversation` | canary-agent-runtime/src/agent_loop.rs:894-1080 | If the model, too, answers alike, the replies of a turn follow from its first message: of two runs one turn's replies are the first of the other's, and two completed turns have the same replies and outputs |
| `TurnExamples.CrashSkipsHook` | canary-agent-runtime/src/agent_loop.rs:1104-1113 | Two runs with the same response, in one of which the process dies: a call whose hook fails is answered with an error in the one and executed in the other, so that failing hooks have to be excluded |
| `TurnExamples.CrashDropsOutput` | canary-agent-runtime/src/agent_loop.rs:1823-1858 | Two runs with the same response, in one of which the process dies: a call that suspends after executing keeps its output in the one and loses it in the other, so that such calls have to be excluded |
| `TurnItems.PendingFunctionCalls` | canary-agent-runtime/src/agent_loop.rs:1887-1933 | Returns the calls of the last response without an output, in order, each with its last started attempt |
| `TurnItems.UnsettledFacts` | canary-agent-runtime/src/agent_loop.rs:1921-1933 | These are exactly the calls not answered since the response, without repetition, with the recorded attempts |
| `TurnMeanings.PendingTells` | canary-agent-runtime/src/agent_loop.rs:1887-1933 | What recovery finds pending are the calls of the last response without an output behind it, in order, each at the attempt of its last start |
| `TurnItems.FromThread` | canary-agent-kernel/src/projection.rs:50-157 | Returns the suspension left open by replaying all items, and the last running turn |
| `TurnMeanings.OpenSuspensionTells` | canary-agent-kernel/src/projection.rs:64-150 | The suspension that a thread leaves open is the one of its last turn that no input, answer or output of its call has closed and no other has replaced |
| `TurnItems.ReplaySeesLastTurn` | canary-agent-kernel/src/projection.rs:64-82 | When the last turn opens with fresh input, the open suspension is the one of that turn alone |
| `TurnItems.OlderTurnsAreForgotten` | canary-agent-kernel/src/projection.rs:64-82 | No turn before the last one shows in the projection, so a suspension added to an older turn can never be resumed |
| `TurnConversation.Project` | canary-agent-kernel/src/projection.rs:64-150 | Replays the items of all turns into the conversation a request is built from, one message for each item that speaks |
| `TurnConversation.ThreadTells` | canary-agent-kernel/src/projection.rs:64-150 | The conversation holds one message for each input, response and output of all turns, in order: the user's text, the reply with the ids of its calls, or the wording of the output under the id of its call |
| `TurnConversation.TurnInPlaceIff` | canary-agent-runtime/src/agent_loop.rs:1823-1858 | In every durable state each tool output of a turn stands in the block of the response that made its call, if and only if no call whose output a recovery dropped has been answered yet |
| `TurnConversation.AskedInPlaceIff` | canary-agent-runtime/src/agent_loop.rs:894-905 | When the model is asked, the outputs of the turn are in place if and only if no recovered call of the turn suspended after executing |
| `TurnConversation.RequestsSendCallsIff` | canary-agent-runtime/src/context.rs:127-285 | Under every context configuration builds on a stored thread send each tool output behind the call of its id, if and only if that condition holds of every turn |
| `TurnConversation.ActionIsFair` | canary-agent-runtime/src/agent_loop.rs:798-1885 | Each of the seventeen actions keeps outputs in place, those of dropped calls aside |
| `TurnExamples.OutputLosesCall` | canary-agent-runtime/src/agent_loop.rs:1823-1858 | A run from the empty thread, and a build for the state it ends in, that sends a tool output without its call |
| `AgentLoops.AgentLoop.StartTurn` | canary-agent-runtime/src/agent_loop.rs:798-843 | When no turn is running: refuses, changing nothing, when a suspension is open; otherwise appends one turn that starts with the text and has ended as reported, in status and last item; if it completed or failed, every call is answered |
| `AgentLoops.AgentLoop.ContinueTurn` | canary-agent-runtime/src/agent_loop.rs:844-893 | Recovers and finishes the running turn, touching no other, or says why it cannot; the turn has ended as reported |
| `AgentLoops.AgentLoop.ResumeSuspendedTurn` | canary-agent-runtime/src/agent_loop.rs:540-796 | A resolution that does not fit is refused and changes nothing; one that fits is recorded in the suspended turn, the last one, before anything else, as the host's text, the denied call or the start of the approved one, and the result tells how that turn ended or which function is unknown |
| `AgentLoops.AgentLoop.RunApproved` | canary-agent-runtime/src/agent_loop.rs:651-783 | Unless the caller aborts, an approved call is executed and its result, output or error as the function gave it, is stored before the turn goes on; a suspension of its own stores nothing; an abort stores exactly the mark and the aborted output of this call |
| `AgentLoops.AgentLoop.SettleApproved` | canary-agent-runtime/src/agent_loop.rs:716-783 | The function's output is stored as a success and its error as an error, and the turn goes on; a suspension that it made is reported and nothing is stored |
| `AgentLoops.AgentLoop.RunModelLoop` | canary-agent-runtime/src/agent_loop.rs:894-1560 | The bounded loop over model requests ends with a closed turn of the reported status, each step an action of the machine |
| `AgentLoops.AgentLoop.RunIteration` | canary-agent-runtime/src/agent_loop.rs:894-1080 | An abort or a failing model ends the turn with its mark; the model's own reply is stored as it is: without calls it completes the turn, or fails it when it is empty and that is not allowed, and with calls it precedes all they leave |
| `AgentLoops.AgentLoop.TakeReply` | canary-agent-runtime/src/agent_loop.rs:994-1080 | An empty reply fails the turn unless allowed, one without calls is stored and completes it; of the calls as many are admitted as the limit leaves and counted, and when all of those end and there are more, the rest are answered as over the limit and the turn fails |
| `AgentLoops.AgentLoop.RunCalls` | canary-agent-runtime/src/agent_loop.rs:1082-1486 | The admitted calls are taken in order up to one that ends the turn; what is stored is, call by call, the start and the output, or the hook's error, or what suspended or aborted the turn, and what is executed is exactly the calls started and not aborted before |
| `AgentLoops.AgentLoop.BeginCall` | canary-agent-runtime/src/agent_loop.rs:1113-1151 | A failing hook answers the call with its error and nothing is executed; otherwise the start is stored first, and then come exactly the items that tell what the function did, or those of an abort |
| `AgentLoops.AgentLoop.SettleCall` | canary-agent-runtime/src/agent_loop.rs:1191-1485 | Exactly what the function did is appended and stored: its output as a success, its error as an error, or the suspension it made, behind the output if it executed, with skipped outputs for all later calls |
| `AgentLoops.AgentLoop.AbortCalls` | canary-agent-runtime/src/agent_loop.rs:1155-1180 | Exactly an abort mark and aborted outputs for the running call and all later ones are appended |
| `AgentLoops.AgentLoop.OverLimitCalls` | canary-agent-runtime/src/agent_loop.rs:1488-1548 | Exactly an error output for every call beyond the limit and the failure are appended and stored |
| `AgentLoops.AgentLoop.RecoverPendingFunctionCalls` | canary-agent-runtime/src/agent_loop.rs:1639-1885 | Goes through the pending calls until the model can be asked, the turn ends, or a function is unknown |
| `AgentLoops.AgentLoop.RecoverCall` | canary-agent-runtime/src/agent_loop.rs:1654-1721 | An unknown function stops recovery without a change; a started call that may not be repeated stores a suspension with the next attempt and is not executed; any other call is started with the next attempt and leaves exactly the items that tell what the function did, or those of an abort |
| `AgentLoops.AgentLoop.SettlePending` | canary-agent-runtime/src/agent_loop.rs:1794-1882 | Exactly what a recovered function did is stored: its output as a success, its error as an error, or the suspension it made with skipped outputs for later calls and, even after executing, no output of its own |
| `AgentLoops.OnlyTheHostChooses` | canary-agent-runtime/src/agent_loop.rs:798-1614 | Given what the model, hooks, functions and the caller do at each step, the loop is determined: two runs part only where the host chooses |
| `AgentLoops.AgentLoop.Commit` | canary-agent-runtime/src/agent_loop.rs:2018-2024 | Stores the working copy, and is the only way the store changes |
| `AgentLoops.ExecutionTells` | canary-agent-runtime/src/agent_loop.rs:1192-1486 | What is stored of an execution is what the function did: its output as a success, its error as an error, or the suspension that it made, with skipped outputs for later calls |
| `AgentLoops.StepsCarry` | canary-agent-runtime/src/agent_loop.rs:894-1486 | In every run that follows the surroundings each step of a loop in progress carries what they do at that step: the function's own result, the model's own reply, the hook's error, or an abort exactly when the caller aborts |
| `SessionProtocol.OneHolder` | canary-agent-runtime/src/session.rs:70-86 | In every interleaving at most one task holds the lease of a thread, and at most one task per agent is registered for it |
| `SessionProtocol.DropFindsOwnEntry` | canary-agent-runtime/src/agent_loop.rs:281-292 | A guard dropped at the end of a turn finds its own entry in the registry and removes just that, also after ids have wrapped around |
| `SessionProtocol.HolderCommits` | canary-agent-store-json/src/store.rs:125-145 | The commit of a lease's holder goes through and stores its copy if and only if the thread was not deleted since the holder loaded or last stored it; otherwise it is refused with a conflict and changes nothing |
| `SessionProtocol.ThreadsOnlyGrow` | canary-agent-store-json/src/store.rs:125-145 | Except for a deletion of the thread no step loses an item: each stored thread continues the one before it |
| `SessionProtocol.FencesIncrease` | canary-agent-runtime/src/session.rs:77-84 | Fences strictly increase if and only if no more than 2^64 - 1 leases were given out |
| `SessionProtocol.ThreadFencesIncrease` | canary-agent-runtime/src/session.rs:77-84 | The fences of one thread strictly increase if and only if the counter was in step for every two of its leases, as it is while no more than 2^64 - 1 leases were given out in all |
| `SessionProtocol.TokenIdentifiesVersion` | canary-agent-store-json/src/store.rs:24-32 | At two moments of a run a thread has the same token exactly if equally many commits, up to the largest number, followed its last deletion; without a deletion in between, exactly if nothing was committed in between or the number had reached the largest one |
| `SessionProtocol.DeletedThreadReusesToken` | canary-agent-store-json/src/store.rs:160-190 | A run in which a copy of a thread that was deleted is accepted in place of the thread stored anew |
| `SessionProtocol.ThreadStore.CommitThread` | canary-agent-store-json/src/store.rs:125-145 | Stores the copy under the next revision, counted from one up to the largest number, exactly when its token is current and well-formed; otherwise reports the conflict or the bad token and changes nothing |
| `SessionProtocol.LocalCoordinator.Acquire` | canary-agent-runtime/src/session.rs:71-86 | Locks a free slot and gives out the counter plus one, which sticks at the largest number while the counter wraps to zero, as the protocol's own step does |
| `SessionProtocol.ActiveTurns.Register` | canary-agent-runtime/src/agent_loop.rs:407-424 | One running turn per thread, under the next id, which is used up either way and wraps; the effect is that of the protocol's step |
| `SessionProtocol.ActiveTurns.Drop` | canary-agent-runtime/src/agent_loop.rs:281-292 | Removes the entry only if it is still the guard's own; the effect is that of the protocol's step |
| `Merge.MergeValue` | canary-agent-revision/src/merge.rs:91-140 | The recursive merge with its shared conflict log returns the merged value and appends exactly the conflicts, in key order |
| `Merge.CleanMergeReplaysTheirs` | canary-agent-revision/src/merge.rs:91-140 | A merge without conflicts is what the edits from base to theirs make of ours |
| `Merge.CleanMergeReplaysOurs` | canary-agent-revision/src/merge.rs:91-140 | And what the edits from base to ours make of theirs |
| `Merge.ApplyDiff` | canary-agent-revision/src/merge.rs:91-140 | The edits between two documents turn the first into the second |
| `Merge.MergeIsSymmetric` | canary-agent-revision/src/merge.rs:91-140 | Swapping the sides gives the same value and swaps the sides inside the conflicts, nothing else |
| `Merge.CleanMergeKeepsDocument` | canary-agent-revision/src/merge.rs:48-63 | A merge of three documents without conflicts is a document, never a deletion |
| `Merge.ConflictsIffClash` | canary-agent-revision/src/merge.rs:98-139 | There are conflicts exactly when some key path has three pairwise different values, absence included, that are not all objects |
| `Merge.ConflictIsClash` | canary-agent-revision/src/merge.rs:133-139 | Every reported conflict is such a clash, with its path and its three values |
| `Merge.ClashIsReported` | canary-agent-revision/src/merge.rs:108-139 | Every topmost clash is reported |
| `Merge.MergesAlikeIffAgree` | canary-agent-revision/src/merge.rs:91-140 | Clean merges of two versions of ours with one theirs are equal if and only if the versions agree at every key path at which theirs equals the base |
| `Ancestors.CollectAncestors` | canary-agent-revision/src/controller.rs:254-271 | Terminates on every finite store and returns exactly the ancestors with their shortest distances, or an ancestor that is missing |
| `Ancestors.FindMergeBase` | canary-agent-revision/src/controller.rs:246-252 | Returns the common ancestor with the least sum of distances, ties broken by id; otherwise reports that there is none |
| `Ancestors.ChooseMergeBase` | canary-agent-revision/src/merge.rs:73-89 | Chooses the best common key of two distance maps whatever the order of iteration |
| `Ancestors.MergeBaseSymmetric` | canary-agent-revision/src/merge.rs:73-89 | The merge base does not depend on which head is ours |
| `Ancestors.BaseAfterCommit` | canary-agent-revision/src/merge.rs:73-89 | A commit on top of one head keeps the merge base with another if and only if the new revision is no better base itself, which it can only be as an ancestor of the other head |
| `Ancestors.TraverseFinds` | canary-agent-revision/src/controller.rs:260-269 | The breadth-first loop finds shortest distances, from any intermediate state of its queue |
| `RevisionProtocol.RunKeepsInv` | canary-agent-revision/src/controller.rs:28-84 | In every interleaving of commits, branch creations and merges, split at store operations: heads and parents are stored, ranks decrease along parents, and agents agree |
| `RevisionProtocol.NextKeepsInv` | canary-agent-revision/src/controller.rs:180-219 | Every single step keeps this, whatever the other tasks are about to do |
| `RevisionProtocol.AncestorsShareAgent` | canary-agent-revision/src/controller.rs:34-39 | Every ancestor of a branch head belongs to the branch's agent |
| `RevisionProtocol.HistoryOnlyGrows` | canary-agent-revision/src/controller.rs:52-58 | A step leaves the first-parent history of a branch alone or puts one new revision in front of it |
| `RevisionProtocol.HeadNeverReturns` | canary-agent-revision/src/controller.rs:52-58 | A head that has moved on never comes back, so compare-and-set meets no recurring value |
| `RevisionProtocol.Log` | canary-agent-revision/src/controller.rs:119-128 | Terminates and returns the first-parent chain: the head first, then always the first parent, down to a revision without parents |
| `RevisionProtocol.MergeLands` | canary-agent-revision/src/controller.rs:180-219 | A landing merge records the target head of commit time and the source, its specification is the clean merge of the heads it was prepared with, and when no commit landed since then these are its parents |
| `RevisionProtocol.MergeOfParentsIff` | canary-agent-revision/src/controller.rs:180-219 | With its merge base unchanged, a landing merge is the clean merge of its recorded parents if and only if the head found at commit time clashes nowhere with the source and agrees with the head it was prepared with wherever the source left the base alone |
| `RevisionProtocol.MergeAfterCommits` | canary-agent-revision/src/controller.rs:180-219 | So it is when nothing but plain commits that the source does not contain came in between, as these keep the merge base |
| `RevisionTasks.CommitRecordsSpec` | canary-agent-revision/src/controller.rs:28-60 | In every interleaving a commit that is done has stored the specification and message it was started with, for its branch's agent |
| `RevisionTasks.CommitLands` | canary-agent-revision/src/controller.rs:42-60 | A commit lands, on top of the head it read, if its branch still has that one, and fails otherwise; no other branch moves |
| `RevisionTasks.BranchRecordsHead` | canary-agent-revision/src/controller.rs:62-84 | A branch that is created starts at a head its source had while the task ran |
| `RevisionTasks.BranchLands` | canary-agent-revision/src/controller.rs:72-84 | It is created if there still is no such branch, and the task fails otherwise; no other branch moves |
| `RevisionTasks.MergeRecordsMessage` | canary-agent-revision/src/controller.rs:155-219 | A merge that is done has stored its message, for the target's agent |
| `RevisionTasks.PreparedIffClean` | canary-agent-revision/src/controller.rs:130-178 | A merge is prepared exactly if the two heads have a merge base and nothing conflicts over it, with the merged value |
| `RevisionTasks.OthersMoveNothing` | canary-agent-revision/src/controller.rs:28-219 | No other step moves a head, and a task that failed never does |
| `StaleMerges.StaleMergeLosesEdit` | canary-agent-revision/src/controller.rs:187-203 | A run from the empty store, of two commits, a branch creation and a merge overtaken by a commit, in which a merge lands whose specification is not the merge of its recorded parents |
| `ContextBlocks.ToolCallBlocks` | canary-agent-runtime/src/context.rs:267-285 | The grouping loop returns the blocks |
| `ContextBlocks.BlocksConcat` | canary-agent-runtime/src/context.rs:267-285 | The blocks put together are the conversation |
| `ContextBlocks.BlockCutsAreClean` | canary-agent-runtime/src/context.rs:267-285 | A cut between blocks leaves no tool output on the other side of calls that it directly follows |
| `ContextBlocks.CutsKeepCallsIff` | canary-agent-runtime/src/context.rs:267-285 | No cut between blocks keeps a tool output without the call of its id, if and only if every output stands in a block whose first message makes that call |
| `ContextBlocks.BlocksAppend` | canary-agent-runtime/src/context.rs:267-285 | Appending messages keeps all blocks but the last, which can only grow |
| `ContextBuilder.SelectBlocks` | canary-agent-runtime/src/context.rs:149-180 | The backward loop with its two budgets selects what the recursive description selects, of which `OversizedSelection` and `KeepsAsManyAsFit` say what that is |
| `ContextBuilder.BuildContext` | canary-agent-runtime/src/context.rs:127-250 | With any estimator, cache and compactor, the build returns what its description says, of which `BuildSucceedsIff`, `BuildFailures` and `OversizedOutcome` say what that is; the compactor is asked for exactly the uncovered messages |
| `ContextOutcome.BuildSucceedsIff` | canary-agent-runtime/src/context.rs:127-251 | A build succeeds exactly if the system prompt leaves room, the newest block fits or the policy may reduce it, and a summary that is needed is there and keeps to its own budget and the window; it then sends the system prompt, the summary and what is kept, and caches the summary for what it omits |
| `ContextOutcome.BuildFailures` | canary-agent-runtime/src/context.rs:132-251 | A system prompt that leaves no room, a compactor that fails and one that answers too much are reported as such, with the two numbers compared |
| `ContextOutcome.SummaryFailures` | canary-agent-runtime/src/context.rs:221-243 | With all parts there, a build fails only for a summary, new or cached, that exceeds its reservation or the window, and the failure says by how much |
| `ContextOutcome.OversizedOutcome` | canary-agent-runtime/src/context.rs:287-336 | When the newest block exceeds the budget: the failing policy refuses with its estimate and the budget, the eliding one sends it with its outputs elided if that fits, and otherwise, like the dropping one, the marker if that fits and nothing if not |
| `ContextOutcome.KeepsAsManyAsFit` | canary-agent-runtime/src/context.rs:149-180 | When it fits, it is kept with as many blocks before it as leave the summary its reservation, and one more would not; their estimates are added up with saturation |
| `ContextOutcome.AskedWhen` | canary-agent-runtime/src/context.rs:187-219 | The compactor is asked exactly when something is omitted and no fitting cache stands for it |
| `ContextBuilder.KeptPart` | canary-agent-runtime/src/context.rs:154-180 | After the system prompt and at most one summary, a build keeps the conversation from a cut between blocks on, or a reduced form of the newest block alone; where all outputs are in the blocks of their calls, each is sent behind the call of its id |
| `ContextBuilder.BuildsSendCallsIff` | canary-agent-runtime/src/context.rs:127-285 | Under every configuration, estimator, cache and compactor builds send no tool output without the call of its id, if and only if all outputs stand in the blocks of their calls |
| `ContextBuilder.BuildWithinBudget` | canary-agent-runtime/src/context.rs:132-251 | With any subadditive 64-bit estimator a successful build stays within the context window, counting the whole message list |
| `ContextBuilder.BuiltInWithinBudget` | canary-agent-runtime/src/context.rs:48-54 | With the built-in estimator this needs no condition |
| `ContextBuilder.ApproximateIsSubadditive` | canary-agent-runtime/src/context.rs:48-54 | A rounded-up quarter of the JSON length never grows by more than its parts |
| `ContextCache.OmittedGrows` | canary-agent-runtime/src/context.rs:154-180 | Along a growing conversation the omitted prefix never shrinks |
| `ContextCache.CacheCoversOmitted` | canary-agent-runtime/src/context.rs:187-219 | Along any builds the cached summary covers an omitted prefix and has taken in each of its messages exactly once, in order |
| `ContextCache.BuiltInCacheCoversOmitted` | canary-agent-runtime/src/context.rs:48-54 | With the built-in estimator this needs no condition |
| `ContextCache.AskedIsTheRest` | canary-agent-runtime/src/context.rs:193-214 | The compactor is asked for exactly the omitted messages that the cache does not cover |
| `ContextCache.SummaryStandsForOmitted` | canary-agent-runtime/src/context.rs:221-251 | The summary a build puts out stands for exactly the messages it omits |
| `ContextCache.AsIfFromScratch` | canary-agent-runtime/src/context.rs:193-214 | Along any builds, with a compactor that answers alike and for which two steps are as good as one, the cached summary and the one a build sends are what it makes of all omitted messages at once |
| `TaskGraphs.Compile` | canary-agent-eval/src/program.rs:120-176 | Accepts exactly the valid cases, files every node and transition under its id, and names the first fault of any other in the order of its checks |
| `TaskGraphs.ValidateConstraintIds` | canary-agent-eval/src/program.rs:199-226 | Accepts exactly when no constraint id is declared twice and every replaced one is declared, and otherwise names the first declared again, or else the first replaced that is never declared |
| `EnvironmentRun.EventsRebuildState` | canary-agent-eval/src/environment.rs:297-403 | After any calls, failed ones and rollbacks included, replaying the events from the initial state gives the state, and each event was lawful when it happened |
| `EnvironmentFacts.MovesFormPath` | canary-agent-eval/src/environment.rs:297-337 | The applied transitions form a path of the graph from the start node to the current one |
| `EnvironmentFacts.EventsAreNumbered` | canary-agent-eval/src/environment.rs:501-507 | Events are numbered from one, up to the largest integer |
| `EnvironmentFacts.StartsAndEndsOnce` | canary-agent-eval/src/environment.rs:495-499 | The start is first, termination is last, each happens at most once, and the status says which phase it is |
| `EnvironmentFacts.ExposuresAreSound` | canary-agent-eval/src/environment.rs:405-483 | The ledger holds exactly the recorded exposures, each once, and each derived one rests on earlier ones |
| `EnvironmentFacts.ExposedIsDerivable` | canary-agent-eval/src/environment.rs:429-466 | In every world that came about by lawful events, as after every run, whatever is exposed has a well-founded derivation from disclosed or context-provided constraints |
| `EnvironmentFacts.LedgerOnlyGrows` | canary-agent-eval/src/environment.rs:528-536 | No event removes or changes an exposure |
| `EnvironmentFacts.ValuesAreFixed` | canary-agent-eval/src/environment.rs:361-403 | In a compiled graph an active constraint has the same value in all such worlds, on every path |
| `EnvironmentOutcomes.ActiveByLastEntry` | canary-agent-eval/src/environment.rs:361-403 | In every world that came about by lawful events, a constraint is active exactly if the last applied operation that names it declares it, and with that value |
| `EnvironmentOutcomes.AppliedAlongPath` | canary-agent-eval/src/environment.rs:349-359 | The applied operations are those of the nodes along the path, all of each and in order |
| `EnvironmentOutcomes.PreparedIffAcceptable` | canary-agent-eval/src/environment.rs:405-483 | A batch of exposures is accepted exactly if each is acceptable behind those before it, and then recorded as it is |
| `EnvironmentOutcomes.RefusalReasons` | canary-agent-eval/src/environment.rs:405-483 | Why a single exposure is refused, in the order of the checks |
| `EnvironmentOutcomes.ResetOutcome` | canary-agent-eval/src/environment.rs:551-577 | A reset of a new environment records its start, and then its termination on a terminal node or its first observation |
| `EnvironmentOutcomes.StepOutcome` | canary-agent-eval/src/environment.rs:579-613 | A step records the action, the decision and what that came to, then a termination or an observation; a decision that cannot be had or carried out ends it before, with the constraints as they were |
| `EnvironmentOutcomes.DecisionOutcome` | canary-agent-eval/src/environment.rs:297-337 | What a decision comes to: staying, the transition it names from the current node, or a refusal |
| `EnvironmentOutcomes.MoveOutcome` | canary-agent-eval/src/environment.rs:297-337 | A move goes to the target of its transition and applies that node |
| `EnvironmentOutcomes.ObservationOutcome` | canary-agent-eval/src/environment.rs:509-547 | An observation records its exposures and what is active and exposed then, or changes nothing |
| `Environment.GraphEnvironment.ApplyConstraint` | canary-agent-eval/src/environment.rs:361-403 | Adding declares an inactive constraint, replacing ends an active one and declares another, removing ends an active one, and every other constraint stays as it was; anything else is refused |
| `Environment.GraphEnvironment.ApplyNodeInPlace` | canary-agent-eval/src/environment.rs:349-359 | Applies all operations of a node in order, as the description does, or restores the state and reports the first failure |
| `Environment.GraphEnvironment.ApplyTransition` | canary-agent-eval/src/environment.rs:303-337 | Moves and records, or leaves the state as it was |
| `Environment.GraphEnvironment.PrepareExposureRecords` | canary-agent-eval/src/environment.rs:405-483 | Each exposure may rest on those before it; the first refused one decides |
| `Environment.GraphEnvironment.VisibleState` | canary-agent-eval/src/environment.rs:485-493 | Collects what is exposed and still active |
| `Environment.GraphEnvironment.EmitObservation` | canary-agent-eval/src/environment.rs:509-547 | A refused observation changes nothing, though exposures are checked one by one; an accepted one records all exposures and itself, and shows exactly the constraints both active and exposed at their current values |
| `Environment.GraphEnvironment.ResetEnvironment` | canary-agent-eval/src/environment.rs:551-577 | The in-place reset has the world and the result of the description, whose outcome is that of `ResetOutcome` |
| `Environment.GraphEnvironment.StepEnvironment` | canary-agent-eval/src/environment.rs:579-613 | So has the in-place step, whose outcome is that of `StepOutcome` |
| `SseStream.FindFrameEnd` | canary-agent-openai/src/transport.rs:71-81 | The scan returns the earliest delimiter |
| `SseStream.FrameEndIsStable` | canary-agent-openai/src/transport.rs:71-81 | Further bytes never move the first frame end, not even across a split delimiter |
| `SseStream.DrainAppend` | canary-agent-openai/src/chat_completions.rs:287-300 | Draining a longer buffer is draining the first part and then what is left of it with the rest |
| `SseStream.ChunkingIsInvisible` | canary-agent-openai/src/chat_completions.rs:74-90 | However a byte string is cut into chunks, what is emitted, decoded or refused is the same |
| `SseStream.FeedIsDrain` | canary-agent-openai/src/chat_completions.rs:74-79 | Consuming chunk by chunk is consuming the whole byte string at once |
| `SseStream.AnyCutDecodes` | canary-agent-openai/src/chat_completions.rs:74-90 | Payloads sent in frames, each ended by either delimiter, and cut anywhere decode to what the payloads say, and an unended rest that is not blank to what it says |
| `SseStream.TextIsEmitted` | canary-agent-openai/src/chat_completions.rs:349-352 | At every end of every stream, broken off or not, the text is that of all emitted text deltas, in order |
| `StreamMeaning.StreamSays` | canary-agent-openai/src/chat_completions.rs:302-364 | Events sent on data lines, in frames with either delimiter and cut anywhere, arrive as the text of their contents, the calls assembled from their deltas and their reports, all in order |
| `StreamMeaning.UnendedFrameSays` | canary-agent-openai/src/chat_completions.rs:74-85 | So does a last frame without a blank line behind it |
| `StreamMeaning.StreamStops` | canary-agent-openai/src/chat_completions.rs:302-321 | At the first frame that is not UTF-8, not JSON or an error, decoding stops with that failure and with all that the frames before it said |
| `StreamMeaning.EventSays` | canary-agent-openai/src/chat_completions.rs:323-361 | An event without an error adds the contents of its choices to the text, their deltas to the calls, and reports progress once if there is any, then usage, then each content, in order |
| `StreamMeaning.LineSays` | canary-agent-openai/src/chat_completions.rs:309-316 | A data line is decoded unless it is blank or says that the stream is done, and other lines say nothing |
| `StreamMeaning.LinesAreRead` | canary-agent-openai/src/chat_completions.rs:308 | Lines are read as they were written, with either ending |
| `StreamMeaning.ResponseSays` | canary-agent-openai/src/chat_completions.rs:88-97 | The response has the text, if there is any, and the calls in the order of their indices, each with its own id, name and parsed arguments; it fails exactly if some call lacks one of these |
| `StreamMeaning.LastIdAndName` | canary-agent-openai/src/chat_completions.rs:253-260 | A call has the last id and the last name that its deltas gave |
| `SseStream.AssemblyIsPerIndex` | canary-agent-openai/src/chat_completions.rs:353-360 | A tool call is assembled from the deltas of its index alone, in order |
| `SseStream.InterleavingIsInvisible` | canary-agent-openai/src/chat_completions.rs:353-360 | How deltas of different calls interleave does not matter |
| `SseStream.ArgumentsAreJoined` | canary-agent-openai/src/chat_completions.rs:253-265 | The arguments are the concatenation of their pieces, and an id is there exactly when some delta had one |
| `SseStream.Decoder.ConsumeFrames` | canary-agent-openai/src/chat_completions.rs:287-300 | Takes all complete frames off the buffer in place, or stops at the first failure |
| `SseStream.Decoder.HandleLines` | canary-agent-openai/src/chat_completions.rs:302-364 | Goes through the lines of a frame as the description says, of which `LineSays` and `EventSays` say what that is, keeping what came before a failure |
| `SseStream.Decoder.StreamComplete` | canary-agent-openai/src/chat_completions.rs:70-97 | Decodes a stream of chunks to text and calls in index order, or to the first failure; the text is what was emitted as text, also where decoding stops |
| `ResponseItems.ArrivalOrderIsInvisible` | canary-agent-openai/src/responses.rs:373-382 | Done items with distinct explicit indices are filed alike in any order of arrival, or in every order one is refused for contradicting its announcement |
| `ResponseItems.StreamedIsSnapshot` | canary-agent-openai/src/responses.rs:336-499 | After any announcements, items streamed in any order decode to what their finished list decodes to, whatever the terminal event carries; the stream is refused before that exactly when an announcement contradicts its item or has none, the least such index being named |
| `ResponseItems.MixedStreamIsSnapshot` | canary-agent-openai/src/responses.rs:336-479 | Announcements, deltas, done arguments and done items with explicit indices, mixed in any order and in line with a list, decode to the list if the last event that files something in each slot files the item of the list; for a list that decodes, only if |
| `ResponseItems.ArgumentsAloneFinish` | canary-agent-openai/src/responses.rs:383-415 | Done arguments alone, in any order and without done items, finish announced calls |
| `ResponseItems.LateArgumentsReplaceItem` | canary-agent-openai/src/responses.rs:383-415 | Done arguments after the done item leave the response that of the list if and only if the announced call with those arguments is the done item |
| `ResponseItems.LateArgumentsLoseItem` | canary-agent-openai/src/responses.rs:383-415 | A stream from the empty decoder, complete before its last done arguments, that these spoil |
| `ResponseItems.UnindexedInArrivalOrder` | canary-agent-openai/src/responses.rs:481-499 | In any decoder state, items with neither an index nor a known id are listed behind those done before, in order of arrival, unless an announced item is unfinished, which is then named |
| `ResponseItems.UnknownItemGetsFreshSlot` | canary-agent-openai/src/responses.rs:481-499 | Such an item gets a slot behind all others |
| `ResponseItems.CarriedItemsDecodeAlike` | canary-agent-openai/src/responses.rs:552-611 | The items a decoded response carries, streamed again in any order, give the same text, calls and items |
| `ResponseItems.RequestReplaysItems` | canary-agent-openai/src/responses.rs:236-275 | A request replays exactly the items of its history's responses, unchanged and in order |
| `ResponseItems.ResponseDecoder.SlotFor` | canary-agent-openai/src/responses.rs:481-499 | Finds the explicit index, the index of that id among added then done items, or the next slot |
| `ResponseItems.ResponseDecoder.Data` | canary-agent-openai/src/responses.rs:336-479 | Each event has the effect of the description, and none when it is refused; the fields compared for identity may be absent, strings or other JSON values |
| `ResponseItems.ResponseDecoder.ReadStream` | canary-agent-openai/src/responses.rs:132-150 | Stops at the event that completes the response, or reports the first refused event or a stream that ends before |
| `ResponseItems.BuildResponse` | canary-agent-openai/src/responses.rs:552-611 | Builds text, calls and continuation from the items, or reports the first that cannot be used |
| `ResponseMeaning.CompletedSays` | canary-agent-openai/src/responses.rs:552-611 | Items make a response exactly if each is finished and a readable message, a complete call or a reasoning item; its text is the words of all messages in order, its calls are the call items, each with its own id, name and parsed arguments, and it carries the items |
| `ResponseMeaning.FirstBadDecides` | canary-agent-openai/src/responses.rs:558-600 | Otherwise the first item that is not decides the failure, and in a message its first unreadable part |
| `ResponseMeaning.SlotIs` | canary-agent-openai/src/responses.rs:481-499 | An item goes to its explicit index, or the least index of that id among announced and then finished items, or the next index behind all, up to the largest |
| `ResponseMeaning.ConflictIs` | canary-agent-openai/src/responses.rs:507-518 | Two items conflict at the first of type, id, call id and name that both have and that differ |
| `ResponseMeaning.DoneSays` | canary-agent-openai/src/responses.rs:373-382 | A finished item is refused if it conflicts with the announced one at its slot, and otherwise replaces what was finished there |
| `ResponseMeaning.ArgumentsSay` | canary-agent-openai/src/responses.rs:383-413 | Finished arguments finish the call announced at that index, or first under that id, unless the ids differ or there are none; for no such call nothing happens |
| `ResponseMeaning.EndSays` | canary-agent-openai/src/responses.rs:453-470 | A completion is answered with the response of the finished items in index order, or of its own items when nothing was finished |
| `ResponseMeaning.UnfinishedEndSays` | canary-agent-openai/src/responses.rs:443-452 | But not while something announced is unfinished: the least such index is named |
| `ResponseMeaning.StreamEnds` | canary-agent-openai/src/responses.rs:132-150 | The first event that is refused decides the failure, the first that completes the response decides the answer, and a stream that ends before either is not completed |
| `ResponseMeaning.RequestRefusedIff` | canary-agent-openai/src/responses.rs:249-263 | A request is refused exactly if a message carries items in an unknown format or no items |
| `ResponseMeaning.RequestSays` | canary-agent-openai/src/responses.rs:236-289 | Otherwise each message is there in order: its content under its role, its carried items, its text and calls when it carries none, or its output under its call |
| `EventCaptures.EventCapture.Push` | canary-agent-openai/src/responses.rs:187-194 | After any pushes the tail is the longest suffix of all events with their separators that fits and starts at a character, and the truncation flag says whether the history exceeds the limit |
| `EventCaptures.EventCapture.Append` | canary-agent-openai/src/responses.rs:196-216 | Each append keeps that, without keeping the history |
| `EventCaptures.TailIsLongest` | canary-agent-openai/src/responses.rs:196-216 | No character-aligned suffix within the limit is longer |
| `EventCaptures.TailIsCut` | canary-agent-openai/src/responses.rs:198-206 | Something is missing from the tail exactly when the history exceeds the limit |
| `EventTexts.TailIsLastCharacters` | canary-agent-openai/src/responses.rs:196-216 | For every text the tail is the encoding of its last characters, as many as the limit has room for |
| `EventTexts.TextIsEncoded` | canary-agent-openai/src/responses.rs:208-215 | Every text, as the boundary test takes it, is the encoding of a sequence of Unicode scalar values |
| `EventCaptures.TailAppend` | canary-agent-openai/src/responses.rs:196-216 | Appending to the tail alone gives the tail of the whole history |
| `SeccompFilter.CompileFilter` | canary-agent-tools/src/sandbox/linux.rs:510-566 | The instruction-pushing loop produces the program, or none when nothing is denied |
| `SeccompFilter.FilterMeansPolicy` | canary-agent-tools/src/sandbox/linux.rs:517-579 | Running the program returns the kernel's word to kill on a foreign architecture, the word of the violation, kill or permission denied, exactly for calls of denied operations, and the word to allow for all else |
| `SeccompFilter.FilterWords` | canary-agent-tools/src/sandbox/linux.rs:537-579 | The program word for word, one test and return for each denied number |
| `SeccompFilter.FilterIffDenies` | canary-agent-tools/src/sandbox/linux.rs:529-531 | A filter is installed exactly when some operation is denied |
| `SeccompFilter.AllowIsDenyComplement` | canary-agent-tools/src/sandbox/linux.rs:517-531 | Allowing some operations decides every call as denying all the others does |
| `SeccompFilter.DeniedNumbers` | canary-agent-tools/src/sandbox/linux.rs:609-655 | The compiled numbers are exactly those of the denied operations |
| `SeccompFilter.GroupsAreDisjoint` | canary-agent-tools/src/sandbox/linux.rs:613-646 | No call number belongs to two operation groups, on either architecture |

## Left out

- Tokio, HTTP, retries and timeouts: replaced by arbitrary choices of steps and of chunks.
- Files, directory locks and JSON text: stores are maps and values, JSON is a datatype.
- The context cache that a store deletes along with a thread.
- SHA-256: revision ids come from an arbitrary function; saving over a different object under the same id is refused.
- Metrics, tracing, stream events for display, token usage, timestamps, metadata and function hooks after a call.
- `into_token_usage`, request headers and tools, diagnostics and error texts: they only rename or format fields.
- Namespaces, mounts, `exec`, the Seatbelt backend and the `prctl` calls that install the filter.
- The parser behind `read_response_stream`: it is not part of this model, which starts at its events.
- Path normalisation, the structural diff for display, field validation, the runner and the referee: true but easy.
- AgentLoops.AgentLoop.StartTurn: assumes that no stored turn is running, which the code does not check; over a running turn the projection would forget what recovery adds to it (`TurnItems.OlderTurnsAreForgotten`).
- AgentLoops.AgentLoop.RunIteration: a reply that reuses a call id counts as no answer here, and in `SettleCall` a suspension that does not name its own call counts as a failed function; what the code does with either is outside the model.
- AgentLoops.AgentLoop.Commit: does not model that the store may refuse; `SessionProtocol.HolderCommits` says when it refuses the holder of a lease.
- RevisionProtocol.MergeOfParentsIff: presupposes that the base of the merge still is the merge base of its recorded parents, as it is after plain commits (`MergeAfterCommits`); another merge from the source, or a commit whose revision is already an ancestor of the source, can give them a nearer one.
- EventCaptures.EventCapture.Push: keeps the full history as specification state only.
- SeccompFilter.CompileFilter: ends where the program is handed to the kernel; architectures other than the two supported ones are refused by the code before.
