# Durable call engine: model and proofs

CallTool places and answers telephone calls through a language model. What makes that safe is its
durable call engine: one worker per call keeps a hot state in memory and writes it behind through a
single-writer queue, a repository changes a call only by compare-and-set on its status, a dispatcher
with limited capacity hands queued calls to workers, and several logs and indexes have to agree with
that state. This project models the engine in Dafny and proves what the rest of the system relies on.

Everything that can fail is a parameter: a repository call may land, be lost, or land and still raise;
a dispatcher may accept, refuse, or refuse after it has started an agent; a sink may raise; the policy
may raise. Time is a number given to each step. The theorems hold for every choice of these and every
interleaving that the assumptions below allow; what holds only under a condition is listed with that
condition under "Findings".

## How it is built

Two layers say the same thing twice, and the second is proved against the first.

- **Transition systems on values.** `WriteBehind` (hot state, queue, writer, tools, end of a call),
  `Dispatch` (dispatcher among creates, cancels, inbound calls and workers), `InputRequests`,
  `Lifecycle` (all status writes on one row), `EventFanout`. A step runs from one `await` to the next;
  enqueueing is atomic with the snapshot before it; a repository method is one step. The theorems over
  whole runs are in `Accounting`, `CommitSafety`, `CommitRuns`, `HotState`, `HotStateRuns`,
  `HotHistory`, `CommitAnswers`, `OutcomeTruth`, `OutcomeTruthRuns`, `OutcomeSources`, `HangupRuns`,
  `OptionalEvents`, `CompletionRun`, `Questions`, `DispatchRuns`, `DispatchPasses`, `CallEnds`, `History`,
  `RepositoryAgreement`. Runs that show where a property ends are in `LostDispatches` and `LostQuestions`.
- **Classes that change state in place**, in the shape of the Python classes:
  `MemoryRepository.MemoryCallRepository`, `PostgresRepository.PostgresCallRepository`,
  `Service.CallService`, `ActiveCalls.ActiveCallContext`, `VoiceTools.ToolRuntime`,
  `CallWorker.Worker`, `EventDispatcher.AsyncEventDispatcher`. Each has a `View()`, and each method's
  postcondition equates the new view with one step of the transition system applied to the old one, so
  that what is proved of every run holds of these objects. A coroutine that awaits is split into the
  methods before and after the await.

`Base`, `Models`, `Rows`, `CallSites`, `CallStore`, `Slots`, `Sorting` are the shared vocabulary; `Policy`,
`Paging`, `Cursor`, `Ulid` and `Prompts` are the arithmetic and text cores.

What a definition means is stated apart from it, in the terms of the records: which calls a slot is
counted for, what comes before what in a list, which keys are a cost, what a hot state remembers of a run,
which write is accepted in which status, and what the record of a call says at every point of its life.

## Assumptions

- Tools hold the state lock while they mutate and snapshot. The two completions that do not take it
  (`cold_transfer`, src/calltool/voice/tools.py:269-280, and `_finish_amd_call`,
  src/calltool/worker/agent.py:655-673) do not start while a commitment is in flight.
- A waiter on a durable write is not cancelled.
- A service operation that reads, changes and writes back `state` is atomic with respect to worker
  state writes. Why it has to be is itself proved: `HotStateRuns.WriteBackIff`,
  `HotStateRuns.StaleAnswerLosesCommitment`, `InputRequests.SplitAnswerLeavesGap`.
  `InputRequests.SettledForever` does without it.
- How questions are asked is not assumed. `Questions.OpenQuestionIsKept` names the discipline it needs
  as its condition; `LostQuestions` shows what happens without it.
- One `CallService` owns dispatching, and one worker job owns a call.
- Commitment digests and random identifiers do not collide. A digest is represented by what it digests.

## Findings

These are properties that one could expect of the code and that it has only under a condition.

- A dispatch whose result could not be written is dialled again by the next pass
  (`LostDispatches.LostResultDialsTwice`). Call by call, a handover repeats one exactly when the result
  of that call is lost (`DispatchRuns.NoDoubleDial`).
- A lost result can also take the calls under way above `max_concurrent`
  (`LostDispatches.LostResultExceedsCapacity`: one slot, two calls). The calls whose result is not lost
  never exceed it, so an excess always includes a call whose result is lost
  (`DispatchRuns.CapacityRespected`).
- When a listed call leaves QUEUED before its result is recorded (its agent is faster, or it is
  cancelled), the record raises, the pass ends with the other listed calls not handed over, and
  `create_call` raises for a call that is stored and perhaps being dialled
  (`DispatchPasses.FastAgentEndsPass`, `Service.PassFillsTheSlots`, `Service.HandOverCounts`). A pass
  gets through its list exactly when no result but that of the last call fails to be written
  (`DispatchPasses.PassHandsOverAllIff`).
- A question asked without the lock, as `_request_amd_decision` does
  (src/calltool/worker/agent.py:613-624), can be overwritten by a snapshot queued before; the call then
  waits for no question although every write succeeded (`LostQuestions.UnlockedQuestionIsOverwritten`).
  The poll of an older question can have the same effect on a newer one
  (`LostQuestions.PollForgetsNewerQuestion`). The question stays exactly when each queued snapshot
  carries it (`Questions.QuestionKeptIff`), and does over every run in which questions are asked under
  the lock after a flush and no poll clears the hot state while the row waits
  (`Questions.OpenQuestionIsKept`). At the repository, a call in INPUT_REQUIRED names a pending request
  throughout exactly when no write breaks this (`InputRequests.OpenQuestionsArePendingIff`).
- A candidate that is proposed while the call is not ACTIVE, as while a question is open, makes its write
  fail, and with it every later required write (`LostQuestions.ProposalFailsIff`,
  `Accounting.FailStopPrefix`); a fact may be recorded then.
- A request that `request_input` stored before it raised stays pending with nobody waiting for it
  (`InputRequests.RefusedQuestionIsOrphaned`). An answer to it wakes a call that waits for another
  question; an answer closes the question the call waits for exactly when it answers that one
  (`InputRequests.AnswerClosesItsQuestionIff`). A second expiry of an expired request wakes the call
  likewise (`InputRequests.StaleExpiryWakesCall`).
- An answer to a question that was computed from an older read wipes a commitment that became durable
  in between, and both writes succeed (`HotStateRuns.StaleAnswerLosesCommitment`). Whatever is queued,
  the write-back does no harm exactly when each difference between the read and the row is made up for
  by the queue (`HotStateRuns.WriteBackIff`).
- A critical event whose `put` is still waiting when the end marker enters the queue is never offered
  to any sink, whatever the size of the queue (`EventFanout.CriticalEventCanBeStranded`), and only then
  (`EventFanout.CloseStrandsIff`). The class comment "non-blocking"
  (src/calltool/realtime/events.py:112) does not hold for critical events either: `publish` waits for
  room.
- The two repositories differ on a terminal call: Postgres rewrites the end time on every event logged
  after the end, memory keeps a phase that is given together with a terminal status.
  `RepositoryAgreement.UpdatesAgreeIff` says exactly when one update leaves them equal,
  `RepositoryAgreement.RepositoriesAgree` when a whole run does.

## Model

| member | source | states |
|---|---|---|
| CallSites.EveryWriteIsAnEdge | src/calltool/calls/state.py:5-43 | every accepted compare-and-set write of service, context and worker follows an edge of the table, though none consults it |
| CallStatusGraph.EdgesAre | src/calltool/calls/state.py:5-39 | the table is one ladder of ten statuses, two short cuts past it, the way into a question and out of it, and a way to FAILED and CANCELLED from every status that is not terminal, and nothing else |
| CallEnds.AcceptedWhere | src/calltool/realtime/active_calls.py:178-257 | for each status, exactly which writes of service, context and worker are accepted in it |
| CallEnds.EndingWrite | src/calltool/worker/agent.py:358-424 | a call becomes CANCELLED, COMPLETED or FAILED only by the writes meant for it, with end time, no phase, and the error or outcome of that write |
| CallEnds.CompletingWrite | src/calltool/realtime/active_calls.py:236-257 | a call becomes COMPLETING by its tools, with their state and outcome in the closing phase, or by a hangup, with an outcome alone, and by no other write |
| CallEnds.RecordIsSound | src/calltool/storage/memory.py:69-119 | in either repository and at every point of every run a call has an end time exactly when it has ended, an error exactly when it has failed, an outcome once it is completing, no connection time before CONNECTED and one from there to COMPLETED, and the phases opening, closing, none in this order |
| Lifecycle.RunIsPath | src/calltool/calls/state.py:5-43 | the status trace of any interleaving of all writes is a path of the table |
| Lifecycle.TerminalAbsorbs | src/calltool/calls/state.py:36-38 | once terminal, the status never changes again over any run |
| Lifecycle.ChangesBounded | src/calltool/calls/state.py:5-39 | status changes plus what remains to a terminal status never exceed the start's remainder plus two per question |
| Lifecycle.AtMostNinePlusTwoK | src/calltool/calls/state.py:5-39 | from CREATED a call that enters INPUT_REQUIRED k times changes status at most 9+2k times |
| Lifecycle.NinePlusTwoKIsAttained | src/calltool/calls/state.py:5-39 | for every k some run of the code's own writes makes exactly 9+2k changes, so the bound is tight |
| Lifecycle.ConnectionTimeIsFixed | src/calltool/storage/postgres.py:173-182 | in either repository and over every run a call that was connected has a connection time, written once, so its place in the listing no longer moves |
| Rows.UpdateEffect | src/calltool/storage/memory.py:69-119 | update_call succeeds exactly when the status is expected, and then status, state and outcome are the given ones or the old ones, in both repositories |
| RepositoryAgreement.UpdatesAgreeIff | src/calltool/storage/postgres.py:161-235 | one update leaves the same call in both repositories if and only if it avoids a late status-less write and a phase with a terminal status |
| RepositoryAgreement.RunsAgree | src/calltool/storage/postgres.py:161-235 | over any run that gives no phase with a terminal status two agreeing rows stay equal but for the end time, and Postgres holds the time of the last event logged on the ended call, unless a terminal write followed it |
| RepositoryAgreement.RepositoriesAgree | src/calltool/storage/memory.py:69-119 | from a new call on, no phase being given with a terminal status, memory and Postgres hold the same row but for the end time, and entirely the same row if and only if no event was logged after the last terminal write, or the last such event at that very time |
| History.ActKeepsConsistent | src/calltool/storage/memory.py:107-118 | every repository call keeps events numbered 1..n and the transcript table equal to the projection of the log, and only appends |
| History.ReachableIsConsistent | src/calltool/storage/memory.py:169-214 | that consistency holds at every point of every run |
| History.TranscriptIsWhatWasSaid | src/calltool/storage/memory.py:169-214 | over every run the transcript grows by exactly the turns said that are not blank, in order, with role, stripped text, interruption flag and time |
| History.ProjectionIs | migrations/003_call_history.sql:18-32 | the projection has one turn for each event of the two transcript types with a text that is not empty, in order, numbered 1, 2, ..., with its role, text, time and interruption flag, false if missing |
| History.RankIsPosition | migrations/003_call_history.sql:18-32 | ROW_NUMBER over the selected events is the turn's position in the projection |
| History.QueryIsProjection | migrations/003_call_history.sql:18-32 | the back-fill query computes exactly the ordered projection of the log |
| History.InsertCompletes | migrations/003_call_history.sql:33-49 | insert-on-conflict-do-nothing completes any prefix of the projection to the whole of it |
| History.MigrationCompletes | migrations/003_call_history.sql:18-49 | from any prefix the migration restores the projection, keeps what is there, and is idempotent |
| History.MigrationIsIdleOnReachableRows | migrations/003_call_history.sql:18-49 | re-running the back-fill on any reachable row inserts nothing |
| Policy.CheckAppointmentConstraints | src/calltool/policy/engine.py:88-114 | the early-exit nested loops return the verdict of the first constraint that does not pass |
| Policy.AllowedIffEachAllows | src/calltool/policy/engine.py:99-114 | an appointment is allowed exactly when each constraint alone allows it |
| Policy.AllowedIsConjunction | src/calltool/policy/engine.py:88-114 | with well-formed hours the check never raises and allows exactly what every constraint permits |
| Policy.OrderDoesNotMatter | src/calltool/policy/engine.py:99-114 | reordering constraints never changes whether an appointment is allowed |
| Policy.MoreConstraintsNeverAllowMore | src/calltool/policy/engine.py:99-114 | a constraint inserted anywhere never turns a refusal into a permission |
| Policy.PermissionsDecideFirst | src/calltool/policy/engine.py:57-76 | commit_permission_missing is the verdict exactly without may_commit, cost_not_authorized exactly with it, without may_accept_costs, and with one of the keys cost, price, amount, fee |
| Policy.FirstFailureDecides | src/calltool/policy/engine.py:99-114 | the reason is that of the first constraint that does not permit the appointment: before its earliest hour, or else after its latest, or else on a closed day, hours and minutes counted in microseconds |
| Policy.AppointmentWithoutTime | src/calltool/policy/engine.py:88-98 | an appointment is refused for a missing time exactly when no text is given, a datetime that is not empty winning over appointment_at, and for an invalid one exactly when that text is no instant |
| Policy.AllowedIff | src/calltool/policy/engine.py:57-86 | a commitment is allowed if and only if may_commit holds, costs are accepted or none of the four keys is there, and for book_appointment and accept_appointment alone the instant given suits every constraint |
| Accounting.FailStopPrefix | src/calltool/realtime/active_calls.py:331-397 | over every run the required operations that took effect are a prefix, in submission order, of those submitted |
| OptionalEvents.OptionalStillFlows | src/calltool/realtime/active_calls.py:368-397 | over every run, whatever required writes failed, the optional items that took effect are in order exactly those handled whose own repository call was not lost |
| Accounting.ShutdownAccounts | src/calltool/realtime/active_calls.py:303-397 | when the writer has stopped every accepted item was dequeued once in order and every future settled exactly once |
| Accounting.NothingAcceptedOnceClosed | src/calltool/realtime/active_calls.py:331-366 | no action adds to the accepted items of a closed context, and none reopens it |
| Accounting.DrainSettlesEverything | src/calltool/realtime/active_calls.py:313-325 | the closed queue drains in finitely many writer steps, after which nothing waits |
| Accounting.AwaitNewest | src/calltool/realtime/active_calls.py:348-366 | when the newest submission is settled everything accepted has been handled, and without failure every required operation has taken effect |
| CommitSafety.WriterKeepsSafe | src/calltool/realtime/active_calls.py:368-397 | a writer step with any fate keeps the hot commitments a prefix of the stored ones, at most one shorter |
| CommitRuns.CommitmentsNeverLost | src/calltool/realtime/active_calls.py:178-192 | between any two points of any run the durable commitments only grow by appending, and the hot list is a prefix of them at most one shorter |
| CommitRuns.AnswersAreDurable | src/calltool/voice/tools.py:112-149 | every answer of authorize_commit rests on a commitment that is durable and stays so for the rest of the run |
| CommitRuns.ReplayIsSound | src/calltool/voice/tools.py:128-149 | at most one commitment is stored per action and payload, and its verdict, reason and confirmation are what the policy decides now |
| CommitAnswers.ReplaysAreMarked | src/calltool/voice/tools.py:123-149 | over every run an answer is marked as a replay exactly when the same action and payload were answered before, and then with the same verdict |
| QueueStates.PerformEffect | src/calltool/realtime/active_calls.py:178-301 | what each queued operation does to the stored state, status and outcome when it succeeds, and which statuses it needs |
| QueueStates.ReplayPush | src/calltool/realtime/active_calls.py:331-346 | an entry put at the end of the queue takes effect after all the others |
| HotStateRuns.QueueClosesTheGap | src/calltool/realtime/active_calls.py:178-311 | at every reachable open state without required failure, performing the queue on the row gives the hot facts, candidates, utterance, and commitments but for the one in flight |
| HotStateRuns.FlushMeansDurable | src/calltool/realtime/active_calls.py:303-311 | after a flush under the lock that returns normally the row equals the hot state on facts, candidates and commitments |
| HotHistory.RowRemembers | src/calltool/realtime/active_calls.py:273-301 | over every run the last remote utterance is the stripped text of the last user turn that is not blank, each fact has the value recorded last, and the candidates are the proposals in order with the verdict of the policy, an appointment judged as a booking; and a drained open context without a required failure has all this stored |
| HotHistory.SavedVoiceIsStored | src/calltool/voice/tools.py:236-268 | a saved voice session is hot at once and stored with everything else hot once the queue has been written, whatever was queued before |
| HotStateRuns.ReplayMeetsIff | src/calltool/realtime/active_calls.py:178-301 | performing one queue on two stored states leads to the same facts, candidates and commitments if and only if they agreed before or some entry carries a state; likewise for the last utterance and user turns |
| HotStateRuns.WriteBackIff | src/calltool/calls/service.py:267-282 | whatever is queued, writing back an earlier read keeps the simulation if and only if each difference from the row is made up for by a queued snapshot, or, for the last utterance, a queued user turn |
| HotStateRuns.StaleAnswerLosesCommitment | src/calltool/calls/service.py:267-282 | an answer based on a stale read removes a durable commitment although both writes succeed |
| HotHistory.HotVoice | src/calltool/voice/tools.py:236-268 | over every run but for the worker's status writes the hot voice session is the one saved last with the usage reported last since |
| HotHistory.WorkerWriteIsApplied | src/calltool/realtime/active_calls.py:122-132 | an accepted status write of the worker brings status, phase, connection time, question, room, dispatch, identity and voice session to what is stored, and keeps what the tools have gathered |
| OutcomeTruthRuns.CompletedTellsTheTruth | src/calltool/worker/agent.py:761-807 | every call that any run brings to COMPLETING or COMPLETED has an outcome with the facts and commitments of its durable state |
| HotHistory.FinishIsQueued | src/calltool/realtime/active_calls.py:236-257 | a completion, with the lock or without, shows the closing phase at once and queues everything hot with the outcome asked for |
| HotHistory.FinishIsShown | src/calltool/voice/tools.py:313-316 | whoever waited for a completion shows COMPLETING afterwards exactly when it was written |
| OutcomeSources.OutcomesAreGiven | src/calltool/voice/tools.py:295-318 | over every run success, reason and notes of a stored outcome are those some tool gave to a completion in this run, or the outcome is that of a hangup |
| HangupRuns.HangupIsReported | src/calltool/worker/agent.py:770-798 | whatever follows a hangup, a call that gets to COMPLETING or COMPLETED is reported as remote_hangup, as a success if and only if it is inbound or has an allowed and confirmed commitment, with its stored facts and commitments; the supervisor changes the summary alone |
| OutcomeTruthRuns.LateFactsAreNeverStored | src/calltool/realtime/active_calls.py:236-257 | over every run, once a call is completing or ended its stored facts and commitments never change again |
| OutcomeTruthRuns.LateFactIsNotStored | src/calltool/realtime/active_calls.py:236-257 | with nothing else queued, a fact recorded after finish_call changes the hot state only: its write fails and leaves the row |
| OutcomeTruthRuns.ReadTruthful | src/calltool/worker/agent.py:768-798 | what the end of the call reads lets it write only a truthful outcome; a completing call always has one |
| CompletionRun.FinishedCallCompletes | src/calltool/voice/tools.py:295-318 | when no write fails, an answered call whose agent records a fact and finishes ends COMPLETED with exactly the agent's outcome and that fact |
| CallStore.FindIdempotent | src/calltool/storage/memory.py:59-67 | finds a call of that principal with that request id, or there is none |
| CallStore.CreateAnswersOnce | src/calltool/storage/memory.py:36-47 | a request id that is not empty is answered with the stored call of that principal and id and nothing changes; otherwise the new call is stored as it is, with one event |
| CallStore.LineMembers | src/calltool/storage/memory.py:240-249 | the waiting line holds exactly the stored QUEUED calls without a dispatch id |
| CallStore.ListQueuedTakesOldest | src/calltool/storage/memory.py:240-249 | list_queued returns min(limit, waiting) distinct calls, none younger than one left behind |
| CallStore.TiesWaitInOrder | src/calltool/storage/memory.py:240-249 | calls created at the same time wait in the order in which they were stored |
| Slots.CountByStatus | src/calltool/storage/memory.py:229-238 | the number counted is that of the calls, of either direction, from PREWARMING to COMPLETING, and of those in front of that with a dispatch id |
| Slots.EndFreesTheSlot | src/calltool/storage/memory.py:229-238 | any write that ends a call, of either direction, takes it out of the count and no other |
| Slots.LineLength | src/calltool/storage/memory.py:240-249 | as many calls wait as are QUEUED without a dispatch id |
| Sorting.SortSorts | src/calltool/storage/memory.py:241-248 | the sort orders any list by any weak order |
| Sorting.SortKeepsTies | src/calltool/storage/memory.py:241-248 | elements of which none comes before another keep their order |
| DispatchRuns.CapacityRespected | src/calltool/calls/service.py:173-207 | in every interleaving, also when a worker starts before its dispatch is recorded, the outbound calls dispatched or past QUEUED, not ended, and without a lost result are at most max_concurrent; an excess includes a call whose result is lost |
| LostDispatches.LostResultExceedsCapacity | src/calltool/calls/service.py:173-197 | with one slot and two waiting calls a lost result write leads to two calls under way |
| DispatchRuns.NoDoubleDial | src/calltool/calls/service.py:181-206 | over every run each call is handed over once more than its own result was lost, or as often while that loss stands; the call handed over next was handed over before if and only if its result is lost; one call per request id |
| DispatchRuns.NextKeepsOnePerRequest | src/calltool/storage/memory.py:36-47 | no step creates a second call for a principal and request id |
| LostDispatches.LostResultDialsTwice | src/calltool/calls/service.py:183-197 | a lost write of an accepted dispatch makes the next pass hand the same call over again |
| DispatchPasses.PassHandsOverAllIff | src/calltool/calls/service.py:181-206 | between any two points of a pass the calls handed over are the listed ones in order, and a pass that has ended got through its list if and only if no result but the last was lost or came after its call had left QUEUED |
| DispatchPasses.FastAgentEndsPass | src/calltool/calls/service.py:183-197 | an agent that moves its call on before the result is recorded ends the pass with the rest of the list not handed over |
| Service.HandOverEffect | src/calltool/calls/service.py:181-206 | a pass changes exactly the listed calls up to the first that is overtaken, records room and dispatch id of each accepted one and fails each refused one with the message of the dispatcher as a retryable error |
| Service.HandOverCounts | src/calltool/calls/service.py:181-207 | a pass raises if and only if a listed call is overtaken before its record, and counts exactly the accepted calls before that |
| Service.PassTakesItsShare | src/calltool/calls/service.py:173-180 | whatever the dispatcher answers, a pass hands over the oldest min(max_concurrent less the busy calls, calls in line), the busy ones counted status by status |
| Service.PassDispatchesItsShare | src/calltool/calls/service.py:173-207 | when the dispatcher accepts and no call is overtaken that many are dispatched |
| Service.EndedCallsHoldNothingUp | src/calltool/calls/service.py:173-207 | when all other calls have ended, min(max_concurrent, waiting calls) are dispatched |
| Service.PassFillsTheSlots | src/calltool/calls/service.py:173-207 | with an accepting dispatcher a pass dispatches all the calls it takes if and only if none is overtaken, and otherwise raises at the first that is; those taken are the oldest, and the others it leaves alone |
| Service.PassIsARun | src/calltool/calls/service.py:173-207 | what dispatch_queued computes is reached by a run of the dispatch model, so its theorems apply |
| Service.EnqueuedInSteps | src/calltool/calls/service.py:84-93 | creating, validating and queueing in turn leave one QUEUED row with events 1, 2, 3 |
| Service.OnlyTheOwnerSees | src/calltool/calls/service.py:209-213 | a call is found for its own principal, or when no principal is given, and not found otherwise |
| Service.EarlierIs | src/calltool/calls/service.py:56-62 | the earlier call of a request is one of the same principal with the same request id, not empty, and there is none exactly when no stored call is such |
| Service.CancelEnds | src/calltool/calls/service.py:247-257 | cancelling a call that has not ended leaves it CANCELLED with an end time, its state and error as they were, and one event more |
| Service.InboundConnects | src/calltool/calls/service.py:98-171 | an inbound call is stored CONNECTED in the opening phase with its connection time and two events |
| Service.CallService.DispatchQueued | src/calltool/calls/service.py:173-207 | the loop leaves the store of a dispatch pass; it returns the number dispatched, which is min(free slots, calls in line) when all are accepted and none overtaken, or raises when a listed call is overtaken |
| Service.CallService.CreateCall | src/calltool/calls/service.py:56-96 | a repeated request id returns the earlier call and changes nothing; a refused target changes nothing; otherwise the call is queued and one pass runs, whose error is the answer although the call is stored |
| Service.CallService.CreateInboundCall | src/calltool/calls/service.py:98-171 | a repeated SIP call id returns the earlier call and changes nothing; otherwise the call is stored and connected; it never raises |
| Service.CallService.CancelCall | src/calltool/calls/service.py:247-257 | foreign and terminal calls are left alone, a failing release changes nothing, otherwise the call is CANCELLED with an end time |
| Service.CallService.Transition | src/calltool/calls/service.py:328-347 | a move outside the table raises and changes nothing, a move along it always succeeds |
| Service.CallService.RequestInput | src/calltool/calls/service.py:287-311 | the request is stored even when the call turns out not to be ACTIVE, in which case it raises |
| Service.CallService.Respond | src/calltool/calls/service.py:259-282 | owner check, then exactly the atomic respond operation of the request model, with its errors |
| Service.CallService.ExpireInput | src/calltool/calls/service.py:313-326 | exactly the atomic expiry operation of the request model, with its errors |
| Service.CallService.ListCalls | src/calltool/calls/service.py:221-240 | the page of the keyset model for the decoded cursor, newest first by Paging.PageIsNewestFirst, and the returned text decodes to that page's next key |
| InputRequests.SettledForever | src/calltool/storage/memory.py:260-287 | under any interleaving of single repository calls and service operations a request leaves pending at most once and is never changed again |
| InputRequests.HoldsTheAnswerGiven | src/calltool/storage/memory.py:260-287 | over every run a settled request holds exactly the response, or the expiry, of an action that named it and its call, with the time of that action, and still what was asked |
| InputRequests.OpenQuestionsArePendingIff | src/calltool/calls/service.py:259-326 | a call in INPUT_REQUIRED names a pending request of its own at every point of a run if and only if no snapshot written over an open question names another and no awaited request is settled apart from waking its call; the service operations in one step never break it |
| InputRequests.AnswerClosesItsQuestionIff | src/calltool/calls/service.py:259-282 | an answer to any pending request wakes a waiting call, takes the question out of its state, is logged as call.input_received, and closes the question it waits for if and only if it answers that one |
| InputRequests.StaleExpiryWakesCall | src/calltool/calls/service.py:313-326 | expiring an already expired request wakes a call whose own question stays pending, logged as call.input_timeout |
| InputRequests.RefusedQuestionIsOrphaned | src/calltool/calls/service.py:287-311 | a question refused because the call is not ACTIVE stays stored as pending and awaited by nobody |
| Questions.QuestionKeptIff | src/calltool/realtime/active_calls.py:194-213 | performing a queue on a row that waits for a question keeps it there throughout if and only if each queued snapshot carries it |
| Questions.OpenQuestionIsKept | src/calltool/voice/tools.py:155-184 | over every run that asks under the lock after a flush and polls without clearing a newer question, a waiting call names the question of the hot state, every queued snapshot carries it, and no step replaces it |
| LostQuestions.UnlockedQuestionIsOverwritten | src/calltool/worker/agent.py:613-624 | a question asked without lock and flush is wiped by a snapshot queued before, with every write succeeding |
| LostQuestions.ProposalFailsIff | src/calltool/voice/tools.py:84-107 | with nothing else queued, the write of a proposal fails if and only if the call is not ACTIVE or the repository call is lost, and that of a fact if and only if it is neither ACTIVE nor INPUT_REQUIRED or lost |
| LostQuestions.PollForgetsNewerQuestion | src/calltool/voice/tools.py:164-180 | the poll of an older question makes the next snapshot wipe a newer one |
| InputRequests.SplitAnswerLeavesGap | src/calltool/calls/service.py:273-282 | between the two writes of respond that is false |
| Base.LexLessIff | src/calltool/storage/memory.py:160-166 | the order of ids: a proper prefix comes first, and otherwise the first character that differs decides |
| Paging.PageIsNewestFirst | src/calltool/storage/memory.py:144-167 | a page holds the newest calls that pass the filter and started before the cursor, or at the same time with a smaller id, a start being the connection time or else the creation time; it is as long as the limit before one is left out, and none left out is newer than one shown |
| Paging.BeyondSpec | src/calltool/storage/memory.py:144-166 | the sorted filter is strictly descending in (connection time or else creation time, id) and holds exactly the matching calls behind the cursor |
| Paging.BeyondIsSuffix | src/calltool/storage/memory.py:160-167 | behind the k-th call lies exactly the rest of the list |
| Paging.FollowSpec | src/calltool/calls/service.py:221-240 | following the cursor yields full pages whose concatenation is the list |
| Paging.PagingIsExact | src/calltool/calls/service.py:221-240 | over a fixed store the pages hold every matching call exactly once, strictly newest first by connection time or else creation time, then by id |
| Paging.PageCountIsCeiling | src/calltool/calls/service.py:235-240 | the number of pages is max(1, ceil(n/limit)) |
| Paging.InsertionAboveCursor | src/calltool/calls/service.py:221-240 | a call inserted at or above the cursor changes no later page |
| Cursor.EncodeIsBase64 | src/calltool/calls/service.py:354-359 | each three bytes are written as the four digits of their 24-bit number to the base 64, a last short group filled with zeros and `=` (section 4 of RFC 4648) |
| Cursor.Alphabet | src/calltool/calls/service.py:354-359 | the digits are those of the base64url alphabet (section 5 of RFC 4648) |
| Cursor.DecodeEncode | src/calltool/calls/service.py:354-359 | padded base64url decoding inverts encoding for every byte string (sections 4 and 5 of RFC 4648) |
| Cursor.PaddingRestored | src/calltool/calls/service.py:366-367 | -len mod 4 restores exactly the padding that was stripped (section 3.2 of RFC 4648) |
| Cursor.UnpaddedRoundTrip | src/calltool/calls/service.py:354-367 | unpadded encoding, repadded, decodes to the same bytes |
| Cursor.CursorRoundTrip | src/calltool/calls/service.py:354-374 | a cursor handed out is accepted and names the same key |
| Cursor.CursorIsUnpadded | src/calltool/calls/service.py:354-359 | a cursor handed out is the encoding of its key without the padding |
| Cursor.CursorAcceptedIff | src/calltool/calls/service.py:362-374 | a text is accepted exactly when it decodes to bytes that parse to a key with an id, and is an invalid cursor otherwise |
| Ulid.EncodeUlid | src/calltool/calls/ids.py:9-14 | the in-place loop fills the array with the 26 base-32 digits, most significant first |
| Ulid.EncodeDigits | src/calltool/calls/ids.py:6-14 | the k-th character is the k-th digit to the base 32 in the alphabet without I, L, O and U |
| Ulid.IdShape | src/calltool/calls/ids.py:17-21 | an identifier is its prefix, an underscore and the 26 digits of the 48 time bits followed by the random ones |
| Ulid.EncodeInjective | src/calltool/calls/ids.py:9-14 | decoding gives the value modulo 2^130, and two values encode alike if and only if they agree modulo 2^130 |
| Ulid.EncodeOrdered | src/calltool/calls/ids.py:9-14 | below 2^130 numeric order and lexicographic order coincide, both ways |
| Ulid.EarlierSortsFirst | src/calltool/calls/ids.py:17-21 | below 2^48 milliseconds an earlier timestamp sorts first whatever the random bits |
| Prompts.HoleMatches | src/calltool/voice/prompts.py:13 | the pattern finds every placeholder, whatever follows it |
| Prompts.ReadingIsScan | src/calltool/voice/prompts.py:65-72 | any reading of a text without leftover brace pairs is the one the scanner finds |
| Prompts.AcceptedIffReadable | src/calltool/voice/prompts.py:59-73 | a file is accepted if and only if its stripped text is non-empty and readable as characters and supported placeholders, and then in exactly one way |
| Prompts.RenderFillsTheReading | src/calltool/voice/prompts.py:75-79 | rendering fills that unique reading in one pass and strips it, and fails exactly when only white space is left |
| Prompts.ValuesAreNotScanned | src/calltool/voice/prompts.py:76 | a value replaces its placeholder verbatim, braces in it included |
| Base.StripTakesTheEnds | src/calltool/voice/prompts.py:59-60 | stripping takes white space from both ends of a text and nothing else |
| Base.SpaceCharacters | src/calltool/voice/prompts.py:59-60 | white space is the 29 characters that str.strip removes |
| Prompts.CallShows | src/calltool/voice/prompts.py:205-231 | what the placeholders of the call itself show |
| Prompts.RulesShow | src/calltool/voice/prompts.py:205-231 | what the placeholders of its constraints, context and permissions show |
| Prompts.ChoicesShow | src/calltool/voice/prompts.py:205-231 | what the placeholders of direction and single permissions show |
| Prompts.NamesShow | src/calltool/voice/prompts.py:205-231 | what the placeholders of names show that may be missing or empty |
| Prompts.NoValueIsMissing | src/calltool/voice/prompts.py:205-231 | the values of a call cover every placeholder of a loaded template |
| EventFanout.FanoutConserves | src/calltool/realtime/events.py:111-172 | at every point published events split exactly into taken, queued, blocked and dropped, none of the eight critical kinds among the dropped; the queue keeps its bound; each sink gets the taken events in enqueue order |
| EventFanout.DroppedIff | src/calltool/realtime/events.py:125-138 | an event is dropped exactly when it is published to an open dispatcher, is of none of the eight critical kinds, and finds the queue full |
| CriticalEvents.DecisiveEventsAreNotDropped | src/calltool/realtime/events.py:19-30 | the event of an accepted commitment, question, answer, timeout, cancellation, completion or failure has its name, and no open dispatcher drops it, however full |
| CriticalEvents.ProgressMayBeDropped | src/calltool/realtime/events.py:131-138 | the event of any other status write is dropped by a full queue |
| EventFanout.NothingBehindMarkerIsTaken | src/calltool/realtime/events.py:140-145 | once the end marker is queued only the events ahead of it are ever taken |
| EventFanout.CloseStrandsIff | src/calltool/realtime/events.py:159-167 | every event published and not dropped is taken by the end if and only if no publisher was blocked when the marker went in |
| EventFanout.DeliveredUnlessRaised | src/calltool/realtime/events.py:146-155 | over every run each sink receives, in order, exactly the events offered to it whose own send did not raise, and the log names exactly the others |
| EventFanout.SinksAreIsolated | src/calltool/realtime/events.py:146-155 | what other sinks raise changes nothing of what a sink is offered and receives over a whole run |
| EventFanout.CriticalEventCanBeStranded | src/calltool/realtime/events.py:125-130 | for every queue size and every set of sinks, a run in which a critical event is published and never offered to any sink |
| EventDispatcher.OfferAllReachesEverySink | src/calltool/realtime/events.py:146-155 | whatever the sinks raise, each is offered the event once, in one sweep, and the log names exactly those that raised |
| EventDispatcher.AsyncEventDispatcher.Publish | src/calltool/realtime/events.py:125-138 | the fields change as one publish step of the fan-out model |
| EventDispatcher.AsyncEventDispatcher.WakePut | src/calltool/realtime/events.py:128-130 | a waiting put that finds room enqueues its event |
| EventDispatcher.AsyncEventDispatcher.SendToAll | src/calltool/realtime/events.py:146-155 | a send that raises is caught and logged, and the loop goes on to the next sink |
| EventDispatcher.AsyncEventDispatcher.RunOnce | src/calltool/realtime/events.py:140-157 | one turn of the consumer takes an element and sends an event to every sink, as the model does |
| EventDispatcher.AsyncEventDispatcher.Close | src/calltool/realtime/events.py:159-164 | closing is idempotent and puts or blocks the end marker |
| MemoryRepository.MemoryCallRepository.CreateCall | src/calltool/storage/memory.py:36-47 | the dictionaries change as the store's create_call, and the answer is the earlier or the new call |
| MemoryRepository.MemoryCallRepository.UpdateCall | src/calltool/storage/memory.py:69-119 | call and event log change together exactly as in the row semantics, or nothing changes and the error is the right one |
| MemoryRepository.MemoryCallRepository.AppendTranscriptTurn | src/calltool/storage/memory.py:169-214 | table, utterance and log change together, blank text and unknown calls change nothing |
| MemoryRepository.MemoryCallRepository.CountDispatched | src/calltool/storage/memory.py:229-238 | the loop counts the calls, of either direction, from PREWARMING to COMPLETING and those in front of that with a dispatch id |
| MemoryRepository.MemoryCallRepository.FindIdempotent | src/calltool/storage/memory.py:59-67 | the search over the dictionary finds what the specification finds |
| MemoryRepository.MemoryCallRepository.ResolveInputRequest | src/calltool/storage/memory.py:260-274 | only a pending request of that call is settled; otherwise nothing changes |
| MemoryRepository.MemoryCallRepository.ExpireInputRequest | src/calltool/storage/memory.py:276-287 | only a pending request of that call expires; otherwise nothing changes |
| PostgresRepository.PostgresCallRepository.UpdateCall | src/calltool/storage/postgres.py:148-235 | the transaction changes the row and appends an event numbered by the stored maximum, or changes nothing |
| PostgresRepository.PostgresCallRepository.AppendTranscriptTurn | src/calltool/storage/postgres.py:312-411 | table, utterance and log change together, numbered by the stored maxima |
| PostgresRepository.PostgresCallRepository.ResolveInputRequest | src/calltool/storage/postgres.py:491-511 | the conditional UPDATE and the fallback read together settle a request exactly as the memory repository does |
| PostgresRepository.PostgresCallRepository.ExpireInputRequest | src/calltool/storage/postgres.py:513-529 | the same for expiry |
| ActiveCalls.ActiveCallContext.ApplyCall | src/calltool/realtime/active_calls.py:122-132 | takes status, phase, times, question, room and voice session from the call and keeps facts, candidates, commitments and utterance |
| ActiveCalls.ActiveCallContext.FindCommitment | src/calltool/realtime/active_calls.py:140-141 | the first commitment with that id, or none |
| ActiveCalls.ActiveCallContext.PersistCommitment | src/calltool/realtime/active_calls.py:178-192 | queues a snapshot with the commitment appended while the hot list stays as it is |
| ActiveCalls.ActiveCallContext.PersistState | src/calltool/realtime/active_calls.py:194-213 | queues the current snapshot as a required item, or nothing once closed |
| ActiveCalls.ActiveCallContext.PersistCompletion | src/calltool/realtime/active_calls.py:236-257 | moves the phase and queues the completion with the current snapshot |
| ActiveCalls.ActiveCallContext.PersistStateDurable | src/calltool/realtime/active_calls.py:215-234 | queues the current snapshot with a new future, or raises once closed |
| ActiveCalls.ActiveCallContext.PersistEvent | src/calltool/realtime/active_calls.py:259-271 | queues an optional event without a snapshot |
| ActiveCalls.ActiveCallContext.SubmitAndWait | src/calltool/realtime/active_calls.py:348-366 | the item carries the newest future; a closed context accepts nothing |
| ActiveCalls.ActiveCallContext.PersistTranscript | src/calltool/realtime/active_calls.py:273-301 | a blank text does nothing; otherwise one step of the model, by which a user turn alone moves the utterance (HotHistory.RowRemembers), and the turn is queued as required |
| ActiveCalls.ActiveCallContext.HandleNext | src/calltool/realtime/active_calls.py:368-397 | one turn of the writer loop is one writer step of the model and touches no other call |
| ActiveCalls.ActiveCallContext.Perform | src/calltool/realtime/active_calls.py:381-395 | the repository call of an item, with an arbitrary fate, reports and lands as the model says |
| ActiveCalls.ActiveCallContext.RunPersistence | src/calltool/realtime/active_calls.py:368-397 | the loop on a closed context ends, and leaves the drained state |
| ActiveCalls.ActiveCallContext.Flush | src/calltool/realtime/active_calls.py:303-311 | returns normally exactly from an open context without a required failure, and then every required operation accepted so far has taken effect |
| ActiveCalls.ActiveCallContext.Close | src/calltool/realtime/active_calls.py:313-325 | afterwards the writer has stopped, every accepted item was handled and every future settled; it raises exactly when a required write failed; closing twice changes nothing |
| VoiceTools.ToolRuntime.RecordFact | src/calltool/voice/tools.py:69-81 | fact and snapshot enter hot state and queue in one step |
| VoiceTools.ToolRuntime.ProposeCandidate | src/calltool/voice/tools.py:84-107 | the candidate carries the policy's verdict; a raising policy leaves no trace |
| VoiceTools.ToolRuntime.AuthorizeCommit | src/calltool/voice/tools.py:112-151 | answers at once exactly on replay; otherwise queues the commitment and holds the lock |
| VoiceTools.ToolRuntime.ResumeCommit | src/calltool/realtime/active_calls.py:191-192 | answers and adds to the hot state exactly when the durable write succeeded |
| VoiceTools.ToolRuntime.SaveVoiceSession | src/calltool/voice/tools.py:236-268 | a locked change of the voice session and its durable snapshot |
| VoiceTools.ToolRuntime.ResumeSave | src/calltool/voice/tools.py:264-268 | releases the lock after the durable write, whether it succeeded or not |
| VoiceTools.ToolRuntime.BeginAsk | src/calltool/voice/tools.py:159-160 | takes the lock and queues the barrier of a flush |
| VoiceTools.ToolRuntime.ResumeFlush | src/calltool/voice/tools.py:160-161 | goes on to ask exactly when the flush succeeded without a required failure |
| VoiceTools.ToolRuntime.Answered | src/calltool/voice/tools.py:168-178 | takes the question out of the hot state |
| VoiceTools.ToolRuntime.FinishCall | src/calltool/voice/tools.py:295-318 | builds the outcome from the current facts and commitments and queues the completion |
| VoiceTools.ToolRuntime.FinishUnlocked | src/calltool/voice/tools.py:269-280 | the completion that does not take the lock |
| VoiceTools.ToolRuntime.ResumeFinish | src/calltool/voice/tools.py:313-316 | the call is finished exactly when the completion is durable |
| VoiceTools.ToolRuntime.Ask | src/calltool/voice/tools.py:159-163 | the hot state shows the question only when the repository accepted it |
| CallWorker.Worker.WriteAndApply | src/calltool/worker/agent.py:198-284 | a status write of the worker is compare-and-set, and only an accepted one is applied to the hot state |
| CallWorker.Worker.Dial | src/calltool/worker/agent.py:198-205 | DIALING is written together with the current snapshot |
| CallWorker.Worker.Activate | src/calltool/worker/agent.py:276-284 | ACTIVE is written together with the current snapshot |
| CallWorker.Worker.Fail | src/calltool/worker/agent.py:358-424 | FAILED is written only over a status that is not terminal |
| CallWorker.CompletionOnHangup | src/calltool/worker/agent.py:770-806 | a call in progress without an outcome ends COMPLETED and dated as remote_hangup, a success if and only if it is inbound or has an allowed and confirmed commitment, with the summary of the supervisor or one of three |
| CallWorker.CompletionOtherwise | src/calltool/worker/agent.py:761-806 | a completing call keeps the outcome it has but for the summary, and a call that is not in progress is left alone |
| CallWorker.Worker.CompleteCall | src/calltool/worker/agent.py:761-807 | reading, completing and completing with the enriched summary change the row as the three model steps do |

## Left out

- Network, media and process plumbing: LiveKit rooms, SIP, Redis, webhooks, HTTP and MCP routing, asyncpg pools, the command line, logging, metrics and tracing appear only as success or failure.
- Phone number validation, SHA-256, JSON and datetime parsing: their results are carried as data (a normalised number or none, the digested pair, a string with the instant it denotes).
- The regular expressions, case folding and weekday names inside a constraint text: a constraint carries the hours and closed days found in it.
- Payloads of status and tool events (question, commitment, outcome reason) are modelled as empty; the transcript payload, which the back-fill reads, and the payloads of notes and reports are kept.
- Creation times of candidates, commitments and input requests, and the timestamp of the first event of a call, which memory takes from its own clock.
- Base64 decoding that skips foreign characters, as the standard library's lenient mode does: the model rejects them, so only cursors the service did not issue are affected.
- Target-name search (case folding in memory, ILIKE in Postgres): a list filter is one arbitrary predicate.
- `VoiceWatchdog`, voice selection, language tags, DTMF codes and SIP error mapping: single-function case splits or claims about task cancellation.
- Completeness of the server-sent event stream.
- The five-second limit on closing the event dispatcher, after which its consumer is cancelled.
- Concurrent inserts that violate a unique constraint in Postgres, and its create_call; the select queries of Postgres are not modelled beside the memory ones.
- The order of equal creation times in the Postgres waiting line, which SQL leaves open.
- The polling loop of request_user_input, and the second handling of an inbound call that is still CONNECTED when its job starts again.
- Prompt loading before the text is decoded: file size, readability and UTF-8 checks.
- Service.CallService.DispatchQueued: apart from a listed call being overtaken before its record, runs without another request in between; all interleavings are the subject of DispatchRuns and DispatchPasses.
- ActiveCalls.ActiveCallContext.Close: assumes that only the writer runs until it has stopped; what other tasks may submit meanwhile is the subject of Accounting.
- A fate may also strike the barrier of a flush, which in the code cannot fail: the theorems hold for this larger set of runs.
