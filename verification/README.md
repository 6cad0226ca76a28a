# Verified model of the todo workflow system

This project models the parts of the repository whose correctness depends on more than one
function at a time, and proves what their code and documentation promise. Every statement
ranges over all inputs, all runs or all failure schedules; where the code does not keep a
promise in full, the project holds the exact condition and a concrete counterexample.

| file | what it models |
|---|---|
| `Prelude.dfy` | options, results, reading and joining lists, and counting |
| `Titles.dfy` | the title rule twice: on code points (server) and on UTF-16 code units (client) |
| `WorkflowDomain.dfy` | the workflow state machine and its reachable snapshots |
| `SnapshotCodec.dfy` | writing a snapshot to a stored record and the hand-written validator that reads it back |
| `Tables.dfy`, `WorkflowService.dfy` | the tables, and starting and advancing a workflow as transactions with a journal |
| `WorkflowDecisions.dfy` | the whole outcome of every start and action, and the events that tell of workflows over runs |
| `SuggestionService.dfy`, `SuggestionInvariant.dfy`, `SuggestionTheorems.dfy` | reserve, finish, claim, finish-claimed and the expiry sweep, and their inductive invariant |
| `SuggestionDecisions.dfy` | the whole outcome of each of those transactions, and of one request from reservation to result |
| `Runs.dfy` | every interleaving of those transactions with worker deliveries that are duplicated or crash between them, each transaction with an arbitrary clock reading |
| `RequestLives.dfy` | over those runs: what the provider is asked, and where each row and its answer came from |
| `Store.dfy` | the services as a class that updates its tables in place, each method proved equal to the transaction it implements |
| `Agent.dfy` | the agent's message-history check and its answer, from a workflow and suggestions read at different moments |
| `AgentStream.dfy` | the agent run as a generator: yields, raising calls, handlers that may raise in turn, a cancelled provider call and a consumer that goes away |
| `AgentDecisions.dfy` | the whole answer of a run, and the order of its reads, its provider call and its events |
| `ReleaseDeploy.dfy` | the release saga under calls that fail before or after their effect, and the script itself as a class |
| `ReleaseOrder.dfy` | the record of a release, step by step: what stands before each deployment, promotion, restore and clean-up |
| `ClientFlow.dfy`, `FixtureFlow.dfy` | the two ends of the test phone call: the automated caller and the test IVR |
| `ClientDecisions.dfy`, `FixtureDecisions.dfy` | what either end makes of every kind of input at every stage |
| `SpokenNumbers.dfy`, `Announcements.dfy`, `DigitRuns.dfy` | the number words, price sentences and digit runs one end speaks and the other parses |
| `Transcripts.dfy` | the clean-up of heard text, character by character, and every transcript of a price sentence |
| `OwnerChain.dfy` | the map of promises that serializes each owner's storage operations |
| `PendingWrite.dfy` | the client's write-ahead slot behind that queue, raw call by raw call |
| `PendingDecisions.dfy` | a whole save, a whole clear and a whole send, from what their raw calls answer |
| `EndToEnd.dfy` | one run of that client, a network that delays, loses and duplicates, and the server: what arrives was read back, and changes the tables at most once |
| `AnalyticsExport.dfy` | overlapping and crashing runs of the outbox export |
| `ResilientExporter.dfy` | the circuit breaker around the span exporter |
| `Backfill.dfy` | the two-sided batch backfill |

Conventions. A transaction or a lock-held block is one step; what lies between two steps may be
interleaved with anything. `now` is an argument of each transaction, unrelated to any other
reading unless a lemma says so. A request fingerprint is the payload it hashes (SHA-256 taken
as injective). A suggestion's id is its position: rows are only appended. Each imperative
component has a specification function on values, a class or method proved equal to it, and
theorems about the function.

Where the code does not keep a promise in full:

- An agent run is documented to end in exactly one terminal event. It has none when a handler's
  rollback raises (`AgentStream.FailingRollbackEndsSilently`) or the consumer goes away, possibly
  inside the tool call (`AgentStream.DisconnectLeavesHalfACall`);
  `AgentStream.EveryRunIsWellFormed` is the exact condition.
- A release whose summary cannot be written raises although it deployed
  (`ReleaseDeploy.RaisingAfterDeploying`); `ReleaseDeploy.SummaryLostIff` says exactly when, and
  `ReleaseDeploy.TrafficStandsIff` exactly when a release leaves all traffic as it was.
- A release with the same service configured as API and as worker may deploy its candidate twice
  (`ReleaseDeploy.OneServiceTwice`); `ReleaseDeploy.MutatesTwiceIff` is the exact condition.
- The validator of stored snapshots accepts a completed snapshot that repeats a todo
  identifier, which no run produces (`SnapshotCodec.RepeatedTodoIdIsAccepted`), and identifiers
  in other spellings; `SnapshotCodec.ValidatorReachesExactly` and
  `SnapshotCodec.AcceptedIsARunsImageIff` state its reach.
- A caller that has seen 4096 event ids reserves a second hangup for a late `call.hangup`
  (`ClientFlow.HangsUpTwice`); `ClientFlow.HangsUpAgainIff` is the exact condition.
- That second hangup restarts the clean-up clock, so a tick past the call timeout and another 15 s
  later may leave the call hanging up (`ClientFlow.TwoTicksMayNotEndIt`);
  `ClientFlow.TwoTicksEndIff` says exactly when.
- With `max_consecutive_failures` below 1 the breaker still makes one attempt per cooldown
  (`ResilientExporter.ZeroFailuresStillTries`); `ResilientExporter.PlainBoundIff` says that the
  plain bound holds exactly from 1 on, and the general bound uses max(1, max_consecutive_failures).
- A save replaces another request's record when its first read comes back empty over it
  (`PendingWrite.BlankCheckOverwrites`), and only then (`PendingWrite.PassesIffBlank`,
  `PendingWrite.ReplacesIffBlind`, `PendingWrite.RecordsStay`).

The outbox export is at-least-once, as it says: a crash between load and mark loads a batch
again (`AnalyticsExport.CrashLoadsTwice`).

## Model

| member | source | states |
|---|---|---|
| Titles.StripIsUnique | apps/api/app/title_validation.py:1-9 | stripping by the trim set has one answer: any split of a text into trimmed ends and a middle that starts and ends outside the set has the stripped text as its middle |
| Titles.CanonicalIsSettled | apps/api/app/title_validation.py:8-16 | canonicalization is idempotent, and the texts it returns are exactly the non-empty, trimmed, surrogate- and NUL-free ones within the limit |
| Titles.TitleDecides | apps/api/app/title_validation.py:8-16 | the whole rule, for any title taken apart into trimmed ends and a tight middle: refused for a NUL, else for a surrogate, else for an empty middle or one over 120 code points, and otherwise that middle |
| Titles.TrimCharacters | apps/api/app/title_validation.py:1-5 | the trimmed characters, one by one |
| Titles.EncodeInvertsDecode | apps/mobile/src/todos/todoApi.ts:238-252 | decoding UTF-16 and encoding again gives the same code units, unpaired surrogates included |
| Titles.TrimCommutes | apps/mobile/src/todos/todoApi.ts:254-259 | trimming code units and trimming decoded code points is the same operation |
| Titles.CountCodePoints | apps/mobile/src/todos/todoApi.ts:238-252 | returns the decoded length, or null exactly when an unpaired surrogate occurs |
| Titles.NormalizeTodoTitle | apps/mobile/src/todos/todoApi.ts:254-273 | returns null exactly when the server would refuse the decoded string, and otherwise the encoding of the server's canonical title |
| Titles.NormalizedTitleAgrees | apps/api/app/title_validation.py:8-16 | client and server agree on every UTF-16 string, the client rule is idempotent, and decoding its answer gives the server's |
| Titles.ServerTitlesAreClientTitles | apps/mobile/src/todos/todoApi.ts:254-273 | every canonical server title is kept unchanged by the client |
| WorkflowDomain.CreateSubmitTasks | apps/api/app/workflow_domain.py:109-121 | the loop returns the canonical titles in order, or refuses when the count or any title is out of bounds |
| WorkflowDomain.SubmittedDecides | apps/api/app/workflow_domain.py:109-121 | accepted exactly when there are two to ten titles and each can be made canonical, and then exactly those, in order |
| WorkflowDomain.SubmittedTitlesFixed | apps/api/app/workflow_domain.py:109-121 | its results are exactly the lists it would return unchanged |
| WorkflowDomain.RankDrops | apps/api/app/workflow_domain.py:133-205 | every accepted action uses up rank, so no workflow accepts more than four |
| WorkflowDomain.FollowsKeepsCoherent | apps/api/app/workflow_domain.py:124-205 | each accepted action keeps the state-by-state characterisation of a workflow, its identifier and its title |
| WorkflowDomain.ReachableIsCoherent | apps/api/app/workflow_domain.py:92-205 | every snapshot a run reaches satisfies that characterisation and carries the number of accepted actions, at most four, as its revision |
| SnapshotCodec.RecordRoundTrip | apps/api/app/workflow_repository.py:371-535 | every snapshot a run can reach is read back from its record as it was written |
| SnapshotCodec.WrittenForm | apps/api/app/workflow_repository.py:371-396 | the written form: which key holds which part of the snapshot, and under which name each state is stored |
| SnapshotCodec.RenumberedRoundTrip | apps/api/app/workflow_repository.py:371-535 | so is the same snapshot with any in-range revision and definition number |
| SnapshotCodec.AcceptedIsReachable | apps/api/app/workflow_repository.py:405-535 | an accepted record whose todo identifiers are distinct describes the end of an explicit run, revision and definition number aside |
| SnapshotCodec.ValidatorIsExact | apps/api/app/workflow_repository.py:405-535 | for distinct todo identifiers, the validator accepts a record of a snapshot if and only if its numbers are in range and some run reaches it |
| SnapshotCodec.ValidatorReachesExactly | apps/api/app/workflow_repository.py:405-535 | over all snapshots, accepted if and only if the numbers are in range and some run reaches it once its todos are numbered apart |
| SnapshotCodec.AcceptedIsItsOwnImage | apps/api/app/workflow_repository.py:371-535 | an accepted record is the one that would be written for its snapshot exactly when its identifiers are spelled the way they are written |
| SnapshotCodec.AcceptedIsARunsImageIff | apps/api/app/workflow_repository.py:371-535 | an accepted record is what would be written at the end of a run, revision and definition aside, if and only if its todo identifiers are distinct and all identifiers are spelled as written |
| SnapshotCodec.RepeatedTodoIdIsAccepted | apps/api/app/workflow_repository.py:488-535 | the accepted record that no run produces |
| WorkflowService.StartKeepsInv | apps/api/app/workflow_service.py:127-158 | starting a workflow keeps the journal, todo and start-request invariants |
| WorkflowService.StartCases | apps/api/app/workflow_service.py:127-158 | a start changes nothing or opens exactly one new workflow, and an accepted reply is recorded under its request |
| WorkflowService.AdvanceCases | apps/api/app/workflow_service.py:175-282 | an advance changes nothing or applies one new journal row and answers with its snapshot |
| WorkflowService.AdvanceKeepsInv | apps/api/app/workflow_service.py:175-282 | advancing a workflow keeps the journal, todo and start-request invariants |
| WorkflowService.ResentAdvance | apps/api/app/workflow_service.py:190-198 | once accepted, an advance sent again in any later database changes nothing and gets the recorded snapshot |
| WorkflowService.ResentStart | apps/api/app/workflow_service.py:127-158 | one start request opens one workflow, however often it is sent |
| WorkflowService.CreatedTodosAreProposals | apps/api/app/workflow_service.py:220-240 | a workflow's todos are its proposals in order, none of them completed, if it is completed, and none otherwise |
| WorkflowService.CoherentRefusals | apps/api/app/workflow_service.py:199-220 | on every reachable snapshot, exactly when a new action is accepted, and which of stale, terminal and invalid it is refused with otherwise |
| WorkflowService.RevisionNeverExhausted | apps/api/app/workflow_service.py:216-219 | no transaction on a reachable database reports an exhausted revision |
| WorkflowDecisions.AdvanceDecision | apps/api/app/workflow_service.py:185-282 | the whole outcome of a new action: not found, stale, terminal, invalid or colliding, in that order and without a change; otherwise the workflow, the journal row, the todos and the completed event are those of the action by state and command, and the answer is what was written |
| WorkflowDecisions.JournalledDecision | apps/api/app/workflow_service.py:190-198 | a request in the journal changes nothing: the same action gets its recorded answer, any other is refused as a reused id |
| WorkflowDecisions.StartDecision | apps/api/app/workflow_service.py:127-158 | the whole outcome of a start: a bad title, a repeated request, a reused request, a colliding identifier, or one workflow opened at its first question with its event |
| WorkflowDecisions.EventsTellTheRun | apps/api/app/workflow_service.py:143-270 | in every run, one started event per workflow and one completed event per completed workflow, each under its owner |
| SuggestionService.NormalizingSettles | apps/api/app/suggestion_service.py:118-139 | normalizing a clarification twice is normalizing it once |
| SuggestionService.Candidates | apps/api/app/suggestion_service.py:848-864 | the sweep's candidates are overdue rows in id order, at most the limit, and an overdue row is passed over only behind a full batch |
| SuggestionInvariant.RowsAreStorable | apps/api/app/suggestion_service.py:222-289 | a row that satisfies the invariant passes the table's constraints and reads back as its snapshot |
| SuggestionInvariant.PendingIsLatest | apps/api/app/suggestion_service.py:292-303 | a pending row is what the latest-suggestion query returns for its workflow |
| SuggestionInvariant.RewrittenKeepsInv | apps/api/app/suggestion_service.py:777-817 | moving one pending row, with the events its outcome requires and no others, keeps the invariant |
| SuggestionInvariant.AppendedKeepsInv | apps/api/app/suggestion_service.py:367-418 | superseding the pending row and appending a new one keeps the invariant |
| SuggestionInvariant.MovingOnKeepsInv | apps/api/app/workflow_service.py:241-270 | workflow transactions keep the suggestion invariant |
| SuggestionTheorems.ReserveCases | apps/api/app/suggestion_service.py:306-427 | a reservation changes nothing or appends one pending row that holds the request, its normalized clarification and, when queued, the time of the reservation and a deadline 15 minutes later; the reply is what was stored |
| SuggestionTheorems.FinishInlineCases | apps/api/app/suggestion_service.py:430-484 | an inline finish changes nothing or ends the pending row of an unchanged workflow with exactly the titles proposed or the error given |
| SuggestionTheorems.ClaimCases | apps/api/app/suggestion_service.py:577-672 | a claim changes nothing, marks the row or ends it; a granted claim carries the owner, the time, the workflow's title and the clarification the row was made with |
| SuggestionTheorems.FinishClaimedCases | apps/api/app/suggestion_service.py:696-774 | finishing a claim changes nothing, ends the row with exactly the titles proposed or the error given, or supersedes it |
| SuggestionTheorems.ExpireCases | apps/api/app/suggestion_service.py:886-905 | expiring a candidate changes nothing or fails the row with a timeout |
| SuggestionTheorems.ClaimDecision | apps/api/app/suggestion_service.py:577-672 | the whole answer to a claim and the row and event it writes, by the row, the two deadlines and the workflow: the whole granted claim with goal and clarification, the committed timeout, the committed supersession; stored inputs of reachable rows never fail to decode |
| SuggestionTheorems.LapsedClaimTimesOut | apps/api/app/suggestion_service.py:618-631 | a claimed row is never granted again; once its claim has lapsed it is answered with a recorded timeout |
| SuggestionTheorems.SaveOrExpire | apps/api/app/suggestion_service.py:740-774 | a claimed pending row of an unchanged workflow can at any given time be either saved with exactly its result or expired as a timeout, never both and never neither |
| SuggestionTheorems.ReadyOnlyAtItsBase | apps/api/app/suggestion_service.py:740-774 | no finish makes a row ready unless its workflow is still collecting at the row's base revision |
| SuggestionTheorems.ResentReserve | apps/api/app/suggestion_service.py:339-365 | a repeated reservation changes no row and no deadline; it is stale exactly when its row was superseded and in progress exactly when it is a pending inline one |
| SuggestionTheorems.ReusedRequestIsRefused | apps/api/app/suggestion_service.py:339-343 | the same request id with anything changed is refused and nothing is written |
| SuggestionTheorems.SweepReaches | apps/api/app/suggestion_service.py:866-911 | when the sweep comes to a candidate, its own earlier work has not touched it |
| SuggestionTheorems.SweepsDrain | apps/api/app/suggestion_service.py:840-911 | with nobody else at work, k sweeps leave exactly max(0, n - 100k) of n overdue rows |
| SuggestionDecisions.ReserveDecision | apps/api/app/suggestion_service.py:306-418 | the whole outcome of a reservation under a new request id, and each reason it is refused for |
| SuggestionDecisions.InlineDecision | apps/api/app/suggestion_service.py:430-484 | the whole outcome of an inline finish: the row, the event and the answer are those of the very result, or the row is only read, or the request is stale |
| SuggestionDecisions.InlineWithoutRow | apps/api/app/suggestion_service.py:430-460 | an inline finish of a request nobody made |
| SuggestionDecisions.FinishDecision | apps/api/app/suggestion_service.py:696-774 | the whole outcome of finishing a claim: refused, dropped, superseded, or the row, the event and the answer of the very result |
| SuggestionDecisions.ExpireDecision | apps/api/app/suggestion_service.py:886-905 | a sweep fails exactly the queued rows past 15 minutes from their reservation or 2 minutes from their claim |
| SuggestionDecisions.ReservedThenClaimed | apps/api/app/suggestion_service.py:394-396 | a queued reservation can be claimed for 15 minutes, for the goal and clarification it was made with, and a claim from then on records and answers a timeout |
| SuggestionDecisions.ClaimedThenFinished | apps/api/app/suggestion_service.py:696-774 | a granted claim can be finished for 2 minutes, within those 15, with what the provider answered, and is dropped from then on |
| SuggestionDecisions.ClarificationDecides | apps/api/app/suggestion_service.py:118-139 | a clarification is refused outside the fixed fields, when empty, over 200 code points or holding a NUL or surrogate, and otherwise trimmed |
| Runs.StepKeepsInv | apps/api/app/worker.py:576-747 | every step of the system keeps the whole invariant, and later states only extend earlier ones |
| Runs.GrantedAtMostOnce | apps/api/app/worker.py:582-642 | in every run the provider is called at most once for each suggestion |
| Runs.MarkerIsPermanent | apps/api/app/suggestion_service.py:618-645 | a claim marker, once written, is in every later state of the run |
| Runs.EndedRowsAreFrozen | apps/api/app/suggestion_service.py:777-817 | ready, failed and superseded rows never change again, titles and error included |
| Runs.PendingIsUniqueAndNewest | apps/api/app/suggestion_service.py:367-418 | in every reachable state a workflow has at most one pending suggestion, and it is its newest row |
| Runs.FinishedEventsCountEndedRows | apps/api/app/suggestion_service.py:777-817 | along every run and per workflow, one finished event per ready or failed row, and "ready" ones exactly for ready rows |
| Runs.NoStaleReady | apps/api/app/suggestion_service.py:740-774 | no step of any run makes a row ready once its workflow has left the row's base revision |
| Runs.EveryHistoryIsLinear | apps/api/app/workflow_service.py:185-282 | in every reachable state the journal of a workflow is a linear history of accepted actions as long as its revision, revision plus rank is at most four, and its todos are its proposals once completed |
| Runs.AcceptedOnceForAll | apps/api/app/workflow_service.py:190-198 | a request accepted at any point of a run gets the same snapshot and changes nothing whenever it is sent again |
| Runs.SweepIsARun | apps/api/app/worker.py:807-878 | a sweep is a sequence of expiry steps, so what holds of runs holds across sweeps |
| RequestLives.ProviderIsAskedTheRequest | apps/api/app/worker.py:508-548 | in every run, each provider call is given the goal and clarification of a reservation made earlier in the run, under the row it is for |
| RequestLives.ClaimsCarryTheRequest | apps/api/app/suggestion_service.py:653-666 | in every run, a claim in progress carries the owner, the claim time, the workflow's title and the clarification of its row |
| RequestLives.RowsWereReserved | apps/api/app/suggestion_service.py:367-418 | in every run, every row was reserved by a request of the run, and records that request and the time it was made |
| RequestLives.RowsEndWithTheirAnswers | apps/api/app/suggestion_service.py:777-817 | in every run, a ready row holds the titles of a result brought for it, and a failed row the error of one or a timeout |
| Store.TodoDatabase.StartWorkflow | apps/api/app/workflow_service.py:127-158 | the tables after and the reply are those of the start transaction |
| Store.TodoDatabase.CreateTodos | apps/api/app/workflow_service.py:221-230 | the loop appends one open todo per title, in order, with the minted identifiers |
| Store.TodoDatabase.AdvanceWorkflow | apps/api/app/workflow_service.py:175-282 | the tables after and the reply are those of the advance transaction |
| Store.TodoDatabase.ReserveSuggestion | apps/api/app/suggestion_service.py:306-427 | the tables after and the reply are those of the reservation |
| Store.TodoDatabase.FinishSuggestion | apps/api/app/suggestion_service.py:430-484 | the tables after and the reply are those of the inline finish |
| Store.TodoDatabase.ClaimSuggestion | apps/api/app/suggestion_service.py:577-672 | the tables after and the reply are those of the claim |
| Store.TodoDatabase.FinishClaimedSuggestion | apps/api/app/suggestion_service.py:696-774 | the tables after and the reply are those of the claimed finish |
| Store.TodoDatabase.ExpireSuggestions | apps/api/app/suggestion_service.py:840-911 | the loop over candidates leaves the tables of the sweep and returns the rows it expired |
| AgentStream.EveryRunIsWellFormed | apps/api/app/agent.py:617-791 | under every schedule of raising calls, cancellation and closed yields, what is emitted is part of a complete log; it is complete (started, at most one balanced tool call, one terminal event) if and only if nothing cut the run off and no handler raised; it is then the run's answer if no call raised, and ends in an error otherwise |
| AgentStream.TerminalIsLast | apps/api/app/agent.py:574-614 | a terminal event is the last and only one, and the log is then complete |
| AgentStream.FailingRollbackEndsSilently | apps/api/app/agent.py:782-791 | an outage that also strikes the handler's rollback leaves RUN_STARTED alone |
| AgentStream.DisconnectLeavesHalfACall | apps/api/app/agent.py:777-781 | a consumer that goes away inside the tool call leaves it open, without a terminal event |
| Agent.AcknowledgedIsLatest | apps/api/app/agent.py:650-680 | an acknowledged run in REVIEW replays the latest proposal it reads, which is ready and based on the revision before |
| Agent.AcknowledgedThroughout | apps/api/app/agent.py:639-680 | whatever happens between the run's reads, that proposal was the latest one already when the run found the workflow in REVIEW |
| Agent.CardShowsCurrent | apps/api/app/agent.py:685-705 | a review card shows the latest ready suggestion as read, based on the revision at which both earlier reads found the workflow collecting |
| Agent.QuestionsAreFresh | apps/api/app/agent.py:707-781 | a clarifying question is asked only at the current step of a collecting workflow, when nothing was answered before, with the chosen field |
| Agent.NoNewerSuggestionInRun | apps/api/app/agent.py:664-673 | once a workflow has moved past collecting, no run gives it a newer suggestion |
| Agent.CardIsParsed | apps/api/app/agent.py:409-476 | messages are read as a review of a card exactly when their last tool result answers that card's call, the message before it, and no call id repeats |
| Agent.ReviewCardIsAcknowledged | apps/api/app/agent.py:650-680 | if the shown suggestion is still the latest when the titles, edited or not, are accepted, a later agent run that finds the workflow in REVIEW is acknowledged exactly when its last tool result answers that card, whatever happens in between, also between the run's reads |
| AgentDecisions.OnlyTheseStepsAnswer | apps/api/app/agent.py:632-684 | a run is refused unless the input is valid, the workflow is owned and stands, where tasks are collected or reviewed, at the step the client names |
| AgentDecisions.ReviewRun | apps/api/app/agent.py:639-680 | in review, a run is acknowledged exactly if its messages end with the answer to the card of the latest suggestion, ready and based on the revision before, and is refused otherwise |
| AgentDecisions.CollectingRun | apps/api/app/agent.py:682-781 | where tasks are collected, the exact events of a run: the card of the wanted suggestion if it is on show, the chosen question if nothing was answered or named before, and a refusal otherwise |
| AgentDecisions.EveryRunIsOrderly | apps/api/app/agent.py:660-791 | under every schedule the read transaction ends before the provider is asked and before anything of the answer is yielded, and an error event says agent_failed exactly if an unforeseen exception, or a ValueError outside the two lookups, was raised |
| AgentDecisions.AskedOnlyForQuestions | apps/api/app/agent.py:707-745 | under every schedule the provider is asked only where tasks are collected, with no suggestion named and nothing answered |
| AgentDecisions.InvalidInputReadsNothing | apps/api/app/agent.py:132-182 | an invalid input is refused before anything is read |
| ReleaseDeploy.DeployedServesCandidates | scripts/release_deploy.py:234-334 | a release that succeeds leaves every configured service on its candidate |
| ReleaseDeploy.DeployedPassedSmokes | scripts/release_deploy.py:258-333 | and both smokes of every configured service passed |
| ReleaseDeploy.FailureLeavesTraffic | scripts/release_deploy.py:335-399 | a release whose guarded part did not get through, and in which no restore failed, leaves the traffic of every service as it was at the start |
| ReleaseDeploy.TrafficStandsIff | scripts/release_deploy.py:147-444 | with no failed restore, a release, returning or raising, leaves all traffic as it was if and only if its guarded part did not get through or had nothing to move |
| ReleaseDeploy.SummaryLostIff | scripts/release_deploy.py:419-444 | a release that deployed raises exactly when the write of its summary fails |
| ReleaseDeploy.RaisingAfterDeploying | scripts/release_deploy.py:419-444 | a release that raises with its candidate in service |
| ReleaseDeploy.MutationsInOrder | scripts/release_deploy.py:227-417 | under every failure schedule the mutations come in one strict order: none twice for a service, restores after promotions, API before worker |
| ReleaseDeploy.MutatesTwiceIff | scripts/release_deploy.py:227-417 | a mutation is issued twice if and only if one service is configured in both roles and its roll-out as the worker gets through |
| ReleaseDeploy.RoutesIssued | scripts/release_deploy.py:268-384 | exactly which traffic moves a release issues |
| ReleaseDeploy.RestoredExactlyWhenPromoted | scripts/release_deploy.py:335-384 | a failed release restores a service exactly when it tried to promote it; a successful one restores nothing |
| ReleaseDeploy.OneServiceTwice | scripts/release_deploy.py:234-303 | with one service in both roles, a release in which nothing fails issues a mutation twice |
| ReleaseOrder.PromotedOnlyWhenSmoked | scripts/release_deploy.py:234-323 | under every failure schedule, right before any promotion stand its deployment without traffic, the image check, the check that what served at the start still serves, the tag and the candidate smoke, all passed |
| ReleaseOrder.MigratedBeforeDeploying | scripts/release_deploy.py:211-305 | what stands before a deployment is exactly the passed reads and the passed migration, and for the API the whole passed roll-out of the worker |
| ReleaseOrder.DeployedRecord | scripts/release_deploy.py:210-444 | the whole record of a release that deployed, in order: reads, migration, the worker's roll-out, the API's, each with the stable smoke after its promotion, then tags and summary |
| ReleaseOrder.TagsAreRemovedIff | scripts/release_deploy.py:400-444 | the tag of a service is removed exactly if the deployment of its candidate was attempted, and the summary comes last |
| ReleaseOrder.NothingIssuedIff | scripts/release_deploy.py:172-210 | a release issues nothing but its summary exactly if its configuration is malformed or a name is too long: 63 characters for a revision, 46 for a service and its tag |
| ReleaseOrder.RestoreFailedIff | scripts/release_deploy.py:335-399 | a release reports a failed restore exactly if some traffic move back is not followed at once by the check of the traffic and the stable smoke, all passed |
| ReleaseDeploy.Cloud.RollOutService | scripts/release_deploy.py:234-333 | the roll-out as a script performs the plan's actions up to the first failure and no further |
| ReleaseDeploy.Cloud.Restored | scripts/release_deploy.py:336-384 | a restore succeeds exactly when its traffic move, check and smoke all did |
| ReleaseDeploy.Cloud.RunScript | scripts/release_deploy.py:147-444 | the script leaves the world, and raises or returns, as the release on values does |
| ClientFlow.WireDialsTheDigits | spikes/ivr/client.py:330-346 | whatever the pause setting, the far end dials exactly the recognised digits |
| ClientFlow.WirePositions | spikes/ivr/client.py:330-336 | in the wire every digit is followed by exactly the configured number of pauses, the last one by none |
| ClientFlow.StepAdvances | spikes/ivr/client.py:257-475 | any input keeps the machine coherent and moving forward, with at most one command: a DTMF that answers the current stage with what was recognised in it, or a hangup |
| ClientFlow.EveryRunIsOrdered | spikes/ivr/client.py:257-475 | over every run: DTMFs first, the i-th for the i-th stage, none after a hangup, success only after all five, and at most 64 segments of 4096 characters with the count equal to their sum |
| ClientFlow.ForwardOnly | spikes/ivr/client.py:257-475 | between any two moments of a run stages only advance, a made decision stays, and sent commands stay sent |
| ClientFlow.HangsUpAgainIff | spikes/ivr/client.py:398-436 | a machine that is hanging up reserves another hangup exactly for a fresh call.hangup when its seen ids are full |
| ClientFlow.HangupsCounted | spikes/ivr/client.py:275-292 | the hangups of a run are one plus the number of such inputs once it is hanging up, and none before |
| ClientFlow.AtMostOneHangup | spikes/ivr/client.py:275-292 | a call with at most 4096 inputs hangs up at most once |
| ClientFlow.HangsUpTwice | spikes/ivr/client.py:413-416 | a run that hangs up twice |
| ClientDecisions.TickDecides | spikes/ivr/client.py:294-318 | a tick leaves an active call alone until stage or call is out of time, and then decides success or the failing reason and stage |
| ClientDecisions.LateResultDecides | spikes/ivr/client.py:294-318 | after the far end hung up in the result stage, the first tick past the grace or the call timeout decides by what was heard, without a command |
| ClientDecisions.FarHangupDecides | spikes/ivr/client.py:431-441 | a call.hangup ends any earlier stage as a failure and in the result stage only starts the grace |
| ClientDecisions.SegmentDecides | spikes/ivr/client.py:349-396 | what becomes of a final segment: out of order it fails the call, already consumed it is dropped, too much for the buffer fails the call; otherwise it is appended, and the whole buffer is answered with its digits, kept for the result, or failed as recognition says |
| ClientDecisions.AnsweredDecides | spikes/ivr/client.py:421-429 | a fresh, timely call.answered starts the welcome stage and its clock; buffered speech is then answered with its digits, listened on to, or failed, as recognition says |
| ClientDecisions.LateEventsAreTicks | spikes/ivr/client.py:398-412 | an event past a deadline is a tick, whatever it says |
| ClientDecisions.RepeatsAreIgnored | spikes/ivr/client.py:413-418 | an event without a usable id, or with one already seen, changes nothing |
| ClientDecisions.FullIdsFail | spikes/ivr/client.py:419-420 | a fresh event when 4096 ids are seen fails the call |
| ClientDecisions.OthersAreOnlyNoted | spikes/ivr/client.py:421-442 | any other timely event is only noted |
| ClientDecisions.UntypedAreDropped | spikes/ivr/client.py:414-417 | an event whose type is no text is not even noted |
| ClientDecisions.CommandFailureDecides | spikes/ivr/client.py:460-470 | the failure of the pending DTMF fails the call, that of the hangup ends it unconfirmed, that of any other command means nothing |
| ClientDecisions.InterruptDecides | spikes/ivr/client.py:472-475 | an interruption fails an active call and no other |
| ClientDecisions.EndedAndHangingUp | spikes/ivr/client.py:398-405 | an ended call ignores every event, and one that is hanging up every event but call.hangup |
| ClientDecisions.UnderstoodCallsSucceed | spikes/ivr/client.py:330-442 | for every recognizer that understands each prompt, some inputs take a new call through five DTMFs to success |
| ClientFlow.SecondTick | spikes/ivr/client.py:444-454 | a tick ends a call that is hanging up exactly when 15 seconds have passed since its last hangup |
| ClientFlow.TwoTicksEndIff | spikes/ivr/client.py:294-454 | after a tick past the call timeout and one 15 s or more later, whatever happens around them, a call is not over if and only if it was still hanging up before the second and the last input that reserved another hangup came less than 15 s before it |
| ClientFlow.TwoTicksEndTheCall | spikes/ivr/client.py:294-319 | so it is over when no such input came less than 15 s before the second tick |
| ClientFlow.TwoTicksMayNotEndIt | spikes/ivr/client.py:413-416 | a run that two such ticks leave hanging up |
| ClientFlow.ClientCall.HandleEvent | spikes/ivr/client.py:398-442 | the fields after an event and the returned command are those of the machine on values |
| ClientFlow.ClientCall.HandleKind | spikes/ivr/client.py:421-442 | the same for the part of the handler that dispatches on the event type |
| ClientFlow.ClientCall.HearSegment | spikes/ivr/client.py:363-396 | the same for a transcription segment |
| ClientFlow.ClientCall.Recognise | spikes/ivr/client.py:349-361 | the same for evaluating the buffered speech |
| ClientFlow.ClientCall.Reserve | spikes/ivr/client.py:330-347 | the same for reserving the DTMF command of a stage |
| ClientFlow.ClientCall.Deadline | spikes/ivr/client.py:307-318 | the same for a passed deadline |
| ClientFlow.ClientCall.FailCall | spikes/ivr/client.py:285-292 | the same for failing the call |
| ClientFlow.ClientCall.ExpireAt | spikes/ivr/client.py:444-458 | the same for a tick |
| ClientFlow.ClientCall.NoteCommandFailed | spikes/ivr/client.py:460-470 | the same for a failed command |
| ClientFlow.ClientCall.StopCall | spikes/ivr/client.py:472-475 | the same for an interruption |
| FixtureFlow.StepAdvances | spikes/ivr/fixture.py:189-369 | any input keeps the machine coherent, never moves it back, and pays for each command out of the measure of stage and attempts left |
| FixtureFlow.EveryCallIsBounded | spikes/ivr/fixture.py:189-369 | whatever a call meets it issues at most 5 * max_attempts + 4 commands, at most one hangup, and at most max_attempts gathers per stage |
| FixtureFlow.TheBoundIsMet | spikes/ivr/fixture.py:257-369 | some call issues exactly that many |
| FixtureDecisions.PassesIffRightEntry | spikes/ivr/fixture.py:257-346 | a stage is left for the next exactly on the echo of the pending gather, in time, with status valid and the expected digits, in a scenario that lets it |
| FixtureDecisions.WrongEntriesAreRetried | spikes/ivr/fixture.py:284-304 | a wrong entry repeats the gather while attempts are left and is otherwise announced as rejected; business is refused at once |
| FixtureDecisions.SpokenIffCompleted | spikes/ivr/fixture.py:341-347 | a result counts as spoken exactly when its own speech is reported completed in time |
| FixtureDecisions.NewCallDecides | spikes/ivr/fixture.py:167-187 | a call is made exactly for a four-digit challenge, to be answered within 20 seconds and over within its own timeout |
| FixtureDecisions.AnsweredDecides | spikes/ivr/fixture.py:274-276 | an answered call starts the welcome gather; anything else leaves it waiting |
| FixtureDecisions.RightEntryDecides | spikes/ivr/fixture.py:305-340 | what a right entry leads to at each stage and in each scenario: the next gather with its length and time, the silence, the hangup, the rejection, or the spoken result |
| FixtureDecisions.SpeechEndDecides | spikes/ivr/fixture.py:341-347 | the end of an announcement hangs up, and says whether a result was spoken |
| FixtureDecisions.UnknownStatusFails | spikes/ivr/fixture.py:277-283 | a gather with any other status fails the call |
| FixtureDecisions.TickDecides | spikes/ivr/fixture.py:354-369 | what a tick does, by stage and the two deadlines |
| FixtureDecisions.LateEventsAreTicks | spikes/ivr/fixture.py:271-273 | a late echo is a tick |
| FixtureDecisions.FarHangupEnds | spikes/ivr/fixture.py:258-270 | the far end's hangup ends any call, keeping the outcome it has |
| FixtureDecisions.OthersAreIgnored | spikes/ivr/fixture.py:263-279 | what is not about the pending command, or not what it waits for, changes nothing |
| FixtureDecisions.CommandFailureDecides | spikes/ivr/fixture.py:349-352 | the failure of the pending command fails the call, and of any other means nothing |
| FixtureDecisions.EndedForgets | spikes/ivr/fixture.py:250-255 | a call that ends keeps neither challenge nor command |
| FixtureDecisions.RightEntriesFit | spikes/ivr/fixture.py:204-229 | every right entry has exactly the length its gather asks for |
| FixtureDecisions.RightCallsAreSpoken | spikes/ivr/fixture.py:257-347 | right entries all the way get the result spoken, with exactly these commands in this order |
| FixtureFlow.HangupIsFinal | spikes/ivr/fixture.py:245-255 | after the hangup a call only waits or ends, and its clean-up deadline is 15 s from the hangup |
| FixtureFlow.TwoTicksEndTheCall | spikes/ivr/fixture.py:354-369 | every call is over after a tick at its deadline and another 15 s later |
| FixtureFlow.FixtureCall.HandleEvent | spikes/ivr/fixture.py:257-347 | the fields after an event and the returned command are those of the machine on values |
| FixtureFlow.FixtureCall.TakeDigits | spikes/ivr/fixture.py:280-304 | the same for gathered digits |
| FixtureFlow.FixtureCall.Accept | spikes/ivr/fixture.py:305-340 | the same for an accepted entry |
| FixtureFlow.FixtureCall.FailCall | spikes/ivr/fixture.py:231-243 | the same for failing the call |
| FixtureFlow.FixtureCall.ExpireAt | spikes/ivr/fixture.py:354-369 | the same for a tick |
| FixtureFlow.FixtureCall.NoteCommandFailed | spikes/ivr/fixture.py:349-352 | the same for a failed command |
| FixtureFlow.FixtureCall.GatherStage | spikes/ivr/fixture.py:204-229 | the same for starting or retrying a gather |
| SpokenNumbers.SpokenIsJoined | spikes/ivr/fixture.py:146-156 | the printed number, hyphens read as spaces, is its words with single spaces between them |
| SpokenNumbers.ParseInteger | spikes/ivr/speech.py:358-377 | the accumulating loop returns what the grammar and the word values give |
| SpokenNumbers.HearNumber | spikes/ivr/speech.py:362-372 | hearing the words of a number below ten thousand gives that number |
| SpokenNumbers.SpokenNumber | spikes/ivr/speech.py:342-356 | every text of the grammar is the words of some number below ten thousand |
| SpokenNumbers.NumberIsSpoken | spikes/ivr/speech.py:342-356 | and the words of every such number are in the grammar |
| SpokenNumbers.IntegerIsExact | spikes/ivr/speech.py:358-377 | the parser returns n exactly when n is within the maximum and below ten thousand and the text is its numeral without leading zeros or its printed words with hyphens as spaces |
| Announcements.AcceptedAmountsAreMoney | spikes/ivr/speech.py:380-401 | whatever text is heard, an accepted amount is a well-formed price below ten thousand dollars |
| Announcements.NormalizedSentence | spikes/ivr/speech.py:384-387 | the clean-up of a spoken price sentence leaves its words with single spaces and nothing else |
| Transcripts.TranscriptsComeBack | spikes/ivr/speech.py:380-401 | whatever is transcribed of a price sentence is read back as its price: in any case, with hyphens or spaces inside numbers, any spaces between and around the words, a mark behind the dollars or none, and any marks at the end |
| Transcripts.BoundaryIff | spikes/ivr/speech.py:386-387 | exactly what is taken for a punctuated boundary between dollars and cents, and how far it reaches |
| Transcripts.BoundaryCloses | spikes/ivr/speech.py:386-387 | the punctuation of the only such boundary goes, and everything before and after it stays |
| Transcripts.TrimmedSpaces | spikes/ivr/speech.py:385-385 | trimming spaces has one answer: the middle that neither begins nor ends with one |
| Transcripts.TrimmedMarks | spikes/ivr/speech.py:385-385 | closing marks go, all of them and nothing before |
| Transcripts.TheCharacters | spikes/ivr/speech.py:40-56 | which characters are spaces, closing marks, separators of digits, or refused |
| Transcripts.HyphensInWords | spikes/ivr/speech.py:384-384 | a hyphen becomes a space exactly between two small letters |
| Transcripts.LowerCase | spikes/ivr/speech.py:384-384 | the capital letters become small, and nothing else changes |
| Announcements.KnownSentence | spikes/ivr/fixture.py:159-161 | a whole sentence as it is spoken |
| SpokenNumbers.KnownNumber | spikes/ivr/fixture.py:146-156 | a number of four digits as it is spoken |
| SpokenNumbers.KnownTeens | spikes/ivr/fixture.py:29-40 | the words from ten to nineteen |
| Announcements.SplitsAmount | spikes/ivr/speech.py:397-399 | in a price sentence the only place where dollars can end is between its two numbers |
| Announcements.AmountsComeBack | spikes/ivr/fixture.py:159-161 | what the test IVR speaks for a configured price is read back as that very price |
| Announcements.AmountsAreExact | spikes/ivr/speech.py:380-401 | a text is understood as an amount exactly when, cleaned up, it is the opening words followed by that price in figures (dollar sign, thousands comma and unit optional) or by two numbers, in figures or words, with their units |
| DigitRuns.MixedDigitsParse | spikes/ivr/speech.py:40-56 | digit words and runs of figures, mixed freely, parse to the digits they stand for and at no other length |
| DigitRuns.DigitsComeBack | spikes/ivr/fixture.py:142-143 | digits spelled out as words are read back as the same digits, at any positive length |
| DigitRuns.DigitsAreExact | spikes/ivr/speech.py:40-56 | a text is understood as a run of digits exactly when no character is refused and, trimmed and in lower case, it consists of digit words and runs of figures, separated by spaces, commas or hyphens, that amount to those digits, as many as asked for |
| PendingWrite.SentOnlyAfterReadBack | apps/mobile/src/todoWorkflows/pendingWorkflowWrite.ts:270-327 | in every interleaving of one owner's operations and crashes, over storage that may fail anywhere, a record is sent only after its exact bytes were read back |
| PendingWrite.ConfirmsIffReadBack | apps/mobile/src/todoWorkflows/pendingWorkflowWrite.ts:293-301 | a save resolves exactly when a read after its write returns its own bytes |
| PendingWrite.RecordsLeaveOnlyBy | apps/mobile/src/todoWorkflows/pendingWorkflowWrite.ts:270-343 | a well-formed record leaves the slot only by an operation on its own request, or by a save whose first read came back empty over it |
| PendingWrite.PassesIffBlank | apps/mobile/src/todoWorkflows/pendingWorkflowWrite.ts:275-292 | a save passes over another request's record exactly when that first read came back empty |
| PendingWrite.ReplacesIffBlind | apps/mobile/src/todoWorkflows/pendingWorkflowWrite.ts:275-293 | and its write then replaces the record exactly when the write is not lost |
| PendingWrite.RecordsStay | apps/mobile/src/todoWorkflows/pendingWorkflowWrite.ts:270-343 | a held record outlives every run of operations on other requests, failed raw calls and crashes in which no first read of a save comes back empty |
| PendingWrite.RecordsStayUnderTrueReads | apps/mobile/src/todoWorkflows/pendingWorkflowWrite.ts:270-343 | in particular over every run in which no read at all comes back empty |
| PendingWrite.BlankCheckOverwrites | apps/mobile/src/todoWorkflows/pendingWorkflowWrite.ts:275-293 | after one empty first read a save overwrites another request's record |
| PendingWrite.SaveWorks | apps/mobile/src/todoWorkflows/pendingWorkflowWrite.ts:270-301 | with storage that works and no competing record, a save leaves its own bytes in the slot and its record ready to send |
| PendingWrite.AnswersMoveOn | apps/mobile/src/todoWorkflows/pendingWorkflowWrite.ts:270-343 | every raw answer moves the running operation on or settles it, so the queue always drains |
| PendingDecisions.SaveDecides | apps/mobile/src/todoWorkflows/pendingWorkflowWrite.ts:270-327 | a save as a whole, from the answers to its reads and its write: given up before the write, resolved, rejected leaving what a newer save wrote, or rejected with what it found removed |
| PendingDecisions.ClearDecides | apps/mobile/src/todoWorkflows/pendingWorkflowWrite.ts:329-343 | a clear as a whole: it removes the record of its own request and leaves anything else |
| PendingDecisions.SentIfCurrent | apps/mobile/src/todoWorkflows/pendingWorkflowWrite.ts:395-406 | a resolved save is sent exactly if the session is still the one it was made in |
| PendingDecisions.SentOncePerSave | apps/mobile/src/todoWorkflows/pendingWorkflowWrite.ts:395-406 | in every run a record is sent at most once for each save of it that resolved |
| EndToEnd.ResendsAreAbsorbed | apps/mobile/src/todoWorkflows/pendingWorkflowWrite.ts:386-406 | a persisted start or advance resent unchanged, with anything in between, is applied once; every repetition gets the identical reply |
| EndToEnd.AppliedOnce | apps/mobile/src/todoWorkflows/pendingWorkflowWrite.ts:386-406 | once a start, advance or suggestion request has changed the tables, the same request sent again changes nothing, and a start or advance gets the same reply |
| EndToEnd.ArrivalsWereReadBack | apps/mobile/src/todoWorkflows/pendingWorkflowWrite.ts:270-406 | in every run of client, network and server, a record that reaches the server had its bytes read back from the slot before |
| EndToEnd.LaterCopiesRepeat | apps/mobile/src/todoWorkflows/pendingWorkflowWrite.ts:386-406 | of two copies of a record that reach the server, the later one changes nothing if the earlier one did, and a start or advance repeats its reply |
| EndToEnd.AppliedAtMostOnce | apps/mobile/src/todoWorkflows/pendingWorkflowWrite.ts:386-406 | over every such run, however many copies arrive and whatever else the server does, each record changes the server's tables at most once |
| PendingWrite.OwnerQueue.RunExclusive | apps/mobile/src/todoWorkflows/pendingWorkflowWrite.ts:79-101 | submitting an operation appends it to the queue of the store on values |
| PendingWrite.OwnerQueue.SaveSees | apps/mobile/src/todoWorkflows/pendingWorkflowWrite.ts:275-318 | what a save does with a read is what the store on values does |
| PendingWrite.OwnerQueue.SaveWrites | apps/mobile/src/todoWorkflows/pendingWorkflowWrite.ts:293-294 | the same for its write |
| PendingWrite.OwnerQueue.ClearSees | apps/mobile/src/todoWorkflows/pendingWorkflowWrite.ts:330-340 | the same for the read of a clear |
| PendingWrite.OwnerQueue.Removes | apps/mobile/src/todoWorkflows/pendingWorkflowWrite.ts:319-342 | the same for a removal |
| OwnerChain.NeverOverlap | apps/mobile/src/todoWorkflows/pendingWorkflowWrite.ts:79-101 | in every run of the promise chains two operations of one owner never overlap and run in the order they were submitted |
| OwnerChain.FreeIff | apps/mobile/src/todoWorkflows/pendingWorkflowWrite.ts:86-100 | an operation may start exactly when every earlier one of its owner has settled, well or badly |
| OwnerChain.ChainIsAQueue | apps/mobile/src/todoWorkflows/pendingWorkflowWrite.ts:86-100 | for each owner the chain is a queue whose head alone runs: submitting appends, settling removes the head, and no step of another owner touches it |
| OwnerChain.Owners.RunOwnerExclusive | apps/mobile/src/todoWorkflows/pendingWorkflowWrite.ts:81-101 | the map of tails and the new promise after a submission are those of the chains on values |
| PendingWrite.OwnerQueue.SendReady | apps/mobile/src/todoWorkflows/pendingWorkflowWrite.ts:395-406 | a resolved save is sent, or kept unsent when the session has changed |
| AnalyticsExport.StepIsSafe | apps/api/app/analytics_export.py:44-71 | every step of every run, load job and crash keeps recorded events waiting, or loaded |
| AnalyticsExport.NoEventIsLost | apps/api/app/analytics_export.py:44-71 | across any overlap of runs every recorded event is still waiting in the outbox or was loaded; exported and pruned ones always were |
| AnalyticsExport.First | apps/api/app/analytics_export.py:47-53 | the batch is the smallest ids, as many as the limit allows |
| AnalyticsExport.AloneTakesABatch | apps/api/app/analytics_export.py:44-71 | an undisturbed run loads the 5000 oldest waiting events, or all, once each, and leaves exactly the rest waiting |
| AnalyticsExport.DrainedExactly | apps/api/app/analytics_export.py:44-71 | n waiting events are gone after ceil(n / 5000) successful runs and not after fewer |
| AnalyticsExport.CrashLoadsTwice | apps/api/app/analytics_export.py:55-64 | a crash after the load and before the mark loads an event twice |
| AnalyticsExport.Warehouse.ExportEvents | apps/api/app/analytics_export.py:44-71 | one run as it executes: what it loads and counts, which rows it marks with which time, that it prunes exactly those exported over 30 days before, and that a raising load changes nothing |
| ResilientExporter.NothingVanishes | apps/api/app/tracing.py:264-283 | every span handed in was handed to the delegate or counted as dropped |
| ResilientExporter.FailuresAreCounted | apps/api/app/tracing.py:264-283 | the failure counter is the number of attempts the delegate refused, and the streak is part of it |
| ResilientExporter.DropsOnlyInCooldown | apps/api/app/tracing.py:256-279 | spans are dropped only at the end of a full streak, within one cooldown of a failed call |
| ResilientExporter.BreakerIsExact | apps/api/app/tracing.py:256-283 | the counters and the circuit refine one rule on the attempts made: a call reaches the delegate unless they end with whole groups of failures, the last less than a cooldown ago |
| ResilientExporter.AttemptsAreBounded | apps/api/app/tracing.py:256-283 | through any stretch of failures on a clock that does not go back, from any state, at most max(1, max_failures) attempts per started cooldown |
| ResilientExporter.TheBoundIsMet | apps/api/app/tracing.py:256-283 | for every number of cooldowns some failing stretch makes exactly that many attempts |
| ResilientExporter.ZeroFailuresStillTries | apps/api/app/tracing.py:256-262 | with max_failures below 1 the first call still makes an attempt, more than the plain bound allows |
| ResilientExporter.PlainBoundIff | apps/api/app/tracing.py:256-283 | max_failures attempts per started cooldown bounds every stretch of failures from every state if and only if max_failures is at least 1 |
| ResilientExporter.Exporter.ExportBatch | apps/api/app/tracing.py:264-283 | the counters after a call are those of the breaker on values, and the reply is always success |
| ResilientExporter.Exporter.IsOpen | apps/api/app/tracing.py:256-262 | the same for asking whether the circuit is open |
| Backfill.UpdateCounts | apps/api/app/backfill_completed_at.py:22-42 | one statement fixes its kind of row up to the limit, adds none of the other kind, and leaves every other row as it was |
| Backfill.BatchesAreLeast | apps/api/app/backfill_completed_at.py:45-60 | the batch count is the least number of batches that covers the rows |
| Backfill.TodoTable.Run | apps/api/app/backfill_completed_at.py:45-60 | the backfill ends with stamped exactly when completed, each row that lacked a time with that of the batch its rank falls into, total = A + B, batches = max(ceil(A / b), ceil(B / b)), having touched only inconsistent rows |

## Left out

- HTTP routes, request models, sessions, password hashing, CORS, the React and React Native screens, the workflow cache and database migrations: plumbing around the services modelled here.
- User edits and deletions of todos: the todo table only grows here, by completed workflows.
- Trace parents, spans, log lines and sampling: they do not influence the protocols.
- SHA-256 fingerprints and UUID text: fingerprints are taken as injective, and the UUID syntax of stored records is a parameter with `read(write(id)) == id`.
- JSON text: a stored record is a tree, a stored client record is either its serialisation, another text that parses to a record, or junk.
- Suggestion ids are allocated in commit order; a database sequence may leave gaps, which nothing reads.
- AgentStream.EveryRunIsWellFormed: tool arguments are structured or malformed, not JSON text; the finished log line and exceptions outside Exception (interpreter exit) are not modelled.
- Titles.NormalizeTodoTitle: calls the walk of countCodePoints where the source repeats the same loop.
- ReleaseDeploy.MutationsInOrder: requires two different services, because with one service in both roles it may fail; ReleaseDeploy.MutatesTwiceIff covers that case. The format checks of names and digests are one flag of the configuration, and loss of the machine that runs the script is not modelled.
- ClientFlow.EveryRunIsOrdered: speech recognition of prompts is an arbitrary function; the public error codes of error_result are not modelled. The Caller class around the flow (binding, buffering and replay of early callbacks) is not modelled.
- FixtureFlow.EveryCallIsBounded: prompt texts and provider fields of the commands are kept only as far as the measure and the entry check need them.
- Announcements.AmountsAreExact: lower-casing and word boundaries are those of ASCII letters, here and in DigitRuns.DigitsAreExact.
- PendingWrite.SentOnlyAfterReadBack: the shape checks of a parsed record are an arbitrary predicate; other browser tabs writing the same key are outside the queue and not modelled.
- EndToEnd.AppliedAtMostOnce: says nothing about delivery: a record may never arrive, and when the client gives up on one is decided by the screens, which are not modelled.
- AnalyticsExport.NoEventIsLost: the warehouse keeps what a load job wrote; deduplication by its views is not modelled.
- Backfill.TodoTable.Run: no concurrent writers, so the row locks of the statements have nothing to skip.
