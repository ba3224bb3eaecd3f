# Mandate gateway: a verified model

The mandate gateway lets an AI agent prepare purchases while people and mandates keep control of the money.
This project models the parts of it where a mistake would be expensive, and proves what they are for:

* **The transactional store** (`Rows`, `Store`, `*Steps`, `Database`, `Repositories`, `TransactionRepository`). Any
  number of workers send statements to one database; a schedule is any interleaving of their reads, row locks,
  inserts, updates, commits, aborts and failures. The theorems in `AuditLedger`, `BudgetIsolation`, `NonceRuns`,
  `ReplayRuns`, `ChallengeRuns`, `TransactionRuns` and `TransactionOrigins` hold after every schedule. The repositories are classes whose
  methods let other workers act at every point where the source awaits.
* **The unit of work** (`UnitOfWork`), and workers that use the store through it (`UnitOfWorkRuns`).
* **The bounded agent runtime** (`AgentMachine`, `AgentRuns`, `AgentScans`, `AgentRuntime`). The model adapter, the tools, the
  clock, JSON encoding, the proposal builder and the cancellation token are arbitrary functions of the loop pass.
* **The cart optimizer** (`Carts`, `CartOptimizer`), with real-valued scores.
* **In-memory guards** (`ToolRegistry`, `StepUpManager`, `ConfirmationGate`) and the **outbox worker** (`Outbox`).
* **Idempotent claims of execution attempts** (`ExecutionAttempts`), one unit of work after the other.

Code that updates fields or rows in place is a class whose methods are tied to a specification function; the
results about whole runs are lemmas about those functions.

## What is assumed of the database

* READ COMMITTED: a statement sees the committed rows overlaid with its own transaction's rows.
* A row that a transaction locked, inserted or updated belongs to it until it commits or aborts. A statement of
  another worker that needs the row waits, and either goes on later or fails and rolls its transaction back.
* Primary keys, `sequence_number` and the idempotency keys of transactions are unique; any insert may be refused for
  another reason. Updating a transaction also owns its entry in the index over the keys.
* Reading the audit head takes no lock here. The source asks for one, which leaves fewer interleavings, none of them new.
* A failed flush ends the transaction. `FOR UPDATE` returns the row as committed when the lock was obtained, not a
  copy the session loaded earlier. SQLite, where these locks are not taken, is not modelled.
* `commit_reservation` and `release_reservation` take no lock, so reading and updating the row is one step here.
* Mandates and their daily budgets stand during a run: no statement of the model changes them
  (`Store.ApplyFixesMandates`), and the budget theorems rest on it.
* Hashes and MACs are functions; where a lemma needs them free of collisions it says so in a `requires`.

## Where the code does less than its documentation says

The model follows the code. Each of these has a lemma or contract of its own:

* The in-process audit lock is released before the insert (`db/repository/audit_repository.py:118-130`, `:173`).
  The proof of the ledger does not use it, nor the row lock on the head; the unique `sequence_number` is enough.
* A timestamp without an offset is hashed without one and read back with one, so `verify_chain` rejects a ledger
  that the code itself wrote (`AuditLedger.NaiveTimestampIsRejected`; the exact condition is `VerifyAcceptsIff`, and
  `NaiveAppendIsRejected` gets there by appending one event).
* `approve_challenge` overwrites a decided status with EXPIRED before it raises (`ChallengeRuns.ApproveKeepsDecidedIff`,
  `SwallowedErrorOverwritesApproval`). Rolling back on the error hides this, and also undoes the documented move of
  a pending challenge to EXPIRED (`LateApprovalNeverExpires`).
* An expired replay fingerprint is documented to be registrable again; the second insert meets the primary key
  (`ReplayRepository.CheckAndRecordReplay`).
* A failed session rollback is swallowed, and a later `commit()` then persists what was to be rolled back
  (`UnitsOfWork.CommitAfterRollbackIff`).
* Availability is scored by the status "AVAILABLE", and by nothing else (`CartScores.AvailabilityEarnsIff`); the
  product model does not list that status (`ListedAvailabilityEarnsNothing`). The composite capability is not the
  lowest one when a product is UNSUPPORTED (`Carts.CompositeIsLowestIff`). A zero budget raises a division error if
  a cart is feasible (`CartOptimizers.FailsIff`, `FreeProductFailsUnderZeroBudget`).
* The lookup of a session's active step-up challenge also returns one that is decided or expired
  (`StepUpRuns.SessionLookupIsActiveIff`, and `SessionLookupFindsRejected` for a run).
* A confirmation token is not bound to its expiry, and an expired one is reported as malformed
  (`ConfirmationGates.ExpiryBindsOnlyWhoStatesIt`). It is bound to its terms as long as none of them contains a
  '|' (`ConfirmationGates.AcceptedForOtherTermsIff`).
* RECEIPT is a legal successor of COMPLETED, but COMPLETED counts as terminal, so RECEIPT is never reached
  (`TransactionRuns.NoReceiptOverRuns`). A refused provider outcome has already been written into the session
  (`TransactionSteps.RefusedOutcomeIsWrittenIff`), and is durable if the error is caught and the unit of work
  committed (`TransactionRuns.CaughtReportIsKept`, `CaughtReportRewritesCompleted`).
* After a refused insert, `claim_attempt` rolls the session back, and with it what the unit of work had written
  before (`Attempts.EarlierWritesSurviveIff` says when, `RefusedInsertLosesAnAttempt` shows it).

## Model

| member | source | states |
|---|---|---|
| AuditLedger.LedgerOverRuns | db/repository/audit_repository.py:118-181 | after every interleaving of stale reads, appends, commits and aborts, the committed ledger and every open transaction's view is contiguous from 1 and linked from the genesis hash |
| AuditLedger.LedgerIsAppendOnly | db/repository/audit_repository.py:159-181 | over every interleaving each committed event stays in the ledger, unchanged |
| AuditLedger.NextRowChains | db/repository/audit_repository.py:130-171 | a row built on a remembered, possibly stale head extends the chain whenever its sequence number is still free |
| AuditLedger.OneAppender | db/models/audit.py:26-28 | uniqueness of the sequence number lets at most one open transaction hold flushed appends |
| AuditLedger.VerifyAcceptsEveryRun | db/repository/audit_repository.py:211-285 | if payload and timestamp of every appended event survive storage, verify_chain accepts every reachable committed ledger |
| AuditLedger.VerifyAcceptsIff | db/repository/audit_repository.py:243-280 | under a collision-free hash a reachable ledger is accepted if and only if every event in it survives storage |
| AuditLedger.NaiveTimestampIsRejected | db/repository/audit_repository.py:257-261 | a ledger holding an event appended with a timestamp without offset is rejected |
| AuditLedger.NaiveAppendIsRejected | db/repository/audit_repository.py:126-171 | from an empty ledger, one read, one append of any such event and a commit lead there |
| AuditChain.VerifyChain | db/repository/audit_repository.py:220-285 | the loop returns no fault exactly for genuine chains, and otherwise the first event at fault and the first check it fails |
| AuditChain.HeadDeterminesLedger | db/repository/audit_repository.py:224-285 | two accepted ledgers with the same last hash have the same length and the same events, up to JSON text and timezone spelling |
| AuditChain.OnlyTruncationGoesUnnoticed | db/repository/audit_repository.py:211-285 | an altered ledger that is accepted and ends in a hash of the original is a prefix of the original |
| AuditRepositories.AuditRepository.GetLatestEvent | db/repository/audit_repository.py:62-78 | the row with the highest sequence number the transaction sees, read while others run; without the lock |
| AuditRepositories.AuditRepository.AppendEvent | db/repository/audit_repository.py:100-181 | a returned row was built on the head the transaction remembers, took a free sequence number and is the head of an unbroken chain; each error has its reason and leaves the transaction gone or marked |
| AuditSteps.LatestIsUnique | db/repository/audit_repository.py:74-78 | the row with the highest sequence number is unique |
| BudgetIsolation.BudgetOverRuns | db/repository/budget_repository.py:119-233 | after every interleaving over all mandates, reserved totals stay within the daily budget, durably and in the view of the lock holder |
| BudgetIsolation.NeverOverBudget | db/repository/budget_repository.py:136-195 | the same as a bound on the two sums, for every worker holding the mandate's lock |
| BudgetIsolation.ReserveIsSound | db/repository/budget_repository.py:179-195 | a reservation that fits what is left of a remembered total keeps the view within budget whatever others committed since |
| BudgetIsolation.LightenIsSound | db/repository/budget_repository.py:197-233 | committing or releasing a reservation never adds to a total |
| ReservedTotals.TotalAdds | db/repository/budget_repository.py:136-154 | a new row adds its whole amount to the total of its mandate if it is RESERVED, COMMITTED or SPENT, and otherwise nothing |
| Databases.SumReserved | db/repository/budget_repository.py:148-154 | the aggregate query computes the specified total |
| BudgetRepositories.BudgetRepository.LockMandate | db/repository/budget_repository.py:119-134 | the mandate row is owned afterwards, if it exists |
| BudgetRepositories.BudgetRepository.CalculateReservedTotal | db/repository/budget_repository.py:136-154 | the total of the active reservations the worker sees, remembered under the mandate's lock |
| BudgetRepositories.BudgetRepository.ReserveBudgetAtomically | db/repository/budget_repository.py:156-195 | although others run between lock, sum and insert, a returned reservation fits the budget together with all the holder sees; a ValueError means a non-positive amount, a missing mandate or too little left; on an error nothing is written |
| BudgetRepositories.BudgetRepository.CommitReservation | db/repository/budget_repository.py:197-211 | only a RESERVED row is moved to COMMITTED, and nothing else of it changes; a ValueError has its reason, a wait that fails met another owner of the row |
| BudgetRepositories.CommitKeepsTotals | db/repository/budget_repository.py:197-211 | committing a reservation changes no reserved total |
| BudgetRepositories.BudgetRepository.ReleaseReservation | db/repository/budget_repository.py:213-233 | a RELEASED row is returned as it is, a RESERVED or EXPIRED one released, any other state refused |
| BudgetRepositories.ReleaseFrees | db/repository/budget_repository.py:213-233 | releasing gives back the whole amount of a RESERVED row to its mandate, of an EXPIRED one nothing, and changes no other total |
| NonceRuns.SingleUseOverRuns | db/repository/nonce_repository.py:121-184 | each nonce has at most one committed consumption, for the transaction and mandate it was issued to and younger than the ttl |
| NonceRuns.AtMostOneConsumption | db/repository/nonce_repository.py:160-164 | no two committed consumptions in a run are of the same nonce |
| NonceRuns.RolledBackIsConsumable | db/repository/nonce_repository.py:180-184 | after the consuming transaction aborts, the same or another worker can consume the nonce |
| NonceRepositories.NonceRepository.CreateNonce | db/repository/nonce_repository.py:44-80 | only blank arguments are refused before the insert; a returned nonce was free and is stored stripped |
| NonceRepositories.NonceRepository.ConsumeNonce | db/repository/nonce_repository.py:121-184 | the row seen under the lock is consumed exactly if it is of that transaction and mandate, not consumed, and younger than the ttl; otherwise a ValueError, or a wait that failed because another worker owned the row |
| NonceSteps.ConsumesIff | db/repository/nonce_repository.py:151-184 | the checks in order let exactly those consumptions through, with the ttl in seconds, and mark the row |
| ReplayRuns.AcceptedOnceOverRuns | db/repository/replay_repository.py:132-188 | a fingerprint is accepted at most once in any run and its row never changes |
| ReplayRuns.AcceptedAtMostOnce | db/repository/replay_repository.py:66-73 | no two acceptances in a run are of the same fingerprint, whatever the ttl |
| ReplayRepositories.ReplayRepository.RecordReplayFingerprint | db/repository/replay_repository.py:44-73 | a fingerprint that has a row is refused, any other stored stripped |
| ReplayRepositories.ReplayRepository.IsFingerprintReplayed | db/repository/replay_repository.py:104-130 | true exactly for a stored fingerprint whose window is open |
| ReplayRepositories.ReplayRepository.CheckAndRecordReplay | db/repository/replay_repository.py:132-188 | a fingerprint inside its window for the same transaction is reported as a replay, unless the wait for its row fails; only a fingerprint without a row is accepted; one whose window has passed raises |
| ReplayRepositories.ReplayRowsStand | db/repository/replay_repository.py:33-34 | a durable replay row stays, unchanged |
| ChallengeRuns.DecidedOnceOverRuns | db/repository/step_up_repository.py:100-179 | with errors left uncaught, a durable challenge leaves PENDING at most once and is approved only before its expiry |
| ChallengeRuns.ApproveKeepsDecidedIff | db/repository/step_up_repository.py:121-138 | approving a decided challenge raises, and leaves it alone exactly if it is not past expiry or already EXPIRED |
| ChallengeRuns.SwallowedErrorOverwritesApproval | db/repository/step_up_repository.py:127-132 | catching the error and committing turns an approved challenge into an expired one |
| ChallengeRuns.LateApprovalNeverExpires | db/repository/step_up_repository.py:107-132 | with errors left uncaught, no durable challenge becomes EXPIRED except through expire_challenge |
| StepUpRepositories.StepUpRepository.CreateChallenge | db/repository/step_up_repository.py:42-64 | a returned challenge is new and PENDING |
| StepUpRepositories.StepUpRepository.ApproveChallenge | db/repository/step_up_repository.py:100-144 | approves exactly a pending, unexpired row and records the time and approver; otherwise raises, and still flushes EXPIRED if the row is past its time |
| StepUpRepositories.StepUpRepository.RejectChallenge | db/repository/step_up_repository.py:146-165 | rejects exactly a pending row, with the reason; any other raises and stays |
| StepUpRepositories.StepUpRepository.ExpireChallenge | db/repository/step_up_repository.py:167-179 | a pending row becomes EXPIRED, any other is returned as it is |
| Databases.Database.LockForUpdate | db/repository/budget_repository.py:125-134 | the row is owned afterwards if it exists; if the wait fails, another transaction owned it during the call, and the own one is gone |
| Databases.Database.Send | db/repository/nonce_repository.py:75-80 | a statement meets a world that differs from the caller's only by what other workers can do |
| Store.OwnedRowsStand | db/repository/nonce_repository.py:108-119 | no foreign schedule changes a transaction or a row it owns |
| Store.ExecIsolated | db/repository/budget_repository.py:119-134 | in every run no row is owned by two transactions, and every flushed row belongs to the transaction that flushed it |
| UnitsOfWork.Atomicity | db/unit_of_work.py:105-216 | the durable state at exit is the one at entry, unless a commit returned normally, and then the working state at that commit |
| UnitsOfWork.CommitIsFinal | db/unit_of_work.py:169-190 | at most one commit of a block returns normally and later operations do not touch the durable state |
| UnitsOfWork.RollbackIsFinal | db/unit_of_work.py:175-178 | after a rollback that succeeded no commit returns normally and the durable state stands |
| UnitsOfWork.CommitAfterRollbackIff | db/unit_of_work.py:192-202 | after rollback(), a later commit persists the writes in between exactly when the session's own rollback failed |
| UnitOfWorkRuns.UncaughtErrorsAreDisciplined | db/unit_of_work.py:133-159 | units of work that let errors through never commit a transaction in which a call raised, in any interleaving |
| UnitOfWorkRuns.ChallengesUnderUnitsOfWork | db/unit_of_work.py:139-156 | so every durable challenge is decided at most once, and in time, whatever such units of work do |
| UnitOfWorkRuns.EmitsIff | db/unit_of_work.py:133-202 | the database is sent a commit exactly by a commit that returns normally, an abort exactly when the session is rolled back or left |
| UnitsOfWork.ClosedForGood | db/unit_of_work.py:233-237 | a closed unit of work refuses every operation and changes nothing |
| UnitsOfWork.UnitOfWork.Enter | db/unit_of_work.py:105-131 | entering an active or closed unit of work, or one without a session factory, raises and changes nothing |
| UnitsOfWork.UnitOfWork.Commit | db/unit_of_work.py:169-190 | which error is raised when, and both states afterwards: a flush or commit that raises rolls the session back unless that fails too |
| UnitsOfWork.UnitOfWork.Rollback | db/unit_of_work.py:192-202 | a failing session rollback is swallowed |
| UnitsOfWork.UnitOfWork.Exit | db/unit_of_work.py:133-159 | rolls back exactly on an exception or without a commit, and always cleans up |
| AgentMachine.FailedIsReachableUnlessTerminal | agent/graph/machine.py:21-78 | FAILED is a legal successor of exactly the non-terminal states |
| AgentMachine.EnteredFromIff | agent/graph/machine.py:21-78 | for each state, exactly the states from which it is entered |
| AgentMachine.TerminalOnlyLast | agent/graph/machine.py:91-101 | a terminal state can only be reached by the last record of a legal history |
| AgentRuns.EveryExitIsTerminal | agent/graph/runtime.py:76-196 | every run ends, normally or by an error, in a terminal state, from any entry state |
| AgentRuns.HistoryOfEveryRun | agent/graph/state.py:114-192 | the history is a legal path with its indexes in place, ends in the current state, is terminal only there, and has at most 2 * max_iterations + 4 records |
| AgentRuns.ToolCallsOfEveryRun | agent/graph/runtime.py:101-151 | 3 * tool_call_count <= iteration_count + 1, hence at most min(max_tool_calls, (max_iterations + 1) / 3) calls, and no three equal executed calls in a row |
| AgentRuns.IterateKeeps | agent/graph/runtime.py:81-166 | every loop head sees one of four states and keeps the exact relation between passes, calls and history length |
| AgentRuns.OnlyIdleAgentsRun | agent/graph/runtime.py:76-79 | an agent that is not IDLE fails at once or stays terminal, without a call |
| AgentRuns.HowRunsEnd | agent/graph/runtime.py:83-196 | CANCELLED and TIMED_OUT exactly name the first check that stopped the run, COMPLETED comes without an error, every error is the recorded failure reason, and the only silent FAILED is an empty tool call |
| AgentScans.RunIsTold | agent/graph/runtime.py:62-196 | every run ends at the first pass that the answers of the environment end, in the way they say; its conversation is the prompt, the words of each response and the outcome of each call read, data or error; its calls are the first calls of the responses, and its proposal the payload of the response that proposed |
| AgentRuntimes.AgentState.TransitionTo | agent/graph/state.py:114-125 | takes a legal transition and records it, or raises and changes nothing; histories stay legal |
| AgentRuntimes.NodeReceiveInput | agent/graph/nodes.py:27-39 | refines the specified node |
| AgentRuntimes.NodePlanning | agent/graph/nodes.py:42-102 | refines the specified node, for every response |
| AgentRuntimes.NodeToolExecution | agent/graph/nodes.py:105-143 | refines the specified node, a raising tool included: the call stays counted |
| AgentRuntimes.NodeProcessToolResult | agent/graph/nodes.py:146-176 | refines the specified node, a raising encoder included |
| AgentRuntimes.NodePrepareProposal | agent/graph/nodes.py:179-203 | refines the specified node, a raising builder included |
| AgentRuntimes.NodeFinalize | agent/graph/nodes.py:206-215 | refines the specified node: the reason is recorded, and an agent that is not terminal becomes COMPLETED or FAILED |
| AgentRuntimes.AgentRuntime.Drive | agent/graph/runtime.py:74-168 | the loop terminates, with measure max_iterations + 1 - iteration_count, and is the specified sequence of passes |
| AgentRuntimes.AgentRuntime.Run | agent/graph/runtime.py:62-196 | the agent and the error at exit are those of the specified run, and the agent is terminal |
| Carts.CalculateCartCost | apps/api/commerce/cart_cost_engine.py:62-100 | the subtotal over the paired products and quantities, plus shipping and tax where verified; unverified components are listed and not guessed; fully verified exactly with shipping and tax |
| Carts.TakingMoreCosts | apps/api/commerce/cart_cost_engine.py:74-76 | each time a product is taken more often its price is added to the subtotal |
| Carts.NothingTakenCostsNothing | apps/api/commerce/cart_cost_engine.py:74-76 | products taken no times cost nothing; with the row above this fixes the subtotal |
| Carts.CompositeIsLowestIff | apps/api/commerce/cart_optimizer.py:120-127 | the composite capability is the lowest in the cart if and only if no product is UNSUPPORTED; otherwise the lowest of the others, or VERIFIED_API |
| Combinations.CombineMembers | apps/api/commerce/cart_optimizer.py:101-104 | the product holds exactly the picks of one element per list |
| Combinations.CombineCounts | apps/api/commerce/cart_optimizer.py:104-106 | each combination occurs as often as its elements can be picked |
| Combinations.CombineLength | apps/api/commerce/cart_optimizer.py:104-105 | as many combinations as the lengths multiply to |
| Combinations.CombineOrder | apps/api/commerce/cart_optimizer.py:104 | the first list varies slowest, and the rest in its own order |
| CartOptimizers.OptimizeCart | apps/api/commerce/cart_optimizer.py:78-159 | the search loop computes the specified result, the division error included |
| CartOptimizers.Evaluate | apps/api/commerce/cart_optimizer.py:108-144 | a combination yields its cart exactly if its cost is within the budget and its merchants within their limit; products, quantities, merchants, cost, capability and score of the cart |
| CartOptimizers.FailsIff | apps/api/commerce/cart_optimizer.py:173 | the search raises exactly if the budget is zero and some candidate combination is feasible |
| CartOptimizers.FreeProductFailsUnderZeroBudget | apps/api/commerce/cart_optimizer.py:104-132 | a free product and a budget of zero make the search raise |
| CartOptimizers.SearchIsExact | apps/api/commerce/cart_optimizer.py:82-159 | as a multiset the carts are exactly the feasible combinations of one of the first five candidates per item, and the count evaluated is the product of their numbers, five at most each |
| CartOptimizers.BestIsOptimal | apps/api/commerce/cart_optimizer.py:147-149 | the list is sorted and the recommended cart scores at least every feasible combination |
| CartOptimizers.BestIsFoundFirst | apps/api/commerce/cart_optimizer.py:104-149 | of the feasible combinations with the best score the first one in search order is recommended |
| CartOptimizers.NoCheaperCartWithTheSameProfile | apps/api/commerce/cart_optimizer.py:161-214 | under a positive budget no feasible cart with the recommended cart's profile is cheaper |
| CartOptimizers.BestIsParetoOptimal | apps/api/commerce/cart_optimizer.py:161-214 | a feasible cart at least as good as the recommended one in cost, verification, availability, merchants and capability is its equal in all of them |
| CartRanking.RankedSorts | apps/api/commerce/cart_optimizer.py:147-148 | sorted by score, highest first, and a permutation |
| CartRanking.RankedIsStable | apps/api/commerce/cart_optimizer.py:147-148 | carts with equal scores keep the order in which they were found |
| CartScores.ScoreBounds | apps/api/commerce/cart_optimizer.py:171-214 | above 30.5 and at most 100, 112.5 for LOWEST_TOTAL_PRICE, 110 for FEWEST_MERCHANTS |
| CartScores.CeilingIsReached | apps/api/commerce/cart_optimizer.py:171-214 | those bounds are attained |
| CartScores.ScoreMargins | apps/api/commerce/cart_optimizer.py:171-214 | what one more verified or available product, one merchant, one paisa and a better capability earn; with the ceiling this fixes the score |
| CartScores.ProfileCounts | apps/api/commerce/cart_optimizer.py:176-185 | the products with the statuses "PRODUCT_VERIFIED" and "AVAILABLE" are counted |
| CartScores.CheaperScoresMoreIff | apps/api/commerce/cart_optimizer.py:172-174 | with all else equal the cheaper cart scores more if and only if the budget is positive |
| CartScores.BetterScoresMore | apps/api/commerce/cart_optimizer.py:171-214 | under a positive budget a profile that is as good in every attribute and better in one scores more, under every strategy |
| CartScores.AvailabilityEarnsIff | apps/api/commerce/cart_optimizer.py:183-185 | availability raises the score exactly if some product has the status "AVAILABLE" |
| CartScores.ListedAvailabilityEarnsNothing | apps/api/commerce/cart_optimizer.py:183-185 | products with a listed availability never earn the availability points |
| ToolQuotas.QuotasOverRuns | agent/tools/registry.py:164-231 | in every interleaving, removals included, what a session was charged is its runs plus rejected inputs plus calls under way, and at most some registered limit of that name |
| ToolQuotas.RunsStayWithinTheToolsOwnLimit | agent/tools/registry.py:193-213 | without removals a session runs a tool at most max_invocations times over both keys, rejected inputs included |
| ToolQuotas.RunIsTraced | agent/tools/registry.py:165-231 | only registered, enabled, unblocked tools without forbidden capabilities run, within the caller's policy and after the input passed |
| ToolQuotas.EveryKeyFindsItsTool | agent/tools/registry.py:71-98 | without removals a registered tool is found under its name and under name and version |
| ToolQuotas.AdmittedIff | agent/tools/registry.py:71-213 | for every registry and request the first check that fails, or the tool admitted |
| ToolRegistries.AnswersTell | agent/tools/registry.py:258-330 | each answer of a call that ran stands for exactly one outcome of the tool |
| ToolRegistries.ToolRegistry.Register | agent/tools/registry.py:39-57 | both keys are set; an error exactly for a taken key or else a forbidden capability |
| ToolRegistries.ToolRegistry.Unregister | agent/tools/registry.py:63-69 | removes the name, and the versioned key if a version is given |
| ToolRegistries.ToolRegistry.AuthorizeAndExecute | agent/tools/registry.py:147-330 | with other threads acting between its steps: the checks in order, the charge before the input check, the answer in each case, and the entry it leaves |
| StepUpRuns.IndexOverRuns | agent/stepup/manager.py:80-81 | every session index entry points to a stored challenge of that session |
| StepUpRuns.ChallengesEvolve | agent/stepup/manager.py:89-226 | in every run a challenge stays, its other fields never change and its status leaves PENDING at most once |
| StepUpRuns.DecidedAtMostOnce | agent/stepup/manager.py:123-226 | at most one decision per challenge is accepted |
| StepUpRuns.DecidedProperly | agent/stepup/security.py:29-128 | an approved or rejected challenge was decided by an acceptable approver, for exactly its transaction, no later than its expiry |
| StepUpRuns.AcceptedIff | agent/stepup/manager.py:138-190 | a decision is accepted if and only if the challenge is pending and in time, bound to this transaction in every field, and the approver is named, not the agent, and not named as agents are |
| StepUpRuns.AnswerIs | agent/stepup/manager.py:123-226 | the answer to every decision: the first check it fails with its error code, or the decided challenge |
| StepUpRuns.WhyAChallengeChanges | agent/stepup/manager.py:93-112 | a challenge changes only by an accepted decision or by expiry found at a lookup |
| StepUpRuns.SessionLookupIsActiveIff | agent/stepup/manager.py:115-121 | the session's latest challenge is found, active or not |
| StepUpRuns.SessionLookupFindsRejected | agent/stepup/manager.py:115-121 | create, reject, look up: the session's active challenge is a rejected one |
| StepUpManagers.AgentStepUpManager.CreateChallenge | agent/stepup/manager.py:50-87 | a pending challenge is stored and indexed |
| StepUpManagers.AgentStepUpManager.GetChallenge | agent/stepup/manager.py:89-113 | a lookup expires a pending challenge past its time |
| StepUpManagers.AgentStepUpManager.GetActiveChallengeForSession | agent/stepup/manager.py:115-121 | the indexed challenge after lazy expiry |
| StepUpManagers.AgentStepUpManager.ResolveDecision | agent/stepup/manager.py:123-226 | the first failing check is raised, lazy expiry kept; otherwise the decision is stored |
| ConfirmationTerms.UnambiguousIff | apps/api/agent/confirmation_gate.py:43-46 | the signed text stands for one tuple of terms only, exactly when none of its texts contains a '|' |
| ConfirmationTerms.DecimalIsInjective | apps/api/agent/confirmation_gate.py:45 | different amounts print differently |
| ConfirmationTerms.DecimalReads | apps/api/agent/confirmation_gate.py:45 | the printed amount reads back as the amount |
| ConfirmationGates.AcceptedForOtherTermsIff | apps/api/agent/confirmation_gate.py:100-115 | under an injective MAC and in any state of the gate, a token is accepted for other terms exactly if it is unused and its terms contain a '|' |
| ConfirmationGates.AcceptedAtMostOnce | apps/api/agent/confirmation_gate.py:86-120 | a token, and the terms it was made for, are accepted at most once in a gate's lifetime |
| ConfirmationGates.ExpiryBindsOnlyWhoStatesIt | apps/api/agent/confirmation_gate.py:91-98 | an accepted token is accepted later without stating an expiry; a passed expiry is reported as malformed |
| ConfirmationGates.VerdictIs | apps/api/agent/confirmation_gate.py:82-120 | the verdict on every attempt in every state of the gate |
| ConfirmationGates.HumanConfirmationGate.GenerateToken | apps/api/agent/confirmation_gate.py:29-67 | the token is the MAC of the eight terms joined by a pipe character in the order of the source, and verifies for them until it is consumed or its stated expiry passes |
| ConfirmationGates.HumanConfirmationGate.VerifyAndConsumeToken | apps/api/agent/confirmation_gate.py:69-120 | accepts and consumes, or raises the first failing check and changes nothing |
| Outbox.BatchDrains | db/repository/outbox_repository.py:89-98 | a successful batch takes exactly the oldest min(batch_size, pending) events out of PENDING and leaves all others as they were |
| Outbox.BatchMarks | apps/workers/outbox_worker.py:46-64 | each event of the batch is dispatched or failed as its own marking went, and those dispatched are counted |
| Outbox.BacklogAfter | apps/workers/outbox_worker.py:39-66 | the backlog shrinks by a full batch each time until it is empty |
| Outbox.OldestPendingExists | db/repository/outbox_repository.py:91-98 | the query always has an answer |
| Outbox.OutboxWorker.ProcessBatch | apps/workers/outbox_worker.py:32-66 | an uncaught error or a failed commit leaves the whole batch PENDING |
| Outbox.MarkAll | apps/workers/outbox_worker.py:46-64 | the loop marks each event dispatched or failed and counts the dispatched ones |
| Attempts.ClaimsAgree | db/repository/execution_attempt_repository.py:97-113 | all successful claims of one stripped merchant and key answer with one attempt, transaction and fingerprint, later ones as existing |
| Attempts.ExactlyOneClaimIsNew | db/repository/execution_attempt_repository.py:66-139 | exactly one successful claim of a key says it is new |
| Attempts.LaterClaimIs | db/repository/execution_attempt_repository.py:85-113 | in every run of units of work, the answer to each later claim of a claimed key: the same attempt for the same transaction and payload, else the error that fits |
| Attempts.FirstClaimIsNew | db/repository/execution_attempt_repository.py:115-139 | a complete claim of an unclaimed key is new unless its insert is refused |
| Attempts.AnswerAfterConflict | db/repository/execution_attempt_repository.py:127-137 | after a refused insert the answer follows the row found where the unit of work began, whatever its payload |
| Attempts.EarlierWritesSurviveIff | db/repository/execution_attempt_repository.py:123-137 | what the session saw survives a claim exactly if no insert is refused or it was all there when the unit of work began; a refused insert takes the session back there |
| Attempts.RefusedInsertLosesAnAttempt | db/repository/execution_attempt_repository.py:123-137 | two claims with one id: the second raises and the attempt reported as claimed by the first is gone |
| AttemptRepositories.ExecutionAttemptRepository.GetAttemptByKey | db/repository/execution_attempt_repository.py:141-150 | the one matching row, none, or the error of several |
| AttemptRepositories.ExecutionAttemptRepository.ClaimAttempt | db/repository/execution_attempt_repository.py:66-139 | every branch, the rollback after a refused insert included |
| AttemptRepositories.ExecutionAttemptRepository.RecordOutcome | db/repository/execution_attempt_repository.py:179-195 | updates exactly the outcome columns of an existing attempt; an empty reference leaves the old one |
| TransactionRuns.RowsProgress | db/repository/transaction_repository.py:174-250 | after every interleaving keys are unique, a transaction's key and purchase never change and its state only goes forward |
| TransactionRuns.CreationsAgree | db/repository/transaction_repository.py:59-95 | two committed answers of create_transaction name the same transaction exactly if asked for under the same key, and then for the same purchase |
| TransactionRuns.TerminalStays | db/repository/transaction_repository.py:196-197 | no interleaving makes a transaction leave a terminal state |
| TransactionRuns.EveryStateIsEnteredOnce | db/repository/transaction_repository.py:174-250 | over all committed work no transaction enters a state twice: it is dispatched at most once, and at most one outcome is entered |
| TransactionRuns.NoReceiptOverRuns | apps/api/domain/types.py:139-182 | no transition leads to RECEIPT, in any interleaving |
| TransactionOrigins.ExecutionIsEarned | db/repository/transaction_repository.py:174-218 | over every interleaving, a transaction enters EXECUTING only after AUTHORIZED, unless created in it; one created as a draft or proposal was before that RESERVED, and before that VALIDATING |
| TransactionOrigins.OriginsOverRuns | db/repository/transaction_repository.py:193-201 | in every run each state entered follows by a legal move from one entered before or created in, and each row is in such a state |
| TransactionStates.EnteredFromIff | apps/api/domain/types.py:139-182 | for each state, exactly the states from which a transition enters it |
| TransactionRuns.CaughtReportIsKept | db/repository/transaction_repository.py:234-248 | a refused outcome that is caught and committed is durable, for every transaction that cannot move there |
| TransactionRuns.CaughtReportRewritesCompleted | db/repository/transaction_repository.py:234-248 | a second SUCCESS report changes the payment of a COMPLETED transaction |
| TransactionSteps.UnknownOutcomeMovesNothing | db/repository/transaction_repository.py:226-250 | a report that is none of the six texts for success and failure is noted, and changes nothing else |
| TransactionSteps.ReportMoves | db/repository/transaction_repository.py:226-250 | for every state and text, whether the report is refused, where it leads, and that only the provider's fields are noted |
| TransactionSteps.RefusedOutcomeIsWrittenIff | db/repository/transaction_repository.py:237-248 | a report that sends a transaction where it cannot go raises, and leaves the row alone exactly if it says nothing new |
| TransactionRepositories.TransactionRepository.CreateTransaction | db/repository/transaction_repository.py:34-95 | answers with the row under that key for the same purchase, refuses it for another, or inserts under a free id and key; an insert that fails was tried while no transaction had the key |
| TransactionRepositories.TransactionRepository.TransitionTransactionState | db/repository/transaction_repository.py:174-203 | succeeds exactly for a legal transition of the row seen under the lock; a missing row or an unknown state is a ValueError, an illegal move the state error, and both leave the row |
| TransactionRepositories.TransactionRepository.MarkProviderDispatchStarted | db/repository/transaction_repository.py:205-218 | moves exactly an AUTHORIZED transaction to EXECUTING and records the dispatch; otherwise raises and leaves the row |
| TransactionRepositories.TransactionRepository.RecordProviderOutcome | db/repository/transaction_repository.py:220-250 | notes what the provider reported on the row seen under the lock; SUCCESS, CAPTURED and PAID lead to SUCCESS, FAILURE, FAILED and DECLINED to FAILURE, anything else nowhere; raises exactly if it cannot go there, and never from EXECUTING |

## Left out

- Concurrent `claim_attempt`: its (merchant, key) index is not unique, so the code gives no guarantee; claims are modelled one unit of work after the other.
- AuditRepositories.AuditRepository.GetLatestEvent: does not take the row lock that the source asks for, because the ledger theorems hold without it; more interleavings are covered, not fewer.
- StepUpRepositories.StepUpRepository.CreateChallenge: creates PENDING challenges without approver metadata only, because a challenge created as APPROVED has no approval time and falls outside the theorems.
- Lost updates between `commit_reservation` and `release_reservation` of one row, since neither takes a lock; each is one step here.
- Units of work over a session supplied from outside; a session that fails to close is taken to discard its work.
- `create_reservation` with a state other than RESERVED or amounts that differ.
- Queries that only list or count rows (`get_reservations_for_mandate`, `get_pending_challenges` and the like), `resolved_at` and `updated_at` columns.
- SHA-256, HMAC (section 2 of RFC 2104), JSON text, UUIDs: functions or parameters; ids that must be fresh are assumed so where a theorem says it, and a MAC is taken to be free of collisions in its first 32 digits.
- Case folding (`lower`, `upper`) is a parameter of the step-up manager and of the transaction repository.
- Exceptions that do not derive from `Exception`, and model responses or tool results that break their declared types: an adapter that raises covers the latter. A failure reason of the agent is kept as the exception it comes from, not as text; timestamps and step details are not kept. Whether a response asks for a proposal is one field of it, and its parsed payload another.
- `AgentState` locking: an agent is driven by one thread.
- Floating point: scores are reals. Cart and product fields that the search does not look at, and the order of the merchant domains, are dropped; the sort is a specified stable sort.
- The text checks on tool names and inputs are a verdict in the request; a tool's output is what it returned, whether it was too large, or that it raised. `reset_counts` and `list_available` are not modelled.
- A confirmation token with characters outside ASCII, which the comparison refuses with a type error.
- Two outbox workers at once, which may dispatch an event twice, and the polling loop around `process_batch`.
- `agent/orchestrator`, `agent/redteam`, `agent/hardening`, `agent/submission`, `agent/explainability`, adapters, routers, UI, scripts, discovery and prompt parsing: input and output, demonstrations, or easy facts.
