# Lending back office: a verified model

A Dafny model of the parts of the lending back office that move money or decide whether money may move,
with the properties that hold of them in every run. `dafny verify dfyconfig.toml` checks the project.

## What is modelled

**Approval gate** (`Payload`, `Lanes`, `Verdict`, `Approvals`, `GateMachine`, `GateSafety`,
`GateAnswers`, `GateHistory`, `GateRefinement`, `GateRuns`). A gated call is keyed by conversation, tool and
canonical payload. `Approvals` holds the ledger as a class whose methods are the guarded single-row updates,
and one call as a single step.
`GateMachine` takes the transaction apart into its statements (link check, threshold, owner check, advisory
lock, receipt, grant, pending, terminal, decision, tool, final write, commit or rollback) and interleaves
them with decisions, attempt claims and exec_failed marks. `GateSafety` proves what every interleaving
keeps, `GateAnswers` what the answers of transactions mean later on, `GateHistory` from which settings and
decisions of the run every execution follows, and `GateRefinement` that the interleaving is serializable.
`GateRuns` builds actual runs from the initial state.

**Rooms, guard and sub-tasks** (`Room`, `RoomMachine`, `RoomOrder`, `Redispatch`, `Dispatch`, `DispatchRuns`).
One room per conversation runs one turn at a time and queues the rest. Between a release and the call it
reschedules another event may take the room, so in-flight events are kept as bags and "latest" means the last position
in the order of queueing, which `RoomOrder` keeps for every run.
`Redispatch` puts the redispatch guard inside the turns of the rooms while the gate goes on, and bounds its
attempts. `Dispatch` interleaves dispatching, running, cancelling and reporting of specialist tasks;
`DispatchRuns` says what becomes of every task in a whole run.

**Case intake** (`Normalization`, `Intake`, `IntakeHistory`, `IntakeNeverPays`). Events delivered at least
once and out of order are folded into one row per case; `IntakeHistory` reads rows and answers off the
accepted deliveries. `IntakeNeverPays` runs the intake and the gate on one database.

**Expressions** (`Expression`). The string-scanning parser of the design tool against a printer and a direct
evaluator, for any JavaScript host.

**Underwriting** (`Credit`, `Legal`). Annuity, ratios, verdict, criteria, lane and decision.

**Disbursements** (`OpsLedger` one call after another, `OpsRace` statement by statement), **graph queries**
(`Retrieval`), **mismatch pages** (`Cursor`, `ShadowPages`, `ShadowReviews`), **canvas** (`Canvas`) and
**SQL placeholders** (`Placeholders`).

`Machines` has the facts about runs that every state machine here uses: a machine is a partial next state
function, a run is a list of labels that are enabled one after another. `Sums` adds up the values of a map.

## Where the code differs from what one might expect

- `claim_exec_attempt` has no status guard, so the attempt counter of a row that was used meanwhile still
  grows. `Redispatch.FireLowers` says exactly when firing the guard uses something up, and
  `Redispatch.FireCanMiss` is a run in which it does not.
- A business field named `action` replaces the tool name inside the hashed payload
  (`Payload.SameKeyIff`); the key still carries the tool name beside the hash.
- The automatic maximum may be infinite or NaN; the threshold may not (`Verdict.BadThresholdClosesRule`).
- An assessment that cannot be read counts as none, so below the threshold even a red one does not stop the
  rule: `GateSafety.RedStopsIff` has the exact condition and `GateRuns.RedBorrowerIsPaid` a run.
- A sub-task that is cancelled while its `mark_running` is under way can end up marked running after it has
  reported (`DispatchRuns.LateMarkReopens`), until a cleanup at a later boot
  (`DispatchRuns.StrandedUntilCleanup`); `Dispatch.FinalIsKept` has the exact condition. One that is
  cancelled before its body ran keeps its role occupied (`DispatchRuns.DroppedForever`).
- Two `ops_disburse` transactions on one application under different keys can both pay it, since the second
  look for an executed row and the count are separate statements (`OpsRace.PaidTwice`); a commit keeps every
  application paid once exactly when no payment of it came in between (`OpsRace.CommitKeepsOnceIff`).
- A reused event id or case version lets the first delivery win (`Intake.PairConvergesIff`).
- Quotes do not protect an equality operator in an expression: a quoted string that holds one outside brackets
  is cut there (`Expression.StringIff` has the exact condition, `Expression.QuotedEquality` a string).
- A verified income of zero raises no income mismatch (`Legal.VerifyEmployment`).
- A cursor over 4096 characters is refused by its own decoder (`Cursor.CursorRoundTrip`).
- The canvas keeps the last arrival of a key. It shows what building it at once shows exactly when no card of
  a key is newer than the last arrival of that key (`Canvas.ArrivalsAgreeIff`); `Canvas.OlderArrivesLast` is
  a pair of cards for which it does not.

## Model

| member | source | states |
|---|---|---|
| GateSafety.ExactlyOnce | backend/app/orch/gated.py:283-346 | Over every interleaving of the statements of gated transactions with decisions, attempt claims and exec_failed marks, the effect of a key is committed once when its row is used and never otherwise, and a row is used exactly when it has a receipt and exactly when it has a used_at |
| GateRefinement.Serializable | backend/app/orch/gated.py:283-346 | The statement-by-statement machine refines a one-step machine: the committed tables and the answers of any interleaving are those of atomic calls, refusals and single-row updates taken one after another; only an atomic call gives a receipt |
| GateHistory.AuthorityChain | backend/app/orch/verdict.py:29-155 | Every execution in the log was committed by one statement of one transaction of the run. Before it a person approved the key by a decision on its pending row; or it is a plain disbursement of a finite amount that the rule allows, the transaction read the threshold row once and it held exactly the threshold of the evidence (500 million where there was no row), it ruled once on the maximum it read (two billion where there was none), and the reading is the latest assessment, at that moment, of the owner of the named loan, or none because it was unreadable or the loan has no known owner. From the threshold on that owner is no business, and that assessment was green with every criterion passed |
| GateHistory.ClosedSettingNeverPays | backend/app/orch/verdict.py:29-48 | A transaction that found the threshold row with a number of zero or less, no finite number or nothing readable never commits an execution by the rule |
| GateSafety.RedStopsIff | backend/app/orch/verdict.py:67-145 | When a disbursement of a finite amount under an open threshold is decided and the latest assessment of the borrower is red, the rule opens a ticket instead of paying exactly when the assessment is readable or the amount reaches the threshold |
| GateSafety.TicketShowsLatest | backend/app/orch/verdict.py:64-145 | A ticket shows the latest readable assessment of the owner of the loan or application that the payload names, or none where there is none; rejection is recommended exactly for a red one |
| GateRuns.RedBorrowerIsPaid | backend/app/orch/verdict.py:67-145 | A run from an initial state in which the only assessment of the borrower is red, it cannot be read, and the rule pays |
| GateAnswers.ReceiptIsForever | backend/app/orch/gated.py:102-112 | In every run, once some transaction has answered with a receipt, executed or replayed, its row is used and holds that receipt in every later state, and every transaction of the key that answers with a receipt answers with the same one |
| GateAnswers.LateCallReplays | backend/app/orch/gated.py:102-160 | A transaction that begins after the end of its row answers, in every interleaving, the receipt of a used row or the reason of a rejected or failed one; otherwise its conversation is linked, the loan is not its own, or one of its statements failed |
| GateSafety.UsedCallReplays | backend/app/orch/gated.py:102-112 | The one-step call of a key executed before returns its receipt and changes nothing, at any later time and whatever it is asked to run |
| GateSafety.FinalizeNeverMisses | backend/app/orch/gated.py:92-99 | The guarded receipt update always finds its row approved: no writer takes it from the transaction that selected it |
| GateSafety.LinkedNeverPays | backend/app/orch/gated.py:265-311 | No approval row and no execution exists for a conversation that is linked to an intake case |
| GateSafety.StepKeeps | backend/app/orch/gated.py:283-346 | Every statement and every other writer keeps the invariant: locks are held by running transactions, selected rows stay approved, evidence is real, rows, cards and reviews agree |
| GateSafety.RunMoves | backend/app/orch/store_approvals.py:142-150 | Over any run a rejected, used or failed row keeps everything but its attempt counter, an approved row only goes on to used or failed, and the execution log only grows |
| GateRefinement.StepRefines | backend/app/orch/gated.py:92-211 | Every step of the interleaved gate is a one-step call, an answer, a row update or nothing to the one-step machine |
| GateRefinement.CommitIsCall | backend/app/orch/gated.py:115-128 | A commit has exactly the effect and the answer of the atomic call |
| Approvals.CallKeeps | backend/app/orch/gated.py:332-341 | One gated call keeps rows, cards and reviews consistent, never repeats an effect and moves rows only along the allowed transitions |
| Approvals.ExecutedReplays | backend/app/orch/gated.py:102-112 | After an execution or a replay, the next call with the key returns the same receipt and leaves the tables unchanged, whatever the decision |
| Approvals.DecideKeeps | backend/app/orch/store_approvals.py:124-172 | A decision takes effect exactly on a pending row, which becomes approved or rejected with its shadow review; every other row, card and review, the execution log and the set of waiting conversations stay as they were |
| ShadowReviews.ListedIff | backend/app/orch/store_shadow.py:19-44 | In every reachable state of the gate a review is on the mismatch list exactly when a person decided the row against the recommendation recorded for it, in the time range and lane asked for |
| Approvals.ApprovalStore.Decide | backend/app/orch/store_approvals.py:142-168 | The update in place: row, shadow review and card of a pending row change together; any other row is left alone |
| Approvals.ApprovalStore.PeekGrant | backend/app/orch/store_approvals.py:178-191 | Returns the approved unused row of the conversation with the smallest id, and none exactly when there is none |
| Approvals.ApprovalStore.ClaimExecAttempt | backend/app/orch/store_approvals.py:194-207 | Counts one attempt on the row, whatever its status, and returns the new count |
| Approvals.ApprovalStore.MarkExecFailed | backend/app/orch/store_approvals.py:210-221 | Turns an approved unused row into exec_failed and touches nothing else |
| Approvals.ApprovalStore.BranchClaim | backend/app/orch/gated.py:115-128 | Runs the tool only for an approved row; a result is finalized with its receipt, a raise leaves the tables as they were |
| Approvals.ApprovalStore.GatedTxn | backend/app/orch/gated.py:332-341 | The branches in order followed by the decision have the effect and the answer of the one-step call |
| Payload.SameKeyIff | backend/app/orch/gated.py:38-51 | Two calls share a key exactly when conversation, action and every business field agree, numbers compared as floats; an argument named action replaces the hashed action |
| Payload.KeyIgnoresNoise | backend/app/orch/gated.py:32-46 | Bookkeeping fields, nulls and the spelling of whole numbers do not change the key |
| Payload.ActionArgumentIsInvisible | backend/app/orch/gated.py:38-46 | Adding an action argument leaves the key alone exactly when it is null or repeats the tool name |
| Verdict.AutoIff | backend/app/orch/verdict.py:147-155 | The decision is automatic exactly for a plain disbursement of a finite amount that the rule allows, and carries the evidence it was given |
| Verdict.RecommendationAgrees | backend/app/orch/verdict.py:129-145 | The recorded recommendation differs from the decision only when the threshold switched the rule off |
| Verdict.AutoIsDownwardClosed | backend/app/orch/verdict.py:130-133 | If an amount is decided automatically so is every smaller one |
| Verdict.SettingDecides | backend/app/orch/verdict.py:29-145 | Without an assessment a plain disbursement is automatic exactly below the positive number in the threshold row, or below 500 million where there is no row |
| Verdict.BadThresholdClosesRule | backend/app/orch/verdict.py:29-48 | A configured threshold that cannot be read, is not finite or is not positive closes the automatic rule |
| Redispatch.RedispatchIsBounded | backend/app/orch/main_session.py:276-318 | In every run of rooms, turns and gate, attempts of a row never exceed three, the guard fires at most four times for a row, and a marked row is never approved again |
| Redispatch.FireLowers | backend/app/orch/main_session.py:276-318 | Firing lowers the sum of four minus attempts over approved rows exactly when the peeked grant is still approved; otherwise the sum stays |
| Redispatch.FireCanMiss | backend/app/orch/main_session.py:276-318 | A run from an initial state in which a session commits the grant between the peek and the claim, so that firing leaves the sum as it was |
| Redispatch.StepKeeps | backend/app/orch/main_session.py:322-329 | Peek, check and claim inside a room turn see the same attempts, because two turns of one conversation never overlap |
| Redispatch.OneTurn | backend/app/orch/room.py:56-69 | Two running turns of one conversation are the same turn |
| Redispatch.ResumeDispatchGuard | backend/app/orch/main_session.py:262-319 | Guard A defers an approval while the role is running; guard B claims one attempt of a grant below the limit, marks it failed at the limit, and otherwise changes nothing |
| RoomMachine.ReachableIsSafe | backend/app/orch/room.py:56-69 | In every reachable state at most one turn runs, a non-empty queue has a busy room or a wake in flight, the queue has at most fifty entries or no task_done, and every submitted event is accounted for |
| RoomOrder.ReachableInOrder | backend/app/orch/room.py:10-45 | In every reachable state the queue holds events in the order in which calls queued them and has the report queued last of every role it has one of; a turn that leaves wakes the earliest one still wanted, and exactly the other wanted ones stay queued |
| RoomMachine.EventsConserved | backend/app/orch/room.py:10-69 | Every event other than task_done is processed, running, queued or in flight, as many times as it was submitted |
| RoomMachine.StuckMeansDone | backend/app/orch/room.py:56-69 | A room that no call can move is free, has an empty queue and processed everything but dropped task_done events |
| RoomMachine.CanDrain | backend/app/orch/room.py:64-69 | From every state that keeps the invariant the room can be driven to rest without new arrivals |
| RoomMachine.SchedulesEnd | backend/app/orch/room.py:64-69 | Without new arrivals every schedule is finite, with an explicit bound |
| Room.TrimDropsOldest | backend/app/orch/room.py:18-22 | The overflow loop drops exactly the oldest task_done events, as few as suffice |
| Room.DedupKeepsLastPerRole | backend/app/orch/room.py:33-44 | Release keeps, in queue order, every event that is not a task_done and exactly the last queued task_done of each role |
| Room.DedupCoversRoles | backend/app/orch/room.py:33-44 | A role has a task_done after deduplication exactly when it had one before |
| Room.Registry.TryAcquire | backend/app/orch/room.py:10-23 | Takes a free room, or appends to the queue of that conversation and trims it; other conversations are unchanged |
| Room.Registry.TrimQueue | backend/app/orch/room.py:18-22 | The loop that pops the first task_done computes the trimmed queue |
| Room.Registry.ReleaseRoom | backend/app/orch/room.py:26-45 | Frees the room, deduplicates by a backward scan with a set of seen roles, keeps the tail queued and returns the head |
| Dispatch.OneTaskPerPost | backend/app/orch/dispatch.py:10-20 | In every interleaving of dispatch, run, cancel and report, at most one unreported task of a conversation and role exists, and at most four tasks of a conversation hold a slot |
| Dispatch.UnregisterIsOwn | backend/app/orch/registry.py:49-51 | In every interleaving a report removes exactly its own registration, although unregister_running pops whatever the role holds |
| Dispatch.FinishLands | backend/app/orch/store.py:91-97 | The guarded finish of a report always lands |
| Dispatch.OutcomeIs | backend/app/orch/sub_runner.py:103-122 | Which way a run ends gives which status, with the reason of a failure cut after 500 characters |
| Dispatch.StatusGuards | backend/app/orch/store.py:91-97 | A finish is refused exactly by done, timeout and failures other than a restart; a cleanup turns exactly queued and running into the mark of a restart |
| Dispatch.ReportedOnce | backend/app/orch/sub_runner.py:53-67 | A task emits task_done at most once, and exactly when its report went through |
| Dispatch.FinalIsKept | backend/app/orch/store.py:83-110 | A final status survives a step exactly when the step is not the late mark of a task cancelled while marking |
| Dispatch.DroppedBlocksItsPost | backend/app/orch/sub_runner.py:100-130 | A task cancelled before its body ran keeps its role registered in every later state and never reports |
| DispatchRuns.DroppedForever | backend/app/orch/sub_runner.py:100-130 | From every initial state and for every role a run leads to such a task, and in every continuation of it the role stays occupied |
| DispatchRuns.LateMarkReopens | backend/app/orch/store.py:83-97 | From every initial state and for every role there is a run in which a task is cancelled while its mark_running is under way, reports once, is final, and is then marked running, since mark_running does not look at the status |
| DispatchRuns.StrandedUntilCleanup | backend/app/orch/store.py:161-186 | In every continuation the row of such a task stays running, unless a cleanup covers it and fails it |
| DispatchRuns.TaskTakesEightSteps | backend/app/orch/sub_runner.py:100-130 | In every run, whatever goes on in between, one task takes at most eight steps |
| DispatchRuns.StuckMeansReported | backend/app/orch/sub_runner.py:100-123 | When no task can go on, every task has sent exactly one task_done, except those that the run cancelled before their body ran or whose report it made fail, which sent none |
| DispatchRuns.CanDrain | backend/app/orch/sub_runner.py:100-123 | From every reachable state there is a schedule by which every task not lost before sends exactly one task_done |
| DispatchRuns.Fate | backend/app/orch/sub_runner.py:49-123 | A task is dropped or lost exactly when the run held the step that drops or loses it |
| DispatchRuns.AloneIsRunSub | backend/app/orch/sub_runner.py:100-123 | The steps of a task that nothing interleaves with change rows, registry and reports exactly as the body of _run_sub does, whatever way the run ends |
| Dispatch.Tasks.CreateTaskGuarded | backend/app/orch/dispatch.py:10-20 | Returns the registered task of the role, or creates a queued row and registers it |
| Dispatch.Tasks.FinishTask | backend/app/orch/store.py:91-105 | Writes the outcome unless a final status is there, and says whether it wrote |
| Dispatch.Tasks.Report | backend/app/orch/sub_runner.py:49-67 | Frees the role, writes the outcome under its guard and sends one task_done |
| Dispatch.Tasks.RunSub | backend/app/orch/sub_runner.py:100-123 | Whatever way the run ends, the row ends with the matching outcome, the role is free and exactly one task_done was sent; a cancellation is raised on |
| Dispatch.Tasks.CleanupOrphans | backend/app/orch/store.py:161-186 | Fails exactly the queued and running rows from before the boot and counts them; then exactly the running conversations without a queued or running task become idle |
| Intake.DeliveriesConverge | backend/app/case_intake/service.py:143-247 | Two delivery sequences with the same events, in any order and with any duplication, end with the same version, content, amount, product, documents and missing codes for every case |
| Intake.NewestWins | backend/app/case_intake/service.py:148-247 | The row of a case shows the delivered event with the highest version |
| Intake.PairConvergesIff | backend/app/case_intake/service.py:151-187 | Two events of one case end alike in both orders exactly when their content agrees or both id and version differ |
| Intake.IngestReflects | backend/app/case_intake/service.py:143-187 | Deliveries of a coherent source are never refused |
| Intake.RedeliveriesAreHarmless | backend/app/case_intake/service.py:143-178 | Dropping every redelivery leaves links, conversations and requests for information unchanged |
| Intake.IngestMoves | backend/app/case_intake/service.py:148-201 | Accepted versions of a case strictly increase, cancelled is absorbing and its conversation stays as it was, and a conversation once set never changes |
| Intake.RunMoves | backend/app/case_intake/service.py:148-247 | The same over any number of deliveries |
| Intake.ConversationIsLinked | backend/app/case_intake/service.py:193-201 | A new conversation belongs to the case of the event, which is not cancelled and had none |
| Intake.IntakeStore.IngestCaseEvent | backend/app/case_intake/service.py:109-263 | The update in place of inbox, link and conversations, with its receipt, conflict and request for information |
| IntakeHistory.RowsFollowHistory | backend/app/case_intake/service.py:39-46 | After any deliveries a case has a row exactly when some delivery was accepted for it, and the row shows the last accepted one. It is cancelled exactly when a cancellation was accepted; otherwise the last accepted event that is no snapshot, or the first of all, decides: missing codes, a request and a snapshot give the three other statuses. Its conversation is that of the first accepted request in shadow mode before any cancellation |
| IntakeHistory.CancelledForGood | backend/app/case_intake/service.py:180-194 | After an accepted cancellation the case stays cancelled and no later delivery opens a conversation for it |
| IntakeHistory.AnswersFollowHistory | backend/app/case_intake/service.py:143-247 | Every answer follows from the deliveries before it: a known event id repeats its first answer or conflicts; otherwise the version is compared with the last accepted one; a request for information goes out exactly when an accepted event, not a cancellation, has missing codes that differ from those accepted before it, and names exactly its codes in order |
| Normalization.NormalizeMissingFields | backend/app/case_intake/normalization.py:28-37 | The loop over a set followed by sorting |
| Normalization.NormalizeIsSorted | backend/app/case_intake/normalization.py:28-37 | The result is strictly ascending and holds exactly the codes of the values |
| Normalization.CodeIff | backend/app/case_intake/normalization.py:28-37 | A value gives a listed code exactly when it is that code between white space, and the code for unknown otherwise |
| Normalization.SameCodesIff | backend/app/case_intake/normalization.py:28-37 | Two lists normalize alike exactly when they hold the same codes, in any order and number |
| Normalization.NormalizeIsIdempotent | backend/app/case_intake/normalization.py:28-37 | Normalizing twice changes nothing |
| IntakeNeverPays.IntakeConversationsNeverPay | backend/app/case_intake/service.py:193-247 | In every run of intake and gate together, a conversation created by an event is linked, and no approval row and no execution exists for it |
| IntakeNeverPays.CreatedStays | backend/app/case_intake/service.py:193-247 | A conversation created by an event is never lost |
| IntakeNeverPays.LinksFollow | backend/app/case_intake/service.py:202-247 | A delivery commits a new conversation and its link together |
| Expression.RoundTrip | design/support.js:205-294 | For every host and every expression tree over explicit alphabets of names, numbers and white space, in which a left operand or a negated operand that is an equality is parenthesised, resolving the printed text gives the value of the tree |
| Expression.AlphabetsAgree | design/support.js:203-204 | The scanner accepts exactly the letters, digits and white space of explicit alphabets |
| Expression.DeadPathIsUndefined | design/support.js:256-294 | A path followed by a character that cannot go on it, a dot without a name or index, or a bracket that never closes is undefined, whatever it reached before |
| Expression.StringIff | design/support.js:211-253 | A quoted string by itself, whatever it holds, has its text as value exactly as long as no equality operator stands in it outside brackets; then it is cut there and compared |
| Expression.QuotedEquality | design/support.js:211-253 | A quoted string of an equality operator, which is compared instead |
| Expression.MissingOperand | design/support.js:211-224 | An equality without a right operand compares the left one with undefined |
| Expression.BlankIsUndefined | design/support.js:206-207 | Nothing but white space is undefined |
| Expression.ChainsAssociateRight | design/support.js:211-224 | An unparenthesised chain a op b op2 c means a op (b op2 c) |
| Expression.PaddingIsIgnored | design/support.js:206 | White space around an expression does not matter |
| Expression.EqualityIsFound | design/support.js:240-255 | The scan of a printed equality stops at its operator and nowhere else |
| Expression.WrapEnds | design/support.js:230-239 | The wrap scan accepts a parenthesised text exactly when its closing parenthesis is the last character |
| Expression.PathSteps | design/support.js:256-294 | The path loop reads the printed segments one by one |
| Expression.ParensWrapWhole | design/support.js:230-239 | The loop computes the wrap scan |
| Expression.FindTopLevelEquality | design/support.js:240-255 | The loop finds the first operator at depth zero that has a left operand |
| Expression.MatchingBracket | design/support.js:269-280 | The inner loop finds the bracket that closes an index, or none |
| Expression.ResolvePath | design/support.js:256-294 | The loop over segments computes the value of a path |
| Expression.ResolveSource | design/support.js:205-229 | The recursive evaluator, which ends on every text |
| Credit.AnnuityAmortises | roles/credit/functions.py:32-38 | Paying the annuity each month takes the balance from the principal to exactly zero after the term and never below zero before, for a zero, positive or negative rate above minus 1200 percent |
| Credit.AnnuityIsLinear | roles/credit/functions.py:32-38 | The payment is proportional to the principal and positive for a positive one |
| Credit.RoundMonotone | roles/credit/functions.py:144 | Rounding half to even is monotone at every scale |
| Credit.RoundIsNearest | roles/credit/functions.py:144 | Rounding gives the nearest multiple of the step, the even one of two |
| Credit.VerdictMonotoneInAmount | roles/credit/functions.py:165-197 | With non-negative income the verdict gets no worse when the amount falls |
| Credit.VerdictMonotoneInIncome | roles/credit/functions.py:142-144 | More income never makes the verdict worse |
| Credit.LessIsNoWorse | roles/credit/functions.py:72-197 | Through the whole assessment: a smaller amount is refused alike, its verdict is no worse, and an eligible amount stays eligible |
| Credit.VerdictIsUnique | roles/credit/functions.py:194-197 | Exactly one verdict fits given facts |
| Credit.EligibleIff | roles/credit/functions.py:139-197 | A loan is eligible exactly when money is asked for, there is income, and the debt service, the collateral with its papers, the cap and the credit history allow it |
| Credit.IneligibleIff | roles/credit/functions.py:165-197 | A loan is ineligible exactly when money is asked for and debt service, collateral value, cap or history speaks against it |
| Credit.MetricsAre | roles/credit/functions.py:139-163 | What debt service and loan to value are computed from; without an amount nothing is added and there is no loan to value |
| Credit.FactsAreRead | roles/credit/functions.py:102-163 | An assessment is of the facts in the tables: own active loans, declared or verified income, own collateral, and the rate and term of the kind of loan from the settings |
| Credit.PaymentsCount | roles/credit/functions.py:131-134 | A loan counts exactly when it is the owner's and active |
| Credit.AcceptedIff | roles/credit/functions.py:80-163 | What a request must be to be assessed |
| Credit.PolicyIsRead | roles/credit/functions.py:102-116 | Every part of the policy is the last number of its own row of the settings, or its default |
| Credit.Judge | roles/credit/functions.py:139-197 | The appended reasons and missing pieces are exactly those that apply, and the verdict is the worst of them |
| Credit.CreditAssess | roles/credit/functions.py:72-197 | Requests are refused in the order of the checks, and the verdict is that of the facts read from the tables under the policy in the assumptions table |
| Credit.Assumptions | roles/credit/functions.py:41-52 | A key has a value exactly when some row gives it a number, and the value is the last one |
| Legal.GreenIff | roles/legal/functions.py:266-345 | The lane is green exactly when every check is clean: an individual with a matching clean record, good credit history, verified income, papers, purpose and an eligible verdict |
| Legal.RedIff | roles/legal/functions.py:266-336 | The lane is red exactly when one of the blocking findings is there |
| Legal.DecisionIff | roles/legal/functions.py:342-345 | Auto-approval exactly for a clean profile up to the maximum, human approval exactly for a clean profile above it, rejection exactly when something blocks, human review otherwise |
| Legal.RefusedIff | roles/legal/functions.py:243-256 | What is refused before anything is checked |
| Legal.CriteriaKeys | roles/legal/functions.py:264-336 | Which checks are reported under which keys, none twice; foreign collateral replaces the papers and the credit verdict |
| Legal.DocsIff | roles/legal/functions.py:45-91 | The documents check passes exactly on valid mandatory papers and clean own collateral, and blocks exactly on foreign or disputed collateral |
| Legal.PolicyIsRead | roles/legal/functions.py:257-259 | Every part of the policy is read from its own row of the settings, or has its default |
| Legal.MismatchBounds | roles/legal/functions.py:214-218 | The income mismatch goes by the gap in percent of the verified income, up to the rounding of the percentage |
| Legal.LaneMonotoneInAmount | roles/legal/functions.py:326-345 | A smaller amount never makes the lane or the decision more severe |
| Legal.BusinessIsNeverGreen | roles/legal/functions.py:293-297 | A business always has a criterion that sends it to a person |
| Legal.GateAcceptsAssessments | roles/legal/functions.py:338-356 | Every assessment that a classification writes is one the approval gate reads |
| Legal.Ledger.Classify | roles/legal/functions.py:239-372 | Appends exactly one assessment with the criteria under the policy in the settings and their lane, and answers auto-approval exactly for a clean profile up to the number in the row auto_approve_max_vnd (two billion without one), rejection exactly when something blocks, human approval exactly for a clean profile above the maximum; or refuses and writes nothing |
| Legal.PiecesJoin | roles/legal/functions.py:169 | Cutting the blocked record types at the commas loses nothing: joining the pieces gives the text back |
| Legal.CheckPolice | roles/legal/functions.py:151-198 | Each flag is raised exactly under its condition |
| Legal.VerifyEmployment | roles/legal/functions.py:201-236 | Each flag is raised exactly under its condition; a record without a verified income raises no mismatch |
| Legal.PaperCriteria | roles/legal/functions.py:307-324 | Documents and purpose give the criteria of their checks |
| OpsLedger.LedgerIsSound | roles/operations/functions.py:161-227 | Over every serial history from a consecutively numbered ledger: at most one executed disbursement per application, ids and receipt codes pairwise distinct |
| OpsLedger.NewRowsAreProper | roles/operations/functions.py:161-212 | Every row that a history adds, the first included, was added by a disbursement for the application amount at a moment when every gate held and nothing was paid |
| OpsRace.PaidTwice | roles/operations/functions.py:188-212 | Whatever application may be paid, two transactions on it under different keys can interleave so that the ledger gets two executed rows |
| OpsRace.CommitKeepsOnceIff | roles/operations/functions.py:188-212 | A commit keeps every application paid at most once exactly when no payment of its application was committed between its second look and its count |
| OpsRace.OnlyCommitsPay | roles/operations/functions.py:188-212 | No other statement changes the ledger |
| OpsRace.NumbersNeverClash | roles/operations/functions.py:200-212 | However the statements interleave, ids and receipt codes of the ledger stay pairwise distinct |
| OpsLedger.ReadyIff | roles/operations/functions.py:131-150 | The plan says ready exactly when disbursing the own positive amount would succeed |
| OpsLedger.PaidIff | roles/operations/functions.py:161-212 | What a payment needs, and that anything else changes nothing |
| OpsLedger.NoBlockersIff | roles/operations/functions.py:81-105 | Nothing blocks exactly when every gate holds and nothing was paid |
| OpsLedger.BlockersIff | roles/operations/functions.py:81-105 | Each blocker is listed exactly when it applies |
| OpsLedger.RefusedIff | roles/operations/functions.py:161-187 | Why a disbursement is refused, and with which blockers |
| OpsLedger.PlanIff | roles/operations/functions.py:131-150 | Each next action is advised exactly in its case, the most urgent first |
| OpsLedger.NumbersDiffer | roles/operations/functions.py:200-203 | Different numbers give different ids and receipt codes, through zero padding |
| OpsLedger.NumbersRead | roles/operations/functions.py:200-203 | An id is DSB and the decimal number with at least two digits, a receipt code RC-2026- and the number past 100000, without needless zeros |
| OpsLedger.OpsStore.GateCheck | roles/operations/functions.py:81-105 | Appends the blockers of the gates, the open steps and the earlier payment |
| OpsLedger.OpsStore.OpsPlan | roles/operations/functions.py:131-150 | The next action by order of urgency |
| OpsLedger.OpsStore.OpsDisburse | roles/operations/functions.py:161-227 | A refusal aborts and changes nothing; a payment appends one row and marks the application |
| Retrieval.GroupIsDistance | roles/_retrieval/functions.py:200-213 | The group holds exactly the other parties at undirected distance one or two, each with MIN(lvl) equal to that distance |
| Retrieval.GroupIsSymmetric | roles/_retrieval/functions.py:200-213 | Membership is symmetric with the same level |
| Retrieval.GroupExposureCoversOwn | roles/_retrieval/functions.py:214-233 | Group exposure is own exposure plus that of the others, so never below it |
| Retrieval.ExposureAdds | roles/_retrieval/functions.py:214-219 | Exposures of disjoint parties add up: each active loan counts once |
| Retrieval.ExposureCounts | roles/_retrieval/functions.py:214-219 | A loan counts exactly when it is active and a party owes it |
| Retrieval.RelatedExposure | roles/_retrieval/functions.py:182-242 | Refusals, group, both sums and both caps |
| Retrieval.Walk | roles/_retrieval/functions.py:200-210 | The rounds of the recursive query, joining only new rows, end with every row up to the depth |
| Retrieval.RowsAreWalks | roles/_retrieval/functions.py:200-210 | Rows of a level are the ends of walks of that length |
| Retrieval.RelatedDocs | roles/_retrieval/functions.py:111-129 | The edges are exactly the links that leave pages within depth minus one steps of the root |
| ShadowPages.PagesAreComplete | backend/app/orch/store_shadow.py:182-250 | Following next_cursor gives the whole filtered ledger in descending order with no row skipped or repeated, for every limit of at least one |
| ShadowPages.CursorsAreCompleteIff | backend/app/orch/store_shadow.py:182-250 | A client that sends back every next cursor collects the whole filtered list when each cursor it is given is within 4096 characters, and is refused otherwise |
| ShadowPages.CursorsAreComplete | backend/app/orch/store_shadow.py:182-250 | When the cursors of the wanted rows are short enough the client is never refused and collects the whole filtered list |
| ShadowPages.SomeCodecFits | backend/app/orch/store_shadow.py:97-146 | Some codec has short readable cursors for any ledger of up to three thousand rows, so the two results before are not empty |
| ShadowPages.GrowthSkipsNothing | backend/app/orch/store_shadow.py:182-250 | Whatever rows are appended between pages, the rows of the first ledger are listed completely, once each and in order |
| ShadowPages.PageSplits | backend/app/orch/store_shadow.py:206-249 | A page is the start of the list and the next page starts right behind it, strictly shorter |
| ShadowPages.SelectedHolds | backend/app/orch/store_shadow.py:196-219 | The query returns exactly the wanted rows, strictly descending |
| ShadowPages.LimitZeroListsNothing | backend/app/orch/store_shadow.py:226-249 | With a limit of zero nothing is listed and there is no next page |
| ShadowPages.Mismatches | backend/app/orch/store_shadow.py:182-250 | Decodes the cursor, reads one row more than the limit and encodes the next cursor from the last row shown |
| Cursor.DecodeUndoesEncode | backend/app/orch/store_shadow.py:75-80 | base64url without padding decodes to what was encoded |
| Cursor.CursorRoundTrip | backend/app/orch/store_shadow.py:97-146 | A cursor decodes to its anchor exactly when it is not longer than 4096 characters and the filters are the same; otherwise it is refused |
| Cursor.AcceptedIsSigned | backend/app/orch/store_shadow.py:117-146 | An accepted cursor carries the signature of its body and the filters it is used with |
| Canvas.UpsertsEqualBuild | frontend/src/workspaceUtil.ts:18-32 | Upserting the cards in ts order gives the same card for every key as building the canvas at once, one card per key |
| Canvas.UpsertedIsIndex | frontend/src/workspaceUtil.ts:27-32 | In any order of arrival the list keeps the last arrival of each key, sorted by ts |
| Canvas.ArrivalsAgreeIff | frontend/src/workspaceUtil.ts:18-32 | Upserting the cards as they arrive and building the canvas at once show the same cards exactly when no card of a key is newer than the last arrival of that key |
| Canvas.OlderArrivesLast | frontend/src/workspaceUtil.ts:18-32 | Two cards of one key with the older one last: the two lists differ |
| Canvas.CanvasShowsNewest | frontend/src/workspaceUtil.ts:18-24 | No card of a key is newer than the one shown |
| Canvas.SameKeyIff | frontend/src/workspaceUtil.ts:34-36 | Two cards share a key exactly when kind and task agree, a card without a task counting as of the task null |
| Canvas.BuildCanvas | frontend/src/workspaceUtil.ts:18-24 | The loop over the sorted cards fills the map |
| Canvas.UpsertCardInto | frontend/src/workspaceUtil.ts:27-32 | Cards with the id or the key of the new one leave, it enters, and the list is sorted |
| Placeholders.RewriteIsByCharacter | backend/app/mount/pg_adapter.py:12-21 | The token rewrite replaces exactly the question marks outside matched quotes and leaves every other character |
| Placeholders.RewriteIsIdempotent | backend/app/mount/pg_adapter.py:12-21 | Rewriting twice changes nothing more |
| Placeholders.AgreeIff | backend/app/orch/ops_bridge.py:41 | The plain substitution of the bridge agrees exactly on SQL without a question mark in quoted text |

## Left out

- GateMachine: PostgreSQL is taken to commit and roll back atomically, to let a statement read what is committed, to hold advisory and row locks to the end of the transaction and to refuse a second row with one idempotency key; SQL text is not modelled.
- GateMachine: the card notices, doorbells and streamed events that follow a commit are left out, and so is the loan row that the inner tool writes: an execution is one entry of a log.
- GateMachine: tenants are left out; the model is of one tenant. Conversation deletion, demo reset and seeding are not steps.
- GateMachine: the order of the assessments ledger stands for the order by creation time and id.
- SameKeyIff: the hash is taken to be injective and floats of whole numbers to be exact; huge integers that lose digits as doubles are not told apart by the original. Nested lists and objects in arguments are not modelled.
- AuthorityChain: the owner of a loan is fixed once the loan is known; what `float` makes of a text amount is left open.
- RedispatchIsBounded: the other checks of the guard (which role is running) may skip it at any time, so the bound does not depend on them.
- ReachableIsSafe: a turn is an arbitrary step that ends; what the model session does in it is a foreign call.
- OneTaskPerPost: a call for an unknown role is refused before anything is created and is not a step; a dispatching call that fails between creating the row and registering it is left out, and so is a restart, which empties the registry.
- StuckMeansReported: which reports fail is left open; a report whose database write or event fails is logged and ends without an event, as in the original.
- IngestCaseEvent: an unknown source tenant and a database failure (both 503) are left out; they roll back. Payload and content hashes are taken to be injective.
- DeliveriesConverge: the case status, the conversation and the source time stamp do depend on the order and are not claimed to converge.
- RoundTrip: property access and comparison are parameters of the host, so getters that raise are left out. Identifiers that are keywords, and string literals with brackets or equality signs inside a larger expression, are outside the printed trees; alone such a string is the subject of StringIff.
- AnnuityAmortises: doubles are reals, so the balance is exactly zero; term and rate must make the formula defined.
- CreditAssess: NaN and infinite amounts and settings, a term or rate in the settings for which the formula is undefined, and the total debt and warnings that are only reported, are left out.
- Classify: a setting for the credit assessment must make its formula defined; the current year is a parameter; the details of a criterion are left out, its key and level are kept; restrictions of a purpose are banned or conditional.
- LedgerIsSound: histories are serial here; the statements of concurrent transactions are the steps of OpsRace, where at most one payment per application does not hold.
- OpsRace: apart from being marked as disbursed the applications and their steps stay as they are during a run, and the lock of the approval gate on one key is taken to make calls under one key one after another.
- OpsDisburse: a busy ledger and the default beneficiary text are left out.
- GroupIsDistance: the relation shown for a member (the smallest of its relation names) is left out.
- RelatedDocs: page records and the warning about inactive pages are left out.
- Mismatches: the JSON text and the HMAC are parameters; the decoder of the original also skips characters outside the alphabet, which a signed body never holds. The mismatch filter of another tenant is left out.
- UpsertsEqualBuild: the order of the two lists differs (insertion order of keys against ts order) and is not compared; localeCompare is a rank.
- AgreeIff: the write guard of the adapter is left out.
- Shadow statistics, prompt texts, HTTP, authentication, streaming, mail, vector search and the user interface have little state of their own and are left out.
