# Verification model of bitz-pool

bitz-pool is a mining-pool server: concurrent async tasks that share locked state (a nonce counter, nonce ranges per
client, the epoch hashes, a submission window, the tracked proof) and a rewards ledger in a database. This project models
the three parts that decide who is paid, how much, and whether the pool can pay it, and proves properties of every run.

- **Epoch engine.** `Epoch` has the shared state and the effect of every critical section. `Engine` is a transition system
  whose steps are single critical sections of the dispatcher, any number of solution handlers, the submitter, any number of
  spawned watchers, the proof tracker and the chain. A reset is four separate steps, and submitter and watchers all take
  them. `EngineBest`, `EngineRanges`, `EngineOwned`, `EnginePaid`, `EngineMax`, `EngineFreeze`, `EngineOrigin` (whose
  submission is recorded) and `EngineMined` (what a message pays was mined) prove properties of all its runs,
  `EngineRangesExact`, `EngineExact` and `EngineTwice` (and those modules themselves) that their premises are exact,
  `EngineCoarse` and `EpochOrder` treat runs that handle a message in one step, `EngineTurns` says in fields what a whole
  turn of each task does when nothing comes in between, `EngineExamples` gives concrete runs for what fails without a
  premise. `EpochPool` and `ProofTracking` hold the state in classes whose methods update it in place, each proved equal to
  the function the engine uses.
- **Reward split and booking.** `Split` (commission, nested floors, fixed-width arithmetic), `MineSuccess` (totals, rows,
  what a message pays), `Booking` (chunks, grouped join), `BookingTask` (the loops that book a message, retries included),
  `Sockets` (fresh connection ids), `Pipeline` and `OneCredit` (join the engine to the split and to the ledger).
- **Claims and ledger.** `Tables`, `Database` and `ClaimDesk` hold tables, queue, handlers and worker; `Ledger` interleaves
  settlement, booking, claim handlers and claim worker with every database statement a step of its own; `LedgerSolvency`,
  `LedgerBooks` and `LedgerClaims` prove properties of all its runs, `LedgerExact` that the premises on claims are exact;
  `LedgerTurns` says in fields what a whole claim, payment or reward does; `LedgerExamples` gives concrete runs.

`Words`, `Wrappers`, `Sums` and `Cutoff` are shared.

## What was found

- **A submission can be paid twice, and a closed window can be left with nobody to reopen it.** Neither promise holds of
  all runs. The wait loop leaves without resetting when the epoch challenge already equals the tracked one
  (src/systems/pool_submission_system.rs:740-747). That is right only if the hashes were cleared since the submitter copied
  them. If a late watcher of an earlier attempt resets between the submitter's read of its proof (line 49) and its copy
  (line 71), the copy already belongs to the newer challenge, the exit is taken, and nothing was cleared. Call a copy
  overtaken if it holds a best solution, the epoch challenge is the tracked proof's, and the submitter read an older proof;
  all of it can be read at line 71. Then
  - nothing is paid twice in any run that pays no overtaken copy (`NothingPaidTwice`), and no handler task is then credited
    by two rows of the ledger (`OneCreditPerTask`); among copies whose solution the chain would accept the overtaken ones are
    exactly those that can be paid and left uncleared (`UnclearedExactlyWhenOvertaken`), and from each of them, once the
    window is open and somebody has a harder solution for the next challenge, some continuation pays every other client's
    record a second time (`OvertakenPaysTwice`); `SubmissionPaidTwice` is a run from start-up;
  - the window is never orphaned in any run that pays no overtaken copy taken with the window still closed and no resetter
    about to open it (`WindowNeverOrphaned`), and among the same copies exactly those can orphan it
    (`OrphanedExactlyWhenOvertaken`); `WindowOrphaned` is such a run from start-up.
- **A reward update that fails is reported as done.** `update_rewards` matches the outcome of the connection only and drops
  that of the statement (src/app_database.rs:473-476), so a deadlock or lock timeout answers `Ok` and the retry loops
  (src/systems/pool_mine_success_system.rs:188, src/systems/pool_submission_system.rs:596) go on. Solvency survives that
  (`AlwaysSolvent`); the books do not (`LostUpdateUnbalancesBooks`), and are off by exactly the lost credits, so they agree
  if and only if no amount was lost (`MinerBooksBalance`, `SurplusIsRoundingAndAbsence`, `LostChunksAreMissing`).
- **A block registered after a reset** that came between its issue and its registration can overlap ranges handed out since
  (`LateRegistrationOverlaps`). Ranges are disjoint in every run in which each clear of the ranges that leaves no counter
  ahead finds the waiting blocks below the counter and apart from each other (`RangesStayApart`), and after any clear, until
  another resetter starts, they can fail to be if and only if it does not (`OverlapExactlyAtUnfitClear`).
- **The dispatch and close guards can pass together**, exactly when a proof with ten seconds left arrived after the submitter
  read its own and the window is open (`CloseExcludesDispatch`, run `GuardsPassTogether`). After the freeze only a round of
  the dispatcher that was under way issues (`DispatchFreeze`, run `OpenBatchIssuesFrozen`), and it can if and only if it is
  handing out already, or found time left and finds the window open or about to be opened (`IssuesFrozenExactly`).
- **Handlers of one client that overlap** can lower a recorded difficulty (`OverlappingTasksLoseDifficulty`). No difficulty
  drops in any run in which handlers of one client that are about to write together carry one difficulty
  (`DifficultyNeverDrops`), and the writes that are due can make one drop if and only if two of them do not
  (`DropsExactlyWhenUnequal`). Likewise the best solution stays recorded as long as no two of them differ while one beats the
  best (`BestIsTheMaximum`), and can be lost if and only if two do (`BestLostExactlyWhenUnsafe`).
- **A handler that a reset overtakes** can record a nonce since issued to another client (`InterruptedHandlerSharesNonce`).
  Recorded nonces are their clients' in any run in which each clear of the hashes that leaves no reset half done finds every
  handler that may still record holding a nonce of its client (`InterleavedNoncesAreOwned`), and after any such clear the
  handlers can record a foreign nonce if and only if one that passes its checks holds one (`ForeignExactlyAtClear`). The first
  counts solutions for challenges to come, which only a later proof lets pass; the second those that pass as things are.
- **A claim request checked before and inserted after the worker finishes a claim of the same miner** can break the cooldown
  and can be paid without cover (`StaleRequestSkipsCooldown`, `StaleRequestOverpays`). Exactly: every debit is covered in any
  run in which no debit leaves a waiting request of its miner short (`DebitsAreCovered`), and after a debit the next one can
  be refused if and only if it did (`RefusedExactlyAfterShortDebit`); claims are spaced in any run in which no claim is
  recorded while a request of its miner waits (`ClaimsAreSpaced`), and after a recorded claim the next one can come too soon
  if and only if one did (`TooCloseExactlyAmidst`).
- **Arithmetic** is exact up to difficulty 69 and a reward of u64::MAX / 5, and not beyond (`HashpowerExact`,
  `CommissionExact`).
- **Code against text**: the refusals say "Minimum claim is 0.05 BITZ" (src/utils.rs:716), while the constant 2_000_000_000
  they guard is called 0.02 BITZ where the account fee uses it (src/utils.rs:872). The model follows the constant.

## Premises about the environment

- Challenges are fresh and numbered in the order the chain issues them. The pool's challenge moves only when one of its own
  transactions lands, and the chain takes only a solution valid for its current challenge, once per transaction.
- Proof updates arrive in chain order, except late notices of the challenge remembered as the last one.
- Connection ids are fresh. The clock never goes back.
- A database `Err` had no effect, and except for reward updates an `Ok` was applied, so a retried statement is a step that
  applies once. Reading a last claim succeeds. A claim transaction reported failed or expired had no effect. Server and
  database read one clock.
- A block is taken only while the counter stays within u64.
- Rewards fit u64; the recorded difficulties of a paid snapshot are at most 69 and their hashpower total fits u64.
- Messages may be booked in any order, which allows more than the channel does.
- `paused` is never set (src/main.rs:457) and is not part of the state.

Premises on how steps interleave are `requires` of the lemmas that need them and of no other. That tasks of one client do not
overlap, that a block is registered as it is taken, and that a claim's checks and insert are one step are special cases
(`SerialisedIsEnough`, `OneStepIssueIsEnough`, `OneStepIsEnough`).

## Model

| member | source | states |
|---|---|---|
| EnginePaid.NothingPaidTwice | src/systems/pool_submission_system.rs:654-809 | In every run that pays no overtaken copy, the submissions were cleared between the copies two messages pay, so what one handler task recorded is paid by at most one message |
| EnginePaid.WindowNeverOrphaned | src/systems/pool_submission_system.rs:740-747 | In every run that pays no overtaken copy taken with the window closed and no resetter about to open it, a closed window always has the submitter still in its iteration, or a resetter that has cleared the hashes and still has the window to reopen |
| EngineTwice.OvertakenPaysTwice | src/systems/pool_submission_system.rs:740-747 | From every reachable overtaken copy the chain would accept, with the window open or about to be opened and a harder solution for the next challenge in the hands of a client who holds its nonce, some continuation pays every other client's recorded submission by two messages |
| OneCredit.OneCreditPerTask | src/systems/pool_mine_success_system.rs:61-197 | Along any run of the engine that pays no overtaken copy and any run of the ledger that settles its messages, every row credits one recorded submission with its share, to the miner whose socket the check of its handler task found, and no two rows of the whole ledger credit what the same handler task recorded |
| EngineExact.UnclearedExactlyWhenOvertaken | src/systems/pool_submission_system.rs:71-74 | For every reachable state with a copy just taken that the chain would accept: some continuation pays the copy and leaves it uncleared if and only if the epoch hashes belong to the tracked proof and the submitter read another |
| EngineExact.OrphanedExactlyWhenOvertaken | src/systems/pool_submission_system.rs:60-64 | For the same states: some continuation leaves the window closed with nobody to reopen it if and only if the submitter was overtaken, the window is still closed and no resetter is about to open it |
| EngineExamples.SubmissionPaidTwice | src/systems/pool_submission_system.rs:740-747 | A run from start-up in which two messages pay the same recorded submission |
| EngineExamples.WindowOrphaned | src/systems/pool_submission_system.rs:740-747 | A run from start-up that ends with the window closed, the submitter idle and no resetter left to reopen it |
| EnginePaid.UpToDateMeansCleared | src/systems/pool_submission_system.rs:740-747 | A submitter whose copied solution is not ahead of its proof and who finds the epoch challenge up to date finds the hashes cleared since its copy |
| EnginePaid.OrderStep | src/systems/pool_submission_system.rs:268-300 | No step lets the epoch challenge, or the challenge a resetter carries, run ahead of the tracked proof |
| EnginePaid.WindowStep | src/systems/pool_submission_system.rs:317-332 | Every step of every task keeps somebody responsible for reopening a closed window, if after paying a copy that is ahead somebody is about to open it |
| EnginePaid.PaidStep | src/systems/pool_submission_system.rs:611-627 | Every step keeps the paid copies in strictly growing generations, below what the submitter may pay next |
| EnginePaid.TasksStep | src/systems/client_message_handler_system.rs:156-183 | Every recorded, copied or paid submission was written by its own handler task, in that generation, and that task never writes again |
| EngineOrigin.RecordsAreTraced | src/systems/client_message_handler_system.rs:112-183 | With no premise on interleaving: every recorded, copied or paid submission was written by a task of its client, carries the nonce and difficulty of the solution that task was sent, which was valid for the challenge tracked at its check, and carries the miner whose socket that check found |
| EngineMined.MessagesAreMined | src/systems/pool_submission_system.rs:437-627 | In every run, what a message calls the best solution is that of the copy it pays, landed on chain, and is valid for a challenge the chain has had |
| EngineMined.ChallengesRise | src/systems/pool_submission_system.rs:611-627 | In every run, later messages are about later challenges, so no challenge is settled twice |
| EngineBest.BestAlwaysFits | src/systems/client_message_handler_system.rs:136-183 | With no premise on interleaving: best difficulty bounds every recorded one and is the best solution's own, a best solution exists exactly when something is recorded, hashpowers match difficulties; the submitter's copy and every paid snapshot inherit it |
| EngineBest.BestStep | src/systems/client_message_handler_system.rs:136-183 | Every single critical section of every task keeps that |
| EngineMax.DifficultyNeverDrops | src/systems/client_message_handler_system.rs:136-161 | If handlers of one client that are about to write together always carry one difficulty, nobody's recorded difficulty drops between any two points without a clear in between |
| EngineMax.DropsExactlyWhenUnequal | src/systems/client_message_handler_system.rs:136-161 | In any state whose earlier ones kept that premise, the writes that are due can make a recorded difficulty drop if and only if two handlers of one client are about to write different difficulties |
| EngineMax.BestIsTheMaximum | src/systems/client_message_handler_system.rs:162-183 | If no two handlers of one client are about to write different solutions one of which beats the best, the best difficulty is the maximum of the recorded ones and the best solution's nonce is that of a client recorded with it |
| EngineMax.BestLostExactlyWhenUnsafe | src/systems/client_message_handler_system.rs:136-183 | In any state whose earlier ones kept that premise, the writes that are due can leave the best solution unrecorded if and only if two such handlers exist |
| EngineMax.SerialisedIsEnough | src/systems/client_message_handler_system.rs:136-183 | Where tasks of one client do not overlap, both premises hold |
| EngineExamples.OverlappingTasksLoseDifficulty | src/systems/client_message_handler_system.rs:136-183 | Without the premise: a run that ends with best 13 and only a record of 12 |
| EngineRanges.RangesStayApart | src/systems/handle_ready_clients_system.rs:86-146 | In every reachable state of a run whose clears, where they leave no counter ahead, find the waiting blocks below the counter and apart: unless a resetter has zeroed the counter and not yet cleared the ranges, all registered ranges of all clients and all waiting blocks are disjoint and below the counter |
| EngineRangesExact.OverlapExactlyAtUnfitClear | src/systems/pool_submission_system.rs:309-315 | In any state, after a clear of the ranges and until another resetter starts, the registered ranges can come to overlap or pass the counter, with no counter ahead, if and only if the blocks waiting at the clear do not fit; other resetters clear first |
| EngineRanges.OneStepIssueIsEnough | src/systems/handle_ready_clients_system.rs:92-142 | In a run that registers every block as it takes it, none ever waits and the premise holds |
| EngineOwned.CoarseOneStepIssueIsEnough | src/systems/handle_ready_clients_system.rs:92-142 | The same for runs that also handle each message in one step |
| EngineRanges.IssueIsTakeAndRegister | src/systems/handle_ready_clients_system.rs:92-142 | Issuing in one step is taking a block and registering it in a row |
| EngineExamples.LateRegistrationOverlaps | src/systems/handle_ready_clients_system.rs:111-142 | Without the premise: a run in which a block registered after a reset overlaps another client's, with no reset under way |
| EngineRanges.RangeStep | src/systems/pool_submission_system.rs:304-315 | Every single step, each of a block's two and each of a reset's four, keeps that, with any number of resetters at any point |
| EngineOwned.NoncesAreOwned | src/systems/client_message_handler_system.rs:85-110 | With each message handled in one step, in runs whose clears find the waiting blocks fit: whenever no reset is half done, every recorded nonce lies in a range of its own client and no two clients have recorded the same nonce |
| EngineOwned.InterleavedNoncesAreOwned | src/systems/client_message_handler_system.rs:85-183 | The same with handlers interleaved at will, provided that whenever a clear of the hashes leaves no reset half done each handler that may still record holds a nonce of its client |
| EngineOwned.ForeignExactlyAtClear | src/systems/pool_submission_system.rs:317-326 | In any state, after a clear of the hashes that leaves no reset half done, the handlers there are can record a nonce outside their client's ranges if and only if one that passes its remaining checks holds one |
| EngineOwned.OwnedMeans | src/systems/client_message_handler_system.rs:94-104 | A nonce those results call owned lies between start and end of a range registered with its client |
| EngineCoarse.AcceptIsPhases | src/systems/client_message_handler_system.rs:61-183 | Handling a message in one step is exactly its arrival and every phase of its handler in a row, for each of the eight ways it can end |
| EngineCoarse.CoarseRunIsFine | src/systems/client_message_handler_system.rs:61-183 | Every run of one-step handlers is a run of the interleaved engine that ends in the same state |
| EngineExamples.InterruptedHandlerSharesNonce | src/systems/pool_submission_system.rs:835-861 | Without the premise: a run in which two clients have recorded the same nonce and no reset is half done |
| EngineFreeze.DispatchFreeze | src/systems/handle_ready_clients_system.rs:51-102 | Once a solution is held and the buffer-2 cutoff is under 10, until the hashes are cleared or the proof changes nonces are handed out only by a dispatcher round that was under way, and by none if the dispatcher rests; its reads of proof, best solution and window are separate steps |
| EngineFreeze.IssuesFrozenExactly | src/systems/handle_ready_clients_system.rs:51-102 | In any frozen state whose counter has room, nonces can be handed out before the hashes are cleared or the proof changes if and only if the round under way is handing out, or found time left and the window is open or about to be opened |
| EngineFreeze.CloseExcludesDispatch | src/systems/pool_submission_system.rs:49-59 | When the close guard passes, the dispatch guard passes exactly if the window is open and the tracked proof has ten seconds left, which takes a proof newer than the submitter's |
| EngineFreeze.GuardsInSeconds | src/systems/pool_submission_system.rs:49-59 | Where nothing saturates: the window may be closed exactly when a best solution is held and the proof read is at least 59 seconds old; work may be handed out exactly when the window is open and no best is held or the proof is at most 48 seconds old |
| EngineTurns.WatcherTurn | src/systems/pool_submission_system.rs:255-433 | Uninterrupted, a watcher that learns of a newer proof makes it the tracked one, remembers the old challenge, empties counter, ranges and hashes for the new challenge and opens the window |
| EngineTurns.SubmitterTurn | src/systems/pool_submission_system.rs:49-809 | Uninterrupted and past the deadline, the submitter closes the window, sends the best solution, pays the recorded submissions under the challenge it read, and empties everything for the next challenge |
| EngineTurns.FailureTurn | src/systems/pool_submission_system.rs:835-861 | A copy given up empties everything and opens the window, keeps the epoch challenge and pays nobody |
| EngineTurns.InvalidTurn | src/systems/pool_submission_system.rs:97-107 | So does a solution no longer valid, and the newer proof becomes the tracked one |
| EngineTurns.RpcTurn | src/systems/pool_submission_system.rs:654-704 | While the tracked proof has not moved, a newer proof from the RPC node becomes the tracked one and everything is emptied for it; any other answer changes nothing |
| EngineTurns.MovedTurn | src/systems/pool_submission_system.rs:738-777 | Once the tracked proof has moved everything is emptied for it, unless the epoch has that challenge already, and then nothing changes |
| EngineTurns.TenAttempts | src/systems/pool_submission_system.rs:78-80 | In every run the submitter makes at most ten attempts with one copy |
| EngineTurns.DispatchTurn | src/systems/handle_ready_clients_system.rs:51-146 | With its guards open, a dispatch adds to the client's ranges the forty million nonces from the counter on, less the last, and moves the counter past them |
| EngineTurns.HandlerTurn | src/systems/client_message_handler_system.rs:61-183 | A message that passes every check records, for its client, the socket's miner, the nonce, the difficulty and both hashpowers, replaces the best solution exactly if it is harder, and changes nothing else |
| EngineExamples.GuardsPassTogether | src/systems/handle_ready_clients_system.rs:51-77 | A run in which a proof arriving between the two lets both guards pass |
| EngineExamples.OpenBatchIssuesFrozen | src/systems/handle_ready_clients_system.rs:86-102 | A run in which a round under way may still issue after the freeze |
| EpochOrder.OrderDoesNotMatter | src/systems/client_message_handler_system.rs:129-183 | From any state of the engine with cleared hashes, handling the same messages one at a time in any order leaves the same clients, difficulties and hashpowers, the same best difficulty and the same two totals |
| EpochOrder.AcceptsAreHandled | src/systems/client_message_handler_system.rs:61-183 | A run of one-step handlers whose other checks pass changes nothing but the hashes, and those as the read and write phases in turn |
| EpochOrder.HandlingKeepsGreatest | src/systems/client_message_handler_system.rs:136-183 | Each client ends with the greatest difficulty it offered, the pool's best with the greatest of all |
| EpochPool.Pool.constructor | src/main.rs:436-451 | Start-up state: counter zero, nothing registered or recorded, window open |
| EpochPool.Pool.Reset | src/systems/pool_submission_system.rs:304-332 | A whole reset block is its four critical sections in order: counter zero, no ranges, no best, no submissions, window open; the challenge changes only when one is given |
| EpochPool.Pool.TakeBlock | src/systems/handle_ready_clients_system.rs:92-102 | Advances the u64 counter by 40_000_000 and hands out the nonces before it but the last; nothing else changes |
| EpochPool.Pool.Register | src/systems/handle_ready_clients_system.rs:120-142 | Appends the block to the client's ranges, touching no other client's |
| EpochPool.Pool.DispatchReady | src/systems/handle_ready_clients_system.rs:51-146 | Either the guard refuses and nothing changes, or each listening client in turn is taken one block, the registrations left to spawned tasks are exactly those blocks, and exactly the handled clients leave the ready set |
| EpochPool.SpawnedIsIssued | src/systems/handle_ready_clients_system.rs:86-146 | Registering what a dispatch spawned after all its blocks were taken ends where issuing one block after the other does |
| EpochPool.DispatchKeepsApart | src/systems/handle_ready_clients_system.rs:86-146 | A dispatch keeps all ranges disjoint and advances the counter by one block a client |
| EpochPool.DispatchIsConsecutive | src/systems/handle_ready_clients_system.rs:92-102 | The k-th client is registered with the k-th block after the counter and nothing registered before is lost |
| EpochPool.ListeningInOrder | src/systems/handle_ready_clients_system.rs:86-92 | Blocks go to the ready clients in order, each that has a socket once, under its connection id, and to no other |
| EpochPool.IssuedNonces | src/systems/handle_ready_clients_system.rs:92-102 | A client issued a block at counter c may use every nonce from c to c + 39_999_998, and, if it held no other block, exactly those |
| EpochPool.Pool.FindRange | src/systems/client_message_handler_system.rs:94-104 | True exactly if some registered range has start <= nonce < end |
| EpochPool.Pool.HandleSolution | src/systems/client_message_handler_system.rs:61-183 | One message handled in place: which of the eight verdicts it gets, by the fields; a recorded one carries the socket's miner, the nonce, the difficulty and hashpowers, replaces the best exactly if harder and leaves every other client's entry alone; any other changes nothing. All of it is what the engine's one-step handler does |
| EpochPool.Pool.CloseAndCopy | src/systems/pool_submission_system.rs:60-74 | Only the window changes, and the copy is what the hashes held |
| Cutoff.CutoffExact | src/bitz_utils.rs:62-72 | The saturating deadline is the exact difference if and only if no intermediate value leaves i64 |
| Cutoff.CutoffShrinks | src/bitz_utils.rs:62-72 | Waiting or a larger buffer never leaves more time, also where it saturates |
| ProofTracking.Tracker.Follow | src/systems/proof_tracking_system.rs:51-70 | The notification loop, reading the remembered challenge anew for each notice, leaves the proof the notices prescribe |
| ProofTracking.LateNoticesAreHarmless | src/systems/proof_tracking_system.rs:51-70 | Late notices of whatever challenge is remembered when they come, anywhere among notices in chain order, never move the tracked proof back, and it ends at the newest other notice |
| ProofTracking.LastNoticeWins | src/systems/proof_tracking_system.rs:51-70 | In whatever order notices come: the proof stays if all are late, and is otherwise the one of the last notice that is not late |
| Split.EarnedExact | src/systems/pool_mine_success_system.rs:78-86 | The saturating u128 chain and the final u64 cast lose nothing for any part of a u64 total, and the result is at most the rewards |
| Split.CommissionExact | src/systems/pool_submission_system.rs:542-543 | The commission is five per cent rounded down if and only if the reward is at most u64::MAX / 5; it never exceeds the reward or a hundredth of the u64 range |
| Split.HashpowerExact | src/systems/client_message_handler_system.rs:129-135 | Recorded hashpower is 80 times the exact power of two if and only if the difficulty is at most 69; there both are at least 80 and the capped one is that power up to difficulty 24 and 327_680 beyond |
| Split.ShareMonotone | src/systems/pool_mine_success_system.rs:78-86 | More hashpower never earns less |
| Split.HigherDifficultyEarnsNoLess | src/systems/pool_mine_success_system.rs:78-86 | A higher difficulty never earns less |
| Split.ShareAtMostProportional | src/systems/pool_mine_success_system.rs:78-86 | No payout exceeds its exact proportional share |
| Split.SplittingNeverPays | src/systems/pool_mine_success_system.rs:78-86 | The payouts for two hashpowers are together at most the payout for their sum |
| Split.SplitIsBounded | src/systems/pool_mine_success_system.rs:56-86 | All payouts together are at most R, and with n submissions a million times the loss is under n*(R + 1_000_000), and at most (n-1)*R + n*999_999 |
| MineSuccess.SumPowers | src/systems/pool_submission_system.rs:546-551 | The accumulation loop computes both hashpower sums modulo 2^64, in whatever order the map is walked |
| MineSuccess.BuildRows | src/systems/pool_mine_success_system.rs:61-159 | With fresh connection ids, row i of all three lists is that of the i-th submission whose client is connected: earnings have its miner, the message's challenge, its share, its difficulty cast to i8 and the connection's worker; credits its miner and share; submission rows its miner, challenge, nonce and difficulty |
| MineSuccess.OneRowEach | src/systems/pool_mine_success_system.rs:97-123 | With fresh connection ids the rows are exactly one per submission of a connected client and none for the others |
| MineSuccess.CanAlwaysSplit | src/systems/pool_mine_success_system.rs:56-86 | Neither of the two divisions per submission is by zero, both totals are the exact sums, the capped part is the exact floor of at most a million, and every amount is the exact nested-floor share of the real hashpower |
| MineSuccess.TotalsArePositive | src/systems/pool_submission_system.rs:546-551 | Every part is at least 80 and at most its total, and the capped total is at most the real one |
| MineSuccess.MessagePaysItsReward | src/systems/pool_mine_success_system.rs:56-159 | Commission, credits, rounding and the shares of absent clients add up to exactly the reward, so no message overpays, and the rounding is bounded |
| Pipeline.PaidSubmissionsSplit | src/systems/pool_submission_system.rs:542-627 | In every run of the engine, the snapshot of every message is non-empty and both its totals positive, and it splits without overflow, truncation or division by zero, in any order, paying at most the reward |
| MineSuccess.DifficultyFitsRow | src/systems/pool_mine_success_system.rs:100-123 | The cast of a difficulty to i8 keeps it if and only if it is at most 127 |
| Booking.ChunkedBookingRefines | src/app_database.rs:436-485 | Chunks of any size, grouped and joined, over any order of a list with repeated miners, leave the same balances as crediting entries singly: each row grows by what the list owes its miner |
| Booking.BatchesRefineEntries | src/app_database.rs:436-485 | However a list is cut into batches, booking them is booking its entries one by one |
| Booking.BookingAddsUp | src/app_database.rs:436-485 | A batch raises the sum of all balances by exactly its total when every miner has a row |
| BookingTask.BookMessage | src/systems/pool_mine_success_system.rs:61-235 | Building rows and the three chunk loops: balances as if every entry of the chunks whose statement ran were credited singly, earnings and submissions extended by one row per submission of a connected client, fields stated, the pool's total raised by the full reward |
| BookingTask.UpdateRewardsUntilOk | src/systems/pool_mine_success_system.rs:188-191 | The retry loop applies a chunk at most once: if and only if the first attempt answered with success ran |
| BookingTask.BookRewards | src/systems/pool_mine_success_system.rs:183-197 | The chunk loop credits exactly the chunks whose answered attempt ran |
| BookingTask.PostEarnings | src/systems/pool_mine_success_system.rs:165-176 | The chunk loop inserts every earnings row once, in order, fields kept, and nothing else |
| BookingTask.PostSubmissions | src/systems/pool_mine_success_system.rs:203-219 | So does the loop for submission rows |
| BookingTask.LostChunksAreMissing | src/app_database.rs:473-476 | Each row falls short of single crediting by exactly what the failed statements owed it, so the balances agree if and only if they owed no row anything |
| BookingTask.CreditedSingly | src/systems/pool_mine_success_system.rs:183-197 | If every answered attempt ran, a message is booked as its entries one by one |
| Database.AppDatabase.constructor | migrations/2024-08-13-014749_create_rewards/up.sql:1-8 | The tables start empty |
| Database.AppDatabase.SignupUser | src/app_database.rs:143-202 | A new miner gets a zero balance; an existing row is left alone |
| Database.AppDatabase.UpdateRewards | src/app_database.rs:436-485 | The grouped-sum join, which is one-by-one crediting, if the statement runs; success is answered, and nothing changes, if it fails; an error only if the connection does |
| Database.AppDatabase.DecreaseMinerReward | src/app_database.rs:271-303 | A debit the unsigned column covers is taken; any other is refused and nothing changes |
| Database.AppDatabase.UpdatePoolClaimed | src/app_database.rs:305-339 | Raises only the claimed total |
| Database.AppDatabase.UpdatePoolRewards | src/app_database.rs:689-722 | Raises only the rewards total |
| Database.AppDatabase.AddNewEarningsBatch | src/app_database.rs:615-650 | Appends the rows of the batch, in order and with all their fields |
| Database.AppDatabase.AddNewSubmissionsBatch | src/app_database.rs:652-687 | The same for submission rows |
| Database.AppDatabase.AddNewClaim | src/app_database.rs:405-434 | Appends one claim |
| Database.AppDatabase.GetLastClaim | src/app_database.rs:518-551 | None exactly if no claim is the miner's; otherwise a claim of that miner that no later row of the miner follows |
| Tables.LastClaimIs | src/app_database.rs:518-551 | What that query returns: nothing exactly if the miner never claimed, else the miner's own last row |
| Tables.CoolingExactly | src/utils.rs:720-728 | With claims in time order, a miner is kept waiting exactly if some claim of its own is at most 1800 seconds old |
| Tables.LastClaimIsLatest | src/app_database.rs:518-551 | With claims in time order, no claim of the miner is later than the one that query returns |
| ClaimDesk.ClaimsQueue.ClaimDirect | src/utils.rs:697-761 | Accepted exactly if the miner has a row, owns at least 2_000_000_000 and made no claim in the last 1800 seconds; then what is queued plus the fee (2_000_000_000 if the account is missing, else 0) is the whole balance, an earlier entry is overwritten and no other touched; each refusal is given with its condition |
| ClaimDesk.ClaimsQueue.PostClaim | src/utils.rs:803-894 | Accepted exactly if nothing of the miner is queued, the amount is at least 2_000_000_000 and within the balance, and no claim of the miner is at most 1800 seconds old; then the full stated amount is queued; refusals in the code's order |
| ClaimDesk.ServeOne | src/systems/claim_system.rs:29-253 | One turn of the worker: when each outcome happens, that only a served claim touches a table, that the fee shortens the payment and not the debit, and when the key is dequeued |
| Sockets.AppState.Connect | src/utils.rs:362-400 | A second connection from one address is turned away; live connections keep distinct ids |
| Sockets.AppState.Disconnect | src/utils.rs:402-420 | Removes one address and keeps the ids distinct |
| Sockets.AppState.WalkIsFresh | src/systems/pool_mine_success_system.rs:97-99 | A walk of the socket map, in any order, hands out connections with distinct ids |
| LedgerSolvency.AlwaysSolvent | src/systems/pool_mine_success_system.rs:165-235 | After every single statement of every run, whichever reward updates are lost: balances, claimed total and the claim being counted are together at most the pool's total plus the rewards still being booked |
| LedgerSolvency.SurplusIsRoundingAndAbsence | src/systems/pool_mine_success_system.rs:56-86 | With no reward in flight the gap is exactly the rounding losses plus the shares of disconnected clients plus the lost credits |
| LedgerSolvency.ConservedStep | src/systems/claim_system.rs:182-201 | Every single step, a lost update included, keeps balances plus claims plus lost credits equal to what updates reported, and the pool's total equal to the finished rewards |
| LedgerSolvency.ReportedWithin | src/systems/pool_submission_system.rs:590-596 | No reward, at any stage of its booking, is reported to have credited more than itself |
| LedgerBooks.MinerBooksBalance | src/systems/claim_system.rs:182-234 | In every run, with nothing in flight, balance plus recorded claims plus lost credits of a miner are exactly its earnings rows plus its commission credits, so the books agree if and only if no amount of that miner was lost |
| LedgerBooks.BooksStep | src/systems/pool_mine_success_system.rs:163-197 | Every single step keeps each miner's books, with claims and rewards in flight and lost updates accounted for |
| LedgerClaims.DebitsAreCovered | src/systems/claim_system.rs:182-191 | If no debit leaves a waiting request of its miner short: at the loop head every queued amount is covered, and the copy in flight stays covered until debited even if its entry is overwritten |
| LedgerExact.RefusedExactlyAfterShortDebit | src/systems/claim_system.rs:182-191 | After any debit of a run that kept the premise so far, the next debit can be refused, its claim already paid, if and only if this one leaves a waiting request of its miner short |
| LedgerClaims.ClaimsAreSpaced | src/utils.rs:831-846 | If no claim is recorded while a request of its miner waits: any two recorded claims of one miner are more than 1800 seconds apart |
| LedgerExact.TooCloseExactlyAmidst | src/systems/claim_system.rs:225-238 | After any claim recorded in a run that kept the premise so far, the next claim recorded can follow within 1800 seconds if and only if a request of its miner was waiting; what the balance lacks, rewards can bring |
| LedgerExact.FundAndRecord | src/systems/claim_system.rs:225-238 | From every state in which a claim was just recorded while a request of its miner waits, however large, some continuation records a second one in the same second |
| LedgerClaims.PayoutsAreEarned | src/systems/claim_system.rs:144-201 | If no debit leaves a waiting request of its miner short, all the chain ever paid for claims, fees included, is covered by earned rewards |
| LedgerClaims.OneStepIsEnough | src/utils.rs:708-758 | Handlers whose checks and insert are one step meet both premises |
| LedgerExact.DebitAmidstOverpays | src/systems/claim_system.rs:182-191 | From every state where a debit left less than a waiting request of the same miner asks for, some continuation pays that request while its debit is refused |
| LedgerTurns.DirectTurn | src/utils.rs:697-761 | In the ledger's steps: an uninterrupted claim of everything queues the balance, less the fee for a missing account, and changes nothing else |
| LedgerTurns.PostedTurn | src/utils.rs:803-894 | An uninterrupted claim of a stated amount queues that amount and changes nothing else |
| LedgerTurns.WorkerTurn | src/systems/claim_system.rs:29-253 | A covered claim: the chain pays it less the fee, the balance falls by it, the claimed total rises by it, one claim is recorded with it, and its key leaves the queue |
| LedgerTurns.UnpaidTurn | src/systems/claim_system.rs:29-180 | An abandoned claim only leaves the queue; after a failed payment everything is as before |
| LedgerTurns.RewardTurn | src/systems/pool_mine_success_system.rs:61-235 | A reward none of whose updates is lost, in chunks of any number: the commission receiver gains the commission, every miner what the rows of its connected clients owe it, the rows are appended to the earnings, the pool's total grows by the whole reward, nothing else changes |
| LedgerExamples.StaleRequestOverpays | src/utils.rs:803-893 | A run from start-up in which the chain pays more than the pool ever earned |
| LedgerExamples.StaleRequestSkipsCooldown | src/utils.rs:831-846 | A run from start-up in which two claims of one miner are recorded in the same second |
| LedgerExamples.LostUpdateUnbalancesBooks | src/app_database.rs:473-476 | A run in which everything is booked and the earnings row is there, and the miner's balance is zero |

## Left out

- NothingPaidTwice: proved of runs that pay no overtaken copy; `OvertakenPaysTwice` says when paying one leads to a second
  payment. A message is counted at finalisation, whether or not the settlement later finds its event data.
- RangesStayApart: a registration's read and its insert are one step, so two registrations of one client that overlap are not
  modelled.
- InterleavedNoncesAreOwned: its premise counts a handler whose solution answers only a challenge still to come, where
  `ForeignExactlyAtClear` is about the tracked one.
- DispatchReady: the class methods run without interleaving; the engine's steps interleave.
- ServeOne: a refused debit ends the turn, where the code tries it again until it succeeds; in `Ledger` the worker waits.
- Solana RPC, transactions, signing, simulation, priority fees and event parsing: outcomes are nondeterministic steps.
- drillx hashing: validity and difficulty are uninterpreted functions.
- The connection pool, SQL text and retry sleeps: tables are maps and sequences; BIGINT overflow of a balance is not modelled.
- HTTP and websocket routing, authentication, pings, logging, command line, message encoding.
- src/app_rr_database.rs and statistics endpoints: queries with no state to keep.
- Floating-point display values, and unused fields and tables (boosts, stake accounts, `commission_amount`).
- The challenges and transactions tables: rows only written, read by nothing that pays.
- Liveness: that a resetter with steps left takes them is not proved.
