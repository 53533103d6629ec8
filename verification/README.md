# Wallet, match, matchmaking, provider and second-factor model

A Dafny model of the parts of the game backend that keep state under rules, and proofs about all their runs.
`dafny verify dfyconfig.toml` checks everything.

## What is modelled

**Matches and money.** `Ledger` gives the books (balances, transaction rows, escrow holds) and every wallet operation
on them as functions, `WalletService` is the service that updates its tables in place and is proved to compute exactly
these functions, and `LedgerLaws` says what they mean: when a reversal refines a simple sum, when it conserves money,
what locking, releasing and reverting do to the total. `Games`, `Dice` and `GameManagerService` do the same for the match
handlers and the dice gateway, `WalletOperations` for the wallet worker, `WalletMaintenance` for the stale-game job.
`MatchProtocol` composes them into one system with labelled steps: one for each handler, job, event, failure
and request. Jobs and events wait in multisets, so they run in any order, or are lost. `MatchInvariant`, `MatchHandlers`,
`MatchSteps` and `MatchRuns` carry one invariant through all of them; `MatchTheorems` draws the conclusions for every reachable state,
and `MatchLiveReverts` says exactly when the stale-game job may give a match back, with a run in `MatchLiveExample`.
`DiceLaws` is about turns, rounds and winners, `MatchConnections` about when betting starts and which matches are for money; `MatchCreation` follows a matched pair into
its match, and `LedgerEffects` follows the money of one operation or one game.

**Matchmaking.** `MatchQueue` is a step system at the level of single Redis commands, with any number of workers, producers
and timeout jobs interleaved between any two commands. `MatchQueueLaws` proves conservation and the rotation bound,
`MatchQueueOrder` says exactly when a queue is first in, first out,
and `MatchQueueWorker` is the polling loop itself, whose every command is tied to a step.

**Control center.** `ControlCenter`, `ControlCenterLaws` (cache against store, through the queue), `ControlCenterBootstrap`
(defaults and scans) and `ControlCenterService` (the service, its processor, and the payments service's scan).

**Second factors.** `Mfa`, `MfaLaws`, `MfaService`: methods, primary method and backup codes.

Each service class updates its fields as the source does; its methods' contracts equate the new state with a function
of the old one, and the laws are lemmas about these functions and about runs. `Collections` holds shared lemmas.

## Assumptions

- Each match handler, wallet operation and queued job is one atomic step, each queued job runs at most once, and a job
  that throws is not retried. A transaction that is rolled back changes nothing.
- Match ids are fresh, user ids are normalised strings, one wallet belongs to one user, and `TREAT_BOT_AS_USER` is constant.
- Amounts are integer cents (the tables use decimals with two places; their width is not modelled). Rows are read in the
  order they were written.
- Ids, dice totals, targets, first turns, winners of a round, failures and the order in which a map is walked are inputs.
- In the runs of the match system the stale-game job only reverts games that are not live (not in play, no release queued, and in
  betting only if a player is listed twice or a bet is lost: not locked, with neither lock job nor event pending) and that a reversal can give
  back (all holds HELD, no PAYOUT row, one WAGER row for each wallet). `MatchLiveReverts` proves that the first condition is exact for
  money over runs; `RevertChangesMoney` gives what a reversal does without the second.
- A stored hash is matched by exactly the code it was made from, and hashes of one generation differ.

## Where the code and its description differ

- `revertGame` computes every balance from the snapshot it loaded, so two rows of one wallet overwrite each other, and it
  leaves WAGER rows COMPLETED, so a second reversal pays again. Both are kept; the exact conditions are lemmas.
- The stale-game job is described as acting on games older than a day, but the age condition is commented out
  (src/modules/wallet/wallet-maintenance.processor.ts:42). Modelled as the code is.
- `resetRound` moves the turn index and not the turn (src/modules/game/modules/games/dice/dice.engine.ts:147-154), so a tie in a
  round that began elsewhere than at index 0 leaves a match that no player can continue, and only a bot at index 0 can.
- The worker listens to dice standard and dice bronze (src/modules/matchmaking/modules/queue/match-queue.worker.ts:25), but standard is not a tier a
  ticket may name; all other tiers and games are never served.
- `handleRoundEnd` is documented as called by the engines, but no engine calls it; the model lets any match in play take it.
- A match starts once enough distinct users have connected, whoever they are; the players themselves are not looked up.
- Default changes on a domain that mixes scoped and unscoped keys make the stored states differ from the cached ones.

## Model

| member | source | states |
|---|---|---|
| MatchTheorems.MoneyConserved | src/modules/game/modules/game-manager/game-manager.service.ts:84-318 | in every state reached by any sequence of steps, balances plus HELD holds equal 1000 for each wallet plus completed deposits minus completed withdrawals |
| MatchTheorems.RunKeepsInv | src/modules/game/modules/game-manager/game-manager.service.ts:84-318 | the invariant over matches, jobs, events and books holds after every run from a state where it holds |
| MatchTheorems.LedgerIdentityAndSolvency | src/modules/wallet/wallet.service.ts:106-307 | in every reachable state a balance is 1000 plus what the wallet's rows add up to, and with no negative bet no balance is negative |
| MatchTheorems.EveryHoldHasWager | src/modules/wallet/wallet.service.ts:221-238 | in every reachable state each hold has a COMPLETED WAGER row of the same wallet, game and amount |
| MatchTheorems.PotInvariant | src/modules/game/modules/game-manager/game-manager.service.ts:194-219 | pot = bet * (n * (round - 1) + locked) in BETTING and bet * n * round in PLAYING, where it also equals the HELD total; a match with a repeated player never gets past its first betting |
| MatchTheorems.PracticeCostsNothing | src/modules/game/modules/game-manager/game-manager.service.ts:124-140 | a match with a bot, when bots are not treated as users, keeps pot 0, is never seen in BETTING, holds nothing, and no lock or release is ever queued for it |
| MatchTheorems.QueuedJobsMatchEscrow | src/modules/game/modules/game-manager/game-manager.service.ts:298-308 | every queued release carries exactly the HELD total of its game; every queued lock is for the match's bet and never skips the wallet |
| MatchTheorems.AtMostOneRelease | src/modules/game/modules/game-manager/game-manager.service.ts:292-311 | over the whole run at most one RELEASE_FUNDS job is queued for a match, and only once it is SETTLED |
| MatchTheorems.FinalPotIsHistory | src/modules/game/modules/game-manager/game-manager.service.ts:245-260 | after the final round the pot equals the sum of all bets in the round history and the HELD total, and entry i of the history is round i + 1, up to the last round, whose entry names its winner |
| MatchTheorems.HistoryIsComplete | src/modules/game/modules/game-manager/game-manager.service.ts:38-60 | in every reachable state a match has as many rounds as configured, one if nothing is; one history entry for each finished round, in order, with one bet of every player; and a winner only once it is over |
| MatchTheorems.DiceResultMatchesEscrow | src/modules/game/modules/games/dice/dice.gateway.ts:84-97 | in the first round, by a player's or a bot's last roll, the engine's payout is the pot and the HELD total; a winner gets the one release for it, and without a winner nothing is queued and all holds stay HELD |
| MatchTheorems.StepFollows | src/modules/game/modules/game-manager/game-manager.service.ts:91-318 | one step of the system takes every match only along LOADING, then BETTING and PLAYING for each round, then SETTLED; a SETTLED match never changes |
| MatchTheorems.MatchLifeCycle | src/modules/game/modules/game-manager/game-manager.service.ts:91-318 | over whole runs a match, once created, never disappears, keeps its players and terms, its round only grows and stays within maxRounds, it never returns to LOADING, and once SETTLED never changes |
| MatchLiveReverts.SweepConservesIff | src/modules/wallet/wallet-maintenance.processor.ts:39-69 | from any good state whose holds are of positive amounts, after a run of the job on games it can give back every further run conserves money if and only if none of these games is live (in play, its release queued, or betting with distinct players each of whom is locked or has his lock job or event pending) |
| MatchLiveReverts.ReachedSweepConservesIff | src/modules/wallet/wallet-maintenance.processor.ts:39-69 | the same for every reachable state whose bets are positive |
| MatchLiveReverts.LiveMatchMintsHeld | src/modules/wallet/wallet-maintenance.processor.ts:39-61 | for any swept live match, in whatever round and however many bets are outstanding, some run of wallets, deposits, jobs, deliveries and round ends finishes it with exactly as much money too much as was HELD for it, and without the sweep the same run conserves money |
| MatchLiveReverts.SettledRevertMintsRelease | src/modules/wallet/wallet-maintenance.processor.ts:39-61 | a match that is over with its release still queued creates exactly what was HELD |
| MatchLiveExample.SweepMintsPotOfReachedMatch | src/modules/wallet/wallet-maintenance.processor.ts:39-61 | nine steps reach a live match in play that can be given back, for every bet both players can pay, and some run after the sweep mints its pot |
| MatchLiveExample.UnguardedJobBreaksConservation | src/modules/wallet/wallet-maintenance.processor.ts:39-61 | with the job asking for HELD holds alone, as its code does, a run of two wallets and one match ends with the pot created out of nothing, for every bet both can pay |
| MatchTheorems.SweepStep | src/modules/wallet/wallet-maintenance.processor.ts:39-69 | a run of the stale-game job on refundable games none of which is live keeps the whole invariant |
| MatchTheorems.DeadReverted | src/modules/wallet/wallet-maintenance.processor.ts:52-61 | a match that is not live stays good when its holds are refunded, whatever jobs and events of it are still pending |
| MatchHandlers.FundsLockedOk | src/modules/game/modules/game-manager/game-manager.service.ts:194-219 | delivering FUNDS_LOCKED counts a distinct player's bet exactly once and starts play with the last one, keeping the match invariant |
| MatchHandlers.PlayStarts | src/modules/game/modules/game-manager/game-manager.service.ts:214-222 | when the last bet is locked all players are distinct and have paid every round so far, and no job or event of the match is pending |
| MatchHandlers.BettingEntered | src/modules/game/modules/game-manager/game-manager.service.ts:111-181 | entering a round queues one lock for each player (none in practice) and keeps the match invariant |
| MatchHandlers.ConnectOk | src/modules/game/modules/game-manager/game-manager.service.ts:84-109 | a connection keeps the match invariant, whether or not it is the one that starts the betting |
| MatchHandlers.RoundEndOk | src/modules/game/modules/game-manager/game-manager.service.ts:235-265 | the end of a round keeps the match invariant, both on to the next round and into the end of the match |
| MatchHandlers.EndOk | src/modules/game/modules/game-manager/game-manager.service.ts:267-317 | ending a match queues at most one release, of exactly the HELD total, and leaves the match good |
| MatchInvariant.PotIsHeld | src/modules/game/modules/game-manager/game-manager.service.ts:201-215 | a match in play has exactly its pot in escrow |
| LedgerLaws.RevertRefinesSum | src/modules/wallet/wallet.service.ts:349-405 | if a game's WAGER and PAYOUT rows sit on distinct wallets, the reversal loop gives each wallet its old balance plus its signed amounts, touches no other wallet, and ends every hold of the game, and no other, REFUNDED |
| LedgerLaws.RevertKeepsIdentityIff | src/modules/wallet/wallet.service.ts:364-399 | reverting keeps the ledger identity if and only if the game has no PAYOUT row and no wallet wagered on it twice |
| LedgerLaws.RevertConservesIff | src/modules/wallet/wallet.service.ts:350-405 | for an unpaid game with its holds HELD and positive bets, reverting conserves money if and only if no wallet wagered twice; otherwise money is lost |
| LedgerLaws.RevertChangesMoney | src/modules/wallet/wallet.service.ts:350-405 | for every game, paid out or not, a reversal changes the money by what the surviving row of each wallet adds minus the HELD total, and conserves it if and only if the two agree |
| LedgerLaws.RevertTwiceRefundsTwice | src/modules/wallet/wallet.service.ts:350-405 | a second reversal creates money equal to all the game's wagers, because the first leaves the WAGER rows COMPLETED |
| LedgerLaws.LockThenRevertRestores | src/modules/wallet/wallet.service.ts:201-405 | locking a bet for any distinct players in any order, with any of the locks failing, and then reverting restores every balance |
| LedgerLaws.ReleaseConservesIff | src/modules/wallet/wallet.service.ts:281-306 | releasing conserves money if and only if the amount is the game's HELD total |
| LedgerLaws.LockMoves | src/modules/wallet/wallet.service.ts:201-238 | locking keeps the sum of balances and escrow, the ledger identity, the pairing of holds and WAGER rows, and solvency |
| LedgerLaws.DepositMoves | src/modules/wallet/wallet.service.ts:106-127 | a deposit that is done adds exactly its amount, one that throws nothing, and the books stay sound |
| LedgerLaws.WithdrawMoves | src/modules/wallet/wallet.service.ts:146-169 | a withdrawal that is done takes exactly its amount, one that throws nothing, and no balance becomes negative |
| LedgerLaws.CreateWalletMoves | src/modules/wallet/wallet.service.ts:79-95 | a new wallet adds 1000, an existing one is left alone |
| LedgerLaws.RestatusEmptiesGame | src/modules/wallet/wallet.service.ts:302-306 | the bulk status update takes exactly the game's HELD total out of escrow |
| LedgerEffects.PotGoesToWinner | src/modules/wallet/wallet.service.ts:201-306 | locking a bet for distinct players who can pay and releasing the pot to one of them moves every other bet to him, leaves nothing in escrow and touches nobody else |
| LedgerEffects.LockMovesIntoEscrow | src/modules/wallet/wallet.service.ts:201-240 | exactly when a lock is done, and that it then moves the amount from one balance into that wallet's escrow for that game and adds a WAGER row; otherwise nothing changes |
| LedgerEffects.ReleaseEndsGame | src/modules/wallet/wallet.service.ts:281-306 | a release pays one wallet, adds a PAYOUT row, ends every hold of the game and no other game's |
| LedgerEffects.WithdrawUndoesDepositIff | src/modules/wallet/wallet.service.ts:106-169 | withdrawing what was just deposited succeeds, and restores balances and escrow, if and only if the balance was not negative |
| LedgerEffects.DepositIsRecorded | src/modules/wallet/wallet.service.ts:106-127 | when a deposit is done or refused, and that a done one adds the amount to one balance and one DEPOSIT row to those of its reference |
| LedgerEffects.WithdrawalIsRecorded | src/modules/wallet/wallet.service.ts:146-169 | when a withdrawal is done or refused, and that a done one takes the amount from one balance and adds one WITHDRAW row |
| LedgerEffects.RowsOfExact | src/modules/wallet/wallet.service.ts:350-357 | the rows a reversal looks at are the COMPLETED ones of the game, each as often as it was written |
| LedgerEffects.RevertGameExact | src/modules/wallet/wallet.service.ts:341-405 | for any rows: a wallet gets its last bet on the game back or loses its last payout, whatever its other rows are, all other wallets keep their balance, and one COMPLETED REFUND row answers each bet and payout in order |
| WalletService.WalletService.CreateWallet | src/modules/wallet/wallet.service.ts:79-95 | stores a wallet with 1000 if the user has none, and changes nothing otherwise |
| WalletService.WalletService.Deposit | src/modules/wallet/wallet.service.ts:106-144 | the new balance and row, or the error with nothing changed |
| WalletService.WalletService.Withdraw | src/modules/wallet/wallet.service.ts:146-186 | the new balance and row, or the error with nothing changed |
| WalletService.WalletService.LockFunds | src/modules/wallet/wallet.service.ts:188-266 | the balance, WAGER row and HELD hold change together, or nothing changes |
| WalletService.WalletService.ReleaseFunds | src/modules/wallet/wallet.service.ts:268-339 | the balance, PAYOUT row and the status of all the game's holds change together, or nothing changes |
| WalletService.WalletService.RevertGame | src/modules/wallet/wallet.service.ts:341-441 | all three tables after a reversal are those of the ledger function the reversal laws are about; with no row to revert nothing changes |
| WalletService.WalletService.ReverseRows | src/modules/wallet/wallet.service.ts:362-399 | the loop computes every balance from the one loaded at the start, and writes one REFUND row for each reversed row in order |
| WalletOperations.WalletOperationsProcessor.Process | src/modules/wallet/wallet-operations.processor.ts:29-59 | each job's effect on the books and the events it emits; a job that throws emits none |
| WalletOperations.WalletOperationsProcessor.HandleLockFunds | src/modules/wallet/wallet-operations.processor.ts:79-103 | FUNDS_LOCKED is emitted exactly when the lock was done or skipped |
| WalletOperations.JobEffects | src/modules/wallet/wallet-operations.processor.ts:29-103 | for each kind of job on any books: exactly when it throws, which then changes nothing; the one event of a lock; what it does to the money; and that a release or reversal ends every hold of its game |
| WalletMaintenance.WalletMaintenanceProcessor.HandleRevertStaleGames | src/modules/wallet/wallet-maintenance.processor.ts:33-79 | the books after the loop over all games with a HELD hold, failing ones skipped, and the two counts it reports |
| WalletMaintenance.HeldGamesExact | src/modules/wallet/wallet-maintenance.processor.ts:39-52 | the loop visits exactly the games with a HELD hold, each once |
| WalletMaintenance.HeldGameReverts | src/modules/wallet/wallet.service.ts:350-360 | given the pairing of holds and wagers, a game with a hold never has nothing to revert |
| WalletMaintenance.CountsExact | src/modules/wallet/wallet-maintenance.processor.ts:48-79 | the two counts it reports are the number of games with a HELD hold and the number of those that did not fail |
| WalletMaintenance.SweepComplete | src/modules/wallet/wallet-maintenance.processor.ts:52-69 | afterwards a game has a HELD hold if and only if it had one and its reversal threw; every other hold of a reverted game is REFUNDED and nothing else changed |
| WalletMaintenance.SecondSweepIff | src/modules/wallet/wallet-maintenance.processor.ts:39-69 | with no new locks a second run changes nothing if and only if whatever failed in the first run fails again; so nothing if nothing failed |
| WalletMaintenance.SweepIdempotent | src/modules/wallet/wallet-maintenance.processor.ts:39-69 | a second run that meets the same failures changes nothing |
| WalletMaintenance.SweepInOrder | src/modules/wallet/wallet-maintenance.processor.ts:52-69 | on refundable games the job keeps the money on the books, the ledger identity and solvency |
| MatchConnections.StartsWhenAllAreThere | src/modules/game/modules/game-manager/game-manager.service.ts:91-107 | while only the match's own players connect, betting starts exactly when the last of them has, though the code compares counts |
| MatchConnections.ConnectionsStart | src/modules/game/modules/game-manager/game-manager.service.ts:91-107 | for any users connecting to a new match in any order: betting starts exactly once as many different users have connected as it lists humans; then, if these are distinct, all of them are there if and only if no stranger is, and if one is listed twice, a stranger is |
| MatchConnections.StartsCompleteIff | src/modules/game/modules/game-manager/game-manager.service.ts:91-107 | the same for one connection to any loading match |
| MatchConnections.StrangersStartIt | src/modules/game/modules/game-manager/game-manager.service.ts:96-104 | an instance: two strangers start a match of two |
| MatchConnections.CollectsBetsIff | src/modules/game/modules/game-manager/game-manager.service.ts:111-181 | a round starts PLAYING at once, with everybody counted and no job, if and only if some player is a bot and bots are not treated as users; otherwise it is BETTING with exactly one lock of the bet for each player in order, none of which skips the wallet |
| MatchConnections.ReleasesPotIff | src/modules/game/modules/game-manager/game-manager.service.ts:267-317 | the end of a match queues the one release of its pot if and only if there is a winner and no player is a bot or bots are treated as users; only a winner is recorded |
| MatchConnections.HumansExact | src/modules/game/modules/game-manager/game-manager.service.ts:103-104 | the number that connections are counted against is the number of players that are not bots |
| MatchConnections.LateOnesAreIgnored | src/modules/game/modules/game-manager/game-manager.service.ts:91-107 | a connection after LOADING changes nothing, and neither does a locked bet outside BETTING or counted before |
| MatchHandlers.RoundIsRecorded | src/modules/game/modules/game-manager/game-manager.service.ts:235-265 | the end of any round appends one entry with the round, its winner and a bet of every player, and ends the match exactly in its last round |
| GameManagerService.GameManagerService.CreateGame | src/modules/game/modules/game-manager/game-manager.service.ts:30-66 | stores exactly one new match, LOADING in round 1, and queues nothing |
| GameManagerService.GameManagerService.HandlePlayerConnected | src/modules/game/modules/game-manager/game-manager.service.ts:84-109 | a LOADING match records the user once and starts betting when enough are connected; any other match, and every other stored one, is unchanged |
| GameManagerService.GameManagerService.TransitionToBetting | src/modules/game/modules/game-manager/game-manager.service.ts:111-192 | the stored match, and one lock job for each player in order |
| GameManagerService.GameManagerService.HandleFundsLocked | src/modules/game/modules/game-manager/game-manager.service.ts:194-219 | in BETTING the user is locked once and the pot grows by one bet, PLAYING starting with the last; otherwise, and for every other match, nothing changes |
| GameManagerService.GameManagerService.HandleRoundEnd | src/modules/game/modules/game-manager/game-manager.service.ts:235-265 | the round is recorded, and then either the match ends with its pot or the next round's bets are queued |
| GameManagerService.GameManagerService.EndGame | src/modules/game/modules/game-manager/game-manager.service.ts:267-317 | the match is stored SETTLED, and a release of the pot is queued exactly with a winner and outside practice |
| GameManagerService.DiceGateway.HandleRoll | src/modules/game/modules/games/dice/dice.gateway.ts:37-126 | both guards, the move, and what follows it, for the one match; a rejected roll changes neither a match nor the queue |
| GameManagerService.DiceGateway.BotMove | src/modules/game/modules/games/dice/dice.gateway.ts:151-224 | the same for a bot's scheduled roll |
| GameManagerService.DiceGateway.Move | src/modules/game/modules/games/dice/dice.gateway.ts:78-116 | the order move, check, then end the match or store it and reset a tied round |
| DiceLaws.OnlyTheNextMoves | src/modules/game/modules/games/dice/dice.engine.ts:49-61 | k rolls into a round begun at index s, the engine accepts exactly player (s + k) mod n |
| DiceLaws.RollAdvances | src/modules/game/modules/games/dice/dice.engine.ts:75-82 | an accepted roll makes the round one roll longer in cyclic order; the n-th closes it, restarting at index 0 exactly on a tie and settling the match otherwise |
| DiceLaws.RollersCount | src/modules/game/modules/games/dice/dice.engine.ts:75-79 | the first k players of a round are k different ones, and the next has not rolled yet |
| DiceLaws.WinnerExact | src/modules/game/modules/games/dice/dice.engine.ts:104-144 | whoever rolled, and whether or not a target is set: no result if and only if two players hit the target, the hitter if exactly one did, an empty winner if none did; the payout is everyone's bet |
| DiceLaws.WinnerRolledTheTarget | src/modules/game/modules/games/dice/dice.engine.ts:104-144 | with everyone rolled and a target set: a player who alone rolled exactly the target wins everyone's bet, nobody wins if none did, and there is no result if and only if two did |
| DiceLaws.NoTargetNoWinner | src/modules/game/modules/games/dice/dice.engine.ts:104-130 | without a target nobody who rolled wins |
| DiceLaws.OneMayRollIff | src/modules/game/modules/games/dice/dice.gateway.ts:52-65 | while turn and index agree exactly one player passes both guards, and while they do not, nobody does |
| DiceLaws.TieKeepsTurnIff | src/modules/game/modules/games/dice/dice.engine.ts:147-154 | after a tie some player passes the gateway's and the engine's guard if and only if the round had begun at index 0 |
| DiceLaws.PlayKeepsRound | src/modules/game/modules/games/dice/dice.gateway.ts:37-116 | whatever rolls are attempted and wherever the first round began, a match is settled, or turn and index agree in a well-shaped round, or it is just after the tie of a round not begun at 0, which is exactly where they disagree; begun at 0 they agree throughout |
| DiceLaws.AgreesUpToFirstTie | src/modules/game/modules/games/dice/dice.gateway.ts:37-116 | up to the first tie turn and index agree in the first round, for every start index |
| DiceLaws.LostExactlyByTie | src/modules/game/modules/games/dice/dice.engine.ts:147-154 | over a run, agreement is lost exactly by a roll that closes tied a round not begun at 0 |
| DiceLaws.StuckForeverIff | src/modules/game/modules/games/dice/dice.gateway.ts:62-65 | once turn and index disagree, no sequence of rolls by players and bots ever changes the match if and only if the index does not point at a bot |
| DiceLaws.CreatedInRound | src/modules/game/modules/games/dice/dice.engine.ts:21-39 | a new match is in a round at the index the engine's own start would give |
| MatchCreation.OwnBetsIff | src/modules/matchmaking/modules/queue/match-queue.worker.ts:108-117 | each ticket of a pair is charged what it offered if and only if they belong to two users and offer the same; two users are always charged, a user paired with himself never is |
| MatchCreation.OwnOpponentNeverPlays | src/modules/matchmaking/modules/queue/match-queue.worker.ts:68-117 | a match made of two tickets of one user keeps LOADING however often he connects, and in every reachable state, whoever else connects, is not past its first betting |
| MatchCreation.PairSurvivesTieIff | src/modules/matchmaking/modules/queue/match-queue.worker.ts:89-117 | if both players of a pair (two users; one user's pair never plays) roll the target, the match can go on if and only if the first ticket's player had begun |
| MatchQueueLaws.TicketsConserved | src/modules/matchmaking/modules/queue/match-queue.worker.ts:31-71 | for any number of workers and every interleaving, the tickets that arrived in a queue are those listed, held, matched and timed out, as multisets |
| MatchQueueOrder.FifoIffAtMostOneServer | src/modules/matchmaking/modules/queue/match-queue.worker.ts:37-66 | for each queue and any number of workers, all runs match its tickets in the order of arrival if and only if at most one worker was given its key |
| MatchQueueOrder.FirstInFirstOut | src/modules/matchmaking/modules/queue/match-queue.worker.ts:37-66 | with one worker on a queue, matched tickets, then those in its hand, then the list are a subsequence of the arrivals, and all of them if none timed out |
| MatchQueueOrder.SharedKeyOvertakes | src/modules/matchmaking/modules/queue/match-queue.worker.ts:37-66 | whenever two workers were given the same key, a run matches the second and third arrival before the first |
| MatchQueueLaws.AdvanceKeepsOrder | src/modules/matchmaking/modules/queue/match-queue.worker.ts:37-66 | no command of a worker changes the sequence of its matches, its hand and the list |
| MatchQueueLaws.KeysPermuted | src/modules/matchmaking/modules/queue/match-queue.worker.ts:59-63 | a worker's key list is always a permutation of the one it started with |
| MatchQueueLaws.ActServes | src/modules/matchmaking/modules/queue/match-queue.worker.ts:33-65 | while a served queue keeps two tickets, each command makes a match or lowers a measure on the queue's place |
| MatchQueueLaws.CountersExact | src/modules/matchmaking/modules/queue/match-queue.worker.ts:57-71 | a worker counts exactly the tickets it gives back and the matches it makes, so the rotation bound is about these |
| MatchQueueLaws.TimeoutTakesFirst | src/modules/matchmaking/modules/queue/match-timeout.processor.ts:24-55 | a timeout takes the first equal ticket out of its own list, and changes nothing if there is none |
| MatchQueueLaws.RotationBound | src/modules/matchmaking/modules/queue/match-queue.worker.ts:33-65 | a served queue at place p with at least two tickets sees at most p push-backs and at most 4p + 3 commands before a match |
| MatchQueueLaws.UnservedNeverMatched | src/modules/matchmaking/modules/queue/match-queue.worker.ts:25-37 | a ticket in a queue no worker was given is never taken or matched |
| MatchQueueWorker.LoopIsRun | src/modules/matchmaking/modules/queue/match-queue.worker.ts:31-76 | the loop is a run of the step system in which everything others do between its commands stays in order, so all the laws above hold of it |
| MatchQueueWorker.LoopIsFifo | src/modules/matchmaking/modules/queue/match-queue.worker.ts:31-76 | so the loop of the one worker there is matches the tickets of each queue in the order of arrival |
| MatchQueueWorker.OnlyBronzeDiceServed | src/modules/matchmaking/modules/queue/match-queue.worker.ts:25-25 | of all the queues a ticket can enter, the worker serves exactly dice, bronze |
| MatchQueueWorker.KeysApart | src/modules/matchmaking/modules/queue/match-queue.service.ts:35-35 | two tickets share a queue if and only if game and tier agree |
| MatchQueueWorker.MatchQueueWorker.Poll | src/modules/matchmaking/modules/queue/match-queue.worker.ts:31-71 | the state after one pass: which commands it takes, in which order, depending on what it finds |
| MatchQueueWorker.MatchQueueWorker.ProcessQueues | src/modules/matchmaking/modules/queue/match-queue.worker.ts:22-77 | the state after any number of passes, as the passes give it one after the other; from a fresh start every queue is first in, first out |
| MatchQueueWorker.MatchQueueWorker.PopAny | src/modules/matchmaking/modules/queue/match-queue.worker.ts:34-43 | blocks on all queues: takes the oldest ticket of the first non-empty one |
| MatchQueueWorker.MatchQueueWorker.PopOpponent | src/modules/matchmaking/modules/queue/match-queue.worker.ts:44-44 | takes the next ticket of the same queue, or starts to wait |
| MatchQueueWorker.MatchQueueWorker.AwaitOpponent | src/modules/matchmaking/modules/queue/match-queue.worker.ts:46-52 | waits on that one queue |
| MatchQueueWorker.MatchQueueWorker.GiveBack | src/modules/matchmaking/modules/queue/match-queue.worker.ts:57-64 | the ticket goes back to the head of its list, and its key to the end of the keys |
| MatchQueueWorker.MatchQueueWorker.RotateKey | src/modules/matchmaking/modules/queue/match-queue.worker.ts:60-63 | the in-place splice of the key list |
| MatchQueueWorker.MatchQueueWorker.CreateMatch | src/modules/matchmaking/modules/queue/match-queue.worker.ts:68-71 | both tickets of a pair come from the same key, in order |
| MatchQueueWorker.MatchQueueService.AddToQueue | src/modules/matchmaking/modules/queue/match-queue.service.ts:23-49 | accepted exactly for a known game type, a known tier and a positive bet: then one ticket at the tail and one timeout job |
| MatchQueueWorker.MatchTimeoutProcessor.Process | src/modules/matchmaking/modules/queue/match-timeout.processor.ts:24-55 | removes the first equal ticket, and notifies exactly if there was one |
| ControlCenterLaws.CacheAgreesUpToQueue | src/modules/control-center/control-center.service.ts:211-272 | for a domain whose keys are all scoped or all unscoped with one default a scope, after any toggles, default changes, lookups and executed updates, replaying the pending updates over the stored states gives the cached ones |
| ControlCenterLaws.InStepExactlyWhenGood | src/modules/control-center/control-center.service.ts:211-272 | that agreement holds in every run if and only if the keys are all scoped or all unscoped and no scope has two defaults |
| ControlCenterLaws.JobReproducesOp | src/modules/control-center/control-center.processor.ts:54-75 | applying the one update an operation queues to the old cached states gives the new ones |
| ControlCenterLaws.RunKeepsUnique | src/modules/control-center/control-center.service.ts:211-272 | for every domain, whatever keys it mixes and whatever updates are pending, at most one default a scope in the stored and in the cached states survives every run |
| ControlCenterLaws.OpKeepsUnique | src/modules/control-center/control-center.service.ts:242-261 | an operation keeps the keys and at most one default in each scope |
| ControlCenterLaws.OpTouchesItsScope | src/modules/control-center/control-center.service.ts:211-261 | a toggle changes `enabled` of its key alone; a new default sets its key and unsets the other keys of its scope, of which an unscoped key has all; nothing else changes |
| ControlCenterLaws.JobTouchesItsScope | src/modules/control-center/control-center.processor.ts:54-75 | an executed update stores its state, and unsets the other keys of its scope exactly if it sets a default |
| ControlCenterLaws.JobKeepsUnique | src/modules/control-center/control-center.processor.ts:54-74 | so does an executed update, even for a key that is not stored |
| ControlCenterLaws.MixedKeysFallOut | src/modules/control-center/control-center.processor.ts:54-72 | with a scoped and an unscoped key, three operations make the stored states differ from the cached ones for good |
| ControlCenterLaws.TwoDefaultsFallOut | src/modules/control-center/control-center.processor.ts:54-72 | with two defaults in a scope, one toggle does |
| ControlCenterLaws.StartsWithIsPrefix | src/modules/control-center/control-center.service.ts:242-247 | a key starts with a scope's prefix if and only if that is its own prefix |
| ControlCenterBootstrap.BootstrapUniqueIffPlainNames | src/modules/control-center/control-center.service.ts:66-107 | bootstrap keeps at most one default a scope, whatever was stored, if and only if no listed channel that has providers contains a colon |
| ControlCenterBootstrap.BootstrapSettlesDefaults | src/modules/control-center/control-center.service.ts:66-107 | then it also leaves exactly one for every listed channel with providers, and loses nothing stored |
| ControlCenterBootstrap.ColonInChannelName | src/modules/control-center/control-center.service.ts:66-107 | an instance from an empty store: two defaults in one scope |
| ControlCenterBootstrap.SyncDomainSettles | src/modules/control-center/control-center.service.ts:139-171 | bootstrap of payments ends with exactly one default |
| ControlCenterBootstrap.BootstrapLists | src/modules/control-center/control-center.service.ts:66-107 | after bootstrap every listed provider is known; one that was not stored is enabled and active, and a default only as the first of its channel; stored ones stay as enabled as they were |
| ControlCenterBootstrap.BootstrapActivates | src/modules/control-center/control-center.service.ts:66-208 | from an empty store with plain channel names, the active provider of every listed channel is then the first one listed for it, for every iteration order |
| ControlCenterBootstrap.BootstrapActivatesPayments | src/modules/control-center/control-center.service.ts:133-208 | from an empty store the control center reports, and the payments service picks, the first listed payment provider |
| ControlCenterBootstrap.DomainLists | src/modules/control-center/control-center.service.ts:139-171 | a listed payment provider that was not stored is enabled and active, and a default only as the first |
| ControlCenterBootstrap.ScopeHasOneActive | src/modules/control-center/control-center.service.ts:197-204 | at most one default in each scope leaves at most one enabled default to answer for every scope asked for, with colons in it or not, and for a map of unscoped keys |
| ControlCenterBootstrap.ScanFindsTheDefault | src/modules/control-center/control-center.service.ts:197-208 | with at most one to answer, the scan answers the enabled default if and only if there is one, in whatever order the map is walked |
| ControlCenterBootstrap.OrderFreeIffOneActive | src/modules/control-center/control-center.service.ts:197-208 | asked for no scope, the control center's scan and the payments service's each give one answer for all iteration orders if and only if at most one key of the map is an enabled default |
| ControlCenterBootstrap.NewDefaultIsActive | src/modules/control-center/control-center.service.ts:197-261 | after a default change the scan of a scope the key is in, with colons or not, answers the new default if it is enabled, and nobody otherwise; so does the scan for no scope if the key is unscoped |
| ControlCenterBootstrap.ToggleDecides | src/modules/control-center/control-center.service.ts:197-222 | a toggle decides whether its own key can be answered, and about no other key |
| ControlCenterBootstrap.PaymentsScanAgrees | src/modules/payments/payments.service.ts:61-67 | the payments service's own loop picks what the control center reports, else paystack |
| ControlCenterBootstrap.FirstActiveWins | src/modules/control-center/control-center.service.ts:197-208 | of several enabled defaults each scan answers the first in walking order |
| ControlCenterBootstrap.ReportsTheName | src/modules/control-center/control-center.service.ts:199-201 | for a scoped lookup the answer is the provider's own name |
| ControlCenterBootstrap.ActiveProviderIsWellDefined | src/modules/control-center/control-center.service.ts:190-209 | after any run from states with at most one default a scope, with any updates pending, the scan gives one answer for all iteration orders, of the cached and of the stored states, for every scope asked for; and asked for none, both scans do if and only if at most one key is an enabled default |
| ControlCenterBootstrap.StoredAnswerIsCached | src/modules/control-center/control-center.service.ts:190-209 | with nothing pending and cache and store in step, the stored states give the cached answer |
| ControlCenterService.ControlCenterService.LoadCache | src/modules/control-center/control-center.service.ts:33-43 | the cache then holds every stored document |
| ControlCenterService.ControlCenterService.Sync | src/modules/control-center/control-center.service.ts:70-105 | the loops shared by both bootstraps, and whether anything was written |
| ControlCenterService.ControlCenterService.SyncNotificationsDefaults | src/modules/control-center/control-center.service.ts:51-113 | the notifications document becomes what the bootstrap laws are about; without changes, or without a channel list, nothing is written |
| ControlCenterService.ControlCenterService.SyncDomainFromEnv | src/modules/control-center/control-center.service.ts:115-177 | the same for one domain of unscoped providers |
| ControlCenterService.ControlCenterService.GetDomainConfig | src/modules/control-center/control-center.service.ts:179-188 | a missing domain is loaded from the store, a cached one is not reloaded |
| ControlCenterService.ControlCenterService.GetActiveProvider | src/modules/control-center/control-center.service.ts:190-209 | the answer of the scan, and that with at most one enabled default to answer it is that one exactly if there is one |
| ControlCenterService.ControlCenterService.ToggleProvider | src/modules/control-center/control-center.service.ts:211-233 | the cached state and the one queued update, or the error with nothing queued |
| ControlCenterService.ControlCenterService.SetDefaultProvider | src/modules/control-center/control-center.service.ts:235-272 | the cached state and the one queued update, or the error with nothing queued |
| ControlCenterService.ControlCenterProcessor.HandleUpdateState | src/modules/control-center/control-center.processor.ts:34-77 | one update unsets the other defaults of its scope exactly if it sets one, and stores its state; an unknown domain changes nothing |
| ControlCenterService.ControlCenterProcessor.Process | src/modules/control-center/control-center.processor.ts:23-32 | the oldest pending update is taken and applied |
| ControlCenterService.PaymentsService.GetActiveProvider | src/modules/payments/payments.service.ts:57-86 | the first enabled default in walking order, else paystack; without a document the configured strategy; an unknown name falls back to the first provider |
| MfaLaws.InvariantOverRuns | src/modules/auth/mfa.service.ts:477-646 | over every sequence of enabling, disabling and verifying: kinds distinct and all enabled, enabled if and only if some non-backup method exists, exactly one primary and never the backup entry while enabled, no methods or codes otherwise |
| MfaLaws.EnableKeepsInvIff | src/modules/auth/mfa.service.ts:477-537 | enabling keeps that invariant if and only if it does not enable backup codes on an account without a method |
| MfaLaws.DisableKeepsInv | src/modules/auth/mfa.service.ts:575-611 | disabling keeps it, whichever method is removed |
| MfaLaws.EnableOutcome | src/modules/auth/mfa.service.ts:480-515 | enabling fails exactly for a listed kind that is not the passkey and for an app without a secret; otherwise the kind is listed, an app with its secret, and the other methods but the backup entry stay |
| MfaLaws.EnableResultExact | src/modules/auth/mfa.service.ts:477-537 | a new method goes to the end of the list, an app with its secret, the first one as primary; codes that are left stay, otherwise the new ones are stored with an entry that is not primary; nothing else changes |
| MfaLaws.ReenableKeepsPlace | src/modules/auth/mfa.service.ts:480-515 | a listed method that is not enabled is enabled in its place |
| MfaLaws.DisableFailsIff | src/modules/auth/mfa.service.ts:578-584 | disabling fails exactly where nothing is enabled, or else the kind is not listed |
| MfaLaws.DisableAny | src/modules/auth/mfa.service.ts:586-608 | for any settings: the method is taken out; if an enabled non-backup one is left and no primary, the first non-backup one becomes primary and nothing else changes; if none is left everything is cleared |
| MfaLaws.DisableResultExact | src/modules/auth/mfa.service.ts:586-608 | so for settings of the service the first remaining non-backup method takes over from a disabled primary one, and disabling another one changes nothing else |
| MfaLaws.DisableUndoesEnableIff | src/modules/auth/mfa.service.ts:477-611 | disabling a method just added restores the settings if and only if no new codes came with it or it was the first method |
| MfaLaws.BackupCodesConserved | src/modules/auth/mfa.service.ts:634-646 | over every run, the codes generated last are those accepted since plus those left, as multisets; so at most ten acceptances between generations |
| MfaLaws.AcceptedIffLeft | src/modules/auth/mfa.service.ts:634-646 | a code is accepted if and only if the backup entry is enabled and the code was generated more often than accepted |
| MfaLaws.SingleUse | src/modules/auth/mfa.service.ts:634-646 | codes generated pairwise distinct are accepted at most once each |
| MfaLaws.CodesAreDrawn | src/modules/auth/mfa.service.ts:145-156 | the ten codes are the drawn ones, each hashed on its own, and distinct if the draws are |
| MfaLaws.DrawnCodesAreSingleUse | src/modules/auth/mfa.service.ts:145-156 | over every run whose codes come from distinct draws, each is accepted at most once before new ones are generated |
| MfaLaws.UseCodeTakesOne | src/modules/auth/mfa.service.ts:634-646 | an accepted code takes out the hash it matches first, and leaves the others in order |
| MfaLaws.NewCodesOnlyWhenSpent | src/modules/auth/mfa.service.ts:521-537 | over every run: when new codes are generated, every code of the generation before was accepted since then, unless everything was disabled in between, which drops those that were left |
| MfaLaws.GeneratedAreSound | src/modules/auth/mfa.service.ts:145-156 | codes with distinct salted hashes that are matched exactly satisfy the assumption of the laws above |
| MfaLaws.StrandedCodesStay | src/modules/auth/mfa.service.ts:575-611 | codes whose entry was disabled stay stored and unusable until everything is disabled or the entry itself is enabled |
| MfaLaws.DisablingTheEntryStrands | src/modules/auth/mfa.service.ts:575-611 | disabling the backup entry of an account with codes leads to that state |
| MfaService.MfaService.EnableMfaMethod | src/modules/auth/mfa.service.ts:469-542 | the settings and the plain codes shown, or the error with nothing changed |
| MfaService.MfaService.DisableMfaMethod | src/modules/auth/mfa.service.ts:571-613 | the settings, or the error with nothing changed |
| MfaService.MfaService.VerifyBackupCode | src/modules/auth/mfa.service.ts:615-646 | whether the code is accepted, and that an accepted one is used up |
| MfaService.Promoted | src/modules/auth/mfa.service.ts:603-608 | the first non-backup method becomes primary, if there is one, and no other entry changes |

## Left out

- Interleavings inside one match handler (the gateway's sleeps) and inside `deposit` and `withdraw`: the code reads and writes
  without a lock there, so these laws assume atomic handlers.
- Reverts of live matches and the queued revert job within runs, the administrator's lock, settle and revert endpoints, and `deleteWallet`: they move
  money outside the protocol.
- A worker's catch branch, which drops the tickets it holds; matchmaking steps are taken as free of errors.
- Restarts while control-center updates are pending, and the times of the last check.
- Parsing of environment lists: the model takes the lists of channels and providers already split, trimmed and lower-cased.
- `PaymentsService.getActiveProvider` keeps only provider names; the provider objects are not part of this model.
- Second factors other than backup codes in `verifyMfaWait`, labels, last-use times, encryption of secrets, and stored passkey credentials.
- Lobby matches: they are created without a turn and never pass the roll guard.
- Other games, friends, schema migration, notifications, presence, sockets, logging, tracing, controllers and providers.
- Termination of the worker's endless loop: it is modelled for any number of passes.
