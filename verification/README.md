# Money core of the betting backend: a verified model

The backend lets two users stake the same amount on different outcomes of a football match. Stakes move
from a user's available to their locked balance while a bet is alive; a confirmed result settles the
bet, the platform keeps a fee, and deposits and withdrawals connect the wallets to the outside. This
project models that money core and proves what holds in every state the service calls can reach.

How the files fit together:

- `Tables.dfy` holds the rows and the database `Db`. `Money.dfy` is the rounding arithmetic (whole
  cents, rates in ten-thousandths). `Sums.dfy` has sums over sequences and maps.
- `Positions.dfy` says, row by row, what a bet, a deposit or a withdrawal means for each balance of each
  user, without reference to any operation. `LedgerLines.dfy` lists the entry groups.
- `Rules.dfy` gives each service call as a transition: a new database, or an error that changes nothing.
  `Step` covers all twenty calls and `Run` any sequence of them.
- `BetLaws.dfy`, `SettlementLaws.dfy`, `FundingLaws.dfy`, `SyncLaws.dfy` and `WalletLaws.dfy` say what each call
  answers and does without the helper functions of `Rules.dfy`: when exactly it succeeds and with which error it
  fails, and the whole state after it, in plain fields, balances and entries. `Histories.dfy` reads them
  backwards over runs: which calls, with which arguments and in which order, must have happened for a row to be
  what it is.
- `Session.dfy`, `LedgerService.dfy`, `WalletService.dfy`, `BetService.dfy`, `AdminService.dfy`,
  `SettlementService.dfy`, `WithdrawalService.dfy`, `DepositService.dfy`, `MatchSync.dfy` and
  `ResultConfirmation.dfy` are the services in their own imperative form: the tables are fields of a
  `Session` object, updated statement by statement in the source's order, with wallet arithmetic done
  step by step. Each method is proved to end as the transition of `Rules.dfy` says. `Requests.dfy` adds
  commit and rollback, so a request has its whole effect or none even where a service inserts its row
  before a check that can still refuse. `MatchSettlementService.dfy` is the settlement run with its many
  transactions, between which anything else may happen.
- `Invariants.dfy` states the invariant. `Booking.dfy`, `BetProofs.dfy`, `FundingProofs.dfy`,
  `MatchProofs.dfy` and `Runs.dfy` prove that every call keeps it, so that it holds of every database that
  calls can reach from the empty one (`Runs.Reachable`). `Theorems.dfy` draws the conclusions.
  `Movements.dfy` turns positions into wallet movements.
- `OrderIndependence.dfy`: the order of a settlement loop does not matter. `SyncIdempotence.dfy`: exactly
  when synchronising twice changes nothing. `SyncProofs.dfy`: what match synchronisation keeps.
- `SchemaChecks.dfy` installs the CHECK constraints of the SQL schemas on bets and on both ledgers and proves
  exactly which calls they refuse; `UnclaimedExample.dfy` is a run that ends in a bet without an exit.
- `LockProtocol.dfy`, `LockProofs.dfy`, `Schedules.dfy` and `Waiting.dfy` break settlement and acceptance
  into lock, read, write and commit moves and prove serializability and freedom from deadlock.
- The other calls fall short of that. `LockPlans.dfy` and `LockChains.dfy` say when transactions with fixed lock
  plans can block each other for ever, and `CallPlans.dfy` which sets of service calls do. `StaleCancel.dfy`,
  `StaleDeposit.dfy` and `StaleWithdrawal.dfy` take apart the calls that read their row without a lock: exactly
  when writing on the earlier reading is still right, and what it does otherwise. `KickoffShift.dfy` is about
  bets whose match is moved. `ExampleRuns.dfy` holds the
  runs that show the failing cases to be reachable.

`dafny verify dfyconfig.toml` checks everything.

## Where code and documentation disagree

- `app/utils/decimal_utils.py:7-8` says sub-cent remainders always go to the platform. At a stake of 10.01 they
  go to the users at the usual rates (`Money.RemainderGoesToUsers`). The platform gets no less than its exact fee
  if and only if the sub-cent part of that fee is nothing or at least half a cent (`Money.PoolRemainderIff`,
  `Money.StakeRemainderIff`); `Money.ExactSplit` and `Theorems.RoundingBound` bound the error either way.
- The schemas contradict the service. `schema.sql:601-625` and `supabase_schema.sql:435-455` require the
  payout of a bet nobody won to be NULL and every settlement fee to be positive, and both ledgers require
  positive amounts. The service stores the refund as the payout of such a bet, and a fee that may round to
  zero. The repository does not agree on whether these constraints are in force: `README.md:167` calls
  `schema.sql` reference DDL that is not applied, while `PROJECT_STRUCTURE.md:9` and `:153` call it the
  production schema that creates the enum types, `app/models/enums.py:8` relies on that,
  `supabase_schema.sql:11-18` tells the operator to run the whole file, and the first migration only adds
  columns to a table that must exist already. So both databases are covered. `Theorems` is about one
  without the constraints, where a queued bet settles if and only if it is payable. `SchemaChecks` installs
  them: they refuse no call but settlements, and of those exactly the ones where nobody predicted the
  result or the fee stays below half a cent before rounding. A bet nobody won then stays queued for ever,
  with both stakes locked; `UnclaimedExample.DrawnBetHasNoExit` runs into one.
- Synchronising twice is meant to change nothing. That holds for every stored table if and only if payloads
  with the same external id name the fixture alike, put its kickoff within a minute of each other, give one
  result, and cannot move its status on from where they lead it (`SyncIdempotence.SyncIdempotentIff`).
  Distinct external ids are one such case; identical repeated payloads are another.
- `app/services/bet_service.py:128` wants a bet to expire at the kickoff of its match, and `:220` refuses an
  expired bet because kickoff has passed. The time is stored once, and synchronisation may move the kickoff. A bet
  can be taken after the kickoff its match has now if and only if that was moved to before the stored time, and is
  refused too early if and only if it was moved to after it (`KickoffShift.LateTakingIff`,
  `KickoffShift.EarlyExpiryIff`). What holds in every run is `Histories.TakenBeforeKickoff`.
- `app/services/bet_service.py:297` reads the bet to cancel without a lock. The cancellation is right if and only
  if the bet is still open when it writes, or the wallet refuses. If the bet was taken in between, exactly the
  opponent's stake stays locked for nothing; if it was already over, the creator is refunded out of the money
  locked for other bets (`StaleCancel.StaleCancelIsSafeIff`, `StaleCancel.StaleCancelEffect`).
- `app/services/deposit_service.py:201-205` says the status check and the unique provider reference guard against
  double processing. The row is read without a lock at `:221`, and both completions write the same row, whose own
  reference is no obstacle. So a second completion that read the deposit while it was open credits it again
  (`StaleDeposit.StaleCompleteEffect`, `StaleDeposit.DoubleCreditIsReachable`).
- `app/services/withdrawal_service.py:151`, `:174`, `:211` and `:250` read the withdrawal without a lock, although
  each call promises a conflict on a finished one. If the withdrawal was finished in between, its amount is taken
  from what the user has locked for other things (`StaleWithdrawal.StaleFinishEffect`).
- `app/services/admin_service.py:84-99` locks wallets as creator and opponent, not in ascending order. Any number
  of voids, settlements and acceptances can block each other for ever if and only if the steps from first to
  second wallet of some of them, on different bets, form a closed loop (`CallPlans.BetFirstDeadlockIff`). Three
  voids can although no two of them do. Cancelling locks the wallet before the bet and can deadlock with a void
  of the same bet (`CallPlans.CancelDeadlocksIff`); `CallPlans.CallsDeadlockIff` covers all four calls together.

## Model

| member | source | states |
|---|---|---|
| Runs.ReachableInv | app/core/dependencies.py:31-44 | whatever calls succeed or are refused, in any order, every reachable database satisfies the whole invariant |
| Theorems.Escrow | app/services/wallet_service.py:57-186 | in every reachable state a user's locked balance is exactly the stakes of their live bets plus their open withdrawals |
| Theorems.Conservation | app/services/settlement_service.py:262-282 | wallets plus platform balance plus completed withdrawals always equal completed deposits |
| Theorems.LedgerReplays | app/services/ledger_service.py:1-12 | folding a user's signed entries from zero gives both balances |
| Theorems.SnapshotsReplay | app/services/ledger_service.py:3-10 | both snapshots of every entry are the fold up to the end of the call that wrote it, whatever follows |
| Theorems.BetLocksReleasedOnce | app/services/wallet_service.py:57-186 | over the entries of one bet each user's net lock is their live stake, so zero once the bet is finished |
| Theorems.FinishedBetZeroSum | app/services/settlement_service.py:411-443 | over the entries of one finished bet both users' available movements and the platform's fee sum to zero |
| Theorems.VoidSucceedsIff | app/services/admin_service.py:71-99 | voiding succeeds exactly for open and matched bets: the balance guards never fire |
| Theorems.CancelSucceedsIff | app/services/bet_service.py:297-324 | cancelling succeeds exactly for the creator of an open bet |
| Theorems.WithdrawalFinishesIff | app/services/withdrawal_service.py:174-267 | completing, rejecting and failing a withdrawal depend on its status alone: held money is always there |
| Theorems.QueuedIsJudged | app/services/settlement_service.py:157-171 | for a queued bet the missing-opponent, missing-outcome and missing-funds errors cannot occur |
| Theorems.SettleSucceedsIff | app/services/settlement_service.py:142-282 | settling a queued bet succeeds if and only if fee rows and platform account exist and a winner's share exceeds half a cent, in a database without the schemas' CHECK constraints |
| Theorems.ActiveRowIsLatest | app/repositories/fee_config_repository.py:31-69 | a rate is in force exactly when some row of the type has taken effect, and no such row is later |
| Theorems.SettledResultsStayRight | app/services/settlement_service.py:157-197 | every queued bet's match is confirmed, and every settled bet agrees with its match's result as it stands now |
| Theorems.ConfirmedForEver | app/services/match_settlement_service.py:127-139 | outcome, scores, status and time of a confirmed match never change again |
| Theorems.AuditReplays | app/services/bet_service.py:402-419 | every bet's events are a word of the life-cycle automaton and replay to its stored status |
| Theorems.FinishedForEver | app/services/settlement_service.py:147-152 | from any reachable state on bets only move to later stages, and a settled, cancelled or voided bet never changes again |
| Theorems.DepositCreditedExactlyOnce | app/services/deposit_service.py:195-259 | under any notifications and admin calls the ledger credits a deposit once if it is completed, otherwise never, and only by its amount |
| Theorems.EveryCreditIsADeposit | app/services/deposit_service.py:195-259 | every deposit credit in the ledger is that of one completed deposit, to its user and of its amount |
| Theorems.PlatformBooks | app/repositories/platform_repository.py:55-115 | balance, ledger, prefix snapshots and per-bet entries of the platform agree with the fees of the settled bets |
| Theorems.RoundingBound | app/utils/decimal_utils.py:22-76 | in every reachable state the platform's balance is within half a cent per won bet and one cent per unwon bet of the exact fees |
| Histories.SettledBy | app/services/settlement_service.py:142-317 | a settled bet's match was confirmed by one call and the bet settled by a later one; whoever predicted the result given in the first has won, and rate and fee are those of the fee row in force at the time given in the second |
| Histories.ConfirmedResultDecides | app/services/match_settlement_service.py:124-161 | from the confirmation of a result on, in every later state, each settled bet of that match was won by whoever predicted the result given there, whatever synchronisation had stored |
| Histories.ConfirmedBy | app/services/match_settlement_service.py:132-139 | outcome, scores and time of a confirmed match are exactly the arguments of one confirming call |
| Histories.TakenBeforeKickoff | app/services/bet_service.py:136-224 | over any run a bet is taken only after it was created, and before the kickoff its match had when it was created |
| Histories.BetCreatedBy | app/services/bet_service.py:95-137 | every bet was created by its creator on the terms it has, a quarter of an hour before kickoff at the latest, and expires at the kickoff its match had then |
| Histories.BetTakenBy | app/services/bet_service.py:203-252 | opponent and prediction of a bet are those of one accepting call, made before the bet expired by another active user on another result |
| Histories.BetEndedBy | app/services/admin_service.py:71-99 | a finished bet was cancelled by its creator while open, voided while open or matched, or settled while queued |
| Histories.CompletedBy | app/api/v1/endpoints/webhooks.py:102-190 | over any run a completed deposit was completed by an admin's call for it or by a timely, verified notification of its payment, while it was still awaited |
| Histories.FailedBy | app/api/v1/endpoints/webhooks.py:192-226 | a failed deposit was failed by an admin's call or by a timely, verified notification of refusal; none is ever cancelled |
| Histories.DepositRequestedBy | app/services/deposit_service.py:60-189 | every deposit was requested for its user and with its amount |
| Histories.PaidOutInThreeSteps | app/services/withdrawal_service.py:78-192 | a completed withdrawal was requested for its user and amount, then approved, then completed, by three calls in this order |
| Histories.BroughtTo | app/services/withdrawal_service.py:142-272 | whatever status a withdrawal has, the call for that status was made for it and succeeded |
| SettlementLaws.SettledForTheRightOne | app/services/settlement_service.py:376-381 | in every reachable state the creator of a settled bet has won exactly if the match has the creator's result, the opponent exactly if it has the opponent's, and nobody otherwise |
| SettlementLaws.SettleAnswers | app/services/settlement_service.py:142-282 | a bet settles exactly if it is queued, both rates are in force, the share of whoever was right exceeds half a cent and there is a platform account; otherwise the error says which check failed |
| SettlementLaws.WonSettlementEffect | app/services/settlement_service.py:203-317 | both stakes leave the locked balances, exactly whoever was right gets the pool less the rounded fee at the winner rate in force, the platform gets the fee, and nothing else changes |
| SettlementLaws.UnwonSettlementEffect | app/services/settlement_service.py:449-533 | if nobody was right both get the stake back less the rounded fee at the no-winner rate in force, the platform gets both fees, and nothing else changes |
| SettlementLaws.OnlyTheRightOneGains | app/services/settlement_service.py:376-381 | a settlement of a bet that somebody won raises the available balance of exactly the right predictor |
| SettlementLaws.ChosenIsActive | app/repositories/fee_config_repository.py:31-69 | the row in force is the latest that has taken effect, the first added among equally late ones |
| BetLaws.CreateBetAnswers | app/services/bet_service.py:95-127 | a bet is created exactly by an active user, on a scheduled match more than a quarter of an hour before kickoff, with a stake of 10 to 10 000 the user can afford; each error exactly where its check is the first to fail |
| BetLaws.CreateBetEffect | app/services/bet_service.py:129-163 | the new bet has exactly the terms given and expires at the kickoff, the stake is locked with both entries, nothing else changes |
| BetLaws.AcceptBetAnswers | app/services/bet_service.py:203-243 | a bet is taken exactly by an active user other than the creator, on another prediction, while it is open and not expired, with funds for the stake; each error exactly where its check is the first to fail |
| BetLaws.AcceptBetEffect | app/services/bet_service.py:237-267 | the bet carries that opponent and prediction, the opponent's stake is locked with both entries, nothing else changes |
| BetLaws.CancelBetAnswers | app/services/bet_service.py:297-310 | exactly the creator of an open bet cancels it, and each refusal has its error |
| BetLaws.CancelBetEffect | app/services/bet_service.py:312-333 | the stake is back with both entries, the bet is cancelled, nothing else changes |
| BetLaws.VoidBetAnswers | app/services/admin_service.py:71-78 | exactly open and matched bets are voided, and each refusal has its error |
| BetLaws.VoidOpenEffect | app/services/admin_service.py:83-105 | the creator's stake is back with both entries, nothing else changes |
| BetLaws.VoidMatchedEffect | app/services/admin_service.py:83-105 | both stakes are back with their entries, creator first, nothing else changes |
| BetLaws.ConfirmAnswers | app/services/match_settlement_service.py:120-132 | a result is confirmed exactly once per match |
| BetLaws.ConfirmEffect | app/services/match_settlement_service.py:134-161 | exactly the result given is stored over any earlier one, exactly the matched bets of the match are queued, nothing else changes |
| FundingLaws.AccountCalls | app/services/auth_service.py:92-96 | wallets and the platform account start empty and are opened once, and fee rates lie between 0 and 1 |
| FundingLaws.CreateDepositLaw | app/services/deposit_service.py:93-106 | when a deposit is requested, with which error it is refused, and the row it leaves |
| FundingLaws.InitiatePayfastLaw | app/services/deposit_service.py:146-182 | the same through the provider, with its bounds |
| FundingLaws.CompleteDepositAnswers | app/services/deposit_service.py:221-255 | a deposit is completed exactly while it is awaited and no other one carries the reference |
| FundingLaws.CompleteDepositEffect | app/services/deposit_service.py:234-255 | exactly its user is credited with exactly its amount, in one entry, nothing else changes |
| FundingLaws.FailDepositLaw | app/services/deposit_service.py:283-297 | exactly an awaited deposit is failed, and no money moves |
| FundingLaws.PayfastItnLaw | app/api/v1/endpoints/webhooks.py:84-226 | a notification that is late, not verified or about no known deposit changes nothing; a genuine one completes or fails the deposit it names, or is ignored, by its status |
| FundingLaws.PayfastItnTouchesNamed | app/api/v1/endpoints/webhooks.py:84-226 | no notification changes a deposit other than the one it names |
| FundingLaws.CreateWithdrawalAnswers | app/services/withdrawal_service.py:105-112 | a withdrawal is requested exactly with a positive amount the user can afford, and each refusal has its error |
| FundingLaws.CreateWithdrawalEffect | app/services/withdrawal_service.py:112-128 | the amount is held with both entries, nothing else changes |
| FundingLaws.ApproveWithdrawalLaw | app/services/withdrawal_service.py:151-159 | exactly a pending withdrawal is approved, and no money moves |
| FundingLaws.FinishWithdrawalAnswers | app/services/withdrawal_service.py:174-251 | from which statuses a withdrawal is completed, rejected and failed, and the error otherwise |
| FundingLaws.CompleteWithdrawalEffect | app/services/withdrawal_service.py:177-190 | the held amount leaves the locked balance in one entry, nothing else changes |
| FundingLaws.RejectWithdrawalEffect | app/services/withdrawal_service.py:213-226 | the held amount is back with both entries, nothing else changes |
| FundingLaws.FailWithdrawalEffect | app/services/withdrawal_service.py:253-267 | the held amount is back with both entries, nothing else changes |
| SyncLaws.KnownFixture | app/integrations/sync_service.py:319-394 | every field of a known fixture after one payload: names, kickoff beyond a minute, the moves of status that are possible, the result while it is not confirmed |
| SyncLaws.NewFixtureStored | app/integrations/sync_service.py:289-317 | every field of a new fixture |
| SyncLaws.PostponedReturns | app/integrations/sync_service.py:64 | a postponed match that the provider schedules again is scheduled, at its new kickoff |
| SyncLaws.SyncInOrder | app/integrations/sync_service.py:247-258 | payloads take effect one after the other |
| SyncLaws.UnnamedStay | app/integrations/sync_service.py:247-287 | matches that no payload names stay as they are |
| SyncLaws.ActionMeans | app/integrations/sync_service.py:252-287 | created, updated and skipped mean a new fixture, a change beyond the synchronisation time, and none |
| SyncLaws.ActionsInOrder | app/integrations/sync_service.py:247-258 | each payload is judged against what the ones before it have left |
| SyncProofs.OutcomeOfScores | app/integrations/status_mapper.py:75-97 | scores give a result exactly if both are there, and a win exactly of the side that scored more |
| WalletLaws.LockRefusedIff | app/services/wallet_service.py:84-95 | locking a stake is refused exactly if the wallet is missing or a balance would fall below zero |
| WalletLaws.ReleaseRefusedIff | app/services/wallet_service.py:130-137 | unlocking and refunding are refused exactly if the wallet is missing or a balance would fall below zero |
| WalletLaws.FundingRefusedIff | app/services/wallet_service.py:388-468 | crediting and holding are refused exactly for amounts that are not positive, missing wallets and balances that would fall below zero |
| WalletLaws.FinishRefusedIff | app/services/wallet_service.py:474-556 | paying out and giving back a held amount are refused exactly in those cases |
| WalletLaws.TransferRefusedIff | app/services/wallet_service.py:615-682 | paying a winner is refused exactly if stake or fee are out of range, a wallet is missing or a balance would fall below zero |
| WalletLaws.NoWinnerRefusedIff | app/services/settlement_service.py:478-513 | giving both stakes back is refused exactly if a wallet is missing or a balance would fall below zero |
| SchemaChecks.SettledRowMeetsChecksIff | supabase_schema.sql:401-474 | the row a settlement writes meets the constraints on bets if and only if, before the call, somebody had predicted the result and the winner fee came to half a cent or more |
| SchemaChecks.ChecksBiteIff | supabase_schema.sql:401-474 | with the constraints on bets and both ledgers installed, of all successful calls exactly the settlements of bets that are not chargeable beforehand are refused |
| SchemaChecks.SettleWithChecksIff | supabase_schema.sql:435-455 | with the constraints a queued bet settles if and only if it is payable and chargeable |
| SchemaChecks.UnclaimedForEver | schema.sql:599-625 | with the constraints a queued bet whose result nobody predicted stays as it is under any further calls, both stakes locked |
| UnclaimedExample.DrawnBetHasNoExit | schema.sql:599-625 | a reachable bet that the service would settle into a refused row and that no calls ever move with the constraints installed |
| KickoffShift.LateTakingIff | app/services/bet_service.py:218-224 | an open bet can be taken at or after the kickoff its match has now if and only if that was moved to before the bet's expiry |
| KickoffShift.EarlyExpiryIff | app/services/bet_service.py:218-224 | it is refused as expired before that kickoff if and only if the kickoff was moved to after the bet's expiry |
| KickoffShift.LateTakingIsReachable | app/integrations/sync_service.py:334-340 | in a reachable database a bet is taken after the kickoff of its match |
| StaleCancel.StaleCancelIsSafeIff | app/services/bet_service.py:297-333 | a cancellation that writes on an earlier unlocked reading has the effect of the call if and only if the bet is still open when it writes, or the wallet refuses |
| StaleCancel.StaleCancelEffect | app/services/bet_service.py:297-333 | whatever calls ran in between: nothing is lost on an open bet, exactly the opponent's stake stays locked for nothing on a taken one, exactly the stake is taken from what the creator has locked for other things on a finished one |
| StaleCancel.StaleCancelSucceedsIff | app/services/bet_service.py:297-333 | it goes through on a live bet always, on a finished one if and only if the creator has as much locked for other things |
| StaleCancel.StrandedStakeIsReachable | app/services/bet_service.py:297-333 | a stake is stranded on a schedule from a reachable database |
| StaleCancel.DoubleRefundIsReachable | app/services/bet_service.py:297-333 | two cancellations of one reachable bet both go through, the second with money of another bet |
| StaleDeposit.StaleCompleteIsSafeIff | app/services/deposit_service.py:221-259 | completing on an earlier unlocked reading has the effect of the call if and only if the deposit is still open when it writes, or it is refused |
| StaleDeposit.StaleCompleteEffect | app/services/deposit_service.py:201-259 | whatever calls ran in between, only a reference on another row refuses it, and it creates the deposit's amount out of nothing exactly if the deposit was completed already |
| StaleDeposit.StaleFailIsSafeIff | app/services/deposit_service.py:281-297 | failing on an earlier reading has the effect of the call if and only if the deposit is still open or has failed already |
| StaleDeposit.StaleFailEffect | app/services/deposit_service.py:281-297 | it always goes through, and leaves the credit of a deposit completed in between without a deposit |
| StaleDeposit.DoubleCreditIsReachable | app/services/deposit_service.py:201-259 | two completions of one reachable deposit with the same provider reference both credit it |
| StaleWithdrawal.StaleFinishIsSafeIff | app/services/withdrawal_service.py:151-267 | approving, completing, rejecting or failing on an earlier unlocked reading has the effect of the call if and only if the row is still in an admissible status, or an approval finds it approved, or the wallet refuses |
| StaleWithdrawal.StaleFinishEffect | app/services/withdrawal_service.py:151-267 | whatever calls ran in between: nothing is lost on a withdrawal that holds its amount; on a finished one exactly the amount is missing from what its user has locked for other things, and from the money of the platform if it was paid out |
| StaleWithdrawal.StaleFinishSucceedsIff | app/services/withdrawal_service.py:151-267 | it goes through on a held withdrawal always, on a finished one if and only if it is an approval or the user has as much locked for other things |
| StaleWithdrawal.DoubleReleaseIsReachable | app/services/withdrawal_service.py:198-231 | two rejections of one reachable withdrawal both go through, the second with the stake of an open bet |
| Money.RoundHalfUp | app/utils/decimal_utils.py:22-31 | the nearest cent, ties away from zero |
| Money.RoundHalfUpUnique | app/utils/decimal_utils.py:22-31 | that contract admits one value only |
| Money.ExactSplit | app/services/settlement_service.py:411-443 | fee and payout make up the pool, fee and refund the stake, and each fee is within half a cent of the exact one |
| Money.PoolRemainderIff | app/utils/decimal_utils.py:7-8 | the platform gets no less than its exact fee from a pool if and only if the sub-cent part of the fee is nothing or at least half a cent |
| Money.StakeRemainderIff | app/utils/decimal_utils.py:7-8 | the same for the fee of each participant on a bet nobody won |
| Money.RemainderGoesToUsers | app/utils/decimal_utils.py:7-8 | a stake of 10.01 leaves the remainder with the users on both paths |
| Money.PayoutPositive | app/services/wallet_service.py:628-635 | the payout is positive if and only if the winner's exact share exceeds half a cent |
| Money.PayoutBoundIsTight | app/services/wallet_service.py:628-635 | every rate up to 99.97% leaves a payout for every admissible stake, 99.98% fails at the minimum |
| Runs.StepKeepsInv | app/core/dependencies.py:31-44 | any single call, successful or refused, keeps the invariant |
| Runs.SuccessRaisesRank | app/services/settlement_service.py:289-313 | accepting, cancelling, voiding, settling and queueing strictly raise the rank of every bet they move |
| Runs.RunAdvances | app/services/bet_service.py:237-252 | over any run bets only move to later stages, keep what was agreed and never disappear |
| Runs.MovedAtMostOnce | app/services/settlement_service.py:289-317 | in any run a bet is taken by at most one opponent, and settled, voided or cancelled at most once in all |
| Runs.StepAppends | app/services/ledger_service.py:3-12 | every call only appends to the ledger, with snapshots of the balances after the whole call |
| BetProofs.VerdictIsGood | app/services/settlement_service.py:173-192 | the rates found lie in range and the path is one of the three of a settlement |
| OrderIndependence.SettlementOrderIrrelevant | app/services/match_settlement_service.py:177-210 | every order of a settlement loop settles all payable bets and ends with the same wallets, bets and platform balance, and the same ledgers up to order and snapshots |
| SyncIdempotence.SyncIdempotentIff | app/integrations/sync_service.py:247-394 | the second run over the same payloads skips all of them and changes only synchronisation times, whatever was stored before, if and only if the payloads are steady |
| SyncIdempotence.UnsteadyFails | app/integrations/sync_service.py:247-394 | for payloads that are not steady, a table left by one earlier synchronisation is changed again by the second run |
| SyncIdempotence.SyncIdempotent | app/integrations/sync_service.py:247-394 | distinct external ids are steady, so the second run creates and updates nothing |
| SyncIdempotence.RepeatedFixtureKeepsUpdating | app/integrations/sync_service.py:247-287 | two payloads with one external id that disagree update each other again |
| SyncProofs.RunKeepsConsistent | app/integrations/sync_service.py:366-379 | if payload outcomes are derived from their scores, unconfirmed matches carry the outcome of their scores after any run |
| SyncProofs.OverForEver | app/integrations/sync_service.py:56-69 | over any run a completed, cancelled or abandoned match keeps its status unless its result is confirmed |
| MatchProofs.SyncFreezes | app/integrations/sync_service.py:366-379 | synchronisation leaves result, scores and status of every confirmed match alone |
| LockProofs.MoveOk | app/services/settlement_service.py:142-282 | one move keeps all that was read valid, requests locks in ascending order, and ends with the effect of the whole call |
| LockProofs.CommitMoves | app/services/settlement_service.py:284-317 | a settlement that holds all its locks commits, with the effect of the atomic call |
| LockProofs.FreshStays | app/repositories/bet_repository.py:31-46 | what a transaction has read under its locks stays true while others leave its rows alone |
| LockProofs.WritesSettlement | app/services/wallet_service.py:641-707 | what is written from the values read under the locks is the atomic settlement |
| LockProofs.CommitTouchesHeld | app/services/settlement_service.py:262-313 | a commit changes no bet, wallet or account that is not locked |
| Schedules.Serializable | app/services/settlement_service.py:100-313 | every schedule of settlements, acceptances and other calls ends as a serial run, in which every transaction ends as it did in the schedule and the remaining calls are exactly the atomic ones that ran, in order |
| Schedules.LateFeeRowRuns | app/repositories/fee_config_repository.py:31-69 | a fee row that takes effect after every open settlement's own time can be inserted at any point of a schedule |
| Schedules.PaidAndTakenAtMostOnce | app/services/bet_service.py:207-252 | in every schedule a bet is paid by at most one transaction and accepted by at most one |
| Schedules.LateGuardNeverFires | app/services/settlement_service.py:289-317 | the update guarded by the queued status never finds the bet in another status |
| Waiting.NoCyclicWait | app/services/wallet_service.py:641-645 | transactions never wait for each other in a cycle of any length |
| Waiting.DeadlockFree | app/services/settlement_service.py:478-486 | after any schedule the open transactions can all be run to their ends |
| LockPlans.CanDeadlockIff | app/services/settlement_service.py:478-486 | any number of transactions with fixed lock plans can deadlock if and only if disjoint beginnings of the plans leave a round of them each wanting a row that the next one has |
| LockPlans.AscendingNeverDeadlock | app/services/settlement_service.py:478-486 | any number of plans in one common ascending order never deadlock |
| CallPlans.FollowsPlan | app/services/wallet_service.py:641-645 | settlement and acceptance request their locks exactly in the order of their plans |
| CallPlans.CallsDeadlockIff | app/services/admin_service.py:71-99 | any number of voids, settlements, acceptances and cancellations can deadlock if and only if some of them, the cancellations aside on different bets, form a closed chain on which each locks the row that the one before it wants earlier than the row it wants itself |
| CallPlans.BetFirstDeadlockIff | app/services/admin_service.py:84-99 | any number of voids, settlements and acceptances can deadlock if and only if the steps from first to second wallet of some of them, on different bets, form a closed loop of users |
| CallPlans.WithoutVoidsNoDeadlock | app/services/settlement_service.py:478-486 | any number of settlements and acceptances never deadlock |
| CallPlans.VoidsDeadlockIff | app/services/admin_service.py:84-99 | two voids can deadlock if and only if their bets are different and matched between the same two users with exchanged roles |
| CallPlans.VoidAndSettleDeadlockIff | app/services/admin_service.py:84-99 | the void of a matched bet and a settlement that comes to a verdict can deadlock if and only if the bets are different, between the same two users, and the voided bet's creator has the higher id |
| CallPlans.ThreeVoidsDeadlock | app/services/admin_service.py:84-99 | three voids in a ring of three users can deadlock although no two of them can |
| CallPlans.CrossedVoidsAreReachable | app/services/admin_service.py:84-99 | a reachable database holds two matched bets whose voids can deadlock |
| CallPlans.CancelDeadlocksIff | app/services/bet_service.py:313-323 | a cancellation of an open bet can deadlock with another call if and only if that one locks the same bet first and the canceller's wallet later |
| Waiting.AdvanceApproachesEnd | app/services/settlement_service.py:142-313 | every move of a transaction that does not wait brings the system nearer to having none left |
| Sessions.Session.UpdateBalances | app/repositories/wallet_repository.py:61-89 | writes the balances that are given and nothing else |
| Sessions.Session.CreateEntry | app/repositories/ledger_repository.py:34-81 | appends one entry with the given wallet's balances as snapshots |
| Sessions.Session.Restore | app/core/dependencies.py:42-44 | rollback: the whole state is the saved one |
| Sessions.Session.CreditFee | app/repositories/platform_repository.py:55-77 | adds the fee to the platform balance |
| Sessions.Session.WriteFeeEntry | app/repositories/platform_repository.py:79-115 | appends one platform entry with the balance after the credit and the settlement path |
| LedgerService.WriteStakeLock | app/services/ledger_service.py:41-83 | appends the two entries of a stake lock with the updated wallet's snapshots |
| LedgerService.WriteStakeUnlock | app/services/ledger_service.py:89-129 | appends the two entries of a stake unlock under a cancellation reference |
| LedgerService.WriteVoidRefund | app/services/ledger_service.py:135-173 | appends the two entries of a void refund under a void reference |
| LedgerService.WriteDepositCredit | app/services/ledger_service.py:262-289 | appends the one entry of a deposit |
| LedgerService.WriteWithdrawalHold | app/services/ledger_service.py:295-333 | appends the two entries of a withdrawal hold |
| LedgerService.WriteWithdrawalRelease | app/services/ledger_service.py:339-377 | appends the two entries of a withdrawal release |
| LedgerService.WriteWithdrawalDebit | app/services/ledger_service.py:383-409 | appends the one entry of a completed withdrawal |
| LedgerService.WriteSettlementWinner | app/services/ledger_service.py:184-244 | appends the three entries of a won settlement, with each wallet's own snapshots |
| LedgerService.WriteSettlementNoWinner | app/services/ledger_service.py:411-476 | appends the six entries of a settlement without winner, creator first |
| WalletService.LockStake | app/services/wallet_service.py:57-103 | moves the stake to locked with its entries, or refuses exactly as the guards say and changes nothing |
| WalletService.UnlockStake | app/services/wallet_service.py:109-144 | moves the stake back with its entries, or refuses and changes nothing |
| WalletService.VoidRefund | app/services/wallet_service.py:150-186 | moves the stake back under a void reference, or refuses and changes nothing |
| WalletService.CreditDeposit | app/services/wallet_service.py:388-421 | credits available with one entry, or refuses and changes nothing |
| WalletService.HoldWithdrawal | app/services/wallet_service.py:427-468 | moves the amount to locked with its entries, or refuses and changes nothing |
| WalletService.ReleaseWithdrawalHold | app/services/wallet_service.py:474-515 | moves the held amount back with its entries, or refuses and changes nothing |
| WalletService.FinalizeWithdrawalDebit | app/services/wallet_service.py:521-556 | takes the held amount out of locked with one entry, or refuses and changes nothing |
| WalletService.TransferLockedFunds | app/services/wallet_service.py:562-709 | consumes both stakes and credits the winner with the pool less the fee, or refuses and changes nothing |
| WalletService.ReadInOrder | app/services/wallet_service.py:641-648 | both wallets as read in ascending order, or the error of a missing one |
| BetService.CreateBet | app/services/bet_service.py:75-171 | ends as `BetLaws.CreateBetAnswers` and `BetLaws.CreateBetEffect` say, although the row is inserted before the funds check |
| BetService.AcceptBet | app/services/bet_service.py:177-275 | ends as `BetLaws.AcceptBetAnswers` and `BetLaws.AcceptBetEffect` say, step by step: opponent, prediction, stake lock, event |
| BetService.CancelBet | app/services/bet_service.py:281-340 | ends as the transition says: unlock, status, event |
| AdminService.VoidBet | app/services/admin_service.py:42-131 | ends as the transition says and names the refunded users |
| SettlementService.Decide | app/services/settlement_service.py:142-192 | the checks before any amount moves, in order, and the verdict they give, which `SettlementLaws.SettleAnswers` and `SettlementLaws.WonSettlementEffect` spell out |
| SettlementService.PayOut | app/services/settlement_service.py:203-260 | carries out the verdict on both wallets, or refuses exactly as the guards of its path say |
| SettlementService.SettleNoWinner | app/services/settlement_service.py:449-533 | refunds both participants less their fee with six entries, or refuses and changes nothing |
| SettlementService.CreditPlatform | app/services/settlement_service.py:262-282 | credits the fee and writes its entry, or finds no platform account |
| SettlementService.MarkSettled | app/services/settlement_service.py:284-337 | writes status, result fields and event only while the bet is queued |
| SettlementService.SettleBet | app/services/settlement_service.py:100-347 | ends as the settlement laws say on every path |
| WithdrawalService.CreateWithdrawal | app/services/withdrawal_service.py:78-136 | ends as the transition says although the row is inserted before the hold |
| WithdrawalService.AssertTransition | app/services/withdrawal_service.py:317-334 | refuses exactly the statuses outside the admissible set |
| WithdrawalService.ApproveWithdrawal | app/services/withdrawal_service.py:142-161 | ends as the transition says: status only |
| WithdrawalService.CompleteWithdrawal | app/services/withdrawal_service.py:167-192 | ends as the transition says: debit, status |
| WithdrawalService.RejectWithdrawal | app/services/withdrawal_service.py:198-231 | ends as the transition says: release, status |
| WithdrawalService.FailWithdrawal | app/services/withdrawal_service.py:237-272 | ends as the transition says: release, status |
| DepositService.CreateDeposit | app/services/deposit_service.py:60-113 | ends as the transition says: a pending row and no money, refused if the user's own reference is taken |
| DepositService.InitiatePayfastDeposit | app/services/deposit_service.py:119-189 | ends as the transition says: a row moved on to processing, within the configured bounds |
| DepositService.CompleteDeposit | app/services/deposit_service.py:195-259 | ends as the transition says; only a taken provider reference refuses after the credit |
| DepositService.FailDeposit | app/services/deposit_service.py:265-305 | ends as the transition says, and a refusal changes nothing |
| DepositService.PayfastItn | app/api/v1/endpoints/webhooks.py:117-226 | ends as `FundingLaws.PayfastItnLaw` says, and a swallowed refusal leaves no trace |
| MatchSync.UpdateFixture | app/integrations/sync_service.py:319-394 | the field-by-field update that `SyncLaws.KnownFixture` spells out, reported as an update exactly when more than the synchronisation time changed |
| MatchSync.CreateFixture | app/integrations/sync_service.py:289-317 | inserts the fixture, with a result only if the payload has an outcome |
| MatchSync.Reschedule | app/integrations/sync_service.py:342-364 | moves the kickoff by more than a minute only and the status along the moves of `SyncLaws.CanMove` only, and reports exactly real changes |
| MatchSync.WriteResult | app/integrations/sync_service.py:366-379 | writes outcome and scores only while the result is not confirmed, and reports exactly real changes |
| MatchSync.ProcessPayloads | app/integrations/sync_service.py:247-269 | the matches after all payloads, and counts that put every payload under what it did |
| ResultConfirmation.TransitionMatchedToPending | app/repositories/bet_repository.py:130-154 | queues exactly the matched bets of the match, each once |
| ResultConfirmation.ConfirmResult | app/services/match_settlement_service.py:124-161 | ends as `BetLaws.ConfirmAnswers` and `BetLaws.ConfirmEffect` say: the result given, queued bets, one event each |
| MatchSettlementService.ConfirmAndSettle | app/services/match_settlement_service.py:75-228 | with anything between the transactions, the calls are the confirmation and one attempt per queued bet in order; found is settled plus already settled plus failed, every attempt is filed as it ended, and every bet not listed as failed is settled at the end |
| MatchSettlementService.SettleQueued | app/services/match_settlement_service.py:177-210 | one attempt per queued bet in order, each after whatever else runs before it, all of them filed as they ended |
| MatchSettlementService.SettleSingleBet | app/services/match_settlement_service.py:230-250 | one settlement in its own transaction; a failed attempt changes nothing |
| MatchSettlementService.File | app/services/match_settlement_service.py:177-210 | each attempt is counted once, under how it ended, with its reason if it failed |
| Runs.QueuedReplays | app/services/settlement_service.py:147-152 | the life cycle leaves the queue only towards settlement |
| Runs.StaysUnderway | app/services/admin_service.py:74-78 | a queued bet can only become settled, and a settled one stays so |
| Requests.Handle | app/core/dependencies.py:31-44 | a request has its whole effect or none, keeps the invariant and reports the transition's error |
| Requests.HandleAll | app/core/dependencies.py:31-44 | any sequence of requests is a run of the transitions, so every theorem about runs holds of the session |

## Left out

- Whole cents: every amount that enters is a whole number of cents. The code does not enforce this; with
  fractions of a cent `app/services/bet_service.py:115` and `app/services/wallet_service.py:90-91` round the
  two balances differently.
- Currency: there is one. Rates outside 0 to 1 are refused by `Rules.AddFee`; the repository has no call that
  writes fee rows, and two rows with the same effective time are not ordered by its query (the model takes
  the one added first).
- Identifiers are numbers chosen by the caller; a repeated one is refused like a violated key. Matches are
  keyed by their unique external id. Wallets are ordered by user id instead of by its text.
- Sessions.Session.UpdateBalances: does not increment the wallet's version counter, on which no service decides.
- Sessions.Session.CreditFee: does not increment the platform account's version counter, on which no service decides.
- MatchSync.ProcessPayloads: does not model upserts that raise, and so has no failed count; a synchronisation
  run reads the clock once.
- Schedules.Serializable: a fee row that changes a rate which an open settlement has already read is not
  inserted before that settlement ends; any other fee row may be inserted at any time.
- SchemaChecks.ChecksBiteIff: covers the constraints on bets, on the ledger and on the platform ledger as they
  stand when a call ends; those on fee rates, on match scores and on points in time are not installed.
- SettlementLaws.SettleAnswers: is about a database without the CHECK constraints, like the next.
- Theorems.SettleSucceedsIff: is about a database without the CHECK constraints; `SchemaChecks` has the other.
- Timestamps that decide nothing, notes, log lines and event payloads.
- A bet status for review and an override event exist as enum values only; no call writes them.
- ORM and database machinery: rows are values in tables, reads under a lock are fresh, column overflow and
  foreign-key locks do not occur. Identity of row objects and aliasing between them is not captured.
- Clocks, payment verification and provider payloads are parameters; provider failures are not modelled.
- In the schedules of `Schedules` the calls other than settlement and acceptance are single steps, which wait for
  rows held by open transactions. `StaleCancel`, `StaleDeposit` and `StaleWithdrawal` take the calls without a row
  lock apart one at a time, with whole calls in between; `CallPlans` takes the locking of bets apart. The database
  breaks a deadlock by aborting one of the transactions, which `CallPlans` does not follow further.
- CallPlans.CallsDeadlockIff: has no plan for confirming a result, which locks the match and then its matched
  bets; `LockPlans.CanDeadlockIff` is about any plans. Creating a bet and the funding calls lock at most one wallet and
  no row that another call locks before a wallet.
- `accept_bet` does not look at the match status, so a matched bet may exist on a confirmed match; voiding
  remains its way out, and no theorem claims otherwise.
- `credit_available`, `apply_balance_update`, `lock_funds`, `unlock_funds`, development seeding: no service
  calls them.
- Authentication, sessions, rate limiting, listing endpoints, schemas, checkout URLs and the frontend.
