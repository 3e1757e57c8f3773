/** A database created from the SQL schemas also enforces their CHECK constraints.  This module installs
    the constraints on bets and on both ledgers and proves exactly which calls they refuse. */
module SchemaChecks {
  import opened Wrappers
  import opened Tables
  import opened Positions
  import opened Rules
  import opened Invariants
  import opened Runs
  import opened Theorems
  import Money
  import BetProofs
  import MatchProofs
  import Sums

  // ---- The constraints ------------------------------------------------------------------

  /** The participant, settlement and rate constraints of a bet row. */
  predicate BetChecks(bet: Bet) {
    && 0 < bet.stake && bet.opponent != Some(bet.creator)
    && bet.opponentPrediction != Some(bet.creatorPrediction)
    && (bet.opponent.Some? <==> bet.opponentPrediction.Some?)
    && (bet.winner.Some? ==> bet.opponent.Some? && Party(bet, bet.winner.value))
    && (bet.status == BetStatus.Settled ==> bet.settlement.Some?)
    && RateChecks(bet.winnerRate) && RateChecks(bet.noWinnerRate)
    && OutcomeChecks(bet)
  }

  predicate RateChecks(rate: Option<int>) {
    rate.Some? ==> 0 < rate.value < Money.RATE_SCALE
  }

  /** Winner, payout and fee as the recorded outcome demands. */
  predicate OutcomeChecks(bet: Bet) {
    match bet.settlement
    case None => true
    case Some(CreatorWins) => bet.winner == Some(bet.creator) && Positive(bet.payout) && Positive(bet.fee)
    case Some(OpponentWins) =>
      bet.winner.Some? && bet.winner == bet.opponent && Positive(bet.payout) && Positive(bet.fee)
    case Some(NoWinner) => bet.winner.None? && bet.payout.None? && Positive(bet.fee)
    case Some(Voided) => bet.winner.None? && bet.payout.None? && bet.fee.None?
  }

  predicate Positive(amount: Option<int>) {
    amount.Some? && 0 < amount.value
  }

  predicate EntryChecks(e: LedgerEntry) {
    0 < e.line.amount && 0 <= e.availableAfter && 0 <= e.lockedAfter
  }

  predicate FeeEntryChecks(e: PlatformEntry) {
    0 < e.amount && 0 <= e.balanceAfter
  }

  predicate BetsAdmitted(db: Db, after: Db) {
    forall b :: b in after.bets ==> (b in db.bets && after.bets[b] == db.bets[b]) || BetChecks(after.bets[b])
  }

  predicate EntriesAdmitted(db: Db, after: Db) {
    forall i :: |db.ledger| <= i < |after.ledger| ==> EntryChecks(after.ledger[i])
  }

  predicate FeesAdmitted(db: Db, after: Db) {
    forall i :: |db.platformLedger| <= i < |after.platformLedger| ==> FeeEntryChecks(after.platformLedger[i])
  }

  /** Every row that `after` adds or changes meets the constraints. */
  predicate Admits(db: Db, after: Db) {
    BetsAdmitted(db, after) && EntriesAdmitted(db, after) && FeesAdmitted(db, after)
  }

  /** A call with the constraints installed. */
  function CheckedStep(db: Db, op: Op): Result<Db> {
    match Step(db, op)
    case Err(e) => Err(e)
    case Ok(after) => if Admits(db, after) then Ok(after) else Err(Integrity)
  }

  function CheckedAfter(db: Db, op: Op): Db {
    Keep(db, CheckedStep(db, op))
  }

  function CheckedRun(db: Db, ops: seq<Op>): Db {
    if ops == [] then db else CheckedAfter(CheckedRun(db, ops[..|ops| - 1]), ops[|ops| - 1])
  }

  // ---- Rows the invariant already makes admissible --------------------------------------

  /** A bet that is not settled always meets the constraints, a voided one included. */
  lemma UnsettledMeets(db: Db, bet: Bet)
    requires ParticipantsOk(db, bet) && ResultFieldsOk(bet) && bet.status != BetStatus.Settled
    ensures BetChecks(bet)
  {
  }

  /** A settled bet meets them if and only if somebody won and the fee is positive. */
  lemma SettledMeetsIff(db: Db, bet: Bet)
    requires ParticipantsOk(db, bet) && ResultFieldsOk(bet) && bet.status == BetStatus.Settled
    ensures BetChecks(bet) <==> bet.settlement != Some(NoWinner) && 0 < FeeFrom(bet)
  {
    if bet.settlement != Some(NoWinner) {
      EdgeRates(bet.stake, bet.winnerRate.value);
    }
  }

  /** No fee is charged at rate zero, and no payout is left at rate one. */
  lemma EdgeRates(stake: int, rate: int)
    requires 0 <= stake && 0 <= rate <= Money.RATE_SCALE
    ensures rate == 0 ==> Money.WinnerAmounts(stake, rate).fee == 0
    ensures rate == Money.RATE_SCALE ==> Money.WinnerAmounts(stake, rate).paid == 0
  {
    Money.ExactSplit(stake, rate);
  }

  // ---- Settlement -----------------------------------------------------------------------

  /** Somebody predicted the result and the winner fee of the pool comes to half a cent or more. */
  predicate Chargeable(db: Db, b: BetId, now: int) {
    && b in db.bets && db.bets[b].matchId in db.matches && db.bets[b].opponentPrediction.Some?
    && db.matches[db.bets[b].matchId].outcome.Some?
    && ActiveRow(db.fees, WinnerFee, now).Some?
    && PathOf(db, db.bets[b]) != NoWinner
    && 2 * db.bets[b].stake * ActiveRow(db.fees, WinnerFee, now).value.rate >= 5000
  }

  /** The fee of a won bet is positive exactly when it is half a cent or more before rounding. */
  lemma FeePositiveIff(stake: int, rate: int)
    requires 0 <= stake && 0 <= rate <= Money.RATE_SCALE
    ensures 0 < Money.WinnerAmounts(stake, rate).fee <==> 2 * stake * rate >= 5000
  {
    Money.ExactSplit(stake, rate);
  }

  /** The row, the path and the fee that a successful settlement writes, in terms of what it found. */
  lemma SettlementWrites(db: Db, b: BetId, now: int)
    requires Inv(db) && SettleBet(db, b, now).Ok?
    ensures b in db.bets && db.bets[b].matchId in db.matches && db.matches[db.bets[b].matchId].outcome.Some?
    ensures db.bets[b].opponent.Some? && db.bets[b].opponentPrediction.Some?
    ensures db.bets[b].status == BetStatus.PendingSettlement && ActiveRow(db.fees, WinnerFee, now).Some?
    ensures var bet, after := db.bets[b], SettleBet(db, b, now).value;
            && after.bets == db.bets[b := after.bets[b]] && after.bets[b].status == BetStatus.Settled
            && after.bets[b].settlement == Some(PathOf(db, bet))
            && (PathOf(db, bet) != NoWinner ==>
                  FeeFrom(after.bets[b])
                  == Money.WinnerAmounts(bet.stake, ActiveRow(db.fees, WinnerFee, now).value.rate).fee)
  {
  }

  lemma FeesAreRates(db: Db, b: BetId, now: int)
    requires Inv(db) && SettleBet(db, b, now).Ok? && ActiveRow(db.fees, WinnerFee, now).Some?
    ensures b in db.bets && 0 <= db.bets[b].stake
    ensures 0 <= ActiveRow(db.fees, WinnerFee, now).value.rate <= Money.RATE_SCALE
  {
    BetProofs.InvBet(db, b);
    InvRows(db);
    BetProofs.VerdictIsGood(db, db.bets[b], now);
  }

  /** The row a settlement writes meets the constraints if and only if, before the call, the bet was
      chargeable. */
  lemma SettledRowMeetsChecksIff(db: Db, b: BetId, now: int)
    requires Inv(db) && SettleBet(db, b, now).Ok?
    ensures b in SettleBet(db, b, now).value.bets
    ensures BetChecks(SettleBet(db, b, now).value.bets[b]) <==> Chargeable(db, b, now)
  {
    var after := SettleBet(db, b, now).value;
    SettlementWrites(db, b, now);
    FeesAreRates(db, b, now);
    FeePositiveIff(db.bets[b].stake, ActiveRow(db.fees, WinnerFee, now).value.rate);
    BetProofs.SettleBetKeepsInv(db, b, now);
    BetProofs.InvBet(after, b);
    SettledMeetsIff(after, after.bets[b]);
  }

  // ---- Every other call -----------------------------------------------------------------

  /** The entries that `after` adds all move something. */
  predicate AmountsPositive(db: Db, after: Db) {
    forall i :: |db.ledger| <= i < |after.ledger| ==> 0 < after.ledger[i].line.amount
  }

  lemma StakesArePositive(db: Db, op: Op)
    requires op.OpCreateBet? || op.OpAcceptBet? || op.OpCancelBet? || op.OpVoidBet?
    requires forall b :: b in db.bets ==> 0 < db.bets[b].stake
    ensures AmountsPositive(db, After(db, op)) && After(db, op).platformLedger == db.platformLedger
  {
  }

  lemma WithdrawalsArePositive(db: Db, op: Op)
    requires op.OpCreateWithdrawal? || op.OpCompleteWithdrawal? || op.OpRejectWithdrawal? || op.OpFailWithdrawal?
             || op.OpApproveWithdrawal?
    ensures AmountsPositive(db, After(db, op)) && After(db, op).platformLedger == db.platformLedger
  {
  }

  lemma DepositsArePositive(db: Db, op: Op)
    requires op.OpCreateDeposit? || op.OpInitiatePayfast? || op.OpCompleteDeposit? || op.OpFailDeposit?
             || op.OpPayfastItn?
    ensures AmountsPositive(db, After(db, op)) && After(db, op).platformLedger == db.platformLedger
  {
  }

  lemma RestWritesNoEntry(db: Db, op: Op)
    requires op.OpOpenWallet? || op.OpOpenPlatform? || op.OpAddFee? || op.OpConfirm? || op.OpSync?
    ensures After(db, op).ledger == db.ledger && After(db, op).platformLedger == db.platformLedger
  {
  }

  lemma OtherCallsArePositive(db: Db, op: Op)
    requires Inv(db) && !op.OpSettleBet?
    ensures AmountsPositive(db, After(db, op)) && FeesAdmitted(db, After(db, op))
  {
    if op.OpCreateBet? || op.OpAcceptBet? || op.OpCancelBet? || op.OpVoidBet? {
      forall b | b in db.bets ensures 0 < db.bets[b].stake {
        BetProofs.InvBet(db, b);
      }
      StakesArePositive(db, op);
    } else if op.OpCreateWithdrawal? || op.OpCompleteWithdrawal? || op.OpRejectWithdrawal? || op.OpFailWithdrawal?
              || op.OpApproveWithdrawal? {
      WithdrawalsArePositive(db, op);
    } else if op.OpOpenWallet? || op.OpOpenPlatform? || op.OpAddFee? || op.OpConfirm? || op.OpSync? {
      RestWritesNoEntry(db, op);
    } else {
      DepositsArePositive(db, op);
    }
  }

  /** Snapshots are balances, and no balance is ever negative. */
  lemma PositiveIsAdmitted(db: Db, op: Op, after: Db)
    requires Inv(db) && after == After(db, op) && AmountsPositive(db, after)
    ensures EntriesAdmitted(db, after)
  {
    StepKeepsInv(db, op);
    InvSolvent(after);
    StepAppends(db, op);
    forall i | |db.ledger| <= i < |after.ledger| ensures EntryChecks(after.ledger[i]) {
      assert Snapshot(after.ledger[i], after.wallets);
    }
  }

  /** Only settlement makes a bet a settled one. */
  lemma OthersSettleNothing(db: Db, op: Op, b: BetId)
    requires !op.OpSettleBet? && b in After(db, op).bets && After(db, op).bets[b].status == BetStatus.Settled
    ensures b in db.bets && After(db, op).bets[b] == db.bets[b]
  {
    if !MovesBets(op) {
      BetsKept(db, op);
    }
  }

  lemma OtherBetsAdmitted(db: Db, op: Op, after: Db)
    requires Inv(db) && !op.OpSettleBet? && after == After(db, op)
    ensures BetsAdmitted(db, after)
  {
    StepKeepsInv(db, op);
    forall b | b in after.bets && !(b in db.bets && after.bets[b] == db.bets[b]) ensures BetChecks(after.bets[b]) {
      if after.bets[b].status == BetStatus.Settled {
        OthersSettleNothing(db, op, b);
      }
      BetProofs.InvBet(after, b);
      UnsettledMeets(after, after.bets[b]);
    }
  }

  // ---- The entries of a settlement ------------------------------------------------------

  lemma FeesAreNotNegative(db: Db)
    requires Inv(db)
    ensures 0 <= PlatformBalance(db)
  {
    InvPlatform(db);
    forall b | b in db.bets ensures 0 <= FeeFrom(db.bets[b]) {
      BetProofs.InvBet(db, b);
      FeeIsNotNegative(db, db.bets[b]);
    }
    Sums.SumZero(db.bets);
    Sums.SumAtMost(db.bets, Sums.Zero<Bet>(), FeeAt());
  }

  lemma FeeIsNotNegative(db: Db, bet: Bet)
    requires ParticipantsOk(db, bet) && ResultFieldsOk(bet)
    ensures 0 <= FeeFrom(bet)
  {
    if bet.status == BetStatus.Settled && bet.settlement == Some(NoWinner) {
      Money.ExactSplit(bet.stake, bet.noWinnerRate.value);
    } else if bet.status == BetStatus.Settled {
      Money.ExactSplit(bet.stake, bet.winnerRate.value);
    }
  }

  lemma SettlementEntries(db: Db, b: BetId, now: int)
    requires SettleBet(db, b, now).Ok? && 0 < db.bets[b].stake && db.bets[b].opponentPrediction.Some?
    requires db.bets[b].matchId in db.matches && db.matches[db.bets[b].matchId].outcome.Some?
    requires PathOf(db, db.bets[b]) != NoWinner && 0 <= PlatformBalance(db)
    ensures var after := SettleBet(db, b, now).value;
            && AmountsPositive(db, after)
            && (0 < FeeFrom(after.bets[b]) ==> FeesAdmitted(db, after))
  {
  }

  lemma ChargeableIsAdmitted(db: Db, b: BetId, now: int)
    requires Inv(db) && SettleBet(db, b, now).Ok? && Chargeable(db, b, now)
    ensures Admits(db, SettleBet(db, b, now).value)
  {
    var after := SettleBet(db, b, now).value;
    SettlementWrites(db, b, now);
    SettledRowMeetsChecksIff(db, b, now);
    BetProofs.InvBet(db, b);
    FeesAreNotNegative(db);
    FeesAreRates(db, b, now);
    FeePositiveIff(db.bets[b].stake, ActiveRow(db.fees, WinnerFee, now).value.rate);
    SettlementEntries(db, b, now);
    PositiveIsAdmitted(db, OpSettleBet(b, now), after);
  }

  // ---- Exactly what the constraints refuse ----------------------------------------------

  /** Installed, the constraints refuse no successful call but settlements, and of those exactly the ones
      of bets that are not chargeable before the call. */
  lemma ChecksBiteIff(db: Db, op: Op)
    requires Inv(db) && Step(db, op).Ok?
    ensures CheckedStep(db, op).Ok? <==> (op.OpSettleBet? ==> Chargeable(db, op.bet, op.now))
  {
    if op.OpSettleBet? {
      SettlementBiteIff(db, op.bet, op.now);
    } else {
      OtherCallsArePositive(db, op);
      PositiveIsAdmitted(db, op, After(db, op));
      OtherBetsAdmitted(db, op, After(db, op));
    }
  }

  lemma SettlementBiteIff(db: Db, b: BetId, now: int)
    requires Inv(db) && SettleBet(db, b, now).Ok?
    ensures Admits(db, SettleBet(db, b, now).value) <==> Chargeable(db, b, now)
  {
    if Chargeable(db, b, now) {
      ChargeableIsAdmitted(db, b, now);
    } else {
      SettlementWrites(db, b, now);
      SettledRowMeetsChecksIff(db, b, now);
    }
  }

  /** With the constraints a queued bet settles if and only if it is payable, somebody predicted the
      result, and the fee comes to at least a cent. */
  lemma SettleWithChecksIff(db: Db, b: BetId, now: int)
    requires Inv(db) && b in db.bets && db.bets[b].status == BetStatus.PendingSettlement
    ensures CheckedStep(db, OpSettleBet(b, now)).Ok? <==> Payable(db, b, now) && Chargeable(db, b, now)
  {
    SettleSucceedsIff(db, b, now);
    if SettleBet(db, b, now).Ok? {
      SettlementBiteIff(db, b, now);
    }
  }

  // ---- Bets without an exit -------------------------------------------------------------

  /** A queued bet whose confirmed result nobody predicted. */
  predicate Unclaimed(db: Db, b: BetId) {
    && b in db.bets && db.bets[b].status == BetStatus.PendingSettlement
    && db.bets[b].matchId in db.matches && db.bets[b].opponentPrediction.Some?
    && db.matches[db.bets[b].matchId].outcome.Some?
    && PathOf(db, db.bets[b]) == NoWinner
  }

  /** A settled row without a winner never meets the constraints. */
  lemma UnclaimedRowRefused(db: Db, bet: Bet)
    requires ResultFieldsOk(bet) && VerdictOk(db, bet) && bet.status == BetStatus.Settled
    requires bet.opponentPrediction.Some? && bet.matchId in db.matches && db.matches[bet.matchId].outcome.Some?
    requires PathOf(db, bet) == NoWinner
    ensures !BetChecks(bet)
  {
  }

  /** The result under a queued bet is frozen, so nobody will ever have predicted it. */
  lemma PathFrozen(db: Db, b: BetId, after: Db)
    requires Unclaimed(db, b) && VerdictOk(db, db.bets[b]) && db.bets[b].opponent.Some?
    requires MatchProofs.AllFrozen(db.matches, after.matches) && b in after.bets && Later(db.bets[b], after.bets[b])
    ensures after.bets[b].opponentPrediction.Some?
    ensures after.bets[b].matchId in after.matches && after.matches[after.bets[b].matchId].outcome.Some?
    ensures PathOf(after, after.bets[b]) == NoWinner
  {
  }

  /** What one call can do to a queued bet and its match. */
  lemma QueuedAfter(db: Db, op: Op, b: BetId, after: Db)
    requires Inv(db) && Unclaimed(db, b) && after == After(db, op)
    ensures VerdictOk(db, db.bets[b]) && db.bets[b].opponent.Some?
    ensures MatchProofs.AllFrozen(db.matches, after.matches) && b in after.bets && Later(db.bets[b], after.bets[b])
    ensures Underway(after, b)
  {
    assert ConfirmedOk(db) && BetsOk(db) && Audited(db) by {
      InvRows(db);
    }
    StepKeepsInv(db, op);
    assert Audited(after) by {
      InvRows(after);
    }
    BetProofs.InvBet(db, b);
    StepFreezes(db, op);
    StepAdvances(db, op);
    StaysUnderway(db, after, b);
  }

  lemma UnclaimedStays(db: Db, op: Op, b: BetId)
    requires Inv(db) && Unclaimed(db, b)
    ensures Inv(CheckedAfter(db, op)) && Unclaimed(CheckedAfter(db, op), b)
    ensures CheckedAfter(db, op).bets[b] == db.bets[b]
  {
    if CheckedStep(db, op).Ok? {
      var after := After(db, op);
      assert Admits(db, after) && CheckedAfter(db, op) == after;
      StepKeepsInv(db, op);
      QueuedAfter(db, op, b, after);
      PathFrozen(db, b, after);
      BetProofs.InvBet(after, b);
      if after.bets[b].status == BetStatus.Settled {
        UnclaimedRowRefused(after, after.bets[b]);
        assert false;
      }
    }
  }

  /** With the constraints such a bet has no exit: whatever calls follow, it stays queued and both stakes
      stay locked. */
  lemma {:induction false} UnclaimedForEver(db: Db, ops: seq<Op>, b: BetId)
    requires Inv(db) && Unclaimed(db, b)
    ensures var after := CheckedRun(db, ops);
            && Inv(after) && Unclaimed(after, b) && after.bets[b] == db.bets[b]
            && db.bets[b].creator in after.wallets && db.bets[b].opponent.Some?
            && db.bets[b].opponent.value in after.wallets
            && db.bets[b].stake <= after.wallets[db.bets[b].creator].locked
            && db.bets[b].stake <= after.wallets[db.bets[b].opponent.value].locked
  {
    if ops != [] {
      UnclaimedForEver(db, ops[..|ops| - 1], b);
      UnclaimedStays(CheckedRun(db, ops[..|ops| - 1]), ops[|ops| - 1], b);
    }
    QueuedIsJudged(CheckedRun(db, ops), b, 0);
  }
}
