/** The rows the services read and write, and the database that holds them. */
module Tables {
  import opened Wrappers

  type UserId = nat
  type BetId = nat
  type DepositId = nat
  type WithdrawalId = nat
  /** A match is named by its provider's external id, which is unique. */
  type MatchId = string

  datatype Outcome = HomeWin | AwayWin | Draw

  datatype MatchStatus = Scheduled | Live | Completed | Postponed | Cancelled | Abandoned

  datatype Match = Match(
    provider: Option<string>, homeTeam: string, awayTeam: string, competition: string,
    kickoff: int, status: MatchStatus,
    homeScore: Option<int>, awayScore: Option<int>, outcome: Option<Outcome>,
    confirmedAt: Option<int>, lastSynced: Option<int>)

  datatype BetStatus = Open | Matched | PendingSettlement | Settled | Cancelled | Voided

  datatype SettlementOutcome = CreatorWins | OpponentWins | NoWinner | Voided

  datatype BetEvent = Created | Matched | PendingSettlement | Settled | Cancelled | Voided

  datatype Bet = Bet(
    matchId: MatchId, creator: UserId, creatorPrediction: Outcome,
    opponent: Option<UserId>, opponentPrediction: Option<Outcome>,
    stake: int, expiresAt: int, status: BetStatus,
    settlement: Option<SettlementOutcome>, winner: Option<UserId>,
    payout: Option<int>, fee: Option<int>,
    winnerRate: Option<int>, noWinnerRate: Option<int>,
    events: seq<BetEvent>)

  datatype DepositStatus = Pending | Processing | Completed | Failed | Cancelled

  /** `reference` is the provider's, `clientReference` the user's own key; each is unique where present. */
  datatype Deposit = Deposit(
    user: UserId, amount: int, status: DepositStatus, reference: Option<string>, clientReference: Option<string>)

  datatype WithdrawalStatus = Pending | Approved | Processing | Completed | Failed | Rejected

  datatype Withdrawal = Withdrawal(user: UserId, amount: int, status: WithdrawalStatus)

  datatype Field = Available | Locked

  datatype Wallet = Wallet(available: int, locked: int) {
    function Balance(field: Field): int {
      if field == Available then available else locked
    }
  }

  datatype EntryType =
    | StakeLock | StakeUnlock | VoidRefund
    | SettlementDeduct | PayoutCredit | RefundCredit | FeeDeduct
    | DepositCredit | WithdrawalDebit | WithdrawalHold | WithdrawalRelease

  datatype Direction = Credit | Debit

  datatype ReferenceType = BetReference | SettlementReference | VoidReference | CancellationReference
                         | DepositReference | WithdrawalReference

  /** The source record an entry refers to. */
  datatype Ref = BetRef(bet: BetId) | DepositRef(deposit: DepositId) | WithdrawalRef(withdrawal: WithdrawalId)

  /** An entry before it is written: what moves, for whom, and why. */
  datatype Line = Line(user: UserId, kind: EntryType, field: Field, direction: Direction, amount: int) {
    function Signed(): int {
      if direction == Credit then amount else -amount
    }
  }

  /** A written entry; both snapshots are taken after the whole operation. */
  datatype LedgerEntry = LedgerEntry(
    line: Line, referenceType: ReferenceType, ref: Ref, availableAfter: int, lockedAfter: int)

  datatype PlatformEntryType = FeeCollection | FeeCollectionNoWinner

  datatype SettlementPath = WinnerPath | NoWinnerPath

  datatype PlatformEntry = PlatformEntry(
    kind: PlatformEntryType, amount: int, bet: BetId, balanceAfter: int, path: SettlementPath)

  datatype FeeType = WinnerFee | NoWinnerFee

  datatype FeeRow = FeeRow(feeType: FeeType, rate: int, effectiveFrom: int)

  datatype Db = Db(
    wallets: map<UserId, Wallet>,
    bets: map<BetId, Bet>,
    deposits: map<DepositId, Deposit>,
    withdrawals: map<WithdrawalId, Withdrawal>,
    matches: map<MatchId, Match>,
    fees: seq<FeeRow>,
    ledger: seq<LedgerEntry>,
    platform: Option<int>,
    platformLedger: seq<PlatformEntry>)

  const EMPTY := Db(map[], map[], map[], map[], map[], [], [], None, [])
}
