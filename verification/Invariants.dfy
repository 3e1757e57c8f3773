/** What every reachable database satisfies. */
module Invariants {
  import opened Wrappers
  import opened Tables
  import opened Positions
  import opened Rules
  import opened Sums
  import Money

  // ---- The shape of single rows ---------------------------------------------------------

  /** The life cycle of a bet, as an automaton over its audit events. */
  datatype Phase = Unborn | At(status: BetStatus) | Broken

  function Advance(phase: Phase, event: BetEvent): Phase {
    match event
    case Created => if phase == Unborn then At(BetStatus.Open) else Broken
    case Matched => if phase == At(BetStatus.Open) then At(BetStatus.Matched) else Broken
    case PendingSettlement => if phase == At(BetStatus.Matched) then At(BetStatus.PendingSettlement) else Broken
    case Settled => if phase == At(BetStatus.PendingSettlement) then At(BetStatus.Settled) else Broken
    case Cancelled => if phase == At(BetStatus.Open) then At(BetStatus.Cancelled) else Broken
    case Voided =>
      if phase == At(BetStatus.Open) || phase == At(BetStatus.Matched) then At(BetStatus.Voided) else Broken
  }

  function Replay(events: seq<BetEvent>): Phase {
    if events == [] then Unborn else Advance(Replay(events[..|events| - 1]), events[|events| - 1])
  }

  predicate ParticipantsOk(db: Db, bet: Bet) {
    && bet.matchId in db.matches
    && bet.creator in db.wallets
    && Money.MIN_STAKE <= bet.stake <= Money.MAX_STAKE
    && (bet.opponent.Some? <==> bet.opponentPrediction.Some?)
    && (bet.opponent.Some? ==>
          && bet.opponent.value in db.wallets
          && bet.opponent.value != bet.creator
          && bet.opponentPrediction.value != bet.creatorPrediction)
    && (bet.status in {BetStatus.Open, BetStatus.Cancelled} ==> bet.opponent.None?)
    && (bet.status in {BetStatus.Matched, BetStatus.PendingSettlement, BetStatus.Settled} ==> bet.opponent.Some?)
  }

  /** The recorded settlement is the one the recorded rate and path dictate. */
  predicate ResultFieldsOk(bet: Bet) {
    if bet.status == BetStatus.Settled then
      && bet.settlement.Some? && bet.payout.Some? && bet.fee.Some?
      && bet.settlement != Some(SettlementOutcome.Voided)
      && bet.winner == WinnerOf(bet, bet.settlement.value)
      && (if bet.settlement == Some(NoWinner) then
            && bet.noWinnerRate.Some? && bet.winnerRate.None?
            && 0 <= bet.noWinnerRate.value <= Money.RATE_SCALE
            && var split := Money.NoWinnerAmounts(bet.stake, bet.noWinnerRate.value);
               bet.payout == Some(split.paid) && bet.fee == Some(2 * split.fee)
          else
            && bet.winnerRate.Some? && bet.noWinnerRate.None?
            && 0 <= bet.winnerRate.value <= Money.RATE_SCALE
            && var split := Money.WinnerAmounts(bet.stake, bet.winnerRate.value);
               bet.payout == Some(split.paid) && bet.fee == Some(split.fee) && 0 < split.paid)
    else
      && bet.payout.None? && bet.fee.None? && bet.winner.None? && bet.winnerRate.None? && bet.noWinnerRate.None?
      && bet.settlement == if bet.status == BetStatus.Voided then Some(SettlementOutcome.Voided) else None
  }

  /** A queued or settled bet rests on a confirmed result, and a settled one agrees with it. */
  predicate VerdictOk(db: Db, bet: Bet) {
    bet.status in {BetStatus.PendingSettlement, BetStatus.Settled} ==>
      && bet.matchId in db.matches
      && bet.opponentPrediction.Some?
      && var m := db.matches[bet.matchId];
         && m.confirmedAt.Some? && m.outcome.Some? && m.status.Completed?
         && (bet.status == BetStatus.Settled ==>
               bet.settlement
               == Some(DeterminePath(m.outcome.value, bet.creatorPrediction, bet.opponentPrediction.value)))
  }

  predicate BetsOk(db: Db) {
    forall b :: b in db.bets ==> ParticipantsOk(db, db.bets[b]) && ResultFieldsOk(db.bets[b])
  }

  predicate VerdictsOk(db: Db) {
    forall b :: b in db.bets ==> VerdictOk(db, db.bets[b])
  }

  predicate Audited(db: Db) {
    forall b :: b in db.bets ==> Replay(db.bets[b].events) == At(db.bets[b].status)
  }

  predicate ConfirmedOk(db: Db) {
    forall m :: m in db.matches && db.matches[m].confirmedAt.Some? ==>
      db.matches[m].outcome.Some? && db.matches[m].status.Completed?
  }

  predicate RequestsOk(db: Db) {
    && (forall d :: d in db.deposits ==> db.deposits[d].user in db.wallets && 0 < db.deposits[d].amount)
    && (forall w :: w in db.withdrawals ==> db.withdrawals[w].user in db.wallets && 0 < db.withdrawals[w].amount)
    && (forall d, e :: d in db.deposits && e in db.deposits && d != e && db.deposits[d].reference.Some?
          ==> db.deposits[d].reference != db.deposits[e].reference)
    && (forall d, e :: d in db.deposits && e in db.deposits && d != e && db.deposits[d].clientReference.Some?
          ==> db.deposits[d].clientReference != db.deposits[e].clientReference)
  }

  predicate RatesOk(db: Db) {
    forall i :: 0 <= i < |db.fees| ==> 0 <= db.fees[i].rate <= Money.RATE_SCALE
  }

  // ---- Balances against rows and ledger -------------------------------------------------

  function BalanceOf(db: Db, u: UserId, f: Field): int {
    if u in db.wallets then db.wallets[u].Balance(f) else 0
  }

  function BetAt(u: UserId, f: Field): Bet -> int {
    (bet: Bet) => BetPosition(bet, u, f)
  }

  function DepositAt(u: UserId, f: Field): Deposit -> int {
    (d: Deposit) => DepositPosition(d, u, f)
  }

  function WithdrawalAt(u: UserId, f: Field): Withdrawal -> int {
    (w: Withdrawal) => WithdrawalPosition(w, u, f)
  }

  ghost function RowsTotal(db: Db, u: UserId, f: Field): int {
    Sum(db.bets, BetAt(u, f)) + Sum(db.deposits, DepositAt(u, f)) + Sum(db.withdrawals, WithdrawalAt(u, f))
  }

  /** The balance sheet: both balances of every wallet are the sum of what the rows mean for it. */
  ghost predicate Sheet(db: Db) {
    forall u, f :: RowsTotal(db, u, f) == BalanceOf(db, u, f)
  }

  predicate Solvent(db: Db) {
    forall u :: u in db.wallets ==> 0 <= db.wallets[u].available && 0 <= db.wallets[u].locked
  }

  function OfUser(u: UserId, f: Field): LedgerEntry -> int {
    (e: LedgerEntry) => if e.line.user == u && e.line.field == f then e.line.Signed() else 0
  }

  function OfRef(r: Ref, u: UserId, f: Field): LedgerEntry -> int {
    (e: LedgerEntry) => if e.ref == r && e.line.user == u && e.line.field == f then e.line.Signed() else 0
  }

  /** Folding a user's signed entries from zero gives both balances. */
  ghost predicate Replayed(db: Db) {
    forall u, f :: Total(db.ledger, OfUser(u, f)) == BalanceOf(db, u, f)
  }

  /** The entries that refer to one record add up to what that record means for each user. */
  ghost predicate Itemised(db: Db) {
    forall r, u, f :: Total(db.ledger, OfRef(r, u, f)) == Position(RowAt(db, r), u, f)
  }

  function CreditsOf(d: DepositId): LedgerEntry -> int {
    (e: LedgerEntry) => if e.line.kind.DepositCredit? && e.ref == DepositRef(d) then 1 else 0
  }

  predicate DepositDone(db: Db, d: DepositId) {
    d in db.deposits && db.deposits[d].status.Completed?
  }

  /** Deposit credits and completed deposits are in bijection. */
  ghost predicate CreditedOnce(db: Db) {
    forall d :: Total(db.ledger, CreditsOf(d)) == if DepositDone(db, d) then 1 else 0
  }

  // ---- Wealth and the platform ----------------------------------------------------------

  function Worth(): Wallet -> int {
    (w: Wallet) => w.available + w.locked
  }

  function PaidInAt(): Deposit -> int {
    (d: Deposit) => PaidIn(d)
  }

  function PaidOutAt(): Withdrawal -> int {
    (w: Withdrawal) => PaidOut(w)
  }

  function FeeAt(): Bet -> int {
    (bet: Bet) => FeeFrom(bet)
  }

  /** All wallets together hold what was paid in, less what was paid out and what was charged. */
  ghost predicate Wealth(db: Db) {
    Sum(db.wallets, Worth()) == Sum(db.deposits, PaidInAt()) - Sum(db.withdrawals, PaidOutAt()) - Sum(db.bets, FeeAt())
  }

  function PlatformBalance(db: Db): int {
    if db.platform.Some? then db.platform.value else 0
  }

  function AmountAt(): PlatformEntry -> int {
    (e: PlatformEntry) => e.amount
  }

  function CountFor(b: BetId): PlatformEntry -> int {
    (e: PlatformEntry) => if e.bet == b then 1 else 0
  }

  function AmountFor(b: BetId): PlatformEntry -> int {
    (e: PlatformEntry) => if e.bet == b then e.amount else 0
  }

  predicate IsSettled(db: Db, b: BetId) {
    b in db.bets && db.bets[b].status == BetStatus.Settled
  }

  /** The platform balance is the sum of its ledger and of the fees of all settled bets. */
  ghost predicate PlatformSums(db: Db) {
    && (db.platform.None? ==> db.platformLedger == [])
    && PlatformBalance(db) == Total(db.platformLedger, AmountAt())
    && PlatformBalance(db) == Sum(db.bets, FeeAt())
  }

  /** Each snapshot is the sum up to and including its entry. */
  ghost predicate PlatformPrefixes(db: Db) {
    forall i :: 0 <= i < |db.platformLedger| ==>
      db.platformLedger[i].balanceAfter == Total(db.platformLedger[..i + 1], AmountAt())
  }

  /** A settled bet has exactly one entry, of its fee; any other bet has none. */
  ghost predicate PlatformItem(db: Db, b: BetId) {
    && Total(db.platformLedger, CountFor(b)) == (if IsSettled(db, b) then 1 else 0)
    && Total(db.platformLedger, AmountFor(b)) == (if b in db.bets then FeeFrom(db.bets[b]) else 0)
  }

  ghost predicate PlatformItems(db: Db) {
    forall b :: PlatformItem(db, b)
  }

  ghost predicate RowsInv(db: Db) {
    BetsOk(db) && VerdictsOk(db) && Audited(db) && ConfirmedOk(db) && RequestsOk(db) && RatesOk(db)
  }

  ghost predicate MoneyInv(db: Db) {
    Sheet(db) && Solvent(db) && Replayed(db) && Itemised(db) && CreditedOnce(db) && Wealth(db)
  }

  ghost predicate PlatformInv(db: Db) {
    PlatformSums(db) && PlatformPrefixes(db) && PlatformItems(db)
  }

  /** The invariant, stated part by part; a proof names the part it uses. */
  datatype Part = RowsPart | MoneyPart | PlatformPart

  ghost predicate Holds(db: Db, part: Part) {
    match part
    case RowsPart => RowsInv(db)
    case MoneyPart => MoneyInv(db)
    case PlatformPart => PlatformInv(db)
  }

  ghost predicate Inv(db: Db) {
    forall part :: Holds(db, part)
  }

  lemma InvRows(db: Db)
    requires Inv(db)
    ensures RowsInv(db)
  {
    assert Holds(db, RowsPart);
  }

  lemma InvMoney(db: Db)
    requires Inv(db)
    ensures MoneyInv(db)
  {
    assert Holds(db, MoneyPart);
  }

  lemma InvPlatform(db: Db)
    requires Inv(db)
    ensures PlatformInv(db)
  {
    assert Holds(db, PlatformPart);
  }

  lemma InvSolvent(db: Db)
    requires Inv(db)
    ensures Solvent(db)
  {
    InvMoney(db);
  }

  lemma InvFromParts(db: Db)
    requires RowsInv(db) && MoneyInv(db) && PlatformInv(db)
    ensures Inv(db)
  {
  }
}
