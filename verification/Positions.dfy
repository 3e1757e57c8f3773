/** What each stored row means for each wallet, independently of the operations that wrote it. */
module Positions {
  import opened Wrappers
  import opened Tables

  /** Any row that can hold or have moved money. */
  datatype Row = NoRow | BetRow(bet: Bet) | DepositRow(deposit: Deposit) | WithdrawalRow(withdrawal: Withdrawal)

  predicate Party(bet: Bet, u: UserId) {
    u == bet.creator || bet.opponent == Some(u)
  }

  /** The part of `u`'s locked balance that stands behind the bet. */
  function HeldFor(bet: Bet, u: UserId): int {
    if bet.status == BetStatus.Open && u == bet.creator then bet.stake
    else if (bet.status == BetStatus.Matched || bet.status == BetStatus.PendingSettlement) && Party(bet, u) then
      bet.stake
    else 0
  }

  /** What a settled bet paid to `u`. */
  function PaidTo(bet: Bet, u: UserId): int {
    if bet.payout.None? || !Party(bet, u) then 0
    else if bet.settlement == Some(NoWinner) || bet.winner == Some(u) then bet.payout.value
    else 0
  }

  /** How the bet has moved `u`'s available balance so far. */
  function GainFor(bet: Bet, u: UserId): int {
    if bet.status == BetStatus.Settled then (if Party(bet, u) then PaidTo(bet, u) - bet.stake else 0)
    else -HeldFor(bet, u)
  }

  function BetPosition(bet: Bet, u: UserId, field: Field): int {
    if field == Locked then HeldFor(bet, u) else GainFor(bet, u)
  }

  /** The platform's fee from the bet. */
  function FeeFrom(bet: Bet): int {
    if bet.status == BetStatus.Settled && bet.fee.Some? then bet.fee.value else 0
  }

  predicate OnHold(w: Withdrawal) {
    w.status.Pending? || w.status.Approved? || w.status.Processing?
  }

  function WithdrawalPosition(w: Withdrawal, u: UserId, field: Field): int {
    if u != w.user then 0
    else if OnHold(w) then (if field == Locked then w.amount else -w.amount)
    else if w.status.Completed? && field == Available then -w.amount
    else 0
  }

  function PaidOut(w: Withdrawal): int {
    if w.status.Completed? then w.amount else 0
  }

  function PaidIn(d: Deposit): int {
    if d.status.Completed? then d.amount else 0
  }

  function DepositPosition(d: Deposit, u: UserId, field: Field): int {
    if u == d.user && field == Available then PaidIn(d) else 0
  }

  function Position(row: Row, u: UserId, field: Field): int {
    match row
    case NoRow => 0
    case BetRow(bet) => BetPosition(bet, u, field)
    case DepositRow(d) => DepositPosition(d, u, field)
    case WithdrawalRow(w) => WithdrawalPosition(w, u, field)
  }

  function RowAt(db: Db, ref: Ref): Row {
    match ref
    case BetRef(id) => if id in db.bets then BetRow(db.bets[id]) else NoRow
    case DepositRef(id) => if id in db.deposits then DepositRow(db.deposits[id]) else NoRow
    case WithdrawalRef(id) => if id in db.withdrawals then WithdrawalRow(db.withdrawals[id]) else NoRow
  }

  /** Wallets after a row changed: every balance moves by the change of the row's position. */
  function Rebook(wallets: map<UserId, Wallet>, before: Row, after: Row): map<UserId, Wallet> {
    map u | u in wallets ::
      Wallet(wallets[u].available + Position(after, u, Available) - Position(before, u, Available),
             wallets[u].locked + Position(after, u, Locked) - Position(before, u, Locked))
  }

  /** The entries for `lines`, all with snapshots of the wallets after the operation. */
  function Post(wallets: map<UserId, Wallet>, lines: seq<Line>, kind: ReferenceType, ref: Ref): seq<LedgerEntry>
    requires forall l :: l in lines ==> l.user in wallets
  {
    seq(|lines|, i requires 0 <= i < |lines| =>
      var w := wallets[lines[i].user];
      LedgerEntry(lines[i], kind, ref, w.available, w.locked))
  }

  function PutRow(db: Db, ref: Ref, row: Row): Db
    requires match ref case BetRef(_) => row.BetRow? case DepositRef(_) => row.DepositRow?
             case WithdrawalRef(_) => row.WithdrawalRow?
  {
    match ref
    case BetRef(id) => db.(bets := db.bets[id := row.bet])
    case DepositRef(id) => db.(deposits := db.deposits[id := row.deposit])
    case WithdrawalRef(id) => db.(withdrawals := db.withdrawals[id := row.withdrawal])
  }

  /** The one money step of the model: a row is written, wallets follow it, entries record it. */
  function Book(db: Db, ref: Ref, row: Row, kind: ReferenceType, lines: seq<Line>): Db
    requires match ref case BetRef(_) => row.BetRow? case DepositRef(_) => row.DepositRow?
             case WithdrawalRef(_) => row.WithdrawalRow?
    requires forall l :: l in lines ==> l.user in db.wallets
  {
    var wallets := Rebook(db.wallets, RowAt(db, ref), row);
    PutRow(db, ref, row).(wallets := wallets, ledger := db.ledger + Post(wallets, lines, kind, ref))
  }
}
