/** The groups of ledger lines each money operation writes, in writing order. */
module LedgerLines {
  import opened Tables

  function StakeLock(u: UserId, amount: int): seq<Line> {
    [Line(u, EntryType.StakeLock, Available, Debit, amount), Line(u, EntryType.StakeLock, Locked, Credit, amount)]
  }

  function StakeUnlock(u: UserId, amount: int): seq<Line> {
    [Line(u, EntryType.StakeUnlock, Locked, Debit, amount), Line(u, EntryType.StakeUnlock, Available, Credit, amount)]
  }

  function VoidRefund(u: UserId, amount: int): seq<Line> {
    [Line(u, EntryType.VoidRefund, Locked, Debit, amount), Line(u, EntryType.VoidRefund, Available, Credit, amount)]
  }

  function WinnerSettlement(winner: UserId, loser: UserId, stake: int, payout: int): seq<Line> {
    [Line(winner, SettlementDeduct, Locked, Debit, stake),
     Line(loser, SettlementDeduct, Locked, Debit, stake),
     Line(winner, PayoutCredit, Available, Credit, payout)]
  }

  function NoWinnerShare(u: UserId, fee: int, refund: int): seq<Line> {
    [Line(u, FeeDeduct, Locked, Debit, fee),
     Line(u, SettlementDeduct, Locked, Debit, refund),
     Line(u, RefundCredit, Available, Credit, refund)]
  }

  function NoWinnerSettlement(creator: UserId, opponent: UserId, fee: int, refund: int): seq<Line> {
    NoWinnerShare(creator, fee, refund) + NoWinnerShare(opponent, fee, refund)
  }

  function DepositCredit(u: UserId, amount: int): seq<Line> {
    [Line(u, EntryType.DepositCredit, Available, Credit, amount)]
  }

  function WithdrawalHold(u: UserId, amount: int): seq<Line> {
    [Line(u, EntryType.WithdrawalHold, Available, Debit, amount),
     Line(u, EntryType.WithdrawalHold, Locked, Credit, amount)]
  }

  function WithdrawalRelease(u: UserId, amount: int): seq<Line> {
    [Line(u, EntryType.WithdrawalRelease, Locked, Debit, amount),
     Line(u, EntryType.WithdrawalRelease, Available, Credit, amount)]
  }

  function WithdrawalDebit(u: UserId, amount: int): seq<Line> {
    [Line(u, EntryType.WithdrawalDebit, Locked, Debit, amount)]
  }
}
