/** Writes the entry groups, one entry after the other, with snapshots of the updated wallets. */
module LedgerService {
  import opened Tables
  import opened Positions
  import opened Sessions
  import Lines = LedgerLines

  /** The wallet handed over is the updated one. */
  predicate Current(s: Session, u: UserId, w: Wallet)
    reads s
  {
    u in s.wallets && s.wallets[u] == w
  }

  method WriteStakeLock(s: Session, u: UserId, w: Wallet, amount: int, bet: BetId)
    requires Current(s, u, w)
    modifies s
    ensures s.State() == old(s.State()).(ledger :=
      old(s.ledger) + Post(old(s.wallets), Lines.StakeLock(u, amount), BetReference, Ref.BetRef(bet)))
  {
    s.CreateEntry(Line(u, EntryType.StakeLock, Available, Debit, amount), BetReference, Ref.BetRef(bet), w);
    s.CreateEntry(Line(u, EntryType.StakeLock, Locked, Credit, amount), BetReference, Ref.BetRef(bet), w);
  }

  method WriteStakeUnlock(s: Session, u: UserId, w: Wallet, amount: int, bet: BetId)
    requires Current(s, u, w)
    modifies s
    ensures s.State() == old(s.State()).(ledger :=
      old(s.ledger) + Post(old(s.wallets), Lines.StakeUnlock(u, amount), CancellationReference, Ref.BetRef(bet)))
  {
    s.CreateEntry(Line(u, EntryType.StakeUnlock, Locked, Debit, amount), CancellationReference, Ref.BetRef(bet), w);
    s.CreateEntry(Line(u, EntryType.StakeUnlock, Available, Credit, amount), CancellationReference, Ref.BetRef(bet), w);
  }

  method WriteVoidRefund(s: Session, u: UserId, w: Wallet, amount: int, bet: BetId)
    requires Current(s, u, w)
    modifies s
    ensures s.State() == old(s.State()).(ledger :=
      old(s.ledger) + Post(old(s.wallets), Lines.VoidRefund(u, amount), VoidReference, Ref.BetRef(bet)))
  {
    s.CreateEntry(Line(u, EntryType.VoidRefund, Locked, Debit, amount), VoidReference, Ref.BetRef(bet), w);
    s.CreateEntry(Line(u, EntryType.VoidRefund, Available, Credit, amount), VoidReference, Ref.BetRef(bet), w);
  }

  method WriteSettlementWinner(s: Session, winner: UserId, winnerWallet: Wallet, loser: UserId, loserWallet: Wallet,
                               stake: int, payout: int, bet: BetId)
    requires Current(s, winner, winnerWallet) && Current(s, loser, loserWallet)
    modifies s
    ensures s.State() == old(s.State()).(ledger :=
      old(s.ledger)
      + Post(old(s.wallets), Lines.WinnerSettlement(winner, loser, stake, payout),
             SettlementReference, Ref.BetRef(bet)))
  {
    var ref := Ref.BetRef(bet);
    s.CreateEntry(Line(winner, SettlementDeduct, Locked, Debit, stake), SettlementReference, ref, winnerWallet);
    s.CreateEntry(Line(loser, SettlementDeduct, Locked, Debit, stake), SettlementReference, ref, loserWallet);
    s.CreateEntry(Line(winner, PayoutCredit, Available, Credit, payout), SettlementReference, ref, winnerWallet);
  }

  /** The share of one participant. */
  method WriteNoWinnerShare(s: Session, u: UserId, w: Wallet, fee: int, refund: int, bet: BetId)
    requires Current(s, u, w)
    modifies s
    ensures s.State() == old(s.State()).(ledger :=
      old(s.ledger) + Post(old(s.wallets), Lines.NoWinnerShare(u, fee, refund), SettlementReference, Ref.BetRef(bet)))
  {
    s.CreateEntry(Line(u, FeeDeduct, Locked, Debit, fee), SettlementReference, Ref.BetRef(bet), w);
    s.CreateEntry(Line(u, SettlementDeduct, Locked, Debit, refund), SettlementReference, Ref.BetRef(bet), w);
    s.CreateEntry(Line(u, RefundCredit, Available, Credit, refund), SettlementReference, Ref.BetRef(bet), w);
  }

  /** The shares of the first `n` users. */
  function Shares(users: seq<UserId>, n: nat, fee: int, refund: int): seq<Line>
    requires n <= |users|
  {
    if n == 0 then [] else Shares(users, n - 1, fee, refund) + Lines.NoWinnerShare(users[n - 1], fee, refund)
  }

  lemma {:induction false} SharesUsers(users: seq<UserId>, n: nat, fee: int, refund: int)
    requires n <= |users|
    ensures forall l :: l in Shares(users, n, fee, refund) ==> l.user in users
  {
    if n > 0 {
      SharesUsers(users, n - 1, fee, refund);
    }
  }

  lemma PostConcat(wallets: map<UserId, Wallet>, first: seq<Line>, second: seq<Line>, kind: ReferenceType, ref: Ref)
    requires forall l :: l in first + second ==> l.user in wallets
    requires forall l :: l in first || l in second ==> l.user in wallets
    ensures Post(wallets, first + second, kind, ref)
            == Post(wallets, first, kind, ref) + Post(wallets, second, kind, ref)
  {
  }

  /** The loop takes the creator first, then the opponent. */
  method WriteSettlementNoWinner(s: Session, creator: UserId, opponent: UserId, fee: int, refund: int, bet: BetId)
    requires creator in s.wallets && opponent in s.wallets
    modifies s
    ensures s.State() == old(s.State()).(ledger :=
      old(s.ledger)
      + Post(old(s.wallets), Lines.NoWinnerSettlement(creator, opponent, fee, refund),
             SettlementReference, Ref.BetRef(bet)))
  {
    var users := [creator, opponent];
    ghost var ref := Ref.BetRef(bet);
    for i := 0 to 2
      invariant forall l :: l in Shares(users, i, fee, refund) ==> l.user in old(s.wallets)
      invariant s.State() == old(s.State()).(ledger :=
        old(s.ledger) + Post(old(s.wallets), Shares(users, i, fee, refund), SettlementReference, ref))
    {
      WriteNoWinnerShare(s, users[i], s.wallets[users[i]], fee, refund, bet);
      PostConcat(old(s.wallets), Shares(users, i, fee, refund), Lines.NoWinnerShare(users[i], fee, refund),
                 SettlementReference, ref);
    }
    assert Shares(users, 2, fee, refund) == Lines.NoWinnerSettlement(creator, opponent, fee, refund);
  }

  method WriteDepositCredit(s: Session, u: UserId, w: Wallet, amount: int, deposit: DepositId)
    requires Current(s, u, w)
    modifies s
    ensures s.State() == old(s.State()).(ledger :=
      old(s.ledger) + Post(old(s.wallets), Lines.DepositCredit(u, amount), DepositReference, Ref.DepositRef(deposit)))
  {
    s.CreateEntry(Line(u, EntryType.DepositCredit, Available, Credit, amount), DepositReference,
                  Ref.DepositRef(deposit), w);
  }

  method WriteWithdrawalHold(s: Session, u: UserId, w: Wallet, amount: int, withdrawal: WithdrawalId)
    requires Current(s, u, w)
    modifies s
    ensures s.State() == old(s.State()).(ledger :=
      old(s.ledger)
      + Post(old(s.wallets), Lines.WithdrawalHold(u, amount), WithdrawalReference, Ref.WithdrawalRef(withdrawal)))
  {
    var ref := Ref.WithdrawalRef(withdrawal);
    s.CreateEntry(Line(u, EntryType.WithdrawalHold, Available, Debit, amount), WithdrawalReference, ref, w);
    s.CreateEntry(Line(u, EntryType.WithdrawalHold, Locked, Credit, amount), WithdrawalReference, ref, w);
  }

  method WriteWithdrawalRelease(s: Session, u: UserId, w: Wallet, amount: int, withdrawal: WithdrawalId)
    requires Current(s, u, w)
    modifies s
    ensures s.State() == old(s.State()).(ledger :=
      old(s.ledger)
      + Post(old(s.wallets), Lines.WithdrawalRelease(u, amount), WithdrawalReference, Ref.WithdrawalRef(withdrawal)))
  {
    var ref := Ref.WithdrawalRef(withdrawal);
    s.CreateEntry(Line(u, EntryType.WithdrawalRelease, Locked, Debit, amount), WithdrawalReference, ref, w);
    s.CreateEntry(Line(u, EntryType.WithdrawalRelease, Available, Credit, amount), WithdrawalReference, ref, w);
  }

  method WriteWithdrawalDebit(s: Session, u: UserId, w: Wallet, amount: int, withdrawal: WithdrawalId)
    requires Current(s, u, w)
    modifies s
    ensures s.State() == old(s.State()).(ledger :=
      old(s.ledger)
      + Post(old(s.wallets), Lines.WithdrawalDebit(u, amount), WithdrawalReference, Ref.WithdrawalRef(withdrawal)))
  {
    s.CreateEntry(Line(u, EntryType.WithdrawalDebit, Locked, Debit, amount), WithdrawalReference,
                  Ref.WithdrawalRef(withdrawal), w);
  }
}
