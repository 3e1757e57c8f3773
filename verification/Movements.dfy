/** The declarative wallet movement of each operation, spelled out wallet by wallet. */
module Movements {
  import opened Wrappers
  import opened Tables
  import opened Positions
  import opened Rules

  /** Positions that change for at most `p` move one wallet. */
  lemma RebookOne(wallets: map<UserId, Wallet>, before: Row, after: Row, p: UserId, available: int, locked: int)
    requires p in wallets
    requires forall u, f :: u != p ==> Position(after, u, f) == Position(before, u, f)
    requires available == Position(after, p, Available) - Position(before, p, Available)
    requires locked == Position(after, p, Locked) - Position(before, p, Locked)
    ensures Rebook(wallets, before, after)
            == wallets[p := Wallet(wallets[p].available + available, wallets[p].locked + locked)]
  {
  }

  lemma RebookTwo(wallets: map<UserId, Wallet>, before: Row, after: Row, p: UserId, q: UserId,
                  pa: int, pl: int, qa: int, ql: int)
    requires p in wallets && q in wallets && p != q
    requires forall u, f :: u != p && u != q ==> Position(after, u, f) == Position(before, u, f)
    requires pa == Position(after, p, Available) - Position(before, p, Available)
    requires pl == Position(after, p, Locked) - Position(before, p, Locked)
    requires qa == Position(after, q, Available) - Position(before, q, Available)
    requires ql == Position(after, q, Locked) - Position(before, q, Locked)
    ensures Rebook(wallets, before, after)
            == wallets[p := Wallet(wallets[p].available + pa, wallets[p].locked + pl)]
                      [q := Wallet(wallets[q].available + qa, wallets[q].locked + ql)]
  {
  }

  lemma OpeningMoves(wallets: map<UserId, Wallet>, bet: Bet)
    requires bet.creator in wallets && bet.status == BetStatus.Open
    ensures Rebook(wallets, NoRow, BetRow(bet))
            == wallets[bet.creator := Wallet(wallets[bet.creator].available - bet.stake,
                                             wallets[bet.creator].locked + bet.stake)]
  {
    RebookOne(wallets, NoRow, BetRow(bet), bet.creator, -bet.stake, bet.stake);
  }

  lemma AcceptingMoves(wallets: map<UserId, Wallet>, bet: Bet, user: UserId, prediction: Outcome)
    requires user in wallets && user != bet.creator && bet.status == BetStatus.Open && bet.opponent.None?
    ensures Rebook(wallets, BetRow(bet), BetRow(MatchedBet(bet, user, prediction)))
            == wallets[user := Wallet(wallets[user].available - bet.stake, wallets[user].locked + bet.stake)]
  {
    RebookOne(wallets, BetRow(bet), BetRow(MatchedBet(bet, user, prediction)), user, -bet.stake, bet.stake);
  }

  lemma CancellingMoves(wallets: map<UserId, Wallet>, bet: Bet, next: Bet)
    requires bet.creator in wallets && bet.status == BetStatus.Open && bet.opponent.None?
    requires next == CancelledBet(bet) || next == VoidedBet(bet)
    ensures Rebook(wallets, BetRow(bet), BetRow(next))
            == wallets[bet.creator := Wallet(wallets[bet.creator].available + bet.stake,
                                             wallets[bet.creator].locked - bet.stake)]
  {
    RebookOne(wallets, BetRow(bet), BetRow(next), bet.creator, bet.stake, -bet.stake);
  }

  lemma VoidingMoves(wallets: map<UserId, Wallet>, bet: Bet)
    requires bet.status == BetStatus.Matched && bet.opponent.Some? && bet.opponent.value != bet.creator
    requires bet.creator in wallets && bet.opponent.value in wallets
    ensures var c, o := bet.creator, bet.opponent.value;
            Rebook(wallets, BetRow(bet), BetRow(VoidedBet(bet)))
            == wallets[c := Wallet(wallets[c].available + bet.stake, wallets[c].locked - bet.stake)]
                      [o := Wallet(wallets[o].available + bet.stake, wallets[o].locked - bet.stake)]
  {
    RebookTwo(wallets, BetRow(bet), BetRow(VoidedBet(bet)), bet.creator, bet.opponent.value,
              bet.stake, -bet.stake, bet.stake, -bet.stake);
  }

  /** What a settlement leaves in the wallet of one participant. */
  function SettledWallet(w: Wallet, bet: Bet, v: Verdict, u: UserId): Wallet {
    Wallet(w.available + PaidTo(SettledBet(bet, v), u), w.locked - bet.stake)
  }

  /** Both stakes leave the locked balances; payout or refunds reach the available ones. */
  lemma SettlingMoves(wallets: map<UserId, Wallet>, bet: Bet, v: Verdict)
    requires bet.status == BetStatus.PendingSettlement && bet.opponent.Some? && bet.opponent.value != bet.creator
    requires bet.creator in wallets && bet.opponent.value in wallets
    ensures var c, o := bet.creator, bet.opponent.value;
            Rebook(wallets, BetRow(bet), BetRow(SettledBet(bet, v)))
            == wallets[c := SettledWallet(wallets[c], bet, v, c)][o := SettledWallet(wallets[o], bet, v, o)]
  {
    var next, c, o := SettledBet(bet, v), bet.creator, bet.opponent.value;
    RebookTwo(wallets, BetRow(bet), BetRow(next), c, o, PaidTo(next, c), -bet.stake, PaidTo(next, o), -bet.stake);
  }

  /** Who is paid on each path. */
  lemma SettlementPays(bet: Bet, v: Verdict)
    requires bet.opponent.Some? && bet.opponent.value != bet.creator && v.path != SettlementOutcome.Voided
    ensures PaidTo(SettledBet(bet, v), bet.creator)
            == if v.path == NoWinner || v.path == CreatorWins then SplitOf(bet, v).paid else 0
    ensures PaidTo(SettledBet(bet, v), bet.opponent.value)
            == if v.path == NoWinner || v.path == OpponentWins then SplitOf(bet, v).paid else 0
  {
  }

  lemma DepositMoves(wallets: map<UserId, Wallet>, d: Deposit, reference: Option<string>)
    requires d.user in wallets && !d.status.Completed?
    ensures Rebook(wallets, DepositRow(d), DepositRow(CompletedDeposit(d, reference)))
            == wallets[d.user := Wallet(wallets[d.user].available + d.amount, wallets[d.user].locked)]
  {
    RebookOne(wallets, DepositRow(d), DepositRow(CompletedDeposit(d, reference)), d.user, d.amount, 0);
  }

  lemma HoldingMoves(wallets: map<UserId, Wallet>, w: Withdrawal)
    requires w.user in wallets && OnHold(w)
    ensures Rebook(wallets, NoRow, WithdrawalRow(w))
            == wallets[w.user := Wallet(wallets[w.user].available - w.amount, wallets[w.user].locked + w.amount)]
  {
    RebookOne(wallets, NoRow, WithdrawalRow(w), w.user, -w.amount, w.amount);
  }

  lemma FinishingMoves(wallets: map<UserId, Wallet>, w: Withdrawal, to: WithdrawalStatus)
    requires w.user in wallets && OnHold(w) && (to.Completed? || to.Rejected? || to.Failed?)
    ensures Rebook(wallets, WithdrawalRow(w), WithdrawalRow(w.(status := to)))
            == wallets[w.user := Wallet(wallets[w.user].available + (if to.Completed? then 0 else w.amount),
                                        wallets[w.user].locked - w.amount)]
  {
    RebookOne(wallets, WithdrawalRow(w), WithdrawalRow(w.(status := to)), w.user,
              if to.Completed? then 0 else w.amount, -w.amount);
  }
}
