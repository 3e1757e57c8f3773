/** When the wallet calls refuse: exactly when the amounts are out of range, a wallet is missing, or a balance
    would fall below zero.  Nothing is assumed of the caller or of the wallets. */
module WalletLaws {
  import opened Wrappers
  import opened Tables
  import opened Rules
  import opened WalletService
  import SettlementService

  predicate NonNegative(w: Wallet) {
    0 <= w.available && 0 <= w.locked
  }

  predicate Wellformed(wallets: map<UserId, Wallet>) {
    forall u :: u in wallets ==> NonNegative(wallets[u])
  }

  /** Locking a stake. */
  lemma LockRefusedIff(wallets: map<UserId, Wallet>, u: UserId, amount: int)
    ensures var refusal := LockRefusal(wallets, u, amount);
            && (refusal.None? <==> u in wallets && NonNegative(Moved(wallets, u, -amount, amount)[u]))
            && (refusal == Some(NotFound) <==> u !in wallets)
            && (refusal == Some(InsufficientFunds) <==> u in wallets && wallets[u].available - amount < 0)
  {
  }

  /** Unlocking a stake and refunding a void. */
  lemma ReleaseRefusedIff(wallets: map<UserId, Wallet>, u: UserId, amount: int)
    ensures var refusal := ReleaseRefusal(wallets, u, amount);
            && (refusal.None? <==> u in wallets && NonNegative(Moved(wallets, u, amount, -amount)[u]))
            && (refusal == Some(NotFound) <==> u !in wallets)
            && (refusal.Some? && u in wallets ==> refusal == Some(Validation))
  {
  }

  /** Crediting a deposit and holding a withdrawal. */
  lemma FundingRefusedIff(wallets: map<UserId, Wallet>, u: UserId, amount: int)
    requires Wellformed(wallets)
    ensures var credit, hold := CreditRefusal(wallets, u, amount), HoldRefusal(wallets, u, amount);
            && (credit.None? <==> 0 < amount && u in wallets)
            && (hold.None? <==> 0 < amount && u in wallets && NonNegative(Moved(wallets, u, -amount, amount)[u]))
            && (amount <= 0 ==> credit == hold == Some(Validation))
            && (0 < amount && u !in wallets ==> credit == hold == Some(NotFound))
            && (0 < amount && u in wallets && hold.Some? ==> hold == Some(InsufficientFunds))
  {
  }

  /** Finishing a withdrawal, by paying it out or by giving it back. */
  lemma FinishRefusedIff(wallets: map<UserId, Wallet>, u: UserId, amount: int)
    requires Wellformed(wallets)
    ensures FinishRefusal(wallets, u, amount).None? <==>
            0 < amount && u in wallets && NonNegative(Moved(wallets, u, 0, -amount)[u])
    ensures FinishRefusal(wallets, u, amount) == Some(InsufficientFunds) <==>
            0 < amount && u in wallets && wallets[u].locked - amount < 0
    ensures FinishRefusal(wallets, u, amount) == Some(Validation) <==> amount <= 0
    ensures ReturnRefusal(wallets, u, amount) == FinishRefusal(wallets, u, amount)
  {
  }

  /** Paying the winner of a bet out of both stakes. */
  lemma TransferRefusedIff(wallets: map<UserId, Wallet>, w: UserId, l: UserId, stake: int, fee: int)
    requires Wellformed(wallets) && w != l
    ensures var refusal := TransferRefusal(wallets, w, l, stake, fee);
            && (refusal.None? <==>
                  && 0 < stake && 0 <= fee < 2 * stake && w in wallets && l in wallets
                  && Wellformed(Moved(Moved(wallets, w, 2 * stake - fee, -stake), l, 0, -stake)))
            && (refusal == Some(Validation) <==> !(0 < stake && 0 <= fee < 2 * stake))
            && (refusal == Some(NotFound) <==>
                  0 < stake && 0 <= fee < 2 * stake && (w !in wallets || l !in wallets))
            && (refusal == Some(InsufficientFunds) <==>
                  && 0 < stake && 0 <= fee < 2 * stake && w in wallets && l in wallets
                  && (wallets[w].locked < stake || wallets[l].locked < stake))
  {
    if w in wallets && l in wallets {
      var after := Moved(Moved(wallets, w, 2 * stake - fee, -stake), l, 0, -stake);
      TwoMovedWellformed(wallets, w, l, 2 * stake - fee, 0, stake);
    }
  }

  lemma TwoMovedWellformed(wallets: map<UserId, Wallet>, p: UserId, q: UserId, first: int, second: int, stake: int)
    requires Wellformed(wallets) && p in wallets && q in wallets && p != q
    ensures var after := Moved(Moved(wallets, p, first, -stake), q, second, -stake);
            Wellformed(after) <==>
            && 0 <= wallets[p].available + first && stake <= wallets[p].locked
            && 0 <= wallets[q].available + second && stake <= wallets[q].locked
  {
    var after := Moved(Moved(wallets, p, first, -stake), q, second, -stake);
    assert after[p] == Wallet(wallets[p].available + first, wallets[p].locked - stake);
    assert after[q] == Wallet(wallets[q].available + second, wallets[q].locked - stake);
    assert forall u :: u in wallets && u != p && u != q ==> after[u] == wallets[u];
    if Wellformed(after) {
      assert NonNegative(after[p]) && NonNegative(after[q]);
    }
  }

  /** Giving both stakes back, each less what is kept of it. */
  lemma NoWinnerRefusedIff(wallets: map<UserId, Wallet>, c: UserId, o: UserId, stake: int, refund: int)
    requires Wellformed(wallets) && c != o && 0 <= refund
    ensures var refusal := SettlementService.NoWinnerRefusal(wallets, c, o, stake, refund);
            && (refusal.None? <==>
                  && c in wallets && o in wallets
                  && Wellformed(Moved(Moved(wallets, c, refund, -stake), o, refund, -stake)))
            && (refusal == Some(NotFound) <==> c !in wallets || o !in wallets)
            && (refusal.Some? && c in wallets && o in wallets ==> refusal == Some(InsufficientFunds))
  {
    if c in wallets && o in wallets {
      TwoMovedWellformed(wallets, c, o, refund, refund, stake);
    }
  }
}
