/** Balance movements on one wallet or, at settlement, on two.  Every method either refuses without
    touching anything or moves the balances and writes the entry group for the move. */
module WalletService {
  import opened Wrappers
  import opened Tables
  import opened Positions
  import opened Rules
  import opened Sessions
  import opened Money
  import Lines = LedgerLines
  import LedgerService

  /** The wallets with both balances of `u` moved by the given amounts. */
  function Moved(wallets: map<UserId, Wallet>, u: UserId, available: int, locked: int): map<UserId, Wallet>
    requires u in wallets
  {
    wallets[u := Wallet(wallets[u].available + available, wallets[u].locked + locked)]
  }

  /** `db` after `lines` were posted together with the new wallets. */
  function Posted(db: Db, wallets: map<UserId, Wallet>, lines: seq<Line>, kind: ReferenceType, ref: Ref): Db
    requires forall l :: l in lines ==> l.user in wallets
  {
    db.(wallets := wallets, ledger := db.ledger + Post(wallets, lines, kind, ref))
  }

  function Answer(refusal: Option<Error>): Result<()> {
    if refusal.Some? then Err(refusal.value) else Ok(())
  }

  // ---- Stakes ---------------------------------------------------------------------------

  function LockRefusal(wallets: map<UserId, Wallet>, u: UserId, amount: int): Option<Error> {
    if u !in wallets then Some(NotFound)
    else if wallets[u].available < amount then Some(InsufficientFunds)
    else if wallets[u].locked + amount < 0 then Some(Validation)
    else None
  }

  method LockStake(s: Session, u: UserId, amount: int, bet: BetId) returns (r: Result<()>)
    modifies s
    ensures r == Answer(LockRefusal(old(s.wallets), u, amount))
    ensures r.Err? ==> s.State() == old(s.State())
    ensures r.Ok? ==>
      s.State() == Posted(old(s.State()), Moved(old(s.wallets), u, -amount, amount),
                          Lines.StakeLock(u, amount), BetReference, Ref.BetRef(bet))
  {
    if u !in s.wallets {
      return Err(NotFound);
    }
    var w := s.wallets[u];
    if w.available < amount {
      return Err(InsufficientFunds);
    }
    var newAvailable, newLocked := SafeSubtract(w.available, amount), SafeAdd(w.locked, amount);
    if newAvailable < 0 || newLocked < 0 {
      return Err(Validation);
    }
    w := s.UpdateBalances(u, Some(newAvailable), Some(newLocked));
    LedgerService.WriteStakeLock(s, u, w, amount, bet);
    return Ok(());
  }

  method UnlockStake(s: Session, u: UserId, amount: int, bet: BetId) returns (r: Result<()>)
    modifies s
    ensures r == Answer(ReleaseRefusal(old(s.wallets), u, amount))
    ensures r.Err? ==> s.State() == old(s.State())
    ensures r.Ok? ==>
      s.State() == Posted(old(s.State()), Moved(old(s.wallets), u, amount, -amount),
                          Lines.StakeUnlock(u, amount), CancellationReference, Ref.BetRef(bet))
  {
    if u !in s.wallets {
      return Err(NotFound);
    }
    var w := s.wallets[u];
    var newLocked, newAvailable := SafeSubtract(w.locked, amount), SafeAdd(w.available, amount);
    if newLocked < 0 || newAvailable < 0 {
      return Err(Validation);
    }
    w := s.UpdateBalances(u, Some(newAvailable), Some(newLocked));
    LedgerService.WriteStakeUnlock(s, u, w, amount, bet);
    return Ok(());
  }

  method VoidRefund(s: Session, u: UserId, amount: int, bet: BetId) returns (r: Result<()>)
    modifies s
    ensures r == Answer(ReleaseRefusal(old(s.wallets), u, amount))
    ensures r.Err? ==> s.State() == old(s.State())
    ensures r.Ok? ==>
      s.State() == Posted(old(s.State()), Moved(old(s.wallets), u, amount, -amount),
                          Lines.VoidRefund(u, amount), VoidReference, Ref.BetRef(bet))
  {
    if u !in s.wallets {
      return Err(NotFound);
    }
    var w := s.wallets[u];
    var newLocked, newAvailable := SafeSubtract(w.locked, amount), SafeAdd(w.available, amount);
    if newLocked < 0 || newAvailable < 0 {
      return Err(Validation);
    }
    w := s.UpdateBalances(u, Some(newAvailable), Some(newLocked));
    LedgerService.WriteVoidRefund(s, u, w, amount, bet);
    return Ok(());
  }

  // ---- Deposits and withdrawals ---------------------------------------------------------

  function CreditRefusal(wallets: map<UserId, Wallet>, u: UserId, amount: int): Option<Error> {
    if amount <= 0 then Some(Validation)
    else if u !in wallets then Some(NotFound)
    else if wallets[u].available + amount < 0 then Some(Validation)
    else None
  }

  method CreditDeposit(s: Session, u: UserId, amount: int, deposit: DepositId) returns (r: Result<()>)
    modifies s
    ensures r == Answer(CreditRefusal(old(s.wallets), u, amount))
    ensures r.Err? ==> s.State() == old(s.State())
    ensures r.Ok? ==>
      s.State() == Posted(old(s.State()), Moved(old(s.wallets), u, amount, 0),
                          Lines.DepositCredit(u, amount), DepositReference, Ref.DepositRef(deposit))
  {
    if amount <= 0 {
      return Err(Validation);
    }
    if u !in s.wallets {
      return Err(NotFound);
    }
    var newAvailable := SafeAdd(s.wallets[u].available, amount);
    if newAvailable < 0 {
      return Err(Validation);
    }
    var w := s.UpdateBalances(u, Some(newAvailable), None);
    LedgerService.WriteDepositCredit(s, u, w, amount, deposit);
    return Ok(());
  }

  function HoldRefusal(wallets: map<UserId, Wallet>, u: UserId, amount: int): Option<Error> {
    if amount <= 0 then Some(Validation) else LockRefusal(wallets, u, amount)
  }

  method HoldWithdrawal(s: Session, u: UserId, amount: int, withdrawal: WithdrawalId) returns (r: Result<()>)
    modifies s
    ensures r == Answer(HoldRefusal(old(s.wallets), u, amount))
    ensures r.Err? ==> s.State() == old(s.State())
    ensures r.Ok? ==>
      s.State() == Posted(old(s.State()), Moved(old(s.wallets), u, -amount, amount),
                          Lines.WithdrawalHold(u, amount), WithdrawalReference, Ref.WithdrawalRef(withdrawal))
  {
    if amount <= 0 {
      return Err(Validation);
    }
    if u !in s.wallets {
      return Err(NotFound);
    }
    var w := s.wallets[u];
    if w.available < amount {
      return Err(InsufficientFunds);
    }
    var newAvailable, newLocked := SafeSubtract(w.available, amount), SafeAdd(w.locked, amount);
    if newAvailable < 0 || newLocked < 0 {
      return Err(Validation);
    }
    w := s.UpdateBalances(u, Some(newAvailable), Some(newLocked));
    LedgerService.WriteWithdrawalHold(s, u, w, amount, withdrawal);
    return Ok(());
  }

  /** Why held money can not be taken out of the locked balance. */
  function FinishRefusal(wallets: map<UserId, Wallet>, u: UserId, amount: int): Option<Error> {
    if amount <= 0 then Some(Validation)
    else if u !in wallets then Some(NotFound)
    else if wallets[u].locked < amount then Some(InsufficientFunds)
    else None
  }

  function ReturnRefusal(wallets: map<UserId, Wallet>, u: UserId, amount: int): Option<Error> {
    var refusal := FinishRefusal(wallets, u, amount);
    if refusal.Some? then refusal
    else if wallets[u].available + amount < 0 then Some(Validation)
    else None
  }

  method ReleaseWithdrawalHold(s: Session, u: UserId, amount: int, withdrawal: WithdrawalId) returns (r: Result<()>)
    modifies s
    ensures r == Answer(ReturnRefusal(old(s.wallets), u, amount))
    ensures r.Err? ==> s.State() == old(s.State())
    ensures r.Ok? ==>
      s.State() == Posted(old(s.State()), Moved(old(s.wallets), u, amount, -amount),
                          Lines.WithdrawalRelease(u, amount), WithdrawalReference, Ref.WithdrawalRef(withdrawal))
  {
    if amount <= 0 {
      return Err(Validation);
    }
    if u !in s.wallets {
      return Err(NotFound);
    }
    var w := s.wallets[u];
    if w.locked < amount {
      return Err(InsufficientFunds);
    }
    var newLocked, newAvailable := SafeSubtract(w.locked, amount), SafeAdd(w.available, amount);
    if newLocked < 0 || newAvailable < 0 {
      return Err(Validation);
    }
    w := s.UpdateBalances(u, Some(newAvailable), Some(newLocked));
    LedgerService.WriteWithdrawalRelease(s, u, w, amount, withdrawal);
    return Ok(());
  }

  method FinalizeWithdrawalDebit(s: Session, u: UserId, amount: int, withdrawal: WithdrawalId) returns (r: Result<()>)
    modifies s
    ensures r == Answer(FinishRefusal(old(s.wallets), u, amount))
    ensures r.Err? ==> s.State() == old(s.State())
    ensures r.Ok? ==>
      s.State() == Posted(old(s.State()), Moved(old(s.wallets), u, 0, -amount),
                          Lines.WithdrawalDebit(u, amount), WithdrawalReference, Ref.WithdrawalRef(withdrawal))
  {
    if amount <= 0 {
      return Err(Validation);
    }
    if u !in s.wallets {
      return Err(NotFound);
    }
    if s.wallets[u].locked < amount {
      return Err(InsufficientFunds);
    }
    var newLocked := SafeSubtract(s.wallets[u].locked, amount);
    if newLocked < 0 {
      return Err(Validation);
    }
    var w := s.UpdateBalances(u, None, Some(newLocked));
    LedgerService.WriteWithdrawalDebit(s, u, w, amount, withdrawal);
    return Ok(());
  }

  // ---- Settlement -----------------------------------------------------------------------

  /** Reads two wallets in ascending order of user, the order in which they are locked. */
  method ReadInOrder(s: Session, a: UserId, b: UserId) returns (r: Result<map<UserId, Wallet>>)
    ensures r == if a in s.wallets && b in s.wallets then Ok(map[a := s.wallets[a], b := s.wallets[b]])
                 else Err(NotFound)
  {
    var ids := if a <= b then [a, b] else [b, a];
    var found: map<UserId, Wallet> := map[];
    for i := 0 to 2
      invariant forall j :: 0 <= j < i ==> ids[j] in s.wallets
      invariant forall u :: u in found <==> exists j :: 0 <= j < i && ids[j] == u
      invariant forall u :: u in found ==> u in s.wallets && found[u] == s.wallets[u]
    {
      if ids[i] !in s.wallets {
        return Err(NotFound);
      }
      found := found[ids[i] := s.wallets[ids[i]]];
    }
    assert ids[0] in found && ids[1] in found;
    assert found == map[a := s.wallets[a], b := s.wallets[b]];
    return Ok(found);
  }

  function TransferRefusal(wallets: map<UserId, Wallet>, winner: UserId, loser: UserId, amount: int, fee: int):
    Option<Error>
  {
    var payout := 2 * amount - fee;
    if amount <= 0 || fee < 0 || payout <= 0 then Some(Validation)
    else if winner !in wallets || loser !in wallets then Some(NotFound)
    else if wallets[winner].locked < amount || wallets[loser].locked < amount then Some(InsufficientFunds)
    else if wallets[winner].available + payout < 0 then Some(Validation)
    else None
  }

  /** Consumes both stakes and credits the winner with the pool less the fee. */
  method TransferLockedFunds(s: Session, winner: UserId, loser: UserId, amount: int, fee: int, bet: BetId)
    returns (r: Result<()>)
    requires winner != loser
    modifies s
    ensures r == Answer(TransferRefusal(old(s.wallets), winner, loser, amount, fee))
    ensures r.Err? ==> s.State() == old(s.State())
    ensures r.Ok? ==>
      s.State() == Posted(old(s.State()),
                          Moved(Moved(old(s.wallets), winner, 2 * amount - fee, -amount), loser, 0, -amount),
                          Lines.WinnerSettlement(winner, loser, amount, 2 * amount - fee),
                          SettlementReference, Ref.BetRef(bet))
  {
    if amount <= 0 || fee < 0 {
      return Err(Validation);
    }
    var pool := SafeAdd(amount, amount);
    var payout := SafeSubtract(pool, fee);
    if payout <= 0 {
      return Err(Validation);
    }
    var read := ReadInOrder(s, winner, loser);
    if read.Err? {
      return Err(read.error);
    }
    var winnerWallet, loserWallet := read.value[winner], read.value[loser];
    if winnerWallet.locked < amount || loserWallet.locked < amount {
      return Err(InsufficientFunds);
    }
    var winnerLocked := SafeSubtract(winnerWallet.locked, amount);
    var winnerAvailable := SafeAdd(winnerWallet.available, payout);
    var loserLocked := SafeSubtract(loserWallet.locked, amount);
    if winnerLocked < 0 || winnerAvailable < 0 || loserLocked < 0 {
      return Err(Validation);
    }
    winnerWallet := s.UpdateBalances(winner, Some(winnerAvailable), Some(winnerLocked));
    loserWallet := s.UpdateBalances(loser, None, Some(loserLocked));
    LedgerService.WriteSettlementWinner(s, winner, winnerWallet, loser, loserWallet, amount, payout, bet);
    return Ok(());
  }
}
