/** Settles one queued bet: rates, path, amounts, wallets, platform account, and last the bet row. */
module SettlementService {
  import opened Wrappers
  import opened Tables
  import opened Positions
  import opened Rules
  import opened Invariants
  import opened Sessions
  import opened WalletService
  import Lines = LedgerLines
  import LedgerService
  import Money
  import Movements

  // ---- The wallets ----------------------------------------------------------------------

  /** Refunds both participants less their fee.  Both balances change before any entry is written. */
  method SettleNoWinner(s: Session, creator: UserId, opponent: UserId, stake: int, fee: int, refund: int, bet: BetId)
    returns (r: Result<()>)
    requires creator != opponent
    modifies s
    ensures r == Answer(NoWinnerRefusal(old(s.wallets), creator, opponent, stake, refund))
    ensures r.Err? ==> s.State() == old(s.State())
    ensures r.Ok? ==>
      s.State() == Posted(old(s.State()),
                          Moved(Moved(old(s.wallets), creator, refund, -stake), opponent, refund, -stake),
                          Lines.NoWinnerSettlement(creator, opponent, fee, refund),
                          SettlementReference, Ref.BetRef(bet))
  {
    var read := WalletService.ReadInOrder(s, creator, opponent);
    if read.Err? {
      return Err(read.error);
    }
    var creatorWallet, opponentWallet := read.value[creator], read.value[opponent];
    if creatorWallet.locked < stake || opponentWallet.locked < stake {
      return Err(InsufficientFunds);
    }
    var creatorLocked := Money.SafeSubtract(creatorWallet.locked, stake);
    var creatorAvailable := Money.SafeAdd(creatorWallet.available, refund);
    var opponentLocked := Money.SafeSubtract(opponentWallet.locked, stake);
    var opponentAvailable := Money.SafeAdd(opponentWallet.available, refund);
    if creatorLocked < 0 || creatorAvailable < 0 || opponentLocked < 0 || opponentAvailable < 0 {
      return Err(Validation);
    }
    creatorWallet := s.UpdateBalances(creator, Some(creatorAvailable), Some(creatorLocked));
    opponentWallet := s.UpdateBalances(opponent, Some(opponentAvailable), Some(opponentLocked));
    LedgerService.WriteSettlementNoWinner(s, creator, opponent, fee, refund, bet);
    return Ok(());
  }

  function NoWinnerRefusal(wallets: map<UserId, Wallet>, creator: UserId, opponent: UserId, stake: int, refund: int):
    Option<Error>
  {
    if creator !in wallets || opponent !in wallets then Some(NotFound)
    else if wallets[creator].locked < stake || wallets[opponent].locked < stake then Some(InsufficientFunds)
    else if wallets[creator].available + refund < 0 || wallets[opponent].available + refund < 0 then Some(Validation)
    else None
  }

  /** The wallets after the verdict was carried out. */
  function PaidWallets(wallets: map<UserId, Wallet>, bet: Bet, v: Verdict): map<UserId, Wallet>
    requires bet.opponent.Some? && bet.creator in wallets && bet.opponent.value in wallets
  {
    var paid, c, o := SplitOf(bet, v).paid, bet.creator, bet.opponent.value;
    if v.path == NoWinner then Moved(Moved(wallets, c, paid, -bet.stake), o, paid, -bet.stake)
    else if v.path == CreatorWins then Moved(Moved(wallets, c, paid, -bet.stake), o, 0, -bet.stake)
    else Moved(Moved(wallets, o, paid, -bet.stake), c, 0, -bet.stake)
  }

  lemma PaidIsRebooked(wallets: map<UserId, Wallet>, bet: Bet, v: Verdict)
    requires bet.status == BetStatus.PendingSettlement && bet.opponent.Some? && bet.opponent.value != bet.creator
    requires bet.creator in wallets && bet.opponent.value in wallets && v.path != SettlementOutcome.Voided
    ensures PaidWallets(wallets, bet, v) == Rebook(wallets, BetRow(bet), BetRow(SettledBet(bet, v)))
  {
    Movements.SettlingMoves(wallets, bet, v);
    Movements.SettlementPays(bet, v);
  }

  /** Carries out the verdict on both wallets. */
  method PayOut(s: Session, id: BetId, bet: Bet, v: Verdict) returns (r: Result<()>)
    requires bet.opponent.Some? && bet.opponent.value != bet.creator && v.path != SettlementOutcome.Voided
    modifies s
    ensures r == Answer(SettlementRefusal(old(s.wallets), bet, v))
    ensures r.Err? ==> s.State() == old(s.State())
    ensures r.Ok? ==>
      s.State() == Posted(old(s.State()), PaidWallets(old(s.wallets), bet, v), SettlementLines(bet, v),
                          SettlementReference, Ref.BetRef(id))
  {
    var split := SplitOf(bet, v);
    if v.path != NoWinner {
      var winner := if v.path == CreatorWins then bet.creator else bet.opponent.value;
      var loser := if v.path == CreatorWins then bet.opponent.value else bet.creator;
      r := WalletService.TransferLockedFunds(s, winner, loser, bet.stake, split.fee, id);
    } else {
      r := SettleNoWinner(s, bet.creator, bet.opponent.value, bet.stake, split.fee, split.paid, id);
    }
  }

  // ---- The platform and the bet ---------------------------------------------------------

  method CreditPlatform(s: Session, id: BetId, v: Verdict, fee: int) returns (r: Result<()>)
    modifies s
    ensures r == if old(s.platform).None? then Err(NotFound) else Ok(())
    ensures r.Err? ==> s.State() == old(s.State())
    ensures r.Ok? ==>
      var balance := old(s.platform).value + fee;
      s.State() == old(s.State()).(platform := Some(balance),
                                   platformLedger := old(s.platformLedger) + [FeeEntry(id, v, fee, balance)])
  {
    if s.platform.None? {
      return Err(NotFound);
    }
    var balance := s.CreditFee(fee);
    s.WriteFeeEntry(if v.path != NoWinner then FeeCollection else FeeCollectionNoWinner, fee, id, balance,
                    if v.path != NoWinner then WinnerPath else NoWinnerPath);
    return Ok(());
  }

  /** The guarded update writes no row unless the bet is still queued. */
  method MarkSettled(s: Session, id: BetId, bet: Bet, v: Verdict) returns (r: Result<()>)
    requires id in s.bets && s.bets[id] == bet
    modifies s
    ensures r == if bet.status == BetStatus.PendingSettlement then Ok(()) else Err(Idempotency)
    ensures r.Err? ==> s.State() == old(s.State())
    ensures r.Ok? ==> s.State() == old(s.State()).(bets := old(s.bets)[id := SettledBet(bet, v)])
  {
    if s.bets[id].status != BetStatus.PendingSettlement {
      return Err(Idempotency);
    }
    s.PutBet(id, SettledBet(bet, v).(events := bet.events));
    s.WriteBetEvent(id, BetEvent.Settled);
    assert s.bets == old(s.bets)[id := SettledBet(bet, v)];
    return Ok(());
  }

  // ---- Settlement -----------------------------------------------------------------------

  /** The checks and readings before any amount moves. */
  method Decide(s: Session, bet: Bet, now: int) returns (r: Result<Verdict>)
    ensures r == Judge(bet, s.matches, s.fees, now)
  {
    if bet.status != BetStatus.PendingSettlement {
      return Err(Idempotency);
    }
    if bet.opponent.None? || bet.opponentPrediction.None? {
      return Err(Validation);
    }
    if bet.matchId !in s.matches {
      return Err(NotFound);
    }
    var m := s.matches[bet.matchId];
    if m.outcome.None? {
      return Err(Validation);
    }
    var winnerRate := ActiveRate(s.fees, WinnerFee, now);
    if winnerRate.None? {
      return Err(NotFound);
    }
    var noWinnerRate := ActiveRate(s.fees, NoWinnerFee, now);
    if noWinnerRate.None? {
      return Err(NotFound);
    }
    return Ok(Verdict(DeterminePath(m.outcome.value, bet.creatorPrediction, bet.opponentPrediction.value),
                      winnerRate.value, noWinnerRate.value));
  }

  lemma SettlementBooks(db: Db, id: BetId, bet: Bet, v: Verdict, paid: Db, balance: int)
    requires id in db.bets && db.bets[id] == bet && bet.status == BetStatus.PendingSettlement
    requires bet.opponent.Some? && bet.opponent.value != bet.creator && v.path != SettlementOutcome.Voided
    requires bet.creator in db.wallets && bet.opponent.value in db.wallets && db.platform.Some?
    requires paid == Posted(db, PaidWallets(db.wallets, bet, v), SettlementLines(bet, v),
                            SettlementReference, Ref.BetRef(id))
    requires balance == db.platform.value + TotalFee(bet, v)
    ensures paid.(bets := db.bets[id := SettledBet(bet, v)], platform := Some(balance),
                  platformLedger := db.platformLedger + [FeeEntry(id, v, TotalFee(bet, v), balance)])
            == Settlement(db, id, v)
  {
    PaidIsRebooked(db.wallets, bet, v);
  }

  method SettleBet(s: Session, id: BetId, now: int) returns (r: Result<()>)
    requires id in s.bets ==> ParticipantsOk(s.State(), s.bets[id])
    modifies s
    ensures Ends(r, Rules.SettleBet(old(s.State()), id, now), s.State())
  {
    ghost var before := s.State();
    if id !in s.bets {
      return Err(NotFound);
    }
    var bet := s.bets[id];
    var verdict := Decide(s, bet, now);
    if verdict.Err? {
      return Err(verdict.error);
    }
    var v := verdict.value;
    r := PayOut(s, id, bet, v);
    if r.Err? {
      return;
    }
    ghost var paid := s.State();
    var fee := TotalFee(bet, v);
    r := CreditPlatform(s, id, v, fee);
    if r.Err? {
      return;
    }
    r := MarkSettled(s, id, bet, v);
    SettlementBooks(before, id, bet, v, paid, before.platform.value + fee);
  }
}
