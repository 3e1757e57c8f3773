/** Voiding a bet returns every stake it holds. */
module AdminService {
  import opened Wrappers
  import opened Tables
  import opened Positions
  import opened Rules
  import opened Invariants
  import opened Sessions
  import opened WalletService
  import Lines = LedgerLines
  import BetService
  import Movements

  lemma VoidsMatched(db: Db, id: BetId, bet: Bet, mid: Db, after: Db)
    requires id in db.bets && db.bets[id] == bet && bet.status == BetStatus.Matched
    requires bet.opponent.Some? && bet.opponent.value != bet.creator
    requires bet.creator in db.wallets && bet.opponent.value in db.wallets
    requires mid == Posted(db, Moved(db.wallets, bet.creator, bet.stake, -bet.stake),
                           Lines.VoidRefund(bet.creator, bet.stake), VoidReference, Ref.BetRef(id))
    requires after == Posted(mid, Moved(mid.wallets, bet.opponent.value, bet.stake, -bet.stake),
                             Lines.VoidRefund(bet.opponent.value, bet.stake), VoidReference, Ref.BetRef(id))
    ensures after.(bets := db.bets[id := VoidedBet(bet)])
            == Book(db, Ref.BetRef(id), BetRow(VoidedBet(bet)), VoidReference, VoidLines(bet))
  {
    Movements.VoidingMoves(db.wallets, bet);
    BetService.BooksBet(db, id, VoidedBet(bet), after.wallets, VoidReference, VoidLines(bet));
    assert after.ledger == db.ledger + Post(after.wallets, VoidLines(bet), VoidReference, Ref.BetRef(id));
  }

  lemma VoidsOpen(db: Db, id: BetId, bet: Bet, after: Db)
    requires id in db.bets && db.bets[id] == bet && bet.status == BetStatus.Open && bet.opponent.None?
    requires bet.creator in db.wallets
    requires after == Posted(db, Moved(db.wallets, bet.creator, bet.stake, -bet.stake),
                             Lines.VoidRefund(bet.creator, bet.stake), VoidReference, Ref.BetRef(id))
    ensures after.(bets := db.bets[id := VoidedBet(bet)])
            == Book(db, Ref.BetRef(id), BetRow(VoidedBet(bet)), VoidReference, VoidLines(bet))
  {
    Movements.CancellingMoves(db.wallets, bet, VoidedBet(bet));
    BetService.BooksBet(db, id, VoidedBet(bet), after.wallets, VoidReference, VoidLines(bet));
  }

  /** Returns both stakes of a matched bet, or the creator's, and names the users in that order. */
  method Refund(s: Session, id: BetId, bet: Bet) returns (r: Result<()>, refunded: seq<UserId>)
    requires id in s.bets && s.bets[id] == bet && ParticipantsOk(s.State(), bet)
    requires bet.status == BetStatus.Open || bet.status == BetStatus.Matched
    modifies s
    ensures Rules.VoidBet(old(s.State()), id).Ok? ==>
      r.Ok? && s.State().(bets := old(s.bets)[id := VoidedBet(bet)]) == Rules.VoidBet(old(s.State()), id).value
      && s.bets == old(s.bets) && refunded == Refunded(bet)
    ensures Rules.VoidBet(old(s.State()), id).Err? ==> r == Err(Rules.VoidBet(old(s.State()), id).error)
  {
    ghost var before := s.State();
    r := WalletService.VoidRefund(s, bet.creator, bet.stake, id);
    if r.Err? {
      return r, [];
    }
    refunded := [bet.creator];
    ghost var mid := s.State();
    if bet.status == BetStatus.Matched && bet.opponent.Some? {
      r := WalletService.VoidRefund(s, bet.opponent.value, bet.stake, id);
      if r.Err? {
        return;
      }
      refunded := refunded + [bet.opponent.value];
      VoidsMatched(before, id, bet, mid, s.State());
    } else {
      VoidsOpen(before, id, bet, s.State());
    }
  }

  /** Returns the users whose stakes were given back. */
  method VoidBet(s: Session, id: BetId) returns (r: Result<()>, refunded: seq<UserId>)
    requires id in s.bets ==> ParticipantsOk(s.State(), s.bets[id])
    modifies s
    ensures Ends(r, Rules.VoidBet(old(s.State()), id), s.State())
    ensures r.Ok? ==> refunded == Refunded(old(s.bets[id]))
  {
    if id !in s.bets {
      return Err(NotFound), [];
    }
    var bet := s.bets[id];
    if bet.status != BetStatus.Open && bet.status != BetStatus.Matched {
      return Err(BetNotAvailable), [];
    }
    r, refunded := Refund(s, id, bet);
    if r.Ok? {
      BetService.Transition(s, id, bet.(status := BetStatus.Voided, settlement := Some(SettlementOutcome.Voided)),
                            BetEvent.Voided);
    }
  }
}
