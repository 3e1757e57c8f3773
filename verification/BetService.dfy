/** The life cycle of a bet up to its matching: create, accept, cancel. */
module BetService {
  import opened Wrappers
  import opened Tables
  import opened Positions
  import opened Rules
  import opened Invariants
  import opened Sessions
  import opened WalletService
  import Lines = LedgerLines
  import Money
  import Movements

  /** Writing a row and posting its moves separately amounts to booking it. */
  lemma BooksBet(db: Db, id: BetId, bet: Bet, wallets: map<UserId, Wallet>, kind: ReferenceType, lines: seq<Line>)
    requires forall l :: l in lines ==> l.user in wallets && l.user in db.wallets
    requires wallets == Rebook(db.wallets, RowAt(db, Ref.BetRef(id)), BetRow(bet))
    ensures Posted(db, wallets, lines, kind, Ref.BetRef(id)).(bets := db.bets[id := bet])
            == Book(db, Ref.BetRef(id), BetRow(bet), kind, lines)
  {
  }

  /** The inserted row, the stake lock and the event together book the bet. */
  lemma CreateBooks(db: Db, id: BetId, bet: Bet, after: Db)
    requires id !in db.bets && bet.creator in db.wallets && bet.status == BetStatus.Open
    requires after == Posted(db.(bets := db.bets[id := bet.(events := [])]),
                             Moved(db.wallets, bet.creator, -bet.stake, bet.stake),
                             Lines.StakeLock(bet.creator, bet.stake), BetReference, Ref.BetRef(id))
    ensures after.(bets := after.bets[id := bet])
            == Book(db, Ref.BetRef(id), BetRow(bet), BetReference, Lines.StakeLock(bet.creator, bet.stake))
  {
    Movements.OpeningMoves(db.wallets, bet);
    BooksBet(db, id, bet, after.wallets, BetReference, Lines.StakeLock(bet.creator, bet.stake));
    assert after.bets[id := bet] == db.bets[id := bet];
  }

  /** The row is inserted before the stake is locked, so a refusal for want of funds leaves it behind. */
  method CreateBet(s: Session, id: BetId, active: bool, user: UserId, matchId: MatchId,
                   prediction: Outcome, stake: int, now: int)
    returns (r: Result<()>)
    requires Solvent(s.State())
    modifies s
    ensures Ends(r, Rules.CreateBet(old(s.State()), id, active, user, matchId, prediction, stake, now), s.State())
  {
    ghost var before := s.State();
    if !active {
      return Err(AccountIneligible);
    }
    if matchId !in s.matches {
      return Err(NotFound);
    }
    var m := s.matches[matchId];
    if m.status != MatchStatus.Scheduled {
      return Err(MatchNotAvailable);
    }
    if now >= m.kickoff - CREATION_CUTOFF {
      return Err(MatchNotAvailable);
    }
    if stake <= 0 || stake < Money.MIN_STAKE || stake > Money.MAX_STAKE {
      return Err(Validation);
    }
    if id in s.bets {
      return Err(Integrity);
    }
    var bet := OpenBet(user, matchId, prediction, stake, m.kickoff);
    r := InsertAndLock(s, id, bet);
  }

  /** Inserts the row, locks the stake and writes the event. */
  method InsertAndLock(s: Session, id: BetId, bet: Bet) returns (r: Result<()>)
    requires id !in s.bets && bet.status == BetStatus.Open && bet.events == [BetEvent.Created]
    modifies s
    ensures r == Answer(LockRefusal(old(s.wallets), bet.creator, bet.stake))
    ensures r.Ok? ==>
      s.State()
      == Book(old(s.State()), Ref.BetRef(id), BetRow(bet), BetReference, Lines.StakeLock(bet.creator, bet.stake))
  {
    ghost var before := s.State();
    s.PutBet(id, bet.(events := []));
    r := WalletService.LockStake(s, bet.creator, bet.stake, id);
    if r.Ok? {
      CreateBooks(before, id, bet, s.State());
      s.WriteBetEvent(id, BetEvent.Created);
      assert [] + [BetEvent.Created] == bet.events;
    }
  }

  lemma AcceptBooks(db: Db, id: BetId, bet: Bet, user: UserId, prediction: Outcome, after: Db)
    requires id in db.bets && db.bets[id] == bet && bet.status == BetStatus.Open && bet.opponent.None?
    requires user in db.wallets && user != bet.creator
    requires after == Posted(db, Moved(db.wallets, user, -bet.stake, bet.stake),
                             Lines.StakeLock(user, bet.stake), BetReference, Ref.BetRef(id))
    ensures after.(bets := db.bets[id := MatchedBet(bet, user, prediction)])
            == Book(db, Ref.BetRef(id), BetRow(MatchedBet(bet, user, prediction)), BetReference,
                    Lines.StakeLock(user, bet.stake))
  {
    Movements.AcceptingMoves(db.wallets, bet, user, prediction);
    BooksBet(db, id, MatchedBet(bet, user, prediction), after.wallets, BetReference, Lines.StakeLock(user, bet.stake));
  }

  /** Writing a row and then its audit event. */
  method Transition(s: Session, id: BetId, bet: Bet, event: BetEvent)
    modifies s
    ensures s.State() == old(s.State()).(bets := old(s.bets)[id := bet.(events := bet.events + [event])])
  {
    s.PutBet(id, bet);
    s.WriteBetEvent(id, event);
  }

  method AcceptBet(s: Session, id: BetId, active: bool, user: UserId, prediction: Outcome, now: int)
    returns (r: Result<()>)
    requires Solvent(s.State())
    requires id in s.bets ==> ParticipantsOk(s.State(), s.bets[id])
    modifies s
    ensures Ends(r, Rules.AcceptBet(old(s.State()), id, active, user, prediction, now), s.State())
  {
    ghost var before := s.State();
    if !active {
      return Err(AccountIneligible);
    }
    if id !in s.bets {
      return Err(NotFound);
    }
    var bet := s.bets[id];
    if bet.status != BetStatus.Open {
      return Err(BetNotAvailable);
    }
    if now >= bet.expiresAt {
      return Err(BetExpired);
    }
    if user == bet.creator {
      return Err(SelfBet);
    }
    if prediction == bet.creatorPrediction {
      return Err(PredictionConflict);
    }
    r := WalletService.LockStake(s, user, bet.stake, id);
    if r.Ok? {
      AcceptBooks(before, id, bet, user, prediction, s.State());
      var taken := bet.(opponent := Some(user), opponentPrediction := Some(prediction), status := BetStatus.Matched);
      Transition(s, id, taken, BetEvent.Matched);
    }
  }

  lemma CancelBooks(db: Db, id: BetId, bet: Bet, after: Db)
    requires id in db.bets && db.bets[id] == bet && bet.status == BetStatus.Open && bet.opponent.None?
    requires bet.creator in db.wallets
    requires after == Posted(db, Moved(db.wallets, bet.creator, bet.stake, -bet.stake),
                             Lines.StakeUnlock(bet.creator, bet.stake), CancellationReference, Ref.BetRef(id))
    ensures after.(bets := db.bets[id := CancelledBet(bet)])
            == Book(db, Ref.BetRef(id), BetRow(CancelledBet(bet)), CancellationReference,
                    Lines.StakeUnlock(bet.creator, bet.stake))
  {
    Movements.CancellingMoves(db.wallets, bet, CancelledBet(bet));
    BooksBet(db, id, CancelledBet(bet), after.wallets, CancellationReference,
             Lines.StakeUnlock(bet.creator, bet.stake));
  }

  method CancelBet(s: Session, id: BetId, requester: UserId) returns (r: Result<()>)
    requires id in s.bets ==> ParticipantsOk(s.State(), s.bets[id])
    modifies s
    ensures Ends(r, Rules.CancelBet(old(s.State()), id, requester), s.State())
  {
    ghost var before := s.State();
    if id !in s.bets {
      return Err(NotFound);
    }
    var bet := s.bets[id];
    if bet.creator != requester {
      return Err(Forbidden);
    }
    if bet.status != BetStatus.Open {
      return Err(BetNotAvailable);
    }
    r := WalletService.UnlockStake(s, bet.creator, bet.stake, id);
    if r.Ok? {
      CancelBooks(before, id, bet, s.State());
      Transition(s, id, bet.(status := BetStatus.Cancelled), BetEvent.Cancelled);
    }
  }
}
