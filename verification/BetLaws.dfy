/** What the calls on bets and results answer and do, spelled out in rows, balances and entries alone: each
    theorem speaks of a call and of the fields of the tables before and after it. */
module BetLaws {
  import opened Wrappers
  import opened Tables
  import opened Positions
  import opened Rules
  import opened Invariants
  import opened WalletService
  import Lines = LedgerLines
  import BetProofs
  import Movements
  import Theorems

  /** The entry of a line, with the balances its user has after the call. */
  function Entry(wallets: map<UserId, Wallet>, line: Line, kind: ReferenceType, ref: Ref): LedgerEntry
    requires line.user in wallets
  {
    LedgerEntry(line, kind, ref, wallets[line.user].available, wallets[line.user].locked)
  }

  lemma PostsFour(wallets: map<UserId, Wallet>, a: Line, b: Line, c: Line, d: Line, kind: ReferenceType, ref: Ref)
    requires a.user in wallets && b.user in wallets && c.user in wallets && d.user in wallets
    ensures Post(wallets, [a, b, c, d], kind, ref)
            == [Entry(wallets, a, kind, ref), Entry(wallets, b, kind, ref),
                Entry(wallets, c, kind, ref), Entry(wallets, d, kind, ref)]
  {
  }

  // ---- Creating -------------------------------------------------------------------------

  /** The match takes new bets: it is scheduled and kicks off more than a quarter of an hour from now. */
  predicate TakesBets(db: Db, m: MatchId, now: int) {
    m in db.matches && db.matches[m].status == MatchStatus.Scheduled && now < db.matches[m].kickoff - 900
  }

  /** A bet is created if and only if the user is active, the match takes bets, the stake lies between 10 and
      10 000 and the user can afford it; otherwise the first failing check names the error. */
  lemma CreateBetAnswers(db: Db, id: BetId, active: bool, user: UserId, m: MatchId, prediction: Outcome, stake: int,
                         now: int)
    ensures var answer := Step(db, OpCreateBet(id, active, user, m, prediction, stake, now));
            && (answer.Ok? <==>
                  && active && TakesBets(db, m, now) && 1000 <= stake <= 1000000
                  && id !in db.bets && user in db.wallets && stake <= db.wallets[user].available)
            && (answer == Err(AccountIneligible) <==> !active)
            && (answer == Err(MatchNotAvailable) <==> active && m in db.matches && !TakesBets(db, m, now))
            && (answer == Err(Validation) <==> active && TakesBets(db, m, now) && !(1000 <= stake <= 1000000))
            && (answer == Err(InsufficientFunds) <==>
                  && active && TakesBets(db, m, now) && 1000 <= stake <= 1000000
                  && id !in db.bets && user in db.wallets && db.wallets[user].available < stake)
            && (answer == Err(Integrity) <==>
                  active && TakesBets(db, m, now) && 1000 <= stake <= 1000000 && id in db.bets)
            && (answer == Err(NotFound) <==>
                  && active
                  && (|| m !in db.matches
                      || (TakesBets(db, m, now) && 1000 <= stake <= 1000000 && id !in db.bets && user !in db.wallets)))
  {
  }

  /** Both entries of a stake locked for a bet. */
  function StakeLocked(wallets: map<UserId, Wallet>, u: UserId, stake: int, id: BetId): seq<LedgerEntry>
    requires u in wallets
  {
    [Entry(wallets, Line(u, EntryType.StakeLock, Available, Debit, stake), BetReference, Ref.BetRef(id)),
     Entry(wallets, Line(u, EntryType.StakeLock, Locked, Credit, stake), BetReference, Ref.BetRef(id))]
  }

  /** The new bet has no opponent yet and can be taken until the kickoff the match has now. */
  function FreshBet(db: Db, user: UserId, m: MatchId, prediction: Outcome, stake: int): Bet
    requires m in db.matches
  {
    Bet(m, user, prediction, None, None, stake, db.matches[m].kickoff, BetStatus.Open,
        None, None, None, None, None, None, [BetEvent.Created])
  }

  /** Creating a bet moves the stake from the creator's available to the locked balance, records both movements
      and changes nothing else. */
  lemma CreateBetEffect(db: Db, id: BetId, active: bool, user: UserId, m: MatchId, prediction: Outcome, stake: int,
                        now: int)
    requires Step(db, OpCreateBet(id, active, user, m, prediction, stake, now)).Ok?
    ensures m in db.matches && user in db.wallets && id !in db.bets
    ensures var wallets := Moved(db.wallets, user, -stake, stake);
            After(db, OpCreateBet(id, active, user, m, prediction, stake, now))
            == db.(wallets := wallets,
                   bets := db.bets[id := FreshBet(db, user, m, prediction, stake)],
                   ledger := db.ledger + StakeLocked(wallets, user, stake, id))
  {
    Movements.OpeningMoves(db.wallets, FreshBet(db, user, m, prediction, stake));
  }

  // ---- Accepting ------------------------------------------------------------------------

  /** Bet `id` may be taken by `user` on that prediction now, as far as the bet goes. */
  predicate MayTake(db: Db, id: BetId, user: UserId, prediction: Outcome, now: int) {
    && id in db.bets && db.bets[id].status == BetStatus.Open && now < db.bets[id].expiresAt
    && user != db.bets[id].creator && prediction != db.bets[id].creatorPrediction
  }

  /** A bet is taken if and only if the user is active, the bet is open and not expired, the user is not its
      creator and predicts another result, and can afford the stake; the first failing check names the error. */
  lemma AcceptBetAnswers(db: Db, id: BetId, active: bool, user: UserId, prediction: Outcome, now: int)
    ensures var answer := Step(db, OpAcceptBet(id, active, user, prediction, now));
            && (answer.Ok? <==>
                  && active && MayTake(db, id, user, prediction, now)
                  && user in db.wallets && db.bets[id].stake <= db.wallets[user].available)
            && (answer == Err(AccountIneligible) <==> !active)
            && (answer == Err(BetNotAvailable) <==> active && id in db.bets && db.bets[id].status != BetStatus.Open)
            && (answer == Err(BetExpired) <==>
                  active && id in db.bets && db.bets[id].status == BetStatus.Open && db.bets[id].expiresAt <= now)
            && (answer == Err(SelfBet) <==>
                  && active && id in db.bets && db.bets[id].status == BetStatus.Open && now < db.bets[id].expiresAt
                  && user == db.bets[id].creator)
            && (answer == Err(PredictionConflict) <==>
                  && active && id in db.bets && db.bets[id].status == BetStatus.Open && now < db.bets[id].expiresAt
                  && user != db.bets[id].creator && prediction == db.bets[id].creatorPrediction)
            && (answer == Err(InsufficientFunds) <==>
                  && active && MayTake(db, id, user, prediction, now)
                  && user in db.wallets && db.wallets[user].available < db.bets[id].stake)
            && (answer == Err(NotFound) <==>
                  active && (id !in db.bets || (MayTake(db, id, user, prediction, now) && user !in db.wallets)))
  {
  }

  /** Taking a bet records opponent and prediction, locks the opponent's stake with both entries and changes
      nothing else. */
  lemma AcceptBetEffect(db: Db, id: BetId, active: bool, user: UserId, prediction: Outcome, now: int)
    requires Inv(db) && Step(db, OpAcceptBet(id, active, user, prediction, now)).Ok?
    ensures id in db.bets && user in db.wallets
    ensures var bet := db.bets[id];
            var wallets := Moved(db.wallets, user, -bet.stake, bet.stake);
            After(db, OpAcceptBet(id, active, user, prediction, now))
            == db.(wallets := wallets,
                   bets := db.bets[id := bet.(opponent := Some(user), opponentPrediction := Some(prediction),
                                              status := BetStatus.Matched, events := bet.events + [BetEvent.Matched])],
                   ledger := db.ledger + StakeLocked(wallets, user, bet.stake, id))
  {
    BetProofs.InvBet(db, id);
    Movements.AcceptingMoves(db.wallets, db.bets[id], user, prediction);
  }

  // ---- Cancelling and voiding -----------------------------------------------------------

  /** Cancelling is for the creator of an open bet; in every other case the error says which. */
  lemma CancelBetAnswers(db: Db, id: BetId, user: UserId)
    requires Inv(db)
    ensures var answer := Step(db, OpCancelBet(id, user));
            && (answer.Ok? <==> id in db.bets && db.bets[id].creator == user && db.bets[id].status == BetStatus.Open)
            && (answer == Err(NotFound) <==> id !in db.bets)
            && (answer == Err(Forbidden) <==> id in db.bets && db.bets[id].creator != user)
            && (answer == Err(BetNotAvailable) <==>
                  id in db.bets && db.bets[id].creator == user && db.bets[id].status != BetStatus.Open)
  {
    Theorems.CancelSucceedsIff(db, id, user);
    if id in db.bets {
      BetProofs.InvBet(db, id);
    }
  }

  /** Cancelling gives the creator the stake back, with both entries, and changes nothing else. */
  lemma CancelBetEffect(db: Db, id: BetId, user: UserId)
    requires Inv(db) && Step(db, OpCancelBet(id, user)).Ok?
    ensures id in db.bets && user in db.wallets
    ensures var bet, ref := db.bets[id], Ref.BetRef(id);
            var wallets := Moved(db.wallets, user, bet.stake, -bet.stake);
            After(db, OpCancelBet(id, user))
            == db.(wallets := wallets,
                   bets := db.bets[id := bet.(status := BetStatus.Cancelled,
                                              events := bet.events + [BetEvent.Cancelled])],
                   ledger := db.ledger
                             + [Entry(wallets, Line(user, EntryType.StakeUnlock, Locked, Debit, bet.stake),
                                      CancellationReference, ref),
                                Entry(wallets, Line(user, EntryType.StakeUnlock, Available, Credit, bet.stake),
                                      CancellationReference, ref)])
  {
    BetProofs.InvBet(db, id);
    Movements.CancellingMoves(db.wallets, db.bets[id], CancelledBet(db.bets[id]));
  }

  /** Voiding is for open and matched bets. */
  lemma VoidBetAnswers(db: Db, id: BetId)
    requires Inv(db)
    ensures var answer := Step(db, OpVoidBet(id));
            && (answer.Ok? <==> id in db.bets && db.bets[id].status in {BetStatus.Open, BetStatus.Matched})
            && (answer == Err(NotFound) <==> id !in db.bets)
            && (answer == Err(BetNotAvailable) <==>
                  id in db.bets && db.bets[id].status !in {BetStatus.Open, BetStatus.Matched})
  {
    Theorems.VoidSucceedsIff(db, id);
  }

  function AsVoided(bet: Bet): Bet {
    bet.(status := BetStatus.Voided, settlement := Some(SettlementOutcome.Voided),
         events := bet.events + [BetEvent.Voided])
  }

  /** Both entries of a stake returned by a void. */
  function Returned(wallets: map<UserId, Wallet>, u: UserId, stake: int, id: BetId): seq<LedgerEntry>
    requires u in wallets
  {
    [Entry(wallets, Line(u, EntryType.VoidRefund, Locked, Debit, stake), VoidReference, Ref.BetRef(id)),
     Entry(wallets, Line(u, EntryType.VoidRefund, Available, Credit, stake), VoidReference, Ref.BetRef(id))]
  }

  /** Voiding an open bet returns the creator's stake. */
  lemma VoidOpenEffect(db: Db, id: BetId)
    requires Inv(db) && id in db.bets && db.bets[id].status == BetStatus.Open
    ensures var bet := db.bets[id];
            && bet.creator in db.wallets && Refunded(bet) == [bet.creator]
            && var wallets := Moved(db.wallets, bet.creator, bet.stake, -bet.stake);
               After(db, OpVoidBet(id))
               == db.(wallets := wallets, bets := db.bets[id := AsVoided(bet)],
                      ledger := db.ledger + Returned(wallets, bet.creator, bet.stake, id))
  {
    Theorems.VoidSucceedsIff(db, id);
    BetProofs.InvBet(db, id);
    Movements.CancellingMoves(db.wallets, db.bets[id], VoidedBet(db.bets[id]));
  }

  /** Voiding a matched bet returns both stakes, the creator's first. */
  lemma VoidMatchedEffect(db: Db, id: BetId)
    requires Inv(db) && id in db.bets && db.bets[id].status == BetStatus.Matched
    ensures var bet := db.bets[id];
            && bet.opponent.Some? && bet.creator in db.wallets && bet.opponent.value in db.wallets
            && Refunded(bet) == [bet.creator, bet.opponent.value]
            && var wallets := Moved(Moved(db.wallets, bet.creator, bet.stake, -bet.stake),
                                    bet.opponent.value, bet.stake, -bet.stake);
               After(db, OpVoidBet(id))
               == db.(wallets := wallets, bets := db.bets[id := AsVoided(bet)],
                      ledger := db.ledger + (Returned(wallets, bet.creator, bet.stake, id)
                                             + Returned(wallets, bet.opponent.value, bet.stake, id)))
  {
    Theorems.VoidSucceedsIff(db, id);
    BetProofs.InvBet(db, id);
    VoidedMatched(db, id);
  }

  lemma VoidedMatched(db: Db, id: BetId)
    requires id in db.bets && ParticipantsOk(db, db.bets[id]) && db.bets[id].status == BetStatus.Matched
    requires Step(db, OpVoidBet(id)).Ok?
    ensures var bet := db.bets[id];
            var wallets := Moved(Moved(db.wallets, bet.creator, bet.stake, -bet.stake),
                                 bet.opponent.value, bet.stake, -bet.stake);
            After(db, OpVoidBet(id))
            == db.(wallets := wallets, bets := db.bets[id := AsVoided(bet)],
                   ledger := db.ledger + (Returned(wallets, bet.creator, bet.stake, id)
                                          + Returned(wallets, bet.opponent.value, bet.stake, id)))
  {
    var bet, ref := db.bets[id], Ref.BetRef(id);
    Movements.VoidingMoves(db.wallets, bet);
    var wallets := Rebook(db.wallets, BetRow(bet), BetRow(VoidedBet(bet)));
    var c, o := Lines.VoidRefund(bet.creator, bet.stake), Lines.VoidRefund(bet.opponent.value, bet.stake);
    assert VoidLines(bet) == [c[0], c[1], o[0], o[1]];
    PostsFour(wallets, c[0], c[1], o[0], o[1], VoidReference, ref);
  }

  // ---- Results --------------------------------------------------------------------------

  /** A result is confirmed once per match, whatever synchronisation has stored before. */
  lemma ConfirmAnswers(db: Db, m: MatchId, outcome: Outcome, home: int, away: int, now: int)
    ensures var answer := Step(db, OpConfirm(m, outcome, home, away, now));
            && (answer.Ok? <==> m in db.matches && db.matches[m].confirmedAt.None?)
            && (answer == Err(NotFound) <==> m !in db.matches)
            && (answer == Err(Validation) <==> m in db.matches && db.matches[m].confirmedAt.Some?)
  {
  }

  /** The bet after a confirmed result of match `m`: queued if it was a matched bet on that match. */
  function Awaiting(bet: Bet, m: MatchId): Bet {
    if bet.matchId == m && bet.status == BetStatus.Matched
    then bet.(status := BetStatus.PendingSettlement, events := bet.events + [BetEvent.PendingSettlement])
    else bet
  }

  /** Confirming stores exactly the result given, over any earlier one, queues exactly the matched bets of the
      match and changes nothing else. */
  lemma ConfirmEffect(db: Db, m: MatchId, outcome: Outcome, home: int, away: int, now: int)
    requires Step(db, OpConfirm(m, outcome, home, away, now)).Ok?
    ensures m in db.matches
    ensures After(db, OpConfirm(m, outcome, home, away, now))
            == db.(matches := db.matches[m := db.matches[m].(outcome := Some(outcome), homeScore := Some(home),
                                                             awayScore := Some(away), status := MatchStatus.Completed,
                                                             confirmedAt := Some(now))],
                   bets := map b | b in db.bets :: Awaiting(db.bets[b], m))
  {
    var after := After(db, OpConfirm(m, outcome, home, away, now));
    assert after.bets == map b | b in db.bets :: Awaiting(db.bets[b], m);
  }
}
