/** A bet expires at the kickoff its match had when the bet was created.  Synchronisation may move the kickoff
    afterwards, and then the two differ. */
module KickoffShift {
  import opened Wrappers
  import opened Tables
  import opened Rules
  import opened Runs
  import opened BetLaws
  import opened ExampleRuns
  import SyncLaws

  /** Somebody could take the bet on that prediction as far as person and money go. */
  predicate CouldTake(db: Db, b: BetId, user: UserId, prediction: Outcome) {
    && b in db.bets && db.bets[b].matchId in db.matches && db.bets[b].status == BetStatus.Open
    && user != db.bets[b].creator && prediction != db.bets[b].creatorPrediction
    && user in db.wallets && db.bets[b].stake <= db.wallets[user].available
  }

  /** A bet can be taken at or after the kickoff its match has now if and only if that kickoff has been moved to a
      time before the bet expires. */
  lemma LateTakingIff(db: Db, b: BetId, user: UserId, prediction: Outcome)
    requires CouldTake(db, b, user, prediction)
    ensures (exists now :: db.matches[db.bets[b].matchId].kickoff <= now
                           && Step(db, OpAcceptBet(b, true, user, prediction, now)).Ok?)
            <==> db.matches[db.bets[b].matchId].kickoff < db.bets[b].expiresAt
  {
    var kickoff := db.matches[db.bets[b].matchId].kickoff;
    forall now ensures Step(db, OpAcceptBet(b, true, user, prediction, now)).Ok? <==> now < db.bets[b].expiresAt {
      AcceptBetAnswers(db, b, true, user, prediction, now);
    }
    if kickoff < db.bets[b].expiresAt {
      assert Step(db, OpAcceptBet(b, true, user, prediction, kickoff)).Ok?;
    }
  }

  /** The other way round, a bet is refused before kickoff if and only if the kickoff has been moved to later. */
  lemma EarlyExpiryIff(db: Db, b: BetId, user: UserId, prediction: Outcome)
    requires CouldTake(db, b, user, prediction)
    ensures (exists now :: now < db.matches[db.bets[b].matchId].kickoff
                           && Step(db, OpAcceptBet(b, true, user, prediction, now)) == Err(BetExpired))
            <==> db.bets[b].expiresAt < db.matches[db.bets[b].matchId].kickoff
  {
    var expiry := db.bets[b].expiresAt;
    forall now ensures Step(db, OpAcceptBet(b, true, user, prediction, now)) == Err(BetExpired) <==> expiry <= now {
      AcceptBetAnswers(db, b, true, user, prediction, now);
    }
    if expiry < db.matches[db.bets[b].matchId].kickoff {
      assert Step(db, OpAcceptBet(b, true, user, prediction, expiry)) == Err(BetExpired);
    }
  }

  const EARLIER := FIXTURE.(kickoff := 5000)

  /** The match of an open bet is moved forward, and the bet is taken after its kickoff. */
  lemma LateTakingIsReachable()
    ensures exists db, b, user, prediction, now ::
      && Reachable(db) && b in db.bets && db.bets[b].matchId in db.matches
      && db.matches[db.bets[b].matchId].kickoff < now && Step(db, OpAcceptBet(b, true, user, prediction, now)).Ok?
  {
    var before := Run(EMPTY, OFFERED);
    var db := Run(EMPTY, OFFERED + [OpSync([EARLIER], 1)]);
    RunOffers();
    RunMore(EMPTY, OFFERED, OpSync([EARLIER], 1));
    RunReaches(EMPTY, OFFERED + [OpSync([EARLIER], 1)]);
    SyncLaws.KnownFixture(before, EARLIER, 1);
    AcceptBetAnswers(db, 1, true, 2, AwayWin, 7000);
    assert Step(db, OpAcceptBet(1, true, 2, AwayWin, 7000)).Ok?;
  }
}
