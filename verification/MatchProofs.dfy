/** Confirming results and synchronising matches keep the invariant, and confirmed results freeze. */
module MatchProofs {
  import opened Tables
  import opened Positions
  import opened Sums
  import opened Rules
  import opened Invariants

  /** A confirmed result is never rewritten: outcome, scores, status and confirmation stay. */
  predicate Frozen(m: Match, n: Match) {
    m.confirmedAt.Some? ==>
      n.confirmedAt == m.confirmedAt && n.outcome == m.outcome
      && n.homeScore == m.homeScore && n.awayScore == m.awayScore && n.status == m.status
  }

  predicate AllFrozen(before: map<MatchId, Match>, after: map<MatchId, Match>) {
    forall m :: m in before ==> m in after && Frozen(before[m], after[m])
  }

  predicate AllConfirmedOk(matches: map<MatchId, Match>) {
    forall m :: m in matches && matches[m].confirmedAt.Some? ==>
      matches[m].outcome.Some? && matches[m].status.Completed?
  }

  lemma {:induction false} SyncFreezes(matches: map<MatchId, Match>, payloads: seq<Payload>, now: int)
    requires AllConfirmedOk(matches)
    ensures AllFrozen(matches, SyncAll(matches, payloads, now))
    ensures AllConfirmedOk(SyncAll(matches, payloads, now))
  {
    if payloads != [] {
      SyncFreezes(matches, payloads[..|payloads| - 1], now);
    }
  }

  /** Rows rest only on frozen parts of the match table. */
  lemma NewMatchesKeepInv(db: Db, matches: map<MatchId, Match>)
    requires Inv(db)
    requires AllFrozen(db.matches, matches) && AllConfirmedOk(matches)
    ensures Inv(db.(matches := matches))
  {
    var after := db.(matches := matches);
    assert RowsInv(after) by {
      InvRows(db);
      NewMatchesKeepRows(db, matches);
    }
    assert MoneyInv(after) && PlatformInv(after) by {
      InvMoney(db);
      InvPlatform(db);
      SameMoney(db, after);
    }
    InvFromParts(after);
  }

  lemma NewMatchesKeepRows(db: Db, matches: map<MatchId, Match>)
    requires RowsInv(db)
    requires AllFrozen(db.matches, matches) && AllConfirmedOk(matches)
    ensures RowsInv(db.(matches := matches))
  {
    var after := db.(matches := matches);
    forall b | b in after.bets
      ensures ParticipantsOk(after, after.bets[b]) && ResultFieldsOk(after.bets[b]) && VerdictOk(after, after.bets[b])
    {
      assert ParticipantsOk(db, db.bets[b]) && ResultFieldsOk(db.bets[b]) && VerdictOk(db, db.bets[b]);
    }
  }

  /** The books of `after` equal those of `db` if every bet means the same for everyone. */
  ghost predicate SameBooks(db: Db, after: Db) {
    && after.wallets == db.wallets && after.deposits == db.deposits && after.withdrawals == db.withdrawals
    && after.ledger == db.ledger && after.platform == db.platform && after.platformLedger == db.platformLedger
    && after.bets.Keys == db.bets.Keys
    && (forall b :: b in db.bets ==>
          && (IsSettled(db, b) <==> IsSettled(after, b))
          && FeeFrom(after.bets[b]) == FeeFrom(db.bets[b]))
    && (forall b, u, f :: b in db.bets ==> BetPosition(after.bets[b], u, f) == BetPosition(db.bets[b], u, f))
  }

  lemma SameMoney(db: Db, after: Db)
    requires MoneyInv(db) && PlatformInv(db) && SameBooks(db, after)
    ensures MoneyInv(after) && PlatformInv(after)
  {
    forall u, f ensures RowsTotal(after, u, f) == BalanceOf(after, u, f)
                     && Total(after.ledger, OfUser(u, f)) == BalanceOf(after, u, f) {
      assert RowsTotal(db, u, f) == BalanceOf(db, u, f);
      assert Total(db.ledger, OfUser(u, f)) == BalanceOf(db, u, f);
      SumSame(db.bets, after.bets, BetAt(u, f));
    }
    forall r, u, f ensures Total(after.ledger, OfRef(r, u, f)) == Position(RowAt(after, r), u, f) {
      assert Total(db.ledger, OfRef(r, u, f)) == Position(RowAt(db, r), u, f);
    }
    forall d ensures Total(after.ledger, CreditsOf(d)) == if DepositDone(after, d) then 1 else 0 {
      assert Total(db.ledger, CreditsOf(d)) == if DepositDone(db, d) then 1 else 0;
    }
    SumSame(db.bets, after.bets, FeeAt());
    SamePlatform(db, after);
  }

  lemma SamePlatform(db: Db, after: Db)
    requires PlatformInv(db) && SameBooks(db, after)
    ensures PlatformInv(after)
  {
    SumSame(db.bets, after.bets, FeeAt());
    forall b ensures PlatformItem(after, b) {
      assert PlatformItem(db, b);
    }
  }

  lemma ConfirmKeepsRows(db: Db, matchId: MatchId, outcome: Outcome, home: int, away: int, now: int)
    requires RowsInv(db)
    requires Confirm(db, matchId, outcome, home, away, now).Ok?
    ensures RowsInv(Confirm(db, matchId, outcome, home, away, now).value)
  {
    var after := Confirm(db, matchId, outcome, home, away, now).value;
    forall b | b in after.bets
      ensures ParticipantsOk(after, after.bets[b]) && ResultFieldsOk(after.bets[b]) && VerdictOk(after, after.bets[b])
      ensures Replay(after.bets[b].events) == At(after.bets[b].status)
    {
      var bet := db.bets[b];
      assert ParticipantsOk(db, bet) && ResultFieldsOk(bet) && VerdictOk(db, bet);
      if Queues(bet, matchId) {
        assert after.bets[b] == QueuedBet(bet);
        assert (bet.events + [BetEvent.PendingSettlement])[..|bet.events|] == bet.events;
      } else {
        assert after.bets[b] == bet;
      }
    }
  }

  /** Queueing a bet changes neither what it holds nor what it has moved. */
  lemma ConfirmKeepsBooks(db: Db, matchId: MatchId, outcome: Outcome, home: int, away: int, now: int)
    requires Confirm(db, matchId, outcome, home, away, now).Ok?
    ensures SameBooks(db, Confirm(db, matchId, outcome, home, away, now).value)
  {
  }

  lemma ConfirmKeepsInv(db: Db, matchId: MatchId, outcome: Outcome, home: int, away: int, now: int)
    requires Inv(db)
    requires Confirm(db, matchId, outcome, home, away, now).Ok?
    ensures Inv(Confirm(db, matchId, outcome, home, away, now).value)
  {
    var after := Confirm(db, matchId, outcome, home, away, now).value;
    assert RowsInv(after) by {
      InvRows(db);
      ConfirmKeepsRows(db, matchId, outcome, home, away, now);
    }
    assert MoneyInv(after) && PlatformInv(after) by {
      InvMoney(db);
      InvPlatform(db);
      ConfirmKeepsBooks(db, matchId, outcome, home, away, now);
      SameMoney(db, after);
    }
    InvFromParts(after);
  }
}
