/** What one synchronisation stores, payload by payload, spelled out in the fields of the matches. */
module SyncLaws {
  import opened Wrappers
  import opened Tables
  import opened Rules
  import opened SyncIdempotence

  /** The moves of status a payload can make: none backwards, none out of an end, and a postponed match can only
      be scheduled again. */
  predicate CanMove(from: MatchStatus, to: MatchStatus) {
    || from == to
    || from == MatchStatus.Scheduled
    || (from == MatchStatus.Live && to != MatchStatus.Scheduled)
    || (from == MatchStatus.Postponed && to == MatchStatus.Scheduled)
  }

  predicate WithinAMinute(a: int, b: int) {
    a - 60 <= b <= a + 60
  }

  /** A known fixture: names follow the payload, the kickoff follows it over more than a minute, the status where
      it may move, the result while it is not confirmed; provider and confirmation stay. */
  lemma KnownFixture(db: Db, p: Payload, now: int)
    requires p.externalId in db.matches
    ensures var m, after := db.matches[p.externalId], After(db, OpSync([p], now));
            && after == db.(matches := db.matches[p.externalId := after.matches[p.externalId]])
            && var n := after.matches[p.externalId];
               && n.homeTeam == p.homeTeam && n.awayTeam == p.awayTeam && n.competition == p.competition
               && n.kickoff == (if WithinAMinute(m.kickoff, p.kickoff) then m.kickoff else p.kickoff)
               && n.status == (if CanMove(m.status, p.status) then p.status else m.status)
               && (if p.outcome.Some? && m.confirmedAt.None?
                   then n.outcome == p.outcome && n.homeScore == p.homeScore && n.awayScore == p.awayScore
                   else n.outcome == m.outcome && n.homeScore == m.homeScore && n.awayScore == m.awayScore)
               && n.provider == m.provider && n.confirmedAt == m.confirmedAt && n.lastSynced == Some(now)
  {
    OnePayload(db.matches, p, now);
  }

  /** A new fixture: a row of its own, with a result only if the payload has an outcome, never confirmed. */
  lemma NewFixtureStored(db: Db, p: Payload, now: int)
    requires p.externalId !in db.matches
    ensures var scored := p.outcome.Some?;
            After(db, OpSync([p], now))
            == db.(matches := db.matches[p.externalId :=
                     Match(Some(p.provider), p.homeTeam, p.awayTeam, p.competition, p.kickoff, p.status,
                           if scored then p.homeScore else None, if scored then p.awayScore else None, p.outcome,
                           None, Some(now))])
  {
    OnePayload(db.matches, p, now);
  }

  lemma OnePayload(matches: map<MatchId, Match>, p: Payload, now: int)
    ensures SyncAll(matches, [p], now) == Upserted(matches, p, now)
  {
    assert [p][..0] == [];
  }

  /** Payloads take effect one after the other. */
  lemma {:induction false} SyncInOrder(db: Db, first: seq<Payload>, second: seq<Payload>, now: int)
    ensures After(db, OpSync([], now)) == db
    ensures After(db, OpSync(first + second, now)) == After(After(db, OpSync(first, now)), OpSync(second, now))
  {
    if second == [] {
      assert first + second == first;
    } else {
      var last := |second| - 1;
      assert (first + second)[..|first + second| - 1] == first + second[..last];
      SyncInOrder(db, first, second[..last], now);
    }
  }

  /** A match that no payload names stays as it is. */
  lemma {:induction false} UnnamedStay(db: Db, payloads: seq<Payload>, now: int, m: MatchId)
    requires forall i :: 0 <= i < |payloads| ==> payloads[i].externalId != m
    ensures var after := After(db, OpSync(payloads, now)).matches;
            (m in after <==> m in db.matches) && (m in db.matches ==> after[m] == db.matches[m])
  {
    if payloads != [] {
      UnnamedStay(db, payloads[..|payloads| - 1], now, m);
    }
  }

  /** A postponed match that the provider schedules again is open for bets again, at its new kickoff. */
  lemma PostponedReturns(db: Db, p: Payload, now: int)
    requires p.externalId in db.matches && db.matches[p.externalId].status == MatchStatus.Postponed
    requires p.status == MatchStatus.Scheduled && !WithinAMinute(db.matches[p.externalId].kickoff, p.kickoff)
    ensures var n := After(db, OpSync([p], now)).matches[p.externalId];
            n.status == MatchStatus.Scheduled && n.kickoff == p.kickoff
  {
    KnownFixture(db, p, now);
  }

  /** A payload counts as created for a new fixture, as skipped if nothing but the synchronisation time
      changes, and as updated otherwise. */
  lemma ActionMeans(db: Db, p: Payload, now: int)
    ensures p.externalId in After(db, OpSync([p], now)).matches
    ensures var action, n := ActionOf(db.matches, p, now), After(db, OpSync([p], now)).matches[p.externalId];
            && (action == Action.Created <==> p.externalId !in db.matches)
            && (action == Skipped <==>
                  && p.externalId in db.matches
                  && var m := db.matches[p.externalId];
                     n.(lastSynced := None) == m.(lastSynced := None))
  {
    OnePayload(db.matches, p, now);
  }

  /** Each payload is judged against what the ones before it have left. */
  lemma {:induction false} ActionsInOrder(db: Db, payloads: seq<Payload>, now: int, i: nat)
    requires i < |payloads|
    ensures |Actions(db.matches, payloads, now)| == |payloads|
    ensures Actions(db.matches, payloads, now)[i]
            == ActionOf(After(db, OpSync(payloads[..i], now)).matches, payloads[i], now)
  {
    var last := |payloads| - 1;
    if i < last {
      ActionsInOrder(db, payloads[..last], now, i);
      assert payloads[..last][..i] == payloads[..i];
    } else if last > 0 {
      ActionsInOrder(db, payloads[..last], now, 0);
    }
  }
}
