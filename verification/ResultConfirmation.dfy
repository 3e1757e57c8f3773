/** The first transaction of a settlement run: the result is fixed and the matched bets are queued. */
module ResultConfirmation {
  import opened Wrappers
  import opened Tables
  import opened Rules
  import opened Sessions
  import opened OrderIndependence

  /** The queued bets are the matched bets of the match, each once, in the order the query returned them. */
  ghost predicate QueuedFrom(bets: map<BetId, Bet>, matchId: MatchId, queued: seq<BetId>) {
    Distinct(queued) && forall b :: b in queued <==> b in bets && Queues(bets[b], matchId)
  }

  function Pending(bet: Bet): Bet {
    bet.(status := BetStatus.PendingSettlement)
  }

  /** `bets` with the status of the listed ones set. */
  function AllPending(bets: map<BetId, Bet>, queued: seq<BetId>): map<BetId, Bet> {
    map b | b in bets :: if b in queued then Pending(bets[b]) else bets[b]
  }

  /** `bets` with status and audit event written for the listed ones. */
  function AllQueued(bets: map<BetId, Bet>, queued: seq<BetId>): map<BetId, Bet> {
    map b | b in bets :: if b in queued then QueuedBet(bets[b]) else bets[b]
  }

  method TransitionMatchedToPending(s: Session, matchId: MatchId) returns (queued: seq<BetId>)
    modifies s
    ensures QueuedFrom(old(s.bets), matchId, queued)
    ensures s.State() == old(s.State()).(bets := AllPending(old(s.bets), queued))
  {
    var found := set b | b in s.bets && Queues(s.bets[b], matchId);
    queued := [];
    while found != {}
      invariant Distinct(queued)
      invariant forall b :: b in queued ==> b !in found
      invariant forall b :: b in queued || b in found <==> b in old(s.bets) && Queues(old(s.bets)[b], matchId)
      invariant s.State() == old(s.State()).(bets := AllPending(old(s.bets), queued))
      decreases found
    {
      var b :| b in found;
      s.PutBet(b, s.bets[b].(status := BetStatus.PendingSettlement));
      queued, found := queued + [b], found - {b};
      assert s.bets == AllPending(old(s.bets), queued);
    }
  }

  /** The bets while their events are being written: the first `i` have theirs. */
  function Written(bets: map<BetId, Bet>, queued: seq<BetId>, i: nat): map<BetId, Bet>
    requires i <= |queued|
  {
    map b | b in bets ::
      if b in queued[..i] then QueuedBet(bets[b]) else if b in queued then Pending(bets[b]) else bets[b]
  }

  method WriteQueueEvents(s: Session, queued: seq<BetId>, ghost bets: map<BetId, Bet>)
    requires s.bets == AllPending(bets, queued) && Distinct(queued)
    requires forall b :: b in queued ==> b in bets
    modifies s
    ensures s.State() == old(s.State()).(bets := AllQueued(bets, queued))
  {
    assert s.bets == Written(bets, queued, 0);
    for i := 0 to |queued|
      invariant s.State() == old(s.State()).(bets := Written(bets, queued, i))
    {
      var b := queued[i];
      assert b !in queued[..i];
      s.WriteBetEvent(b, BetEvent.PendingSettlement);
      assert s.bets == Written(bets, queued, i + 1) by {
        assert queued[..i + 1] == queued[..i] + [b];
      }
    }
    assert queued[..|queued|] == queued;
    assert s.bets == AllQueued(bets, queued);
  }

  lemma QueuesExactly(db: Db, matchId: MatchId, outcome: Outcome, home: int, away: int, now: int, queued: seq<BetId>)
    requires matchId in db.matches && db.matches[matchId].confirmedAt.None? && QueuedFrom(db.bets, matchId, queued)
    ensures Confirm(db, matchId, outcome, home, away, now)
            == Ok(db.(matches := db.matches[matchId := ConfirmedMatch(db.matches[matchId], outcome, home, away, now)],
                      bets := AllQueued(db.bets, queued)))
  {
    assert Confirm(db, matchId, outcome, home, away, now).value.bets == AllQueued(db.bets, queued);
  }

  method ConfirmResult(s: Session, matchId: MatchId, outcome: Outcome, home: int, away: int, now: int)
    returns (r: Result<()>, queued: seq<BetId>)
    modifies s
    ensures Ends(r, Confirm(old(s.State()), matchId, outcome, home, away, now), s.State())
    ensures r.Ok? ==> QueuedFrom(old(s.bets), matchId, queued)
  {
    ghost var before := s.State();
    if matchId !in s.matches {
      return Err(NotFound), [];
    }
    var m := s.matches[matchId];
    if m.confirmedAt.Some? {
      return Err(Validation), [];
    }
    m := m.(outcome := Some(outcome));
    m := m.(homeScore := Some(home), awayScore := Some(away));
    m := m.(status := MatchStatus.Completed);
    m := m.(confirmedAt := Some(now));
    s.matches := s.matches[matchId := m];
    queued := TransitionMatchedToPending(s, matchId);
    WriteQueueEvents(s, queued, before.bets);
    QueuesExactly(before, matchId, outcome, home, away, now, queued);
    r := Ok(());
  }
}
