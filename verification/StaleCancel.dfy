/** Cancelling reads its bet without a lock.  Split into its reading and its writing, with other calls in
    between, it is safe only while the row has not moved on. */
module StaleCancel {
  import opened Wrappers
  import opened Tables
  import opened Sums
  import opened Rules
  import opened Invariants
  import opened Runs
  import opened ExampleRuns
  import opened Theorems
  import opened WalletService
  import Lines = LedgerLines
  import BetProofs
  import BetService
  import Movements

  /** The checks passed on the bet as it was read. */
  predicate ReadOpen(read: Bet, requester: UserId) {
    read.creator == requester && read.status == BetStatus.Open
  }

  /** The second half of the call: the creator's stake is unlocked as the row was read, and the row that is
      there now gets its status and its event; no other column is written. */
  function FinishCancel(db: Db, id: BetId, read: Bet): Result<Db> {
    var refusal := ReleaseRefusal(db.wallets, read.creator, read.stake);
    if refusal.Some? then Err(refusal.value)
    else if id !in db.bets then Err(NotFound)
    else Ok(Posted(db, Moved(db.wallets, read.creator, read.stake, -read.stake),
                   Lines.StakeUnlock(read.creator, read.stake), CancellationReference, Ref.BetRef(id))
            .(bets := db.bets[id := CancelledBet(db.bets[id])]))
  }

  /** The whole call in one piece: nothing happens between reading and writing. */
  lemma UndisturbedCancel(db: Db, id: BetId, requester: UserId)
    requires id in db.bets && ParticipantsOk(db, db.bets[id]) && ReadOpen(db.bets[id], requester)
    ensures FinishCancel(db, id, db.bets[id]) == CancelBet(db, id, requester)
  {
    var bet := db.bets[id];
    if ReleaseRefusal(db.wallets, bet.creator, bet.stake).None? {
      var wallets := Moved(db.wallets, bet.creator, bet.stake, -bet.stake);
      BetService.CancelBooks(db, id, bet, Posted(db, wallets, Lines.StakeUnlock(bet.creator, bet.stake),
                                                 CancellationReference, Ref.BetRef(id)));
    }
  }

  /** Writing what an earlier reading allowed has the effect of the call if and only if the bet is still
      open when it is written, or the wallet refuses. */
  lemma StaleCancelIsSafeIff(db: Db, id: BetId, read: Bet, requester: UserId)
    requires Inv(db) && id in db.bets && Later(read, db.bets[id]) && ReadOpen(read, requester)
    ensures Keep(db, FinishCancel(db, id, read)) == After(db, OpCancelBet(id, requester)) <==>
            db.bets[id].status == BetStatus.Open || ReleaseRefusal(db.wallets, read.creator, read.stake).Some?
  {
    if db.bets[id].status == BetStatus.Open {
      BetProofs.InvBet(db, id);
      assert db.bets[id] == read;
      UndisturbedCancel(db, id, requester);
    } else {
      assert After(db, OpCancelBet(id, requester)) == db;
      if ReleaseRefusal(db.wallets, read.creator, read.stake).None? {
        assert |FinishCancel(db, id, read).value.ledger| == |db.ledger| + 2;
      }
    }
  }

  // ---- What other calls in between do ---------------------------------------------------

  /** What the user's locked balance has beyond the money owed to live bets and open withdrawals. */
  ghost function Stranded(db: Db, u: UserId): int
    requires u in db.wallets
  {
    db.wallets[u].locked - Sum(db.bets, LiveStake(u)) - Sum(db.withdrawals, OpenRequest(u))
  }

  lemma NothingStranded(db: Db, u: UserId)
    requires Inv(db) && u in db.wallets
    ensures Stranded(db, u) == 0
  {
    InvRows(db);
    InvMoney(db);
    EscrowHolds(db, u);
  }

  /** What a stale cancellation leaves locked for nothing, or takes from what other bets need, depending on
      where the bet is when the cancellation is written. */
  function Loss(bet: Bet, u: UserId): int {
    match bet.status
    case Open => 0
    case Matched => if bet.opponent == Some(u) then bet.stake else 0
    case PendingSettlement => if bet.opponent == Some(u) then bet.stake else 0
    case _ => if u == bet.creator then -bet.stake else 0
  }

  /** Only the creator and the stake of the reading matter. */
  lemma SameReading(db: Db, id: BetId, read: Bet)
    requires id in db.bets && db.bets[id].creator == read.creator && db.bets[id].stake == read.stake
    ensures FinishCancel(db, id, read) == FinishCancel(db, id, db.bets[id])
  {
  }

  lemma CancelledLoses(mid: Db, id: BetId, u: UserId)
    requires Inv(mid) && id in mid.bets && u in mid.wallets && FinishCancel(mid, id, mid.bets[id]).Ok?
    ensures var after := FinishCancel(mid, id, mid.bets[id]).value;
            u in after.wallets && Stranded(after, u) == Loss(mid.bets[id], u)
  {
    var bet := mid.bets[id];
    BetProofs.InvBet(mid, id);
    NothingStranded(mid, u);
    SumPut(mid.bets, id, CancelledBet(bet), LiveStake(u));
  }

  lemma ReadEarlier(db: Db, mid: Db, id: BetId)
    requires Reachable(db) && Reaches(db, mid) && id in db.bets
    ensures Inv(mid) && id in mid.bets && Later(db.bets[id], mid.bets[id])
  {
    ReachableInv(db);
    FinishedForEver(db, mid, id);
    var ops :| Leads(db, ops, mid);
    LeadsIffRun(db, ops, mid);
    RunKeepsInv(db, ops);
  }

  /** Whatever calls run between reading and writing: nothing is lost while the bet is open; once it is taken,
      exactly the opponent's stake stays locked for nothing; once it is over, exactly its stake is taken out
      of what the creator has locked for other things. */
  lemma StaleCancelEffect(db: Db, mid: Db, id: BetId, requester: UserId, u: UserId)
    requires Reachable(db) && Reaches(db, mid) && id in db.bets && ReadOpen(db.bets[id], requester)
    requires FinishCancel(mid, id, db.bets[id]).Ok? && u in mid.wallets
    ensures id in mid.bets
    ensures var after := FinishCancel(mid, id, db.bets[id]).value;
            && u in after.wallets && Stranded(after, u) == Loss(mid.bets[id], u)
            && after.bets == mid.bets[id := mid.bets[id].(status := BetStatus.Cancelled,
                                                          events := mid.bets[id].events + [BetEvent.Cancelled])]
  {
    ReadEarlier(db, mid, id);
    SameReading(mid, id, db.bets[id]);
    CancelledLoses(mid, id, u);
  }

  /** It goes through while the bet is live, and afterwards exactly if the creator has as much locked for
      other things. */
  lemma StaleCancelSucceedsIff(db: Db, mid: Db, id: BetId, requester: UserId)
    requires Reachable(db) && Reaches(db, mid) && id in db.bets && ReadOpen(db.bets[id], requester)
    ensures id in mid.bets && requester in mid.wallets
    ensures FinishCancel(mid, id, db.bets[id]).Ok? <==>
            !Terminal(mid.bets[id]) || mid.bets[id].stake <= mid.wallets[requester].locked
  {
    ReadEarlier(db, mid, id);
    SameReading(mid, id, db.bets[id]);
    InvReleasable(mid, id);
    if !Terminal(mid.bets[id]) {
      ReleaseNeverRefused(mid, id, requester);
    }
  }

  // ---- It happens -----------------------------------------------------------------------

  /** A reachable bet is read for cancellation, accepted, and then cancelled. */
  lemma StrandedStakeIsReachable()
    ensures exists db, mid, id, u ::
      && Reachable(db) && Reaches(db, mid) && id in db.bets && ReadOpen(db.bets[id], db.bets[id].creator)
      && var r := FinishCancel(mid, id, db.bets[id]);
         r.Ok? && u in r.value.wallets && Stranded(r.value, u) > 0
  {
    var db, mid := Run(EMPTY, OFFERED), Run(EMPTY, OFFERED + [TAKE]);
    RunOffers();
    RunTakes();
    RunReaches(EMPTY, OFFERED);
    OneCallOn(OFFERED, TAKE);
    StaleCancelSucceedsIff(db, mid, 1, 1);
    StaleCancelEffect(db, mid, 1, 1, 2);
    assert Stranded(FinishCancel(mid, 1, db.bets[1]).value, 2) > 0;
  }

  /** A reachable bet is read for two cancellations; both go through, the second with money of another bet. */
  lemma DoubleRefundIsReachable()
    ensures exists db, id, requester ::
      && Reachable(db) && id in db.bets && ReadOpen(db.bets[id], requester) && CancelBet(db, id, requester).Ok?
      && var r := FinishCancel(CancelBet(db, id, requester).value, id, db.bets[id]);
         r.Ok? && requester in r.value.wallets && Stranded(r.value, requester) < 0
  {
    var db := Run(EMPTY, HALF_CROSSED);
    RunHalfCrosses();
    RunReaches(EMPTY, HALF_CROSSED);
    ReachableInv(db);
    CancelSucceedsIff(db, 1, 1);
    OneCallOn(HALF_CROSSED, OpCancelBet(1, 1));
    var mid := CancelBet(db, 1, 1).value;
    CancelLeaves(db, mid);
    StaleCancelSucceedsIff(db, mid, 1, 1);
    StaleCancelEffect(db, mid, 1, 1, 1);
    assert Stranded(FinishCancel(mid, 1, db.bets[1]).value, 1) < 0;
  }

  lemma OneCallOn(ops: seq<Op>, op: Op)
    ensures Reaches(Run(EMPTY, ops), After(Run(EMPTY, ops), op)) && Run(EMPTY, ops + [op]) == After(Run(EMPTY, ops), op)
  {
    RunMore(EMPTY, ops, op);
    RunReaches(Run(EMPTY, ops), [op]);
    RunMore(Run(EMPTY, ops), [], op);
    assert [] + [op] == [op];
  }

  /** User 1's other bet still locks its stake after the first cancellation. */
  lemma CancelLeaves(db: Db, mid: Db)
    requires State(db, Wallet(0, 2000), Wallet(1000, 1000), map[1 := Offer(1), 2 := Taken(2, 1)])
    requires CancelBet(db, 1, 1) == Ok(mid)
    ensures 1 in mid.wallets && mid.wallets[1].locked == 1000 && 1 in mid.bets && mid.bets[1] == CancelledBet(Offer(1))
  {
    Movements.CancellingMoves(db.wallets, Offer(1), CancelledBet(Offer(1)));
  }
}
