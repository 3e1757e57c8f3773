/** Every bet operation keeps the invariant. */
module BetProofs {
  import opened Wrappers
  import opened Tables
  import opened Positions
  import opened Sums
  import opened Rules
  import opened Invariants
  import opened Booking
  import Money
  import Lines = LedgerLines

  // ---- What a single bet adds up to -----------------------------------------------------

  function WorthTo(bet: Bet, u: UserId): int {
    BetPosition(bet, u, Available) + BetPosition(bet, u, Locked)
  }

  /** At every stage of a bet its effects on both users and the platform cancel out. */
  lemma BetZeroSum(db: Db, bet: Bet)
    requires ParticipantsOk(db, bet) && ResultFieldsOk(bet)
    ensures WorthTo(bet, bet.creator) + (if bet.opponent.Some? then WorthTo(bet, bet.opponent.value) else 0)
            + FeeFrom(bet) == 0
  {
    if bet.status == BetStatus.Settled {
      if bet.settlement == Some(NoWinner) {
        Money.ExactSplit(bet.stake, bet.noWinnerRate.value);
      } else {
        Money.ExactSplit(bet.stake, bet.winnerRate.value);
      }
    }
  }

  // ---- The ledger lines match the positions ---------------------------------------------

  lemma TwoLines(a: Line, b: Line, u: UserId, f: Field)
    ensures Total([a, b], LineOf(u, f)) == LineOf(u, f)(a) + LineOf(u, f)(b)
  {
    TotalTwo(a, b, LineOf(u, f));
  }

  lemma CreateBalanced(bet: Bet)
    requires bet.status == BetStatus.Open
    ensures Balanced(Lines.StakeLock(bet.creator, bet.stake), NoRow, BetRow(bet))
  {
    forall u, f ensures Total(Lines.StakeLock(bet.creator, bet.stake), LineOf(u, f))
                        == Position(BetRow(bet), u, f) - Position(NoRow, u, f) {
      var ls := Lines.StakeLock(bet.creator, bet.stake);
      TwoLines(ls[0], ls[1], u, f);
    }
  }

  lemma AcceptBalanced(bet: Bet, user: UserId, prediction: Outcome)
    requires bet.status == BetStatus.Open && bet.opponent.None? && user != bet.creator
    ensures Balanced(Lines.StakeLock(user, bet.stake), BetRow(bet), BetRow(MatchedBet(bet, user, prediction)))
  {
    var ls := Lines.StakeLock(user, bet.stake);
    var after := MatchedBet(bet, user, prediction);
    forall u, f ensures Total(ls, LineOf(u, f)) == Position(BetRow(after), u, f) - Position(BetRow(bet), u, f) {
      TwoLines(ls[0], ls[1], u, f);
    }
  }

  lemma CancelBalanced(bet: Bet)
    requires bet.status == BetStatus.Open
    ensures Balanced(Lines.StakeUnlock(bet.creator, bet.stake), BetRow(bet), BetRow(CancelledBet(bet)))
  {
    var ls := Lines.StakeUnlock(bet.creator, bet.stake);
    forall u, f
      ensures Total(ls, LineOf(u, f)) == Position(BetRow(CancelledBet(bet)), u, f) - Position(BetRow(bet), u, f)
    {
      TwoLines(ls[0], ls[1], u, f);
    }
  }

  lemma VoidBalanced(bet: Bet)
    requires bet.status == BetStatus.Open || bet.status == BetStatus.Matched
    requires bet.status == BetStatus.Matched <==> bet.opponent.Some?
    requires bet.opponent != Some(bet.creator)
    ensures Balanced(VoidLines(bet), BetRow(bet), BetRow(VoidedBet(bet)))
  {
    var first := Lines.VoidRefund(bet.creator, bet.stake);
    forall u, f ensures Total(VoidLines(bet), LineOf(u, f))
                        == Position(BetRow(VoidedBet(bet)), u, f) - Position(BetRow(bet), u, f) {
      TwoLines(first[0], first[1], u, f);
      if bet.opponent.Some? {
        var second := Lines.VoidRefund(bet.opponent.value, bet.stake);
        TwoLines(second[0], second[1], u, f);
        TotalConcat(first, second, LineOf(u, f));
      }
    }
  }

  lemma ThreeLines(a: Line, b: Line, c: Line, u: UserId, f: Field)
    ensures Total([a, b, c], LineOf(u, f)) == LineOf(u, f)(a) + LineOf(u, f)(b) + LineOf(u, f)(c)
  {
    TotalThree(a, b, c, LineOf(u, f));
  }

  predicate GoodVerdict(v: Verdict) {
    v.path != SettlementOutcome.Voided
    && 0 <= v.winnerRate <= Money.RATE_SCALE && 0 <= v.noWinnerRate <= Money.RATE_SCALE
  }

  lemma WinnerBalanced(bet: Bet, v: Verdict, u: UserId, f: Field)
    requires bet.status == BetStatus.PendingSettlement && bet.opponent.Some? && bet.opponent.value != bet.creator
    requires v.path == CreatorWins || v.path == OpponentWins
    ensures Total(SettlementLines(bet, v), LineOf(u, f))
            == Position(BetRow(SettledBet(bet, v)), u, f) - Position(BetRow(bet), u, f)
  {
    var ls := SettlementLines(bet, v);
    ThreeLines(ls[0], ls[1], ls[2], u, f);
  }

  lemma NoWinnerBalanced(bet: Bet, v: Verdict, u: UserId, f: Field)
    requires bet.status == BetStatus.PendingSettlement && bet.opponent.Some? && bet.opponent.value != bet.creator
    requires v.path == NoWinner
    ensures Total(SettlementLines(bet, v), LineOf(u, f))
            == Position(BetRow(SettledBet(bet, v)), u, f) - Position(BetRow(bet), u, f)
  {
    var split := SplitOf(bet, v);
    assert split.fee + split.paid == bet.stake;
    var first := Lines.NoWinnerShare(bet.creator, split.fee, split.paid);
    var second := Lines.NoWinnerShare(bet.opponent.value, split.fee, split.paid);
    ThreeLines(first[0], first[1], first[2], u, f);
    ThreeLines(second[0], second[1], second[2], u, f);
    TotalConcat(first, second, LineOf(u, f));
  }

  /** The three-entry and the six-entry settlement groups both match the change of the bet's position. */
  lemma SettleBalanced(bet: Bet, v: Verdict)
    requires bet.status == BetStatus.PendingSettlement && bet.opponent.Some? && bet.opponent.value != bet.creator
    requires v.path != SettlementOutcome.Voided
    ensures Balanced(SettlementLines(bet, v), BetRow(bet), BetRow(SettledBet(bet, v)))
  {
    forall u, f ensures Total(SettlementLines(bet, v), LineOf(u, f))
                        == Position(BetRow(SettledBet(bet, v)), u, f) - Position(BetRow(bet), u, f) {
      if v.path == NoWinner {
        NoWinnerBalanced(bet, v, u, f);
      } else {
        WinnerBalanced(bet, v, u, f);
      }
    }
  }

  // ---- Money ----------------------------------------------------------------------------

  /** A new version of a bet that does not exchange its creator or drop its opponent. */
  predicate Succeeds(db: Db, id: BetId, bet: Bet) {
    id in db.bets ==>
      && db.bets[id].creator == bet.creator
      && (db.bets[id].opponent.Some? ==> db.bets[id].opponent == bet.opponent)
  }

  lemma BetKeepsWealth(db: Db, id: BetId, bet: Bet, kind: ReferenceType, lines: seq<Line>)
    requires LinesOf(lines, db.wallets)
    requires Wealth(db) && BetsOk(db) && Succeeds(db, id, bet)
    requires ParticipantsOk(db, bet) && ResultFieldsOk(bet)
    ensures Wealth(Book(db, Ref.BetRef(id), BetRow(bet), kind, lines))
  {
    BetZeroSum(db, bet);
    if id in db.bets {
      BetZeroSum(db, db.bets[id]);
    }
    if bet.opponent.Some? {
      BookKeepsWealth(db, Ref.BetRef(id), BetRow(bet), kind, lines, bet.creator, bet.opponent.value);
    } else {
      BookKeepsWealthAlone(db, Ref.BetRef(id), BetRow(bet), kind, lines, bet.creator);
    }
  }

  lemma BetKeepsMoney(db: Db, id: BetId, bet: Bet, kind: ReferenceType, lines: seq<Line>)
    requires LinesOf(lines, db.wallets)
    requires forall l :: l in lines ==> !l.kind.DepositCredit?
    requires MoneyInv(db) && BetsOk(db) && Succeeds(db, id, bet)
    requires ParticipantsOk(db, bet) && ResultFieldsOk(bet)
    requires Balanced(lines, RowAt(db, Ref.BetRef(id)), BetRow(bet))
    requires Solvent(Book(db, Ref.BetRef(id), BetRow(bet), kind, lines))
    ensures MoneyInv(Book(db, Ref.BetRef(id), BetRow(bet), kind, lines))
  {
    BookKeepsSheet(db, Ref.BetRef(id), BetRow(bet), kind, lines);
    BookKeepsReplay(db, Ref.BetRef(id), BetRow(bet), kind, lines);
    BookKeepsItems(db, Ref.BetRef(id), BetRow(bet), kind, lines);
    BookKeepsCredits(db, Ref.BetRef(id), BetRow(bet), kind, lines);
    BetKeepsWealth(db, id, bet, kind, lines);
  }

  // ---- Rows and platform ----------------------------------------------------------------

  /** Writing one admissible bet and moving balances keeps every row admissible. */
  lemma BetKeepsRows(db: Db, after: Db, id: BetId, bet: Bet)
    requires RowsInv(db)
    requires after.bets == db.bets[id := bet] && after.wallets.Keys == db.wallets.Keys
    requires after.deposits == db.deposits && after.withdrawals == db.withdrawals
    requires after.matches == db.matches && after.fees == db.fees
    requires ParticipantsOk(db, bet) && ResultFieldsOk(bet) && VerdictOk(db, bet)
    requires Replay(bet.events) == At(bet.status)
    ensures RowsInv(after)
  {
    forall b | b in after.bets
      ensures ParticipantsOk(after, after.bets[b]) && ResultFieldsOk(after.bets[b]) && VerdictOk(after, after.bets[b])
    {
      if b != id {
        assert ParticipantsOk(db, db.bets[b]) && ResultFieldsOk(db.bets[b]) && VerdictOk(db, db.bets[b]);
      }
    }
  }

  lemma ReplayStep(events: seq<BetEvent>, event: BetEvent)
    ensures Replay(events + [event]) == Advance(Replay(events), event)
  {
    assert (events + [event])[..|events|] == events;
  }

  /** A bet that is settled neither before nor after leaves the platform's books alone. */
  lemma UnsettledKeepsPlatform(db: Db, after: Db, id: BetId, bet: Bet)
    requires PlatformInv(db)
    requires after.bets == db.bets[id := bet]
    requires after.platform == db.platform && after.platformLedger == db.platformLedger
    requires bet.status != BetStatus.Settled && !IsSettled(db, id)
    ensures PlatformInv(after)
  {
    SumPut(db.bets, id, bet, FeeAt());
    forall b ensures PlatformItem(after, b) {
      assert PlatformItem(db, b);
    }
  }

  lemma PrefixesGrow(db: Db, after: Db, entry: PlatformEntry)
    requires PlatformSums(db) && PlatformPrefixes(db) && entry.balanceAfter == PlatformBalance(db) + entry.amount
    requires after.platformLedger == db.platformLedger + [entry]
    ensures PlatformPrefixes(after) && Total(after.platformLedger, AmountAt()) == entry.balanceAfter
  {
    TotalConcat(db.platformLedger, [entry], AmountAt());
    TotalOne(entry, AmountAt());
    forall i | 0 <= i < |after.platformLedger|
      ensures after.platformLedger[i].balanceAfter == Total(after.platformLedger[..i + 1], AmountAt())
    {
      if i < |db.platformLedger| {
        assert after.platformLedger[..i + 1] == db.platformLedger[..i + 1];
      } else {
        assert after.platformLedger[..i + 1] == after.platformLedger;
      }
    }
  }

  lemma ItemsGrow(db: Db, after: Db, id: BetId, bet: Bet, entry: PlatformEntry)
    requires PlatformItems(db) && after.bets == db.bets[id := bet]
    requires bet.status == BetStatus.Settled && bet.fee.Some? && !IsSettled(db, id)
    requires entry.bet == id && entry.amount == bet.fee.value
    requires after.platformLedger == db.platformLedger + [entry]
    ensures PlatformItems(after)
  {
    forall b ensures PlatformItem(after, b) {
      assert PlatformItem(db, b);
      TotalConcat(db.platformLedger, [entry], CountFor(b));
      TotalConcat(db.platformLedger, [entry], AmountFor(b));
      TotalOne(entry, CountFor(b));
      TotalOne(entry, AmountFor(b));
    }
  }

  /** A settlement adds the bet's one entry, with the right prefix sum. */
  lemma SettledKeepsPlatform(db: Db, after: Db, id: BetId, bet: Bet, entry: PlatformEntry)
    requires PlatformInv(db) && db.platform.Some?
    requires after.bets == db.bets[id := bet]
    requires bet.status == BetStatus.Settled && bet.fee.Some? && !IsSettled(db, id)
    requires entry.bet == id && entry.amount == bet.fee.value
    requires entry.balanceAfter == db.platform.value + entry.amount
    requires after.platform == Some(entry.balanceAfter) && after.platformLedger == db.platformLedger + [entry]
    ensures PlatformInv(after)
  {
    SumPut(db.bets, id, bet, FeeAt());
    PrefixesGrow(db, after, entry);
    ItemsGrow(db, after, id, bet, entry);
  }

  // ---- The operations -------------------------------------------------------------------

  /** What a bet operation has to establish about the bet it writes and the lines it posts. */
  ghost predicate NextBet(db: Db, id: BetId, bet: Bet, lines: seq<Line>) {
    && ParticipantsOk(db, bet) && ResultFieldsOk(bet) && VerdictOk(db, bet)
    && Replay(bet.events) == At(bet.status)
    && Succeeds(db, id, bet) && !IsSettled(db, id)
    && LinesOf(lines, db.wallets)
    && (forall l :: l in lines ==> !l.kind.DepositCredit?)
    && Balanced(lines, RowAt(db, Ref.BetRef(id)), BetRow(bet))
  }

  lemma NextBetKeepsInv(db: Db, id: BetId, bet: Bet, kind: ReferenceType, lines: seq<Line>)
    requires Inv(db) && NextBet(db, id, bet, lines)
    requires bet.status != BetStatus.Settled
    requires Solvent(Book(db, Ref.BetRef(id), BetRow(bet), kind, lines))
    ensures Inv(Book(db, Ref.BetRef(id), BetRow(bet), kind, lines))
  {
    var after := Book(db, Ref.BetRef(id), BetRow(bet), kind, lines);
    assert MoneyInv(after) by {
      InvMoney(db);
      InvRows(db);
      BetKeepsMoney(db, id, bet, kind, lines);
    }
    assert RowsInv(after) by {
      InvRows(db);
      BetKeepsRows(db, after, id, bet);
    }
    assert PlatformInv(after) by {
      InvPlatform(db);
      UnsettledKeepsPlatform(db, after, id, bet);
    }
    InvFromParts(after);
  }

  lemma CreatedIsNext(db: Db, id: BetId, active: bool, user: UserId, matchId: MatchId,
                      prediction: Outcome, stake: int, now: int)
    requires CreateBet(db, id, active, user, matchId, prediction, stake, now).Ok?
    ensures NextBet(db, id, OpenBet(user, matchId, prediction, stake, db.matches[matchId].kickoff),
                    Lines.StakeLock(user, stake))
  {
    var bet := OpenBet(user, matchId, prediction, stake, db.matches[matchId].kickoff);
    CreateBalanced(bet);
    ReplayStep([], BetEvent.Created);
    assert [] + [BetEvent.Created] == bet.events;
  }

  lemma CreateBetKeepsInv(db: Db, id: BetId, active: bool, user: UserId, matchId: MatchId,
                          prediction: Outcome, stake: int, now: int)
    requires Inv(db)
    requires CreateBet(db, id, active, user, matchId, prediction, stake, now).Ok?
    ensures Inv(CreateBet(db, id, active, user, matchId, prediction, stake, now).value)
  {
    var bet := OpenBet(user, matchId, prediction, stake, db.matches[matchId].kickoff);
    CreatedIsNext(db, id, active, user, matchId, prediction, stake, now);
    InvSolvent(db);
    StakeLockSolvent(db, id, bet, user, stake);
    NextBetKeepsInv(db, id, bet, BetReference, Lines.StakeLock(user, stake));
  }

  lemma InvBet(db: Db, id: BetId)
    requires Inv(db) && id in db.bets
    ensures ParticipantsOk(db, db.bets[id]) && ResultFieldsOk(db.bets[id]) && VerdictOk(db, db.bets[id])
    ensures Replay(db.bets[id].events) == At(db.bets[id].status)
  {
    InvRows(db);
  }

  /** Locking a stake the user can afford leaves every balance non-negative. */
  lemma StakeLockSolvent(db: Db, id: BetId, bet: Bet, user: UserId, stake: int)
    requires Solvent(db) && user in db.wallets && 0 <= stake <= db.wallets[user].available
    requires Balanced(Lines.StakeLock(user, stake), RowAt(db, Ref.BetRef(id)), BetRow(bet))
    ensures Solvent(Book(db, Ref.BetRef(id), BetRow(bet), BetReference, Lines.StakeLock(user, stake)))
  {
    var ls := Lines.StakeLock(user, stake);
    BalancedMoves(db, id, bet, BetReference, ls);
    forall u | u in db.wallets ensures Total(ls, LineOf(u, Available)) == (if u == user then -stake else 0)
                                    && Total(ls, LineOf(u, Locked)) == (if u == user then stake else 0) {
      TwoLines(ls[0], ls[1], u, Available);
      TwoLines(ls[0], ls[1], u, Locked);
    }
  }

  /** Balanced lines are exactly the movement of each wallet. */
  lemma BalancedMoves(db: Db, id: BetId, bet: Bet, kind: ReferenceType, lines: seq<Line>)
    requires LinesOf(lines, db.wallets)
    requires Balanced(lines, RowAt(db, Ref.BetRef(id)), BetRow(bet))
    ensures var after := Book(db, Ref.BetRef(id), BetRow(bet), kind, lines);
            forall u :: u in db.wallets ==>
              after.wallets[u].available == db.wallets[u].available + Total(lines, LineOf(u, Available))
              && after.wallets[u].locked == db.wallets[u].locked + Total(lines, LineOf(u, Locked))
  {
  }

  lemma AcceptedIsNext(db: Db, id: BetId, active: bool, user: UserId, prediction: Outcome, now: int)
    requires AcceptBet(db, id, active, user, prediction, now).Ok?
    requires ParticipantsOk(db, db.bets[id]) && ResultFieldsOk(db.bets[id])
    requires Replay(db.bets[id].events) == At(db.bets[id].status)
    ensures NextBet(db, id, MatchedBet(db.bets[id], user, prediction), Lines.StakeLock(user, db.bets[id].stake))
  {
    AcceptBalanced(db.bets[id], user, prediction);
    ReplayStep(db.bets[id].events, BetEvent.Matched);
  }

  lemma AcceptBetKeepsInv(db: Db, id: BetId, active: bool, user: UserId, prediction: Outcome, now: int)
    requires Inv(db)
    requires AcceptBet(db, id, active, user, prediction, now).Ok?
    ensures Inv(AcceptBet(db, id, active, user, prediction, now).value)
  {
    var bet := db.bets[id];
    InvBet(db, id);
    InvSolvent(db);
    AcceptedIsNext(db, id, active, user, prediction, now);
    StakeLockSolvent(db, id, MatchedBet(bet, user, prediction), user, bet.stake);
    NextBetKeepsInv(db, id, MatchedBet(bet, user, prediction), BetReference, Lines.StakeLock(user, bet.stake));
  }

  lemma CancelledIsNext(db: Db, id: BetId)
    requires id in db.bets && db.bets[id].status == BetStatus.Open
    requires ParticipantsOk(db, db.bets[id]) && ResultFieldsOk(db.bets[id])
    requires Replay(db.bets[id].events) == At(db.bets[id].status)
    ensures NextBet(db, id, CancelledBet(db.bets[id]), Lines.StakeUnlock(db.bets[id].creator, db.bets[id].stake))
  {
    CancelBalanced(db.bets[id]);
    ReplayStep(db.bets[id].events, BetEvent.Cancelled);
  }

  lemma CancelBetKeepsInv(db: Db, id: BetId, requester: UserId)
    requires Inv(db)
    requires CancelBet(db, id, requester).Ok?
    ensures Inv(CancelBet(db, id, requester).value)
  {
    var bet := db.bets[id];
    InvBet(db, id);
    InvSolvent(db);
    CancelledIsNext(db, id);
    ReleaseSolvent(db, id, bet, CancelledBet(bet), CancellationReference, Lines.StakeUnlock(bet.creator, bet.stake));
    NextBetKeepsInv(db, id, CancelledBet(bet), CancellationReference, Lines.StakeUnlock(bet.creator, bet.stake));
  }

  /** Giving stakes back that are still locked leaves every balance non-negative. */
  lemma ReleaseSolvent(db: Db, id: BetId, bet: Bet, next: Bet, kind: ReferenceType, lines: seq<Line>)
    requires Solvent(db) && id in db.bets && db.bets[id] == bet && LinesOf(lines, db.wallets)
    requires next.status == BetStatus.Cancelled || next.status == BetStatus.Voided
    requires bet.status == BetStatus.Open || bet.status == BetStatus.Matched
    requires 0 <= bet.stake
    requires forall u :: u in db.wallets && HeldFor(bet, u) != 0 ==> bet.stake <= db.wallets[u].locked
    ensures Solvent(Book(db, Ref.BetRef(id), BetRow(next), kind, lines))
  {
    forall u | u in db.wallets
      ensures 0 <= db.wallets[u].available + GainFor(next, u) - GainFor(bet, u)
      ensures 0 <= db.wallets[u].locked + HeldFor(next, u) - HeldFor(bet, u)
    {
      assert HeldFor(next, u) == 0;
    }
  }

  lemma VoidedIsNext(db: Db, id: BetId)
    requires id in db.bets && (db.bets[id].status == BetStatus.Open || db.bets[id].status == BetStatus.Matched)
    requires ParticipantsOk(db, db.bets[id]) && ResultFieldsOk(db.bets[id])
    requires Replay(db.bets[id].events) == At(db.bets[id].status)
    ensures NextBet(db, id, VoidedBet(db.bets[id]), VoidLines(db.bets[id]))
  {
    VoidBalanced(db.bets[id]);
    ReplayStep(db.bets[id].events, BetEvent.Voided);
  }

  lemma VoidBetKeepsInv(db: Db, id: BetId)
    requires Inv(db)
    requires VoidBet(db, id).Ok?
    ensures Inv(VoidBet(db, id).value)
  {
    var bet := db.bets[id];
    InvBet(db, id);
    InvSolvent(db);
    VoidedIsNext(db, id);
    ReleaseSolvent(db, id, bet, VoidedBet(bet), VoidReference, VoidLines(bet));
    NextBetKeepsInv(db, id, VoidedBet(bet), VoidReference, VoidLines(bet));
  }

  /** The rate in force is the rate of some fee row. */
  lemma {:induction false} ActiveRowIsARow(fees: seq<FeeRow>, feeType: FeeType, now: int)
    requires ActiveRow(fees, feeType, now).Some?
    ensures ActiveRow(fees, feeType, now).value in fees
  {
    var earlier := ActiveRow(fees[..|fees| - 1], feeType, now);
    if ActiveRow(fees, feeType, now) == earlier {
      ActiveRowIsARow(fees[..|fees| - 1], feeType, now);
    }
  }

  lemma VerdictIsGood(db: Db, bet: Bet, now: int)
    requires RatesOk(db) && Judge(bet, db.matches, db.fees, now).Ok?
    ensures GoodVerdict(Judge(bet, db.matches, db.fees, now).value)
  {
    ActiveRowIsARow(db.fees, WinnerFee, now);
    ActiveRowIsARow(db.fees, NoWinnerFee, now);
  }

  lemma SettledFieldsOk(bet: Bet, v: Verdict)
    requires GoodVerdict(v) && v.path != NoWinner ==> 0 < SplitOf(bet, v).paid
    requires GoodVerdict(v) && bet.winnerRate.None? && bet.noWinnerRate.None?
    ensures ResultFieldsOk(SettledBet(bet, v))
  {
    assert TotalFee(bet, v) == if v.path == NoWinner then 2 * SplitOf(bet, v).fee else SplitOf(bet, v).fee;
  }

  lemma SettledIsNext(db: Db, id: BetId, v: Verdict, now: int)
    requires RatesOk(db) && id in db.bets
    requires ParticipantsOk(db, db.bets[id]) && ResultFieldsOk(db.bets[id]) && VerdictOk(db, db.bets[id])
    requires Replay(db.bets[id].events) == At(db.bets[id].status)
    requires Judge(db.bets[id], db.matches, db.fees, now) == Ok(v)
    requires SettlementRefusal(db.wallets, db.bets[id], v).None?
    ensures NextBet(db, id, SettledBet(db.bets[id], v), SettlementLines(db.bets[id], v)) && GoodVerdict(v)
  {
    VerdictIsGood(db, db.bets[id], now);
    SettledFieldsOk(db.bets[id], v);
    SettleBalanced(db.bets[id], v);
    ReplayStep(db.bets[id].events, BetEvent.Settled);
  }

  lemma SettleSolvent(db: Db, id: BetId, v: Verdict)
    requires Solvent(db) && id in db.bets && db.bets[id].opponent.Some?
    requires db.bets[id].status == BetStatus.PendingSettlement && 0 <= db.bets[id].stake && GoodVerdict(v)
    requires SettlementRefusal(db.wallets, db.bets[id], v).None?
    ensures Solvent(Book(db, Ref.BetRef(id), BetRow(SettledBet(db.bets[id], v)), SettlementReference,
                         SettlementLines(db.bets[id], v)))
  {
    var bet := db.bets[id];
    var next := SettledBet(bet, v);
    Money.ExactSplit(bet.stake, v.winnerRate);
    Money.ExactSplit(bet.stake, v.noWinnerRate);
    forall u | u in db.wallets
      ensures 0 <= db.wallets[u].available + GainFor(next, u) - GainFor(bet, u)
      ensures 0 <= db.wallets[u].locked + HeldFor(next, u) - HeldFor(bet, u)
    {
      assert GainFor(next, u) - GainFor(bet, u) == PaidTo(next, u);
    }
  }

  predicate Settleable(db: Db, id: BetId) {
    id in db.bets && db.bets[id].opponent.Some? && db.platform.Some?
    && db.bets[id].creator in db.wallets && db.bets[id].opponent.value in db.wallets
  }

  lemma SettlementKeepsRows(db: Db, id: BetId, v: Verdict)
    requires RowsInv(db) && Settleable(db, id)
    requires NextBet(db, id, SettledBet(db.bets[id], v), SettlementLines(db.bets[id], v))
    ensures RowsInv(Settlement(db, id, v))
  {
    BetKeepsRows(db, Settlement(db, id, v), id, SettledBet(db.bets[id], v));
  }

  lemma SettlementKeepsPlatform(db: Db, id: BetId, v: Verdict)
    requires PlatformInv(db) && Settleable(db, id) && !IsSettled(db, id)
    ensures PlatformInv(Settlement(db, id, v))
  {
    var fee := TotalFee(db.bets[id], v);
    SettledKeepsPlatform(db, Settlement(db, id, v), id, SettledBet(db.bets[id], v),
                         FeeEntry(id, v, fee, db.platform.value + fee));
  }

  lemma SettlementKeepsMoney(db: Db, id: BetId, v: Verdict)
    requires MoneyInv(db) && BetsOk(db) && Settleable(db, id)
    requires NextBet(db, id, SettledBet(db.bets[id], v), SettlementLines(db.bets[id], v))
    requires Solvent(Book(db, Ref.BetRef(id), BetRow(SettledBet(db.bets[id], v)), SettlementReference,
                          SettlementLines(db.bets[id], v)))
    ensures MoneyInv(Settlement(db, id, v))
  {
    var next, lines := SettledBet(db.bets[id], v), SettlementLines(db.bets[id], v);
    BetKeepsMoney(db, id, next, SettlementReference, lines);
    MoneyIgnoresPlatform(Book(db, Ref.BetRef(id), BetRow(next), SettlementReference, lines), Settlement(db, id, v));
  }

  lemma SettlementKeepsInv(db: Db, id: BetId, v: Verdict, now: int)
    requires Inv(db) && Settleable(db, id) && db.bets[id].status == BetStatus.PendingSettlement
    requires Judge(db.bets[id], db.matches, db.fees, now) == Ok(v)
    requires SettlementRefusal(db.wallets, db.bets[id], v).None?
    ensures Inv(Settlement(db, id, v))
  {
    assert NextBet(db, id, SettledBet(db.bets[id], v), SettlementLines(db.bets[id], v)) && GoodVerdict(v)
           && 0 <= db.bets[id].stake && Solvent(db) by {
      InvRows(db);
      InvSolvent(db);
      InvBet(db, id);
      SettledIsNext(db, id, v, now);
    }
    SettleSolvent(db, id, v);
    assert RowsInv(Settlement(db, id, v)) by {
      InvRows(db);
      SettlementKeepsRows(db, id, v);
    }
    assert MoneyInv(Settlement(db, id, v)) by {
      InvRows(db);
      InvMoney(db);
      SettlementKeepsMoney(db, id, v);
    }
    assert PlatformInv(Settlement(db, id, v)) by {
      InvPlatform(db);
      SettlementKeepsPlatform(db, id, v);
    }
    InvFromParts(Settlement(db, id, v));
  }

  lemma SettleBetKeepsInv(db: Db, id: BetId, now: int)
    requires Inv(db)
    requires SettleBet(db, id, now).Ok?
    ensures Inv(SettleBet(db, id, now).value)
  {
    SettlementKeepsInv(db, id, Judge(db.bets[id], db.matches, db.fees, now).value, now);
  }

  /** The money invariant does not look at matches, fees or the platform. */
  lemma MoneyIgnoresPlatform(db: Db, after: Db)
    requires MoneyInv(db)
    requires after.wallets == db.wallets && after.bets == db.bets && after.ledger == db.ledger
    requires after.deposits == db.deposits && after.withdrawals == db.withdrawals
    ensures MoneyInv(after)
  {
    forall u, f ensures RowsTotal(after, u, f) == BalanceOf(after, u, f)
                     && Total(after.ledger, OfUser(u, f)) == BalanceOf(after, u, f) {
      assert RowsTotal(db, u, f) == BalanceOf(db, u, f);
      assert Total(db.ledger, OfUser(u, f)) == BalanceOf(db, u, f);
    }
    forall r, u, f ensures Total(after.ledger, OfRef(r, u, f)) == Position(RowAt(after, r), u, f) {
      assert Total(db.ledger, OfRef(r, u, f)) == Position(RowAt(db, r), u, f);
    }
    forall d ensures Total(after.ledger, CreditsOf(d)) == if DepositDone(after, d) then 1 else 0 {
      assert Total(db.ledger, CreditsOf(d)) == if DepositDone(db, d) then 1 else 0;
    }
  }
}
