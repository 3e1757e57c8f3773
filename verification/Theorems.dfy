/** The money theorems: what holds in every state the service calls can reach. */
module Theorems {
  import opened Wrappers
  import opened Tables
  import opened Positions
  import opened Sums
  import opened Rules
  import opened Invariants
  import opened Runs
  import BetProofs
  import Money

  /** What every reachable database satisfies, part by part. */
  lemma ReachableParts(db: Db)
    requires Reachable(db)
    ensures RowsInv(db) && MoneyInv(db) && PlatformInv(db)
  {
    ReachableInv(db);
    InvRows(db);
    InvMoney(db);
    InvPlatform(db);
  }

  // ---- Escrow ---------------------------------------------------------------------------

  /** The stake `u` has in a bet that is not finished, as creator or as opponent. */
  function LiveStake(u: UserId): Bet -> int {
    (bet: Bet) =>
      (if bet.creator == u && bet.status in {BetStatus.Open, BetStatus.Matched, BetStatus.PendingSettlement}
       then bet.stake else 0)
      + (if bet.opponent == Some(u) && bet.status in {BetStatus.Matched, BetStatus.PendingSettlement}
         then bet.stake else 0)
  }

  function OpenRequest(u: UserId): Withdrawal -> int {
    (w: Withdrawal) => if w.user == u && OnHold(w) then w.amount else 0
  }

  lemma SumPointwise<K, V>(m: map<K, V>, f: V -> int, g: V -> int)
    requires forall k :: k in m ==> f(m[k]) == g(m[k])
    ensures Sum(m, f) == Sum(m, g)
  {
    SumAtMost(m, f, g);
    SumAtMost(m, g, f);
  }

  lemma NoDepositIsLocked(db: Db, u: UserId)
    ensures Sum(db.deposits, DepositAt(u, Locked)) == 0
  {
    SumPointwise(db.deposits, DepositAt(u, Locked), Zero<Deposit>());
    SumZero(db.deposits);
  }

  lemma EscrowHolds(db: Db, u: UserId)
    requires Sheet(db) && BetsOk(db) && u in db.wallets
    ensures db.wallets[u].locked == Sum(db.bets, LiveStake(u)) + Sum(db.withdrawals, OpenRequest(u))
  {
    assert RowsTotal(db, u, Locked) == BalanceOf(db, u, Locked);
    NoDepositIsLocked(db, u);
    forall b | b in db.bets ensures BetAt(u, Locked)(db.bets[b]) == LiveStake(u)(db.bets[b]) {
      assert ParticipantsOk(db, db.bets[b]);
    }
    SumPointwise(db.bets, BetAt(u, Locked), LiveStake(u));
    SumPointwise(db.withdrawals, WithdrawalAt(u, Locked), OpenRequest(u));
  }

  /** Locked money is exactly the stakes of the user's live bets plus their open withdrawals. */
  lemma Escrow(db: Db, u: UserId)
    requires Reachable(db) && u in db.wallets
    ensures db.wallets[u].locked == Sum(db.bets, LiveStake(u)) + Sum(db.withdrawals, OpenRequest(u))
  {
    ReachableParts(db);
    EscrowHolds(db, u);
  }

  // ---- Conservation ---------------------------------------------------------------------

  /** All money in wallets, in the platform account and paid out came in through completed deposits. */
  lemma Conservation(db: Db)
    requires Reachable(db)
    ensures Sum(db.wallets, Worth()) + PlatformBalance(db) + Sum(db.withdrawals, PaidOutAt())
            == Sum(db.deposits, PaidInAt())
  {
    ReachableParts(db);
  }

  // ---- Ledger replay --------------------------------------------------------------------

  /** Folding a user's entries from zero gives both balances of the wallet. */
  lemma LedgerReplays(db: Db, u: UserId)
    requires Reachable(db) && u in db.wallets
    ensures Total(db.ledger, OfUser(u, Available)) == db.wallets[u].available
    ensures Total(db.ledger, OfUser(u, Locked)) == db.wallets[u].locked
  {
    ReachableParts(db);
    assert Total(db.ledger, OfUser(u, Available)) == BalanceOf(db, u, Available);
    assert Total(db.ledger, OfUser(u, Locked)) == BalanceOf(db, u, Locked);
  }

  /** Both snapshots of entry `i` are the fold of its user's entries up to position `end`. */
  ghost predicate ReplaysAt(ledger: seq<LedgerEntry>, i: nat, end: nat) {
    && i < end <= |ledger|
    && ledger[i].availableAfter == Total(ledger[..end], OfUser(ledger[i].line.user, Available))
    && ledger[i].lockedAfter == Total(ledger[..end], OfUser(ledger[i].line.user, Locked))
  }

  /** The call between the two databases wrote entry `i` of a ledger that has only grown since. */
  ghost predicate WrittenBetween(before: Db, after: Db, db: Db, i: nat) {
    && Reachable(before) && (exists op :: after == After(before, op)) && Reaches(after, db)
    && |before.ledger| <= i < |after.ledger| && after.ledger <= db.ledger
  }

  /** Both snapshots of every entry are the fold of its user's entries up to the end of the call that
      wrote it; later calls never change them. */
  lemma SnapshotsReplay(db: Db, i: nat)
    requires Reachable(db) && i < |db.ledger|
    ensures exists before, after :: WrittenBetween(before, after, db, i) && ReplaysAt(db.ledger, i, |after.ledger|)
  {
    var ops :| Leads(EMPTY, ops, db);
    LeadsIffRun(EMPTY, ops, db);
    var k := Writer(ops, i);
    var before, after := Run(EMPTY, ops[..k]), Run(EMPTY, ops[..k + 1]);
    WriterIsBetween(ops, i, k);
    SnapshotAt(before, after, db, i);
  }

  /** The position of the call that wrote entry `i`. */
  function Writer(ops: seq<Op>, i: nat): (k: nat)
    requires i < |Run(EMPTY, ops).ledger|
    ensures k < |ops|
    ensures |Run(EMPTY, ops[..k]).ledger| <= i < |Run(EMPTY, ops[..k + 1]).ledger|
  {
    var shorter := ops[..|ops| - 1];
    if i < |Run(EMPTY, shorter).ledger| then
      var k := Writer(shorter, i);
      assert shorter[..k] == ops[..k] && shorter[..k + 1] == ops[..k + 1];
      k
    else
      assert ops[..|ops|] == ops;
      |ops| - 1
  }

  lemma WriterIsBetween(ops: seq<Op>, i: nat, k: nat)
    requires k < |ops| && |Run(EMPTY, ops[..k]).ledger| <= i < |Run(EMPTY, ops[..k + 1]).ledger|
    ensures WrittenBetween(Run(EMPTY, ops[..k]), Run(EMPTY, ops[..k + 1]), Run(EMPTY, ops), i)
  {
    RunReaches(EMPTY, ops[..k]);
    RunOne(EMPTY, ops, k);
    RunReaches(Run(EMPTY, ops[..k + 1]), ops[k + 1..]);
    RunAppends(Run(EMPTY, ops[..k + 1]), ops[k + 1..]);
  }

  lemma ReachesFurther(db: Db, op: Op)
    requires Reachable(db)
    ensures Reachable(After(db, op))
  {
    var ops :| Leads(EMPTY, ops, db);
    LeadsIffRun(EMPTY, ops, db);
    assert (ops + [op])[..|ops|] == ops;
    RunReaches(EMPTY, ops + [op]);
  }

  lemma SnapshotAt(before: Db, after: Db, db: Db, i: nat)
    requires WrittenBetween(before, after, db, i)
    ensures ReplaysAt(db.ledger, i, |after.ledger|)
  {
    var op :| after == After(before, op);
    StepAppends(before, op);
    ReachesFurther(before, op);
    assert Snapshot(after.ledger[i], after.wallets);
    LedgerReplays(after, after.ledger[i].line.user);
    assert db.ledger[..|after.ledger|] == after.ledger && db.ledger[i] == after.ledger[i];
  }

  // ---- One bet --------------------------------------------------------------------------

  predicate Terminal(bet: Bet) {
    bet.status in {BetStatus.Settled, BetStatus.Cancelled, BetStatus.Voided}
  }

  /** The entries of one bet: each user's net lock is the live stake, so zero once the bet is finished. */
  lemma BetLocksReleasedOnce(db: Db, b: BetId, u: UserId)
    requires Reachable(db) && b in db.bets
    ensures Total(db.ledger, OfRef(Ref.BetRef(b), u, Locked)) == LiveStake(u)(db.bets[b])
    ensures Terminal(db.bets[b]) ==> Total(db.ledger, OfRef(Ref.BetRef(b), u, Locked)) == 0
  {
    ReachableParts(db);
    assert ParticipantsOk(db, db.bets[b]);
    assert Total(db.ledger, OfRef(Ref.BetRef(b), u, Locked)) == Position(RowAt(db, Ref.BetRef(b)), u, Locked);
  }

  ghost function NetAvailable(db: Db, b: BetId, u: UserId): int {
    Total(db.ledger, OfRef(Ref.BetRef(b), u, Available))
  }

  /** A finished bet: what its entries moved for both users and the platform's fee sum to zero. */
  lemma FinishedBetZeroSum(db: Db, b: BetId)
    requires Reachable(db) && b in db.bets && Terminal(db.bets[b])
    ensures var bet := db.bets[b];
            NetAvailable(db, b, bet.creator)
            + (if bet.opponent.Some? then NetAvailable(db, b, bet.opponent.value) else 0)
            + Total(db.platformLedger, AmountFor(b)) == 0
  {
    ReachableParts(db);
    FinishedBet(db, b);
  }

  lemma FinishedBet(db: Db, b: BetId)
    requires BetsOk(db) && Itemised(db) && PlatformItems(db) && b in db.bets && Terminal(db.bets[b])
    ensures var bet := db.bets[b];
            NetAvailable(db, b, bet.creator)
            + (if bet.opponent.Some? then NetAvailable(db, b, bet.opponent.value) else 0)
            + Total(db.platformLedger, AmountFor(b)) == 0
  {
    var bet := db.bets[b];
    assert ParticipantsOk(db, bet) && ResultFieldsOk(bet);
    BetProofs.BetZeroSum(db, bet);
    assert NetAvailable(db, b, bet.creator) == Position(RowAt(db, Ref.BetRef(b)), bet.creator, Available);
    assert PlatformItem(db, b);
    if bet.opponent.Some? {
      assert NetAvailable(db, b, bet.opponent.value)
             == Position(RowAt(db, Ref.BetRef(b)), bet.opponent.value, Available);
    }
  }

  // ---- Exits: no stuck funds ------------------------------------------------------------

  lemma RowsHoldNothingNegative(db: Db, u: UserId)
    requires BetsOk(db) && RequestsOk(db)
    ensures forall b :: b in db.bets ==> 0 <= BetAt(u, Locked)(db.bets[b])
    ensures forall w :: w in db.withdrawals ==> 0 <= WithdrawalAt(u, Locked)(db.withdrawals[w])
  {
    forall b | b in db.bets ensures 0 <= BetAt(u, Locked)(db.bets[b]) {
      assert ParticipantsOk(db, db.bets[b]);
    }
  }

  /** A wallet always has locked what any one live row of the user needs. */
  lemma LockedCovers(db: Db, u: UserId)
    requires Sheet(db) && BetsOk(db) && RequestsOk(db) && u in db.wallets
    ensures forall b :: b in db.bets ==> HeldFor(db.bets[b], u) <= db.wallets[u].locked
    ensures forall w :: w in db.withdrawals ==> WithdrawalPosition(db.withdrawals[w], u, Locked) <= db.wallets[u].locked
  {
    assert RowsTotal(db, u, Locked) == BalanceOf(db, u, Locked);
    NoDepositIsLocked(db, u);
    RowsHoldNothingNegative(db, u);
    SumZero(db.bets);
    SumZero(db.withdrawals);
    SumAtMost(db.bets, Zero<Bet>(), BetAt(u, Locked));
    SumAtMost(db.withdrawals, Zero<Withdrawal>(), WithdrawalAt(u, Locked));
    forall b | b in db.bets ensures HeldFor(db.bets[b], u) <= db.wallets[u].locked {
      SumCovers(db.bets, b, BetAt(u, Locked));
    }
    forall w | w in db.withdrawals ensures WithdrawalPosition(db.withdrawals[w], u, Locked) <= db.wallets[u].locked {
      SumCovers(db.withdrawals, w, WithdrawalAt(u, Locked));
    }
  }

  lemma ReleaseNeverRefused(db: Db, b: BetId, u: UserId)
    requires Sheet(db) && Solvent(db) && BetsOk(db) && RequestsOk(db)
    requires b in db.bets && u in db.wallets && HeldFor(db.bets[b], u) == db.bets[b].stake
    ensures ReleaseRefusal(db.wallets, u, db.bets[b].stake).None?
  {
    assert ParticipantsOk(db, db.bets[b]);
    LockedCovers(db, u);
  }

  lemma InvReleasable(db: Db, b: BetId)
    requires Inv(db) && b in db.bets
    ensures Sheet(db) && Solvent(db) && BetsOk(db) && RequestsOk(db) && ParticipantsOk(db, db.bets[b])
  {
    InvRows(db);
    InvMoney(db);
  }

  /** Voiding an existing bet succeeds exactly when it is open or matched. */
  lemma VoidSucceedsIff(db: Db, b: BetId)
    requires Inv(db)
    ensures VoidBet(db, b).Ok? <==>
            b in db.bets && db.bets[b].status in {BetStatus.Open, BetStatus.Matched}
  {
    if b in db.bets && db.bets[b].status in {BetStatus.Open, BetStatus.Matched} {
      var bet := db.bets[b];
      InvReleasable(db, b);
      ReleaseNeverRefused(db, b, bet.creator);
      if bet.status == BetStatus.Matched {
        ReleaseNeverRefused(db, b, bet.opponent.value);
      }
    }
  }

  /** Cancelling succeeds exactly for the creator of an open bet. */
  lemma CancelSucceedsIff(db: Db, b: BetId, requester: UserId)
    requires Inv(db)
    ensures CancelBet(db, b, requester).Ok? <==>
            b in db.bets && db.bets[b].creator == requester && db.bets[b].status == BetStatus.Open
  {
    if b in db.bets && db.bets[b].status == BetStatus.Open {
      InvReleasable(db, b);
      ReleaseNeverRefused(db, b, db.bets[b].creator);
    }
  }

  lemma HoldNeverRefused(db: Db, w: WithdrawalId)
    requires Sheet(db) && BetsOk(db) && RequestsOk(db) && w in db.withdrawals && OnHold(db.withdrawals[w])
    ensures HeldRefusal(db.wallets, db.withdrawals[w]).None?
  {
    LockedCovers(db, db.withdrawals[w].user);
    assert WithdrawalPosition(db.withdrawals[w], db.withdrawals[w].user, Locked) == db.withdrawals[w].amount;
  }

  /** Every held withdrawal can be finished: only its status decides how. */
  lemma WithdrawalFinishesIff(db: Db, w: WithdrawalId)
    requires Inv(db)
    ensures CompleteWithdrawal(db, w).Ok? <==>
            w in db.withdrawals && db.withdrawals[w].status in {WithdrawalStatus.Approved, WithdrawalStatus.Processing}
    ensures ReleaseWithdrawal(db, w, WithdrawalStatus.Rejected).Ok? <==>
            w in db.withdrawals && db.withdrawals[w].status in {WithdrawalStatus.Pending, WithdrawalStatus.Approved}
    ensures ReleaseWithdrawal(db, w, WithdrawalStatus.Failed).Ok? <==>
            w in db.withdrawals && OnHold(db.withdrawals[w])
  {
    if w in db.withdrawals && OnHold(db.withdrawals[w]) {
      InvHeld(db, w);
    }
  }

  lemma InvHeld(db: Db, w: WithdrawalId)
    requires Inv(db) && w in db.withdrawals && OnHold(db.withdrawals[w])
    ensures HeldRefusal(db.wallets, db.withdrawals[w]).None? && 0 < db.withdrawals[w].amount
    ensures db.withdrawals[w].user in db.wallets && 0 <= db.wallets[db.withdrawals[w].user].available
  {
    InvRows(db);
    InvMoney(db);
    HoldNeverRefused(db, w);
  }

  /** The fee rows and the platform account a settlement needs besides its bet. */
  predicate Configured(db: Db, now: int) {
    ActiveRow(db.fees, WinnerFee, now).Some? && ActiveRow(db.fees, NoWinnerFee, now).Some? && db.platform.Some?
  }

  /** The path a queued bet will be settled on. */
  function PathOf(db: Db, bet: Bet): SettlementOutcome
    requires bet.matchId in db.matches && db.matches[bet.matchId].outcome.Some? && bet.opponentPrediction.Some?
  {
    DeterminePath(db.matches[bet.matchId].outcome.value, bet.creatorPrediction, bet.opponentPrediction.value)
  }

  /** A queued bet never fails for want of a result, an opponent or locked money. */
  lemma QueuedIsJudged(db: Db, b: BetId, now: int)
    requires Inv(db) && b in db.bets && db.bets[b].status == BetStatus.PendingSettlement
    ensures var bet := db.bets[b];
            && bet.opponent.Some? && bet.opponentPrediction.Some?
            && bet.matchId in db.matches && db.matches[bet.matchId].outcome.Some?
            && bet.creator in db.wallets && bet.opponent.value in db.wallets && bet.creator != bet.opponent.value
            && bet.stake <= db.wallets[bet.creator].locked && bet.stake <= db.wallets[bet.opponent.value].locked
            && Money.MIN_STAKE <= bet.stake
  {
    var bet := db.bets[b];
    InvReleasable(db, b);
    assert VerdictOk(db, bet) by {
      InvRows(db);
    }
    assert HeldFor(bet, bet.creator) == bet.stake && HeldFor(bet, bet.opponent.value) == bet.stake;
    LockedCovers(db, bet.creator);
    LockedCovers(db, bet.opponent.value);
  }

  /** Fee rows and platform account exist and, if somebody won, the winner fee leaves over half a
      cent of the pool. */
  predicate Payable(db: Db, b: BetId, now: int) {
    && b in db.bets && db.bets[b].matchId in db.matches && db.bets[b].opponentPrediction.Some?
    && db.matches[db.bets[b].matchId].outcome.Some?
    && Configured(db, now)
    && (PathOf(db, db.bets[b]) != NoWinner ==>
          2 * (2 * db.bets[b].stake) * (Money.RATE_SCALE - ActiveRow(db.fees, WinnerFee, now).value.rate)
          > Money.RATE_SCALE)
  }

  /** Settling a queued bet succeeds exactly when the configuration makes it payable; its result, its
      opponent and the locked money are always there. */
  lemma SettleSucceedsIff(db: Db, b: BetId, now: int)
    requires Inv(db) && b in db.bets && db.bets[b].status == BetStatus.PendingSettlement
    ensures db.bets[b].matchId in db.matches && db.matches[db.bets[b].matchId].outcome.Some?
            && db.bets[b].opponentPrediction.Some?
    ensures SettleBet(db, b, now).Ok? <==> Payable(db, b, now)
  {
    QueuedIsJudged(db, b, now);
    if ActiveRow(db.fees, WinnerFee, now).Some? && ActiveRow(db.fees, NoWinnerFee, now).Some? {
      assert RatesOk(db) && Solvent(db) by {
        InvRows(db);
        InvMoney(db);
      }
      SettleRefusedIff(db, b, now);
    }
  }

  lemma SettleRefusedIff(db: Db, b: BetId, now: int)
    requires RatesOk(db) && Solvent(db) && b in db.bets && db.bets[b].status == BetStatus.PendingSettlement
    requires ActiveRow(db.fees, WinnerFee, now).Some? && ActiveRow(db.fees, NoWinnerFee, now).Some?
    requires var bet := db.bets[b];
             && bet.opponent.Some? && bet.opponentPrediction.Some?
             && bet.matchId in db.matches && db.matches[bet.matchId].outcome.Some?
             && bet.creator in db.wallets && bet.opponent.value in db.wallets
             && bet.stake <= db.wallets[bet.creator].locked && bet.stake <= db.wallets[bet.opponent.value].locked
             && Money.MIN_STAKE <= bet.stake
    ensures Judge(db.bets[b], db.matches, db.fees, now).Ok?
    ensures SettlementRefusal(db.wallets, db.bets[b], Judge(db.bets[b], db.matches, db.fees, now).value).None? <==>
            (PathOf(db, db.bets[b]) != NoWinner ==>
               2 * (2 * db.bets[b].stake) * (Money.RATE_SCALE - ActiveRow(db.fees, WinnerFee, now).value.rate)
               > Money.RATE_SCALE)
  {
    var bet := db.bets[b];
    BetProofs.VerdictIsGood(db, bet, now);
    var v := Judge(bet, db.matches, db.fees, now).value;
    Money.ExactSplit(bet.stake, v.winnerRate);
    Money.ExactSplit(bet.stake, v.noWinnerRate);
    Money.PayoutPositive(bet.stake, v.winnerRate);
  }

  predicate Applies(row: FeeRow, feeType: FeeType, now: int) {
    row.feeType == feeType && row.effectiveFrom <= now
  }

  /** The row has taken effect and no other row that has is later. */
  predicate InForce(fees: seq<FeeRow>, row: FeeRow, feeType: FeeType, now: int) {
    row in fees && Applies(row, feeType, now)
    && forall r :: r in fees && Applies(r, feeType, now) ==> r.effectiveFrom <= row.effectiveFrom
  }

  /** A rate is in force exactly when some row of the type has taken effect, and it is the latest such row's. */
  lemma {:induction false} ActiveRowIsLatest(fees: seq<FeeRow>, feeType: FeeType, now: int)
    ensures ActiveRow(fees, feeType, now).Some? <==> exists r :: r in fees && Applies(r, feeType, now)
    ensures ActiveRow(fees, feeType, now).Some? ==> InForce(fees, ActiveRow(fees, feeType, now).value, feeType, now)
  {
    if fees != [] {
      var before, last := fees[..|fees| - 1], fees[|fees| - 1];
      ActiveRowIsLatest(before, feeType, now);
      assert fees == before + [last];
      assert forall r :: r in fees <==> r in before || r == last;
      if ActiveRow(fees, feeType, now).Some? {
        var row := ActiveRow(fees, feeType, now).value;
        assert row in fees && Applies(row, feeType, now);
      } else {
        assert !Applies(last, feeType, now);
      }
    }
  }

  // ---- Results --------------------------------------------------------------------------

  /** Every settled bet agrees with the result of its match as it stands now, and every queued or
      settled bet rests on a confirmed one. */
  lemma SettledResultsStayRight(db: Db, b: BetId)
    requires Reachable(db) && b in db.bets
    requires db.bets[b].status in {BetStatus.PendingSettlement, BetStatus.Settled}
    ensures var bet := db.bets[b];
            && bet.matchId in db.matches && db.matches[bet.matchId].outcome.Some? && bet.opponentPrediction.Some?
            && db.matches[bet.matchId].confirmedAt.Some? && db.matches[bet.matchId].status.Completed?
            && (bet.status == BetStatus.Settled ==>
                  bet.settlement == Some(PathOf(db, bet)) && bet.winner == WinnerOf(bet, PathOf(db, bet)))
  {
    ReachableInv(db);
    BetProofs.InvBet(db, b);
  }

  /** Whatever is confirmed at some point of a run stays the result from then on. */
  lemma ConfirmedForEver(early: Db, late: Db, m: MatchId)
    requires Reachable(early) && Reaches(early, late)
    requires m in early.matches && early.matches[m].confirmedAt.Some?
    ensures m in late.matches
    ensures var e, l := early.matches[m], late.matches[m];
            l.outcome == e.outcome && l.homeScore == e.homeScore && l.awayScore == e.awayScore
            && l.status == e.status && l.confirmedAt == e.confirmedAt
  {
    ReachableInv(early);
    var ops :| Leads(early, ops, late);
    LeadsIffRun(early, ops, late);
    RunFreezes(early, ops);
  }

  // ---- Audit ----------------------------------------------------------------------------

  /** Every bet's events are a word of the life-cycle automaton and replay to the stored status. */
  lemma AuditReplays(db: Db, b: BetId)
    requires Reachable(db) && b in db.bets
    ensures Replay(db.bets[b].events) == At(db.bets[b].status)
  {
    ReachableInv(db);
    BetProofs.InvBet(db, b);
  }

  /** From any reachable state on, bets only move to later stages and a finished bet never changes. */
  lemma FinishedForEver(early: Db, late: Db, b: BetId)
    requires Reachable(early) && Reaches(early, late) && b in early.bets
    ensures b in late.bets && Later(early.bets[b], late.bets[b])
    ensures Terminal(early.bets[b]) ==> late.bets[b] == early.bets[b]
  {
    ReachableInv(early);
    var ops :| Leads(early, ops, late);
    LeadsIffRun(early, ops, late);
    RunAdvances(early, ops);
    assert Later(early.bets[b], late.bets[b]);
  }

  // ---- Deposits -------------------------------------------------------------------------

  /** Whatever notifications and admin calls arrive, in any order and however often, the ledger credits
      a deposit exactly once if it is completed and never otherwise, and only by its amount. */
  lemma DepositCreditedExactlyOnce(db: Db, d: DepositId, u: UserId)
    requires Reachable(db)
    ensures Total(db.ledger, CreditsOf(d)) == (if DepositDone(db, d) then 1 else 0)
    ensures Total(db.ledger, OfRef(Ref.DepositRef(d), u, Available))
            == (if DepositDone(db, d) && db.deposits[d].user == u then db.deposits[d].amount else 0)
    ensures Total(db.ledger, OfRef(Ref.DepositRef(d), u, Locked)) == 0
  {
    ReachableParts(db);
    var ref := Ref.DepositRef(d);
    assert Total(db.ledger, OfRef(ref, u, Available)) == Position(RowAt(db, ref), u, Available);
    assert Total(db.ledger, OfRef(ref, u, Locked)) == Position(RowAt(db, ref), u, Locked);
  }

  /** The entry is the credit of a completed deposit: its user, its amount, its record. */
  predicate CreditsDeposit(db: Db, e: LedgerEntry) {
    && e.ref.DepositRef? && DepositDone(db, e.ref.deposit)
    && var d := db.deposits[e.ref.deposit];
       e.line == Line(d.user, EntryType.DepositCredit, Available, Credit, d.amount)
  }

  predicate CreditsNamed(db: Db) {
    forall i :: 0 <= i < |db.ledger| && db.ledger[i].line.kind.DepositCredit? ==> CreditsDeposit(db, db.ledger[i])
  }

  /** The entries that `after` adds, as far as they are deposit credits, are credits of completed deposits. */
  predicate NewCreditsNamed(db: Db, after: Db) {
    forall i :: |db.ledger| <= i < |after.ledger| && after.ledger[i].line.kind.DepositCredit? ==>
      CreditsDeposit(after, after.ledger[i])
  }

  lemma DepositsNameCredits(db: Db, op: Op)
    requires MovesDeposits(op)
    ensures NewCreditsNamed(db, After(db, op))
  {
  }

  lemma SettlingCreditsNoDeposit(db: Db, id: BetId, now: int)
    ensures NewCreditsNamed(db, Keep(db, SettleBet(db, id, now)))
  {
  }

  lemma BetsCreditNoDeposit(db: Db, op: Op)
    requires MovesBets(op)
    ensures NewCreditsNamed(db, After(db, op))
  {
    if op.OpSettleBet? {
      SettlingCreditsNoDeposit(db, op.bet, op.now);
    }
  }

  lemma RestCreditsNoDeposit(db: Db, op: Op)
    requires !MovesBets(op) && !MovesDeposits(op)
    ensures NewCreditsNamed(db, After(db, op))
  {
  }

  lemma NamedStays(db: Db, after: Db)
    requires CreditsNamed(db) && NewCreditsNamed(db, after) && db.ledger <= after.ledger
    requires DepositsAdvance(db.deposits, after.deposits)
    ensures CreditsNamed(after)
  {
    forall i | 0 <= i < |after.ledger| && after.ledger[i].line.kind.DepositCredit?
      ensures CreditsDeposit(after, after.ledger[i])
    {
      if i < |db.ledger| {
        assert CreditsDeposit(db, db.ledger[i]);
      }
    }
  }

  lemma StepKeepsNamed(db: Db, op: Op)
    requires CreditsNamed(db)
    ensures CreditsNamed(After(db, op))
  {
    if MovesDeposits(op) {
      DepositsNameCredits(db, op);
    } else if MovesBets(op) {
      BetsCreditNoDeposit(db, op);
    } else {
      RestCreditsNoDeposit(db, op);
    }
    StepAppends(db, op);
    StepAdvancesDeposits(db, op);
    NamedStays(db, After(db, op));
  }

  lemma {:induction false} RunKeepsNamed(db: Db, ops: seq<Op>)
    requires CreditsNamed(db)
    ensures CreditsNamed(Run(db, ops))
  {
    if ops != [] {
      RunKeepsNamed(db, ops[..|ops| - 1]);
      StepKeepsNamed(Run(db, ops[..|ops| - 1]), ops[|ops| - 1]);
    }
  }

  /** The other direction: every deposit credit in the ledger is that of one completed deposit, to its user
      and of its amount. */
  lemma EveryCreditIsADeposit(db: Db, i: nat)
    requires Reachable(db) && i < |db.ledger| && db.ledger[i].line.kind.DepositCredit?
    ensures CreditsDeposit(db, db.ledger[i])
  {
    var ops :| Leads(EMPTY, ops, db);
    LeadsIffRun(EMPTY, ops, db);
    RunKeepsNamed(EMPTY, ops);
  }

  // ---- Platform -------------------------------------------------------------------------

  /** The platform's balance, its ledger and the fees of the settled bets agree, entry by entry. */
  lemma PlatformBooks(db: Db, b: BetId, i: nat)
    requires Reachable(db)
    ensures PlatformBalance(db) == Total(db.platformLedger, AmountAt())
    ensures PlatformBalance(db) == Sum(db.bets, FeeAt())
    ensures i < |db.platformLedger| ==>
      db.platformLedger[i].balanceAfter == Total(db.platformLedger[..i + 1], AmountAt())
    ensures Total(db.platformLedger, CountFor(b)) == (if IsSettled(db, b) then 1 else 0)
    ensures Total(db.platformLedger, AmountFor(b)) == (if b in db.bets then FeeFrom(db.bets[b]) else 0)
  {
    ReachableParts(db);
    assert PlatformItem(db, b);
  }

  /** The fee of a settled bet before rounding, in ten-thousandths of a cent. */
  function ExactFee(bet: Bet): int {
    if bet.status != BetStatus.Settled then 0
    else if bet.winnerRate.Some? then 2 * bet.stake * bet.winnerRate.value
    else if bet.noWinnerRate.Some? then 2 * bet.stake * bet.noWinnerRate.value
    else 0
  }

  /** Half a cent for a bet somebody won, one cent for a bet nobody won. */
  function Tolerance(bet: Bet): int {
    if bet.status != BetStatus.Settled then 0
    else if bet.settlement == Some(NoWinner) then 10000
    else 5000
  }

  function ExactAt(): Bet -> int {
    (bet: Bet) => ExactFee(bet)
  }

  function ToleranceAt(): Bet -> int {
    (bet: Bet) => Tolerance(bet)
  }

  predicate WithinTolerance(bet: Bet) {
    -Tolerance(bet) <= Money.RATE_SCALE * FeeFrom(bet) - ExactFee(bet) <= Tolerance(bet)
  }

  lemma WonWithinTolerance(bet: Bet)
    requires ResultFieldsOk(bet) && bet.status == BetStatus.Settled && 0 <= bet.stake
    requires bet.settlement != Some(NoWinner)
    ensures WithinTolerance(bet)
  {
    Money.ExactSplit(bet.stake, bet.winnerRate.value);
  }

  /** Twice a fee that is within half a cent is within one cent of twice the exact fee. */
  lemma TwiceWithin(stake: int, rate: int, fee: int)
    requires -5000 <= Money.RATE_SCALE * fee - stake * rate <= 5000
    ensures -10000 <= Money.RATE_SCALE * (2 * fee) - 2 * stake * rate <= 10000
  {
    assert 2 * stake * rate == 2 * (stake * rate);
  }

  lemma UnwonWithinTolerance(bet: Bet)
    requires ResultFieldsOk(bet) && bet.status == BetStatus.Settled && 0 <= bet.stake
    requires bet.settlement == Some(NoWinner)
    ensures WithinTolerance(bet)
  {
    var rate := bet.noWinnerRate.value;
    Money.ExactSplit(bet.stake, rate);
    TwiceWithin(bet.stake, rate, Money.NoWinnerAmounts(bet.stake, rate).fee);
  }

  lemma FeeWithinTolerance(db: Db, bet: Bet)
    requires ParticipantsOk(db, bet) && ResultFieldsOk(bet)
    ensures WithinTolerance(bet)
  {
    if bet.status == BetStatus.Settled && bet.settlement == Some(NoWinner) {
      UnwonWithinTolerance(bet);
    } else if bet.status == BetStatus.Settled {
      WonWithinTolerance(bet);
    }
  }

  lemma {:induction false} ScaledSums(bets: map<BetId, Bet>)
    requires forall b :: b in bets ==> WithinTolerance(bets[b])
    ensures -Sum(bets, ToleranceAt()) <= Money.RATE_SCALE * Sum(bets, FeeAt()) - Sum(bets, ExactAt())
            <= Sum(bets, ToleranceAt())
    decreases |bets|
  {
    if bets != map[] {
      var b :| b in bets;
      SumRemove(bets, b, ToleranceAt());
      SumRemove(bets, b, FeeAt());
      SumRemove(bets, b, ExactAt());
      ScaledSums(bets - {b});
    }
  }

  /** In every reachable state the platform's balance differs from the exact fees by at most half a
      cent per bet with a winner and one cent per bet without. */
  lemma RoundingBound(db: Db)
    requires Reachable(db)
    ensures -Sum(db.bets, ToleranceAt()) <= Money.RATE_SCALE * PlatformBalance(db) - Sum(db.bets, ExactAt())
            <= Sum(db.bets, ToleranceAt())
  {
    ReachableParts(db);
    forall b | b in db.bets ensures WithinTolerance(db.bets[b]) {
      assert ParticipantsOk(db, db.bets[b]) && ResultFieldsOk(db.bets[b]);
      FeeWithinTolerance(db, db.bets[b]);
    }
    ScaledSums(db.bets);
  }
}
