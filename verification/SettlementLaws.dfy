/** Who is paid what by a settlement, spelled out in predictions, results, rates and balances alone. */
module SettlementLaws {
  import opened Wrappers
  import opened Tables
  import opened Positions
  import opened Rules
  import opened Invariants
  import opened Runs
  import opened WalletService
  import opened BetLaws
  import BetProofs
  import Money
  import SettlementService
  import Theorems

  // ---- The rate in force ----------------------------------------------------------------

  /** Row `i` is the latest of its type that has taken effect, and the first of equally late ones. */
  predicate Chosen(fees: seq<FeeRow>, i: nat, feeType: FeeType, now: int) {
    && i < |fees| && fees[i].feeType == feeType && fees[i].effectiveFrom <= now
    && forall j :: 0 <= j < |fees| && fees[j].feeType == feeType && fees[j].effectiveFrom <= now ==>
         fees[j].effectiveFrom < fees[i].effectiveFrom || (fees[j].effectiveFrom == fees[i].effectiveFrom && i <= j)
  }

  lemma {:induction false} ChosenIsActive(fees: seq<FeeRow>, i: nat, feeType: FeeType, now: int)
    requires Chosen(fees, i, feeType, now)
    ensures ActiveRow(fees, feeType, now) == Some(fees[i])
  {
    var before, last := fees[..|fees| - 1], |fees| - 1;
    if i < last {
      ChosenIsActive(before, i, feeType, now);
    } else {
      Theorems.ActiveRowIsLatest(before, feeType, now);
    }
  }

  lemma {:induction false} ActiveIsChosen(fees: seq<FeeRow>, feeType: FeeType, now: int) returns (i: nat)
    requires ActiveRow(fees, feeType, now).Some?
    ensures Chosen(fees, i, feeType, now)
  {
    var before, last := fees[..|fees| - 1], |fees| - 1;
    if ActiveRow(before, feeType, now).Some? {
      i := ActiveIsChosen(before, feeType, now);
      ChosenIsActive(before, i, feeType, now);
      if fees[last].feeType == feeType && fees[last].effectiveFrom <= now
         && before[i].effectiveFrom < fees[last].effectiveFrom {
        i := last;
      }
    } else {
      i := last;
      NoneApplies(before, feeType, now);
    }
  }

  lemma NoneApplies(fees: seq<FeeRow>, feeType: FeeType, now: int)
    requires ActiveRow(fees, feeType, now).None?
    ensures forall j :: 0 <= j < |fees| ==> !(fees[j].feeType == feeType && fees[j].effectiveFrom <= now)
  {
    Theorems.ActiveRowIsLatest(fees, feeType, now);
    forall j | 0 <= j < |fees| ensures !(fees[j].feeType == feeType && fees[j].effectiveFrom <= now) {
      assert fees[j] in fees && !Theorems.Applies(fees[j], feeType, now);
    }
  }

  // ---- Who was right --------------------------------------------------------------------

  /** The bet's match has this result. */
  predicate ResultIs(db: Db, bet: Bet, result: Outcome) {
    bet.matchId in db.matches && db.matches[bet.matchId].outcome == Some(result)
  }

  /** A settled bet was won by whoever predicted the result of its match, and by nobody if nobody did. */
  lemma SettledForTheRightOne(db: Db, b: BetId)
    requires Reachable(db) && b in db.bets && db.bets[b].status == BetStatus.Settled
    ensures var bet := db.bets[b];
            && bet.matchId in db.matches && db.matches[bet.matchId].outcome.Some?
            && bet.opponent.Some? && bet.opponent != Some(bet.creator)
            && bet.opponentPrediction != Some(bet.creatorPrediction)
            && var result := db.matches[bet.matchId].outcome;
               && (bet.winner == Some(bet.creator) <==> result == Some(bet.creatorPrediction))
               && (bet.winner == bet.opponent <==> result == bet.opponentPrediction)
               && (bet.winner.None? <==> result != Some(bet.creatorPrediction) && result != bet.opponentPrediction)
               && (bet.settlement == Some(CreatorWins) <==> bet.winner == Some(bet.creator))
               && (bet.settlement == Some(OpponentWins) <==> bet.winner == bet.opponent)
               && (bet.settlement == Some(NoWinner) <==> bet.winner.None?)
  {
    Theorems.SettledResultsStayRight(db, b);
    ReachableInv(db);
    BetProofs.InvBet(db, b);
  }

  /** Somebody predicted the result of the bet's match. */
  predicate SomebodyRight(db: Db, bet: Bet) {
    || ResultIs(db, bet, bet.creatorPrediction)
    || (bet.opponentPrediction.Some? && ResultIs(db, bet, bet.opponentPrediction.value))
  }

  // ---- When a bet settles ---------------------------------------------------------------

  ghost predicate RateExists(db: Db, feeType: FeeType, now: int) {
    exists i: nat :: Chosen(db.fees, i, feeType, now)
  }

  /** If somebody was right, the pool less the fee comes to more than half a cent. */
  ghost predicate SharePays(db: Db, bet: Bet, now: int) {
    SomebodyRight(db, bet) ==>
      exists i: nat :: Chosen(db.fees, i, WinnerFee, now) && 2 * (2 * bet.stake) * (10000 - db.fees[i].rate) > 10000
  }

  /** A bet settles if and only if it is queued, both rates are in force, the winner's share pays and there is a
      platform account; otherwise the first failing check names the error. */
  lemma SettleAnswers(db: Db, b: BetId, now: int)
    requires Inv(db)
    ensures var answer, rates := Step(db, OpSettleBet(b, now)),
                                 RateExists(db, WinnerFee, now) && RateExists(db, NoWinnerFee, now);
            && (b !in db.bets ==> answer == Err(NotFound))
            && (b in db.bets && db.bets[b].status != BetStatus.PendingSettlement ==> answer == Err(Idempotency))
            && (b in db.bets && db.bets[b].status == BetStatus.PendingSettlement ==>
                  && (answer.Ok? <==> rates && SharePays(db, db.bets[b], now) && db.platform.Some?)
                  && (answer.Err? ==> answer == Err(if rates && !SharePays(db, db.bets[b], now) then Validation
                                                    else NotFound)))
  {
    if b in db.bets && db.bets[b].status == BetStatus.PendingSettlement {
      RateIffActive(db, WinnerFee, now);
      RateIffActive(db, NoWinnerFee, now);
      QueuedAnswers(db, b, now);
    }
  }

  lemma RateIffActive(db: Db, feeType: FeeType, now: int)
    ensures RateExists(db, feeType, now) <==> ActiveRow(db.fees, feeType, now).Some?
    ensures forall i: nat :: Chosen(db.fees, i, feeType, now) ==> ActiveRow(db.fees, feeType, now) == Some(db.fees[i])
  {
    if ActiveRow(db.fees, feeType, now).Some? {
      var i := ActiveIsChosen(db.fees, feeType, now);
    }
    forall i: nat | Chosen(db.fees, i, feeType, now) ensures ActiveRow(db.fees, feeType, now) == Some(db.fees[i]) {
      ChosenIsActive(db.fees, i, feeType, now);
    }
  }

  /** Somebody was right exactly if the path has a winner. */
  lemma RightIffPath(db: Db, b: BetId, now: int)
    requires Inv(db) && b in db.bets && db.bets[b].status == BetStatus.PendingSettlement
    requires Judge(db.bets[b], db.matches, db.fees, now).Ok?
    ensures db.bets[b].matchId in db.matches && db.matches[db.bets[b].matchId].outcome.Some?
    ensures db.bets[b].opponentPrediction.Some?
    ensures SomebodyRight(db, db.bets[b]) <==> Judge(db.bets[b], db.matches, db.fees, now).value.path != NoWinner
    ensures SomebodyRight(db, db.bets[b]) <==> Theorems.PathOf(db, db.bets[b]) != NoWinner
  {
    Theorems.QueuedIsJudged(db, b, now);
  }

  lemma ShareIff(db: Db, b: BetId, now: int)
    requires Inv(db) && b in db.bets && db.bets[b].status == BetStatus.PendingSettlement
    requires ActiveRow(db.fees, WinnerFee, now).Some? && ActiveRow(db.fees, NoWinnerFee, now).Some?
    ensures Judge(db.bets[b], db.matches, db.fees, now).Ok? && db.bets[b].opponent.Some?
    ensures SharePays(db, db.bets[b], now) <==>
            SettlementRefusal(db.wallets, db.bets[b], Judge(db.bets[b], db.matches, db.fees, now).value).None?
  {
    Theorems.QueuedIsJudged(db, b, now);
    assert RatesOk(db) && Solvent(db) by {
      InvRows(db);
      InvMoney(db);
    }
    Theorems.SettleRefusedIff(db, b, now);
    RightIffPath(db, b, now);
    SharePaysIff(db, db.bets[b], now);
  }

  lemma SharePaysIff(db: Db, bet: Bet, now: int)
    requires ActiveRow(db.fees, WinnerFee, now).Some?
    ensures SharePays(db, bet, now) <==>
            (SomebodyRight(db, bet) ==>
               2 * (2 * bet.stake) * (10000 - ActiveRow(db.fees, WinnerFee, now).value.rate) > 10000)
  {
    RateIffActive(db, WinnerFee, now);
    var i := ActiveIsChosen(db.fees, WinnerFee, now);
  }

  lemma QueuedAnswers(db: Db, b: BetId, now: int)
    requires Inv(db) && b in db.bets && db.bets[b].status == BetStatus.PendingSettlement
    ensures var answer, rates := Step(db, OpSettleBet(b, now)),
                                 ActiveRow(db.fees, WinnerFee, now).Some? && ActiveRow(db.fees, NoWinnerFee, now).Some?;
            && (answer.Ok? <==> rates && SharePays(db, db.bets[b], now) && db.platform.Some?)
            && (answer.Err? ==> answer == Err(if rates && !SharePays(db, db.bets[b], now) then Validation
                                              else NotFound))
  {
    Theorems.QueuedIsJudged(db, b, now);
    if ActiveRow(db.fees, WinnerFee, now).Some? && ActiveRow(db.fees, NoWinnerFee, now).Some? {
      ShareIff(db, b, now);
      InvSolvent(db);
      RefusedWithValidation(db, b, now);
    }
  }

  /** The wallets of a queued bet can only be too small for a payout of nothing. */
  lemma RefusedWithValidation(db: Db, b: BetId, now: int)
    requires Solvent(db) && b in db.bets && db.bets[b].opponent.Some?
    requires Judge(db.bets[b], db.matches, db.fees, now).Ok?
    requires var bet := db.bets[b];
             bet.creator in db.wallets && bet.opponent.value in db.wallets
             && bet.stake <= db.wallets[bet.creator].locked && bet.stake <= db.wallets[bet.opponent.value].locked
    ensures SettlementRefusal(db.wallets, db.bets[b], Judge(db.bets[b], db.matches, db.fees, now).value)
            in {None, Some(Validation)}
  {
  }

  // ---- What a settlement does -----------------------------------------------------------

  /** `fee` is the exact amount, given in ten-thousandths of a cent, rounded half up. */
  predicate RoundedFee(fee: int, exact: int) {
    -5000 < 10000 * fee - exact <= 5000
  }

  /** `w` predicted the result and the other participant `l` did not. */
  predicate WonBy(db: Db, bet: Bet, w: UserId, l: UserId) {
    || (ResultIs(db, bet, bet.creatorPrediction) && w == bet.creator && bet.opponent == Some(l))
    || (&& bet.opponentPrediction.Some? && ResultIs(db, bet, bet.opponentPrediction.value)
        && bet.opponent == Some(w) && l == bet.creator)
  }

  function AsWon(bet: Bet, w: UserId, paid: int, fee: int, rate: int): Bet {
    bet.(status := BetStatus.Settled, settlement := Some(if w == bet.creator then CreatorWins else OpponentWins),
         winner := Some(w), payout := Some(paid), fee := Some(fee), winnerRate := Some(rate), noWinnerRate := None,
         events := bet.events + [BetEvent.Settled])
  }

  function WonEntries(wallets: map<UserId, Wallet>, w: UserId, l: UserId, stake: int, paid: int, b: BetId):
    seq<LedgerEntry>
    requires w in wallets && l in wallets
  {
    var ref := Ref.BetRef(b);
    [Entry(wallets, Line(w, SettlementDeduct, Locked, Debit, stake), SettlementReference, ref),
     Entry(wallets, Line(l, SettlementDeduct, Locked, Debit, stake), SettlementReference, ref),
     Entry(wallets, Line(w, PayoutCredit, Available, Credit, paid), SettlementReference, ref)]
  }

  /** The wallets after `w` was paid and both stakes were consumed. */
  function WonWallets(wallets: map<UserId, Wallet>, w: UserId, l: UserId, stake: int, paid: int): map<UserId, Wallet>
    requires w in wallets && l in wallets
  {
    Moved(Moved(wallets, w, paid, -stake), l, 0, -stake)
  }

  /** The whole state after a won bet paid `paid` to `w` and `fee` to the platform. */
  function WonState(db: Db, b: BetId, w: UserId, l: UserId, paid: int, fee: int, rate: int): Db
    requires b in db.bets && w in db.wallets && l in db.wallets && db.platform.Some?
  {
    var bet, balance := db.bets[b], db.platform.value + fee;
    var wallets := WonWallets(db.wallets, w, l, bet.stake, paid);
    db.(wallets := wallets, bets := db.bets[b := AsWon(bet, w, paid, fee, rate)],
        ledger := db.ledger + WonEntries(wallets, w, l, bet.stake, paid, b),
        platform := Some(balance),
        platformLedger := db.platformLedger + [PlatformEntry(FeeCollection, fee, b, balance, WinnerPath)])
  }

  /** What a successful settlement rests on. */
  predicate Settleable(db: Db, b: BetId) {
    && b in db.bets && db.platform.Some?
    && var bet := db.bets[b];
       && bet.status == BetStatus.PendingSettlement
       && bet.winner.None? && bet.winnerRate.None? && bet.noWinnerRate.None?
       && bet.opponent.Some? && bet.opponent.value != bet.creator
       && bet.creator in db.wallets && bet.opponent.value in db.wallets && 0 <= bet.stake
  }

  lemma SuccessIsJudged(db: Db, b: BetId, now: int) returns (v: Verdict)
    requires Inv(db) && Step(db, OpSettleBet(b, now)).Ok?
    ensures Settleable(db, b) && Judge(db.bets[b], db.matches, db.fees, now) == Ok(v) && BetProofs.GoodVerdict(v)
    ensures After(db, OpSettleBet(b, now)) == Settlement(db, b, v)
    ensures db.bets[b].creatorPrediction != db.bets[b].opponentPrediction.value
  {
    BetProofs.InvBet(db, b);
    Theorems.QueuedIsJudged(db, b, now);
    v := Judge(db.bets[b], db.matches, db.fees, now).value;
    InvRows(db);
    BetProofs.VerdictIsGood(db, db.bets[b], now);
  }

  lemma SettlesToWinner(db: Db, b: BetId, v: Verdict, w: UserId, l: UserId)
    requires Settleable(db, b)
    requires || (v.path == CreatorWins && w == db.bets[b].creator && db.bets[b].opponent == Some(l))
             || (v.path == OpponentWins && l == db.bets[b].creator && db.bets[b].opponent == Some(w))
    ensures var split := Money.WinnerAmounts(db.bets[b].stake, v.winnerRate);
            Settlement(db, b, v) == WonState(db, b, w, l, split.paid, split.fee, v.winnerRate)
  {
    SettlementService.PaidIsRebooked(db.wallets, db.bets[b], v);
    var wallets := Rebook(db.wallets, BetRow(db.bets[b]), BetRow(SettledBet(db.bets[b], v)));
    assert Post(wallets, SettlementLines(db.bets[b], v), SettlementReference, Ref.BetRef(b))
           == WonEntries(wallets, w, l, db.bets[b].stake, SplitOf(db.bets[b], v).paid, b);
  }

  lemma WonPath(db: Db, bet: Bet, now: int, v: Verdict, w: UserId, l: UserId)
    requires Judge(bet, db.matches, db.fees, now) == Ok(v) && WonBy(db, bet, w, l)
    requires Some(bet.creatorPrediction) != bet.opponentPrediction
    ensures || (v.path == CreatorWins && w == bet.creator && bet.opponent == Some(l))
            || (v.path == OpponentWins && l == bet.creator && bet.opponent == Some(w))
  {
  }

  lemma JudgedRate(db: Db, bet: Bet, now: int, v: Verdict, i: nat)
    requires Judge(bet, db.matches, db.fees, now) == Ok(v)
    ensures Chosen(db.fees, i, WinnerFee, now) ==> v.winnerRate == db.fees[i].rate
    ensures Chosen(db.fees, i, NoWinnerFee, now) ==> v.noWinnerRate == db.fees[i].rate
  {
    if Chosen(db.fees, i, WinnerFee, now) {
      ChosenIsActive(db.fees, i, WinnerFee, now);
    }
    if Chosen(db.fees, i, NoWinnerFee, now) {
      ChosenIsActive(db.fees, i, NoWinnerFee, now);
    }
  }

  /** If somebody was right, a settlement takes both stakes out of the locked balances, pays exactly that user the
      pool less the fee at the winner rate in force, and pays the fee to the platform; it records all of this
      and changes nothing else. */
  lemma WonSettlementEffect(db: Db, b: BetId, now: int, w: UserId, l: UserId, i: nat, fee: int)
    requires Inv(db) && Step(db, OpSettleBet(b, now)).Ok? && b in db.bets && WonBy(db, db.bets[b], w, l)
    requires Chosen(db.fees, i, WinnerFee, now) && RoundedFee(fee, 2 * db.bets[b].stake * db.fees[i].rate)
    ensures w in db.wallets && l in db.wallets && db.platform.Some?
    ensures After(db, OpSettleBet(b, now)) == WonState(db, b, w, l, 2 * db.bets[b].stake - fee, fee, db.fees[i].rate)
  {
    var v := SuccessIsJudged(db, b, now);
    WonPath(db, db.bets[b], now, v, w, l);
    JudgedRate(db, db.bets[b], now, v, i);
    WonWhenJudged(db, b, v, w, l, fee);
  }

  lemma WonWhenJudged(db: Db, b: BetId, v: Verdict, w: UserId, l: UserId, fee: int)
    requires Settleable(db, b) && 0 <= v.winnerRate <= 10000 && RoundedFee(fee, 2 * db.bets[b].stake * v.winnerRate)
    requires || (v.path == CreatorWins && w == db.bets[b].creator && db.bets[b].opponent == Some(l))
             || (v.path == OpponentWins && l == db.bets[b].creator && db.bets[b].opponent == Some(w))
    ensures Settlement(db, b, v) == WonState(db, b, w, l, 2 * db.bets[b].stake - fee, fee, v.winnerRate)
  {
    PoolFee(db.bets[b].stake, v.winnerRate, fee);
    SettlesToWinner(db, b, v, w, l);
  }

  lemma PoolFee(stake: int, rate: int, fee: int)
    requires 0 <= stake && 0 <= rate <= 10000 && RoundedFee(fee, 2 * stake * rate)
    ensures Money.WinnerAmounts(stake, rate) == Money.Split(2 * stake - fee, fee)
  {
    Money.ProductBounds(2 * stake, rate);
    Money.RoundHalfUpUnique(2 * stake * rate, fee);
  }

  lemma StakeFee(stake: int, rate: int, fee: int)
    requires 0 <= stake && 0 <= rate <= 10000 && RoundedFee(fee, stake * rate)
    ensures Money.NoWinnerAmounts(stake, rate) == Money.Split(stake - fee, fee)
  {
    Money.ProductBounds(stake, rate);
    Money.RoundHalfUpUnique(stake * rate, fee);
  }

  // ---- Nobody was right -----------------------------------------------------------------

  function AsUnwon(bet: Bet, paid: int, fee: int, rate: int): Bet {
    bet.(status := BetStatus.Settled, settlement := Some(NoWinner), winner := None, payout := Some(paid),
         fee := Some(2 * fee), winnerRate := None, noWinnerRate := Some(rate),
         events := bet.events + [BetEvent.Settled])
  }

  /** The three entries of one participant: fee, refund out of the locked balance, refund. */
  function ShareEntries(wallets: map<UserId, Wallet>, u: UserId, paid: int, fee: int, b: BetId): seq<LedgerEntry>
    requires u in wallets
  {
    var ref := Ref.BetRef(b);
    [Entry(wallets, Line(u, FeeDeduct, Locked, Debit, fee), SettlementReference, ref),
     Entry(wallets, Line(u, SettlementDeduct, Locked, Debit, paid), SettlementReference, ref),
     Entry(wallets, Line(u, RefundCredit, Available, Credit, paid), SettlementReference, ref)]
  }

  /** The wallets after both stakes were given back less the fee. */
  function UnwonWallets(wallets: map<UserId, Wallet>, c: UserId, o: UserId, stake: int, paid: int): map<UserId, Wallet>
    requires c in wallets && o in wallets
  {
    Moved(Moved(wallets, c, paid, -stake), o, paid, -stake)
  }

  /** The whole state after an unwon bet gave `paid` back to each participant and paid both fees to the platform. */
  function UnwonState(db: Db, b: BetId, o: UserId, paid: int, fee: int, rate: int): Db
    requires b in db.bets && db.bets[b].creator in db.wallets && o in db.wallets && db.platform.Some?
  {
    var bet, c, balance := db.bets[b], db.bets[b].creator, db.platform.value + 2 * fee;
    var wallets := UnwonWallets(db.wallets, c, o, bet.stake, paid);
    db.(wallets := wallets, bets := db.bets[b := AsUnwon(bet, paid, fee, rate)],
        ledger := db.ledger + (ShareEntries(wallets, c, paid, fee, b) + ShareEntries(wallets, o, paid, fee, b)),
        platform := Some(balance),
        platformLedger := db.platformLedger
                          + [PlatformEntry(FeeCollectionNoWinner, 2 * fee, b, balance, NoWinnerPath)])
  }

  /** If nobody was right, a settlement gives each participant the stake back less the fee at the no-winner rate in
      force, and pays both fees to the platform; it records all of this and changes nothing else. */
  lemma UnwonSettlementEffect(db: Db, b: BetId, now: int, i: nat, fee: int)
    requires Inv(db) && Step(db, OpSettleBet(b, now)).Ok? && b in db.bets && !SomebodyRight(db, db.bets[b])
    requires Chosen(db.fees, i, NoWinnerFee, now) && RoundedFee(fee, db.bets[b].stake * db.fees[i].rate)
    ensures db.platform.Some? && db.bets[b].opponent.Some?
    ensures db.bets[b].creator in db.wallets && db.bets[b].opponent.value in db.wallets
    ensures After(db, OpSettleBet(b, now))
            == UnwonState(db, b, db.bets[b].opponent.value, db.bets[b].stake - fee, fee, db.fees[i].rate)
  {
    var v := SuccessIsJudged(db, b, now);
    RightIffPath(db, b, now);
    JudgedRate(db, db.bets[b], now, v, i);
    UnwonWhenJudged(db, b, v, fee);
  }

  lemma UnwonWhenJudged(db: Db, b: BetId, v: Verdict, fee: int)
    requires Settleable(db, b) && 0 <= v.noWinnerRate <= 10000 && RoundedFee(fee, db.bets[b].stake * v.noWinnerRate)
    requires v.path == NoWinner
    ensures Settlement(db, b, v)
            == UnwonState(db, b, db.bets[b].opponent.value, db.bets[b].stake - fee, fee, v.noWinnerRate)
  {
    StakeFee(db.bets[b].stake, v.noWinnerRate, fee);
    SettlesToNobody(db, b, v);
  }

  lemma SettlesToNobody(db: Db, b: BetId, v: Verdict)
    requires Settleable(db, b) && v.path == NoWinner
    ensures var split := Money.NoWinnerAmounts(db.bets[b].stake, v.noWinnerRate);
            Settlement(db, b, v) == UnwonState(db, b, db.bets[b].opponent.value, split.paid, split.fee, v.noWinnerRate)
  {
    var bet := db.bets[b];
    SettlementService.PaidIsRebooked(db.wallets, bet, v);
    var wallets, split := Rebook(db.wallets, BetRow(bet), BetRow(SettledBet(bet, v))), SplitOf(bet, v);
    assert Post(wallets, SettlementLines(bet, v), SettlementReference, Ref.BetRef(b))
           == ShareEntries(wallets, bet.creator, split.paid, split.fee, b)
              + ShareEntries(wallets, bet.opponent.value, split.paid, split.fee, b);
  }

  /** Somebody was right: that user gains, and nobody else. */
  lemma WonGains(db: Db, b: BetId, v: Verdict, w: UserId, l: UserId, u: UserId)
    requires Settleable(db, b) && u in db.wallets && 0 < Money.WinnerAmounts(db.bets[b].stake, v.winnerRate).paid
    requires || (v.path == CreatorWins && w == db.bets[b].creator && db.bets[b].opponent == Some(l))
             || (v.path == OpponentWins && l == db.bets[b].creator && db.bets[b].opponent == Some(w))
    ensures var after := Settlement(db, b, v);
            u in after.wallets
            && (if u == w then after.wallets[u].available > db.wallets[u].available
                else after.wallets[u].available == db.wallets[u].available)
  {
    SettlesToWinner(db, b, v, w, l);
  }

  /** A settlement of a bet that somebody won raises the available balance of exactly the right predictor. */
  lemma OnlyTheRightOneGains(db: Db, b: BetId, now: int, u: UserId)
    requires Inv(db) && Step(db, OpSettleBet(b, now)).Ok? && u in db.wallets
    requires b in db.bets && SomebodyRight(db, db.bets[b])
    ensures u in After(db, OpSettleBet(b, now)).wallets
    ensures var gain := After(db, OpSettleBet(b, now)).wallets[u].available - db.wallets[u].available;
            gain >= 0 && (gain > 0 <==> exists l :: WonBy(db, db.bets[b], u, l))
  {
    var v := SuccessIsJudged(db, b, now);
    RightIffPath(db, b, now);
    var bet := db.bets[b];
    if v.path == CreatorWins {
      assert WonBy(db, bet, bet.creator, bet.opponent.value);
      WonGains(db, b, v, bet.creator, bet.opponent.value, u);
    } else {
      assert WonBy(db, bet, bet.opponent.value, bet.creator);
      WonGains(db, b, v, bet.opponent.value, bet.creator, u);
    }
  }

  /** Every exact fee has one rounding. */
  lemma FeeExists(exact: int) returns (fee: int)
    requires 0 <= exact
    ensures RoundedFee(fee, exact)
  {
    fee := Money.RoundHalfUp(exact);
  }
}
