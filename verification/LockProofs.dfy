/** Every schedule of the lock protocol is equivalent to a serial run and free of deadlock. */
module LockProofs {
  import opened Wrappers
  import opened Tables
  import opened Rules
  import opened Invariants
  import opened Movements
  import opened LockProtocol
  import MatchProofs

  // ---- What a transaction knows ---------------------------------------------------------

  predicate BetHere(db: Db, id: BetId, bet: Bet) {
    id in db.bets && db.bets[id] == bet
  }

  predicate WalletHere(db: Db, u: UserId, w: Wallet) {
    u in db.wallets && db.wallets[u] == w
  }

  /** The settlement's bet, verdict and match are still what they were when they were read. */
  predicate VerdictHere(db: Db, txn: Txn, bet: Bet, v: Verdict) {
    && txn.Settle? && BetHere(db, txn.bet, bet)
    && Judge(bet, db.matches, db.fees, txn.now) == Ok(v) && !BadAmounts(bet, v)
    && bet.opponent.Some? && bet.opponent.value != bet.creator
  }

  predicate WalletsHere(db: Db, bet: Bet, creator: Wallet, opponent: Wallet) {
    bet.opponent.Some? && WalletHere(db, bet.creator, creator) && WalletHere(db, bet.opponent.value, opponent)
  }

  predicate Fundable(bet: Bet, v: Verdict, creator: Wallet, opponent: Wallet) {
    bet.opponent.Some? && SettlementRefusal(Pair(bet, creator, opponent), bet, v).None?
  }

  predicate AdmittedHere(db: Db, txn: Txn, bet: Bet) {
    txn.Accept? && txn.active && BetHere(db, txn.bet, bet)
    && AcceptRefusal(bet, txn.user, txn.prediction, txn.now).None?
  }

  /** Everything a transaction has read is still the committed state. */
  predicate Fresh(db: Db, l: Local) {
    match l.stage
    case Begun => true
    case BetRead(bet) => BetHere(db, l.txn.bet, bet) && (l.txn.Accept? ==> l.txn.active)
    case Judged(bet, v) => VerdictHere(db, l.txn, bet, v)
    case FirstRead(bet, v, w) => VerdictHere(db, l.txn, bet, v) && WalletHere(db, First(bet), w)
    case WalletsRead(bet, v, c, o) => VerdictHere(db, l.txn, bet, v) && WalletsHere(db, bet, c, o)
    case Checked(bet, v, c, o) => VerdictHere(db, l.txn, bet, v) && WalletsHere(db, bet, c, o) && Fundable(bet, v, c, o)
    case PlatformRead(bet, v, c, o, balance) =>
      VerdictHere(db, l.txn, bet, v) && WalletsHere(db, bet, c, o) && Fundable(bet, v, c, o)
      && db.platform == Some(balance)
    case Admitted(bet) => AdmittedHere(db, l.txn, bet)
    case TakerRead(bet, w) => AdmittedHere(db, l.txn, bet) && WalletHere(db, l.txn.user, w)
    case Committed => true
    case Aborted(_) => true
  }

  // ---- Stability ------------------------------------------------------------------------

  predicate RowSame(before: Db, after: Db, row: Lockable) {
    match row
    case BetLock(b) => b in before.bets ==> BetHere(after, b, before.bets[b])
    case WalletLock(u) => u in before.wallets ==> WalletHere(after, u, before.wallets[u])
    case PlatformLock => after.platform == before.platform
  }

  /** A settlement that has read its rates and formed its verdict. */
  predicate Decided(l: Local) {
    l.stage.Judged? || l.stage.FirstRead? || l.stage.WalletsRead? || l.stage.Checked? || l.stage.PlatformRead?
  }

  /** The rates a settlement has read are still in force at its own time. */
  predicate RatesKept(before: Db, after: Db, l: Local) {
    Decided(l) && l.txn.Settle? ==>
      && ActiveRate(after.fees, WinnerFee, l.txn.now) == ActiveRate(before.fees, WinnerFee, l.txn.now)
      && ActiveRate(after.fees, NoWinnerFee, l.txn.now) == ActiveRate(before.fees, NoWinnerFee, l.txn.now)
  }

  /** `after` leaves the transaction's locked rows and rates and every confirmed result as in `before`. */
  predicate Respects(before: Db, after: Db, l: Local) {
    (forall r :: r in Held(l) ==> RowSame(before, after, r))
    && RatesKept(before, after, l) && MatchProofs.AllFrozen(before.matches, after.matches)
  }

  /** A verdict rests on a confirmed result, which no other call can change. */
  lemma VerdictStays(before: Db, after: Db, l: Local, bet: Bet, v: Verdict)
    requires Decided(l) && VerdictHere(before, l.txn, bet, v) && VerdictsOk(before)
    requires BetHere(after, l.txn.bet, bet) && RatesKept(before, after, l)
    requires MatchProofs.AllFrozen(before.matches, after.matches)
    ensures VerdictHere(after, l.txn, bet, v)
  {
    assert VerdictOk(before, before.bets[l.txn.bet]);
  }

  lemma FreshStays(before: Db, after: Db, l: Local)
    requires Fresh(before, l) && VerdictsOk(before) && Respects(before, after, l)
    ensures Fresh(after, l)
  {
    if Held(l) != {} {
      assert RowSame(before, after, BetLock(l.txn.bet));
    }
    match l.stage {
      case Judged(bet, v) => VerdictStays(before, after, l, bet, v);
      case FirstRead(bet, v, w) =>
        VerdictStays(before, after, l, bet, v);
        assert RowSame(before, after, WalletLock(First(bet)));
      case WalletsRead(bet, v, c, o) =>
        VerdictStays(before, after, l, bet, v);
        PairStays(before, after, l, bet);
      case Checked(bet, v, c, o) =>
        VerdictStays(before, after, l, bet, v);
        PairStays(before, after, l, bet);
      case PlatformRead(bet, v, c, o, balance) =>
        VerdictStays(before, after, l, bet, v);
        PairStays(before, after, l, bet);
        assert RowSame(before, after, PlatformLock);
      case TakerRead(bet, w) => assert RowSame(before, after, WalletLock(l.txn.user));
      case _ =>
    }
  }

  lemma PairStays(before: Db, after: Db, l: Local, bet: Bet)
    requires Respects(before, after, l) && {WalletLock(First(bet)), WalletLock(Second(bet))} <= Held(l)
    requires bet.opponent.Some? && bet.opponent.value != bet.creator
    ensures RowSame(before, after, WalletLock(bet.creator)) && RowSame(before, after, WalletLock(bet.opponent.value))
  {
    assert {First(bet), Second(bet)} == {bet.creator, bet.opponent.value};
    assert RowSame(before, after, WalletLock(First(bet))) && RowSame(before, after, WalletLock(Second(bet)));
  }

  // ---- One move -------------------------------------------------------------------------

  /** A move that only locks or computes keeps what is known fresh, and every lock requested comes
      after all locks held. */
  predicate AdvanceOk(db: Db, l: Local, move: Move) {
    match move
    case Lock(row, next) =>
      && Fresh(db, l.(stage := next)) && Held(l.(stage := next)) == Held(l) + {row} && row !in Held(l)
      && !Finished(l.(stage := next))
      && (forall r :: r in Held(l) ==> Before(r, row))
    case Work(next) =>
      Fresh(db, l.(stage := next)) && Held(l.(stage := next)) == Held(l) && !Finished(l.(stage := next))
    case Commit(_) => true
    case Abort(_) => true
    case Idle => Finished(l)
  }

  /** Ending a transaction has the effect of its whole call in the state it ends in. */
  predicate FinishOk(db: Db, l: Local, move: Move) {
    match move
    case Commit(after) => Step(db, OpOf(l.txn)) == Ok(after)
    case Abort(error) => Step(db, OpOf(l.txn)) == Err(error)
    case _ => true
  }

  lemma EarlyMoves(db: Db, l: Local)
    requires BetsOk(db) && Fresh(db, l) && (l.stage.Begun? || l.stage.BetRead?)
    ensures AdvanceOk(db, l, NextMove(db, l)) && FinishOk(db, l, NextMove(db, l))
  {
    if l.stage.BetRead? {
      assert ParticipantsOk(db, l.stage.bet);
    }
  }

  lemma WalletMoves(db: Db, l: Local)
    requires Fresh(db, l) && (l.stage.Judged? || l.stage.FirstRead?)
    ensures AdvanceOk(db, l, NextMove(db, l)) && FinishOk(db, l, NextMove(db, l))
  {
  }

  /** Refusals depend only on the two wallets. */
  lemma RefusalIsLocal(db: Db, bet: Bet, v: Verdict, creator: Wallet, opponent: Wallet)
    requires WalletsHere(db, bet, creator, opponent) && bet.opponent.value != bet.creator
    ensures SettlementRefusal(Pair(bet, creator, opponent), bet, v) == SettlementRefusal(db.wallets, bet, v)
  {
  }

  lemma CheckMoves(db: Db, l: Local)
    requires Fresh(db, l) && (l.stage.WalletsRead? || l.stage.Checked?)
    ensures AdvanceOk(db, l, NextMove(db, l)) && FinishOk(db, l, NextMove(db, l))
  {
    RefusalIsLocal(db, l.stage.bet, l.stage.v, l.stage.creator, l.stage.opponent);
  }

  /** What settlement writes from its local copies is exactly the atomic settlement. */
  lemma WritesSettlement(db: Db, id: BetId, bet: Bet, v: Verdict, creator: Wallet, opponent: Wallet, balance: int)
    requires BetHere(db, id, bet) && bet.status == BetStatus.PendingSettlement
    requires bet.opponent.Some? && bet.opponent.value != bet.creator
    requires WalletsHere(db, bet, creator, opponent) && db.platform == Some(balance)
    ensures WriteSettlement(db, id, bet, v, creator, opponent, balance) == Settlement(db, id, v)
  {
    SettlingMoves(db.wallets, bet, v);
  }

  lemma CommitMoves(db: Db, l: Local)
    requires Fresh(db, l) && l.stage.PlatformRead?
    ensures AdvanceOk(db, l, NextMove(db, l)) && FinishOk(db, l, NextMove(db, l))
    ensures NextMove(db, l).Commit?
  {
    var bet, v := l.stage.bet, l.stage.v;
    RefusalIsLocal(db, bet, v, l.stage.creator, l.stage.opponent);
    WritesSettlement(db, l.txn.bet, bet, v, l.stage.creator, l.stage.opponent, l.stage.balance);
  }

  lemma AdmittedMoves(db: Db, l: Local)
    requires Fresh(db, l) && l.stage.Admitted?
    ensures AdvanceOk(db, l, NextMove(db, l)) && FinishOk(db, l, NextMove(db, l))
  {
  }

  lemma TakerMoves(db: Db, l: Local)
    requires Fresh(db, l) && l.stage.TakerRead? && ParticipantsOk(db, l.stage.bet)
    ensures AdvanceOk(db, l, NextMove(db, l)) && FinishOk(db, l, NextMove(db, l))
  {
    if l.stage.w.available >= l.stage.bet.stake {
      AcceptingMoves(db.wallets, l.stage.bet, l.txn.user, l.txn.prediction);
    }
  }

  lemma MoveOk(db: Db, l: Local)
    requires BetsOk(db) && Fresh(db, l)
    ensures AdvanceOk(db, l, NextMove(db, l)) && FinishOk(db, l, NextMove(db, l))
  {
    if l.stage.Begun? || l.stage.BetRead? {
      EarlyMoves(db, l);
    } else if l.stage.Judged? || l.stage.FirstRead? {
      WalletMoves(db, l);
    } else if l.stage.WalletsRead? || l.stage.Checked? {
      CheckMoves(db, l);
    } else if l.stage.PlatformRead? {
      CommitMoves(db, l);
    } else if l.stage.Admitted? {
      AdmittedMoves(db, l);
    } else if l.stage.TakerRead? {
      TakerMoves(db, l);
    }
  }

  /** A commit writes no bet, wallet or account it has not locked, no fee row and no match. */
  lemma CommitTouchesHeld(db: Db, l: Local, row: Lockable)
    requires Fresh(db, l) && NextMove(db, l).Commit? && row !in Held(l)
    ensures RowSame(db, NextMove(db, l).after, row)
    ensures NextMove(db, l).after.fees == db.fees && NextMove(db, l).after.matches == db.matches
  {
    if l.stage.PlatformRead? {
      var bet := l.stage.bet;
      assert {First(bet), Second(bet)} == {bet.creator, bet.opponent.value};
    }
  }
}
