/** Settlement and acceptance as concurrent transactions over row locks.  A transaction locks its bet,
    then the wallets in ascending order of user, then the platform account; it reads each row when it
    gets the lock, writes everything at commit and then releases all locks.  Any other service call may
    run atomically in between as long as no open transaction has locked a row it writes. */
module LockProtocol {
  import opened Wrappers
  import opened Tables
  import opened Positions
  import opened Rules
  import opened Movements
  import Lines = LedgerLines

  type TxnId = nat

  datatype Lockable = BetLock(bet: BetId) | WalletLock(user: UserId) | PlatformLock

  /** The order in which locks are requested. */
  predicate Before(a: Lockable, b: Lockable) {
    match a
    case BetLock(x) => !b.BetLock? || x < b.bet
    case WalletLock(x) => b.PlatformLock? || (b.WalletLock? && x < b.user)
    case PlatformLock => false
  }

  datatype Txn =
    | Settle(bet: BetId, now: int)
    | Accept(bet: BetId, active: bool, user: UserId, prediction: Outcome, now: int)

  function OpOf(txn: Txn): Op {
    match txn
    case Settle(bet, now) => OpSettleBet(bet, now)
    case Accept(bet, active, user, prediction, now) => OpAcceptBet(bet, active, user, prediction, now)
  }

  datatype Stage =
    | Begun                      // nothing locked
    | BetRead(bet: Bet)          // bet locked and read
    | Judged(bet: Bet, v: Verdict)
    | FirstRead(bet: Bet, v: Verdict, w: Wallet)
    | WalletsRead(bet: Bet, v: Verdict, creator: Wallet, opponent: Wallet)
    | Checked(bet: Bet, v: Verdict, creator: Wallet, opponent: Wallet)
    | PlatformRead(bet: Bet, v: Verdict, creator: Wallet, opponent: Wallet, balance: int)
    | Admitted(bet: Bet)         // acceptance: the bet may be taken
    | TakerRead(bet: Bet, w: Wallet)
    | Committed
    | Aborted(error: Error)

  datatype Local = Local(txn: Txn, stage: Stage, position: nat)

  predicate Finished(l: Local) {
    l.stage.Committed? || l.stage.Aborted?
  }

  function First(bet: Bet): UserId {
    if bet.opponent.Some? && bet.opponent.value < bet.creator then bet.opponent.value else bet.creator
  }

  function Second(bet: Bet): UserId {
    if bet.opponent.Some? && bet.creator < bet.opponent.value then bet.opponent.value else bet.creator
  }

  function Held(l: Local): set<Lockable> {
    match l.stage
    case Begun => {}
    case BetRead(_) => {BetLock(l.txn.bet)}
    case Judged(_, _) => {BetLock(l.txn.bet)}
    case FirstRead(bet, _, _) => {BetLock(l.txn.bet), WalletLock(First(bet))}
    case WalletsRead(bet, _, _, _) => {BetLock(l.txn.bet), WalletLock(First(bet)), WalletLock(Second(bet))}
    case Checked(bet, _, _, _) => {BetLock(l.txn.bet), WalletLock(First(bet)), WalletLock(Second(bet))}
    case PlatformRead(bet, _, _, _, _) =>
      {BetLock(l.txn.bet), WalletLock(First(bet)), WalletLock(Second(bet)), PlatformLock}
    case Admitted(_) => {BetLock(l.txn.bet)}
    case TakerRead(_, _) => if l.txn.Accept? then {BetLock(l.txn.bet), WalletLock(l.txn.user)} else {}
    case Committed => {}
    case Aborted(_) => {}
  }

  /** What a transaction does next in a given database. */
  datatype Move =
    | Lock(row: Lockable, next: Stage)
    | Work(next: Stage)
    | Commit(after: Db)
    | Abort(error: Error)
    | Idle

  /** The amount checks that settlement makes before it locks any wallet. */
  predicate BadAmounts(bet: Bet, v: Verdict) {
    v.path != NoWinner && (bet.stake <= 0 || SplitOf(bet, v).fee < 0 || SplitOf(bet, v).paid <= 0)
  }

  function JudgeMove(db: Db, bet: Bet, now: int): Move {
    match Judge(bet, db.matches, db.fees, now)
    case Err(e) => Abort(e)
    case Ok(v) => if BadAmounts(bet, v) then Abort(Validation) else Work(Judged(bet, v))
  }

  /** The two wallets as read, for the checks that need both. */
  function Pair(bet: Bet, creator: Wallet, opponent: Wallet): map<UserId, Wallet> {
    if bet.opponent.Some? then map[bet.creator := creator, bet.opponent.value := opponent]
    else map[bet.creator := creator]
  }

  function CheckMove(bet: Bet, v: Verdict, creator: Wallet, opponent: Wallet): Move {
    if bet.opponent.None? then Abort(Validation)
    else
      var refusal := SettlementRefusal(Pair(bet, creator, opponent), bet, v);
      if refusal.Some? then Abort(refusal.value) else Work(Checked(bet, v, creator, opponent))
  }

  /** The writes of a settlement, all computed from what was read under the locks. */
  function WriteSettlement(db: Db, id: BetId, bet: Bet, v: Verdict, creator: Wallet, opponent: Wallet,
                           balance: int): Db
  {
    if bet.opponent.None? then db
    else
      var c, o := bet.creator, bet.opponent.value;
      var wallets := db.wallets[c := SettledWallet(creator, bet, v, c)][o := SettledWallet(opponent, bet, v, o)];
      var fee := TotalFee(bet, v);
      db.(wallets := wallets,
          bets := db.bets[id := SettledBet(bet, v)],
          ledger := db.ledger + Post(wallets, SettlementLines(bet, v), SettlementReference, Ref.BetRef(id)),
          platform := Some(balance + fee),
          platformLedger := db.platformLedger + [FeeEntry(id, v, fee, balance + fee)])
  }

  function WriteAcceptance(db: Db, txn: Txn, bet: Bet, w: Wallet): Db
    requires txn.Accept?
  {
    var wallets := db.wallets[txn.user := Wallet(w.available - bet.stake, w.locked + bet.stake)];
    db.(wallets := wallets,
        bets := db.bets[txn.bet := MatchedBet(bet, txn.user, txn.prediction)],
        ledger := db.ledger + Post(wallets, Lines.StakeLock(txn.user, bet.stake), BetReference, Ref.BetRef(txn.bet)))
  }

  function BeginMove(db: Db, txn: Txn): Move {
    if txn.Accept? && !txn.active then Abort(AccountIneligible)
    else if txn.bet !in db.bets then Abort(NotFound)
    else Lock(BetLock(txn.bet), BetRead(db.bets[txn.bet]))
  }

  function ReadMove(db: Db, txn: Txn, bet: Bet): Move {
    match txn
    case Settle(_, now) => JudgeMove(db, bet, now)
    case Accept(_, _, user, prediction, now) =>
      var refusal := AcceptRefusal(bet, user, prediction, now);
      if refusal.Some? then Abort(refusal.value) else Work(Admitted(bet))
  }

  function FirstMove(db: Db, bet: Bet, v: Verdict): Move {
    var u := First(bet);
    if u !in db.wallets then Abort(NotFound) else Lock(WalletLock(u), FirstRead(bet, v, db.wallets[u]))
  }

  function SecondMove(db: Db, bet: Bet, v: Verdict, w: Wallet): Move {
    var u := Second(bet);
    if u !in db.wallets then Abort(NotFound)
    else Lock(WalletLock(u), if u == bet.creator then WalletsRead(bet, v, db.wallets[u], w)
                             else WalletsRead(bet, v, w, db.wallets[u]))
  }

  function PlatformMove(db: Db, bet: Bet, v: Verdict, creator: Wallet, opponent: Wallet): Move {
    if db.platform.None? then Abort(NotFound)
    else Lock(PlatformLock, PlatformRead(bet, v, creator, opponent, db.platform.value))
  }

  /** The late guard: the status update counts zero rows unless the bet is still queued. */
  function CommitMove(db: Db, id: BetId, bet: Bet, v: Verdict, creator: Wallet, opponent: Wallet, balance: int): Move {
    if id !in db.bets || db.bets[id].status != BetStatus.PendingSettlement then Abort(Idempotency)
    else Commit(WriteSettlement(db, id, bet, v, creator, opponent, balance))
  }

  function TakerMove(db: Db, txn: Txn, bet: Bet): Move
    requires txn.Accept?
  {
    if txn.user !in db.wallets then Abort(NotFound)
    else Lock(WalletLock(txn.user), TakerRead(bet, db.wallets[txn.user]))
  }

  function TakeMove(db: Db, txn: Txn, bet: Bet, w: Wallet): Move
    requires txn.Accept?
  {
    if w.available < bet.stake then Abort(InsufficientFunds) else Commit(WriteAcceptance(db, txn, bet, w))
  }

  function NextMove(db: Db, l: Local): Move {
    match l.stage
    case Begun => BeginMove(db, l.txn)
    case BetRead(bet) => ReadMove(db, l.txn, bet)
    case Judged(bet, v) => FirstMove(db, bet, v)
    case FirstRead(bet, v, w) => SecondMove(db, bet, v, w)
    case WalletsRead(bet, v, creator, opponent) => CheckMove(bet, v, creator, opponent)
    case Checked(bet, v, creator, opponent) => PlatformMove(db, bet, v, creator, opponent)
    case PlatformRead(bet, v, creator, opponent, balance) =>
      CommitMove(db, l.txn.bet, bet, v, creator, opponent, balance)
    case Admitted(bet) => if l.txn.Accept? then TakerMove(db, l.txn, bet) else Idle
    case TakerRead(bet, w) => if l.txn.Accept? then TakeMove(db, l.txn, bet, w) else Idle
    case Committed => Idle
    case Aborted(_) => Idle
  }
}
