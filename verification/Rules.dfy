/** The service calls as transitions of the database: each either yields the whole new state or
    an error that leaves everything as it was. */
module Rules {
  import opened Wrappers
  import opened Tables
  import opened Positions
  import Money
  import Lines = LedgerLines

  const CREATION_CUTOFF := 15 * 60

  // ---- Accounts and configuration -------------------------------------------------------

  /** Registration creates a wallet with both balances at zero. */
  function OpenWallet(db: Db, user: UserId): Result<Db> {
    if user in db.wallets then Err(Integrity)
    else Ok(db.(wallets := db.wallets[user := Wallet(0, 0)]))
  }

  function OpenPlatform(db: Db): Result<Db> {
    if db.platform.Some? then Err(Integrity) else Ok(db.(platform := Some(0)))
  }

  /** Fee rows are only ever added; rates lie between 0 and 1. */
  function AddFee(db: Db, row: FeeRow): Result<Db> {
    if 0 <= row.rate <= Money.RATE_SCALE then Ok(db.(fees := db.fees + [row])) else Err(Validation)
  }

  /** The rate in force: the latest row of the type that is not in the future.  Rows with the same
      time are not ordered by the query; the model takes the one added first. */
  function ActiveRow(fees: seq<FeeRow>, feeType: FeeType, now: int): Option<FeeRow> {
    if fees == [] then None else
      var earlier := ActiveRow(fees[..|fees| - 1], feeType, now);
      var row := fees[|fees| - 1];
      if row.feeType == feeType && row.effectiveFrom <= now
         && (earlier.None? || earlier.value.effectiveFrom < row.effectiveFrom)
      then Some(row) else earlier
  }

  function ActiveRate(fees: seq<FeeRow>, feeType: FeeType, now: int): Option<int> {
    var row := ActiveRow(fees, feeType, now);
    if row.Some? then Some(row.value.rate) else None
  }

  // ---- Bets -----------------------------------------------------------------------------

  function OpenBet(user: UserId, matchId: MatchId, prediction: Outcome, stake: int, kickoff: int): Bet {
    Bet(matchId, user, prediction, None, None, stake, kickoff, BetStatus.Open,
        None, None, None, None, None, None, [BetEvent.Created])
  }

  function CreateBet(db: Db, id: BetId, active: bool, user: UserId, matchId: MatchId,
                     prediction: Outcome, stake: int, now: int): Result<Db>
  {
    if !active then Err(AccountIneligible)
    else if matchId !in db.matches then Err(NotFound)
    else if !db.matches[matchId].status.Scheduled? || now >= db.matches[matchId].kickoff - CREATION_CUTOFF then
      Err(MatchNotAvailable)
    else if stake < Money.MIN_STAKE || stake > Money.MAX_STAKE then Err(Validation)
    else if id in db.bets then Err(Integrity)
    else if user !in db.wallets then Err(NotFound)
    else if db.wallets[user].available < stake then Err(InsufficientFunds)
    else
      var bet := OpenBet(user, matchId, prediction, stake, db.matches[matchId].kickoff);
      Ok(Book(db, Ref.BetRef(id), BetRow(bet), BetReference, Lines.StakeLock(user, stake)))
  }

  function MatchedBet(bet: Bet, user: UserId, prediction: Outcome): Bet {
    bet.(opponent := Some(user), opponentPrediction := Some(prediction), status := BetStatus.Matched,
         events := bet.events + [BetEvent.Matched])
  }

  /** Why `user` may not take the bet, whatever their balance. */
  function AcceptRefusal(bet: Bet, user: UserId, prediction: Outcome, now: int): Option<Error> {
    if bet.status != BetStatus.Open then Some(BetNotAvailable)
    else if now >= bet.expiresAt then Some(BetExpired)
    else if user == bet.creator then Some(SelfBet)
    else if prediction == bet.creatorPrediction then Some(PredictionConflict)
    else None
  }

  function AcceptBet(db: Db, id: BetId, active: bool, user: UserId, prediction: Outcome, now: int): Result<Db> {
    if !active then Err(AccountIneligible)
    else if id !in db.bets then Err(NotFound)
    else
      var bet := db.bets[id];
      var refusal := AcceptRefusal(bet, user, prediction, now);
      if refusal.Some? then Err(refusal.value)
      else if user !in db.wallets then Err(NotFound)
      else if db.wallets[user].available < bet.stake then Err(InsufficientFunds)
      else Ok(Book(db, Ref.BetRef(id), BetRow(MatchedBet(bet, user, prediction)), BetReference,
                   Lines.StakeLock(user, bet.stake)))
  }

  function CancelledBet(bet: Bet): Bet {
    bet.(status := BetStatus.Cancelled, events := bet.events + [BetEvent.Cancelled])
  }

  function CancelBet(db: Db, id: BetId, requester: UserId): Result<Db> {
    if id !in db.bets then Err(NotFound)
    else
      var bet := db.bets[id];
      if bet.creator != requester then Err(Forbidden)
      else if bet.status != BetStatus.Open then Err(BetNotAvailable)
      else if bet.creator !in db.wallets then Err(NotFound)
      else if db.wallets[bet.creator].locked < bet.stake || db.wallets[bet.creator].available + bet.stake < 0 then
        Err(Validation)
      else Ok(Book(db, Ref.BetRef(id), BetRow(CancelledBet(bet)), CancellationReference,
                   Lines.StakeUnlock(bet.creator, bet.stake)))
  }

  function VoidedBet(bet: Bet): Bet {
    bet.(status := BetStatus.Voided, settlement := Some(SettlementOutcome.Voided),
         events := bet.events + [BetEvent.Voided])
  }

  /** The users whose stakes a void returns, creator first. */
  function Refunded(bet: Bet): seq<UserId> {
    if bet.status == BetStatus.Matched && bet.opponent.Some? then [bet.creator, bet.opponent.value] else [bet.creator]
  }

  function VoidLines(bet: Bet): seq<Line> {
    if bet.status == BetStatus.Matched && bet.opponent.Some?
    then Lines.VoidRefund(bet.creator, bet.stake) + Lines.VoidRefund(bet.opponent.value, bet.stake)
    else Lines.VoidRefund(bet.creator, bet.stake)
  }

  /** The error, if any, of releasing `amount` from the wallet of `u`. */
  function ReleaseRefusal(wallets: map<UserId, Wallet>, u: UserId, amount: int): Option<Error> {
    if u !in wallets then Some(NotFound)
    else if wallets[u].locked < amount || wallets[u].available + amount < 0 then Some(Validation)
    else None
  }

  function VoidBet(db: Db, id: BetId): Result<Db> {
    if id !in db.bets then Err(NotFound)
    else
      var bet := db.bets[id];
      if bet.status != BetStatus.Open && bet.status != BetStatus.Matched then Err(BetNotAvailable)
      else
        var first := ReleaseRefusal(db.wallets, bet.creator, bet.stake);
        if first.Some? then Err(first.value)
        else if |Refunded(bet)| == 1 then
          Ok(Book(db, Ref.BetRef(id), BetRow(VoidedBet(bet)), VoidReference, VoidLines(bet)))
        else
          var second := ReleaseRefusal(db.wallets, bet.opponent.value, bet.stake);
          if second.Some? then Err(second.value)
          else Ok(Book(db, Ref.BetRef(id), BetRow(VoidedBet(bet)), VoidReference, VoidLines(bet)))
  }

  // ---- Match results and settlement -----------------------------------------------------

  function ConfirmedMatch(m: Match, outcome: Outcome, home: int, away: int, now: int): Match {
    m.(outcome := Some(outcome), homeScore := Some(home), awayScore := Some(away),
       status := MatchStatus.Completed, confirmedAt := Some(now))
  }

  predicate Queues(bet: Bet, matchId: MatchId) {
    bet.matchId == matchId && bet.status == BetStatus.Matched
  }

  function QueuedBet(bet: Bet): Bet {
    bet.(status := BetStatus.PendingSettlement, events := bet.events + [BetEvent.PendingSettlement])
  }

  /** Transaction A of a settlement run: fix the result and queue every matched bet of the match. */
  function Confirm(db: Db, matchId: MatchId, outcome: Outcome, home: int, away: int, now: int): Result<Db> {
    if matchId !in db.matches then Err(NotFound)
    else if db.matches[matchId].confirmedAt.Some? then Err(Validation)
    else Ok(db.(matches := db.matches[matchId := ConfirmedMatch(db.matches[matchId], outcome, home, away, now)],
                bets := map b | b in db.bets ::
                  if Queues(db.bets[b], matchId) then QueuedBet(db.bets[b]) else db.bets[b]))
  }

  function DeterminePath(outcome: Outcome, creatorPrediction: Outcome, opponentPrediction: Outcome): SettlementOutcome {
    if creatorPrediction == outcome then CreatorWins
    else if opponentPrediction == outcome then OpponentWins
    else NoWinner
  }

  function WinnerOf(bet: Bet, path: SettlementOutcome): Option<UserId> {
    if path == CreatorWins then Some(bet.creator)
    else if path == OpponentWins then bet.opponent
    else None
  }

  /** What settlement reads besides the wallets and the platform account. */
  datatype Verdict = Verdict(path: SettlementOutcome, winnerRate: int, noWinnerRate: int)

  /** The checks before any wallet is touched, in order, and what they establish. */
  function Judge(bet: Bet, matches: map<MatchId, Match>, fees: seq<FeeRow>, now: int): Result<Verdict> {
    if bet.status != BetStatus.PendingSettlement then Err(Idempotency)
    else if bet.opponent.None? || bet.opponentPrediction.None? then Err(Validation)
    else if bet.matchId !in matches then Err(NotFound)
    else if matches[bet.matchId].outcome.None? then Err(Validation)
    else
      var winnerRate, noWinnerRate := ActiveRate(fees, WinnerFee, now), ActiveRate(fees, NoWinnerFee, now);
      if winnerRate.None? || noWinnerRate.None? then Err(NotFound)
      else Ok(Verdict(DeterminePath(matches[bet.matchId].outcome.value, bet.creatorPrediction,
                                    bet.opponentPrediction.value),
                      winnerRate.value, noWinnerRate.value))
  }

  function SplitOf(bet: Bet, v: Verdict): Money.Split {
    if v.path == NoWinner then Money.NoWinnerAmounts(bet.stake, v.noWinnerRate)
    else Money.WinnerAmounts(bet.stake, v.winnerRate)
  }

  function TotalFee(bet: Bet, v: Verdict): int {
    var split := SplitOf(bet, v);
    if v.path == NoWinner then Money.SafeAdd(split.fee, split.fee) else split.fee
  }

  function SettledBet(bet: Bet, v: Verdict): Bet {
    bet.(status := BetStatus.Settled, settlement := Some(v.path), winner := WinnerOf(bet, v.path),
         payout := Some(SplitOf(bet, v).paid), fee := Some(TotalFee(bet, v)),
         winnerRate := if v.path == NoWinner then None else Some(v.winnerRate),
         noWinnerRate := if v.path == NoWinner then Some(v.noWinnerRate) else None,
         events := bet.events + [BetEvent.Settled])
  }

  function SettlementLines(bet: Bet, v: Verdict): seq<Line>
    requires bet.opponent.Some?
  {
    var split := SplitOf(bet, v);
    if v.path == NoWinner then Lines.NoWinnerSettlement(bet.creator, bet.opponent.value, split.fee, split.paid)
    else if v.path == CreatorWins then Lines.WinnerSettlement(bet.creator, bet.opponent.value, bet.stake, split.paid)
    else Lines.WinnerSettlement(bet.opponent.value, bet.creator, bet.stake, split.paid)
  }

  /** Why the two wallets cannot carry the settlement. */
  function SettlementRefusal(wallets: map<UserId, Wallet>, bet: Bet, v: Verdict): Option<Error>
    requires bet.opponent.Some?
  {
    var split := SplitOf(bet, v);
    var opponent := bet.opponent.value;
    if v.path != NoWinner && (bet.stake <= 0 || split.fee < 0 || split.paid <= 0) then Some(Validation)
    else if bet.creator !in wallets || opponent !in wallets then Some(NotFound)
    else if wallets[bet.creator].locked < bet.stake || wallets[opponent].locked < bet.stake then Some(InsufficientFunds)
    else if (v.path == NoWinner || v.path == CreatorWins) && wallets[bet.creator].available + split.paid < 0 then
      Some(Validation)
    else if (v.path == NoWinner || v.path == OpponentWins) && wallets[opponent].available + split.paid < 0 then
      Some(Validation)
    else None
  }

  function FeeEntry(id: BetId, v: Verdict, fee: int, balance: int): PlatformEntry {
    PlatformEntry(if v.path == NoWinner then FeeCollectionNoWinner else FeeCollection, fee, id, balance,
                  if v.path == NoWinner then NoWinnerPath else WinnerPath)
  }

  /** The state after settling a bet as the verdict says. */
  function Settlement(db: Db, id: BetId, v: Verdict): Db
    requires id in db.bets && db.bets[id].opponent.Some? && db.platform.Some?
    requires db.bets[id].creator in db.wallets && db.bets[id].opponent.value in db.wallets
  {
    var bet := db.bets[id];
    var fee := TotalFee(bet, v);
    var balance := Money.SafeAdd(db.platform.value, fee);
    Book(db, Ref.BetRef(id), BetRow(SettledBet(bet, v)), SettlementReference, SettlementLines(bet, v))
    .(platform := Some(balance), platformLedger := db.platformLedger + [FeeEntry(id, v, fee, balance)])
  }

  function SettleBet(db: Db, id: BetId, now: int): Result<Db> {
    if id !in db.bets then Err(NotFound)
    else
      match Judge(db.bets[id], db.matches, db.fees, now)
      case Err(e) => Err(e)
      case Ok(v) =>
        var refusal := SettlementRefusal(db.wallets, db.bets[id], v);
        if refusal.Some? then Err(refusal.value)
        else if db.platform.None? then Err(NotFound)
        else Ok(Settlement(db, id, v))
  }

  // ---- Deposits -------------------------------------------------------------------------

  /** A deposit already carries the user's own key. */
  predicate ClientReferenceTaken(deposits: map<DepositId, Deposit>, clientReference: Option<string>) {
    clientReference.Some? && exists d :: d in deposits && deposits[d].clientReference == clientReference
  }

  function CreateDeposit(db: Db, id: DepositId, user: UserId, amount: int, clientReference: Option<string>):
    Result<Db>
  {
    if amount <= 0 then Err(Validation)
    else if user !in db.wallets then Err(NotFound)
    else if id in db.deposits || ClientReferenceTaken(db.deposits, clientReference) then Err(Integrity)
    else Ok(db.(deposits := db.deposits[id := Deposit(user, amount, DepositStatus.Pending, None, clientReference)]))
  }

  function InitiatePayfast(db: Db, id: DepositId, user: UserId, amount: int, enabled: bool): Result<Db> {
    if !enabled || amount < Money.MIN_STAKE || amount > Money.MAX_STAKE then Err(Validation)
    else if user !in db.wallets then Err(NotFound)
    else if id in db.deposits then Err(Integrity)
    else Ok(db.(deposits := db.deposits[id := Deposit(user, amount, DepositStatus.Processing, None, None)]))
  }

  predicate DepositClosed(d: Deposit) {
    d.status.Completed? || d.status.Failed? || d.status.Cancelled?
  }

  /** Another deposit already carries the provider's reference. */
  predicate ReferenceTaken(deposits: map<DepositId, Deposit>, id: DepositId, reference: Option<string>) {
    reference.Some? && exists other :: other in deposits && other != id && deposits[other].reference == reference
  }

  function CompletedDeposit(d: Deposit, reference: Option<string>): Deposit {
    d.(status := DepositStatus.Completed, reference := if reference.Some? then reference else d.reference)
  }

  function CompleteDeposit(db: Db, id: DepositId, reference: Option<string>): Result<Db> {
    if id !in db.deposits then Err(NotFound)
    else
      var d := db.deposits[id];
      if DepositClosed(d) then Err(Conflict)
      else if d.amount <= 0 then Err(Validation)
      else if d.user !in db.wallets then Err(NotFound)
      else if db.wallets[d.user].available + d.amount < 0 then Err(Validation)
      else if ReferenceTaken(db.deposits, id, reference) then Err(Integrity)
      else Ok(Book(db, Ref.DepositRef(id), DepositRow(CompletedDeposit(d, reference)), DepositReference,
                   Lines.DepositCredit(d.user, d.amount)))
  }

  function FailDeposit(db: Db, id: DepositId): Result<Db> {
    if id !in db.deposits then Err(NotFound)
    else if DepositClosed(db.deposits[id]) then Err(Conflict)
    else Ok(db.(deposits := db.deposits[id := db.deposits[id].(status := DepositStatus.Failed)]))
  }

  datatype PaymentStatus = Complete | Refused | Unhandled

  /** A provider notification: which deposit it names, if any, and what its checks found. */
  datatype Notification = Notification(
    deposit: Option<DepositId>, timely: bool, verified: bool, status: PaymentStatus, reference: Option<string>)

  function Keep(db: Db, r: Result<Db>): Db {
    if r.Ok? then r.value else db
  }

  /** The webhook answers every notification the same way and swallows every refusal. */
  function PayfastItn(db: Db, itn: Notification): Db {
    if itn.deposit.None? || itn.deposit.value !in db.deposits || !itn.timely || !itn.verified then db
    else match itn.status
         case Complete => Keep(db, CompleteDeposit(db, itn.deposit.value, itn.reference))
         case Refused => Keep(db, FailDeposit(db, itn.deposit.value))
         case Unhandled => db
  }

  // ---- Withdrawals ----------------------------------------------------------------------

  function CreateWithdrawal(db: Db, id: WithdrawalId, user: UserId, amount: int): Result<Db> {
    if amount <= 0 then Err(Validation)
    else if user !in db.wallets then Err(NotFound)
    else if id in db.withdrawals then Err(Integrity)
    else if db.wallets[user].available < amount then Err(InsufficientFunds)
    else Ok(Book(db, Ref.WithdrawalRef(id), WithdrawalRow(Withdrawal(user, amount, WithdrawalStatus.Pending)),
                 WithdrawalReference, Lines.WithdrawalHold(user, amount)))
  }

  function ApproveWithdrawal(db: Db, id: WithdrawalId): Result<Db> {
    if id !in db.withdrawals then Err(NotFound)
    else if !db.withdrawals[id].status.Pending? then Err(Conflict)
    else Ok(db.(withdrawals := db.withdrawals[id := db.withdrawals[id].(status := WithdrawalStatus.Approved)]))
  }

  /** The checks shared by the wallet side of finishing a withdrawal. */
  function HeldRefusal(wallets: map<UserId, Wallet>, w: Withdrawal): Option<Error> {
    if w.amount <= 0 then Some(Validation)
    else if w.user !in wallets then Some(NotFound)
    else if wallets[w.user].locked < w.amount then Some(InsufficientFunds)
    else None
  }

  function CompleteWithdrawal(db: Db, id: WithdrawalId): Result<Db> {
    if id !in db.withdrawals then Err(NotFound)
    else
      var w := db.withdrawals[id];
      if !w.status.Approved? && !w.status.Processing? then Err(Conflict)
      else
        var refusal := HeldRefusal(db.wallets, w);
        if refusal.Some? then Err(refusal.value)
        else Ok(Book(db, Ref.WithdrawalRef(id), WithdrawalRow(w.(status := WithdrawalStatus.Completed)),
                     WithdrawalReference, Lines.WithdrawalDebit(w.user, w.amount)))
  }

  /** Rejecting or failing a withdrawal releases its hold; only the admissible states differ. */
  function ReleaseWithdrawal(db: Db, id: WithdrawalId, to: WithdrawalStatus): Result<Db>
    requires to.Rejected? || to.Failed?
  {
    if id !in db.withdrawals then Err(NotFound)
    else
      var w := db.withdrawals[id];
      if !OnHold(w) || (to.Rejected? && w.status.Processing?) then Err(Conflict)
      else
        var refusal := HeldRefusal(db.wallets, w);
        if refusal.Some? then Err(refusal.value)
        else if db.wallets[w.user].available + w.amount < 0 then Err(Validation)
        else Ok(Book(db, Ref.WithdrawalRef(id), WithdrawalRow(w.(status := to)),
                     WithdrawalReference, Lines.WithdrawalRelease(w.user, w.amount)))
  }

  // ---- Match synchronisation ------------------------------------------------------------

  datatype Payload = Payload(
    externalId: MatchId, provider: string, homeTeam: string, awayTeam: string, competition: string,
    kickoff: int, status: MatchStatus, homeScore: Option<int>, awayScore: Option<int>, outcome: Option<Outcome>)

  /** Where synchronisation may move a match from each status. */
  function AllowedTransitions(status: MatchStatus): set<MatchStatus> {
    match status
    case Scheduled => {MatchStatus.Live, MatchStatus.Completed, MatchStatus.Postponed,
                       MatchStatus.Cancelled, MatchStatus.Abandoned}
    case Live => {MatchStatus.Completed, MatchStatus.Postponed, MatchStatus.Cancelled, MatchStatus.Abandoned}
    case Postponed => {MatchStatus.Scheduled}
    case Completed => {}
    case Cancelled => {}
    case Abandoned => {}
  }

  function NewFixture(p: Payload, now: int): Match {
    Match(Some(p.provider), p.homeTeam, p.awayTeam, p.competition, p.kickoff, p.status,
          if p.outcome.Some? then p.homeScore else None, if p.outcome.Some? then p.awayScore else None,
          p.outcome, None, Some(now))
  }

  function Distance(a: int, b: int): int {
    if a <= b then b - a else a - b
  }

  /** The payload may still write a result. */
  predicate WritesResult(m: Match, p: Payload) {
    p.outcome.Some? && m.confirmedAt.None?
  }

  function UpdatedFixture(m: Match, p: Payload, now: int): Match {
    m.(homeTeam := p.homeTeam, awayTeam := p.awayTeam, competition := p.competition,
       kickoff := if Distance(m.kickoff, p.kickoff) > 60 then p.kickoff else m.kickoff,
       status := if p.status in AllowedTransitions(m.status) then p.status else m.status,
       outcome := if WritesResult(m, p) then p.outcome else m.outcome,
       homeScore := if WritesResult(m, p) then p.homeScore else m.homeScore,
       awayScore := if WritesResult(m, p) then p.awayScore else m.awayScore,
       lastSynced := Some(now))
  }

  datatype Action = Created | Updated | Skipped

  function Upserted(matches: map<MatchId, Match>, p: Payload, now: int): map<MatchId, Match> {
    matches[p.externalId :=
      if p.externalId in matches then UpdatedFixture(matches[p.externalId], p, now) else NewFixture(p, now)]
  }

  /** An update counts as a change when more than the synchronisation time differs. */
  function ActionOf(matches: map<MatchId, Match>, p: Payload, now: int): Action {
    if p.externalId !in matches then Action.Created
    else
      var m := matches[p.externalId];
      if UpdatedFixture(m, p, now).(lastSynced := m.lastSynced) == m then Skipped else Updated
  }

  function SyncAll(matches: map<MatchId, Match>, payloads: seq<Payload>, now: int): map<MatchId, Match> {
    if payloads == [] then matches
    else Upserted(SyncAll(matches, payloads[..|payloads| - 1], now), payloads[|payloads| - 1], now)
  }

  // ---- All service calls ----------------------------------------------------------------

  datatype Op =
    | OpOpenWallet(user: UserId)
    | OpOpenPlatform
    | OpAddFee(row: FeeRow)
    | OpCreateBet(bet: BetId, active: bool, user: UserId, matchId: MatchId, prediction: Outcome, stake: int, now: int)
    | OpAcceptBet(bet: BetId, active: bool, user: UserId, prediction: Outcome, now: int)
    | OpCancelBet(bet: BetId, user: UserId)
    | OpVoidBet(bet: BetId)
    | OpConfirm(matchId: MatchId, outcome: Outcome, home: int, away: int, now: int)
    | OpSettleBet(bet: BetId, now: int)
    | OpCreateDeposit(deposit: DepositId, user: UserId, amount: int, clientReference: Option<string>)
    | OpInitiatePayfast(deposit: DepositId, user: UserId, amount: int, enabled: bool)
    | OpCompleteDeposit(deposit: DepositId, reference: Option<string>)
    | OpFailDeposit(deposit: DepositId)
    | OpPayfastItn(itn: Notification)
    | OpCreateWithdrawal(withdrawal: WithdrawalId, user: UserId, amount: int)
    | OpApproveWithdrawal(withdrawal: WithdrawalId)
    | OpCompleteWithdrawal(withdrawal: WithdrawalId)
    | OpRejectWithdrawal(withdrawal: WithdrawalId)
    | OpFailWithdrawal(withdrawal: WithdrawalId)
    | OpSync(payloads: seq<Payload>, now: int)

  function Step(db: Db, op: Op): Result<Db> {
    match op
    case OpOpenWallet(user) => OpenWallet(db, user)
    case OpOpenPlatform => OpenPlatform(db)
    case OpAddFee(row) => AddFee(db, row)
    case OpCreateBet(bet, active, user, matchId, prediction, stake, now) =>
      CreateBet(db, bet, active, user, matchId, prediction, stake, now)
    case OpAcceptBet(bet, active, user, prediction, now) => AcceptBet(db, bet, active, user, prediction, now)
    case OpCancelBet(bet, user) => CancelBet(db, bet, user)
    case OpVoidBet(bet) => VoidBet(db, bet)
    case OpConfirm(matchId, outcome, home, away, now) => Confirm(db, matchId, outcome, home, away, now)
    case OpSettleBet(bet, now) => SettleBet(db, bet, now)
    case OpCreateDeposit(deposit, user, amount, clientReference) =>
      CreateDeposit(db, deposit, user, amount, clientReference)
    case OpInitiatePayfast(deposit, user, amount, enabled) => InitiatePayfast(db, deposit, user, amount, enabled)
    case OpCompleteDeposit(deposit, reference) => CompleteDeposit(db, deposit, reference)
    case OpFailDeposit(deposit) => FailDeposit(db, deposit)
    case OpPayfastItn(itn) => Ok(PayfastItn(db, itn))
    case OpCreateWithdrawal(withdrawal, user, amount) => CreateWithdrawal(db, withdrawal, user, amount)
    case OpApproveWithdrawal(withdrawal) => ApproveWithdrawal(db, withdrawal)
    case OpCompleteWithdrawal(withdrawal) => CompleteWithdrawal(db, withdrawal)
    case OpRejectWithdrawal(withdrawal) => ReleaseWithdrawal(db, withdrawal, WithdrawalStatus.Rejected)
    case OpFailWithdrawal(withdrawal) => ReleaseWithdrawal(db, withdrawal, WithdrawalStatus.Failed)
    case OpSync(payloads, now) => Ok(db.(matches := SyncAll(db.matches, payloads, now)))
  }

  /** The state after a call, which a refused call leaves as it was. */
  function After(db: Db, op: Op): Db {
    Keep(db, Step(db, op))
  }

  function Run(db: Db, ops: seq<Op>): Db {
    if ops == [] then db else After(Run(db, ops[..|ops| - 1]), ops[|ops| - 1])
  }
}
