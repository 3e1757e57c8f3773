/** The invariant over whole runs, and what one step can do to bets, matches and ledger. */
module Runs {
  import opened Wrappers
  import opened Tables
  import opened Rules
  import opened Invariants
  import BetProofs
  import FundingProofs
  import MatchProofs

  // ---- The invariant --------------------------------------------------------------------

  lemma EmptyInv()
    ensures Inv(EMPTY)
  {
    assert Replay([]) == Unborn;
  }

  lemma OpenWalletKeepsInv(db: Db, user: UserId)
    requires Inv(db) && user !in db.wallets
    ensures Inv(db.(wallets := db.wallets[user := Wallet(0, 0)]))
  {
    var after := db.(wallets := db.wallets[user := Wallet(0, 0)]);
    assert MoneyInv(after) by {
      InvMoney(db);
      FundingProofs.OpenWalletKeepsMoney(db, user);
    }
    assert RowsInv(after) by {
      InvRows(db);
      FundingProofs.OpenWalletKeepsRows(db, user);
    }
    assert PlatformInv(after) by {
      InvPlatform(db);
      FundingProofs.PlatformIgnoresRest(db, after);
    }
    InvFromParts(after);
  }

  lemma ConfigKeepsInv(db: Db, after: Db)
    requires Inv(db) && after == db.(fees := after.fees, platform := after.platform)
    requires RatesOk(db) ==> RatesOk(after)
    requires after.platform == db.platform || (db.platform.None? && after.platform == Some(0))
    ensures Inv(after)
  {
    assert MoneyInv(after) by {
      InvMoney(db);
      BetProofs.MoneyIgnoresPlatform(db, after);
    }
    assert RowsInv(after) by {
      InvRows(db);
      ConfigKeepsRows(db, after);
    }
    assert PlatformInv(after) by {
      InvPlatform(db);
      FundingProofs.PlatformIgnoresRest(db, after);
    }
    InvFromParts(after);
  }

  lemma ConfigKeepsRows(db: Db, after: Db)
    requires RowsInv(db) && RatesOk(after)
    requires after == db.(fees := after.fees, platform := after.platform)
    ensures RowsInv(after)
  {
    forall b | b in after.bets
      ensures ParticipantsOk(after, after.bets[b]) && ResultFieldsOk(after.bets[b]) && VerdictOk(after, after.bets[b])
    {
      assert ParticipantsOk(db, db.bets[b]) && ResultFieldsOk(db.bets[b]) && VerdictOk(db, db.bets[b]);
    }
  }

  lemma AccountStepKeepsInv(db: Db, op: Op)
    requires Inv(db) && (op.OpOpenWallet? || op.OpOpenPlatform? || op.OpAddFee?)
    requires Step(db, op).Ok?
    ensures Inv(Step(db, op).value)
  {
    match op {
      case OpOpenWallet(user) => OpenWalletKeepsInv(db, user);
      case OpOpenPlatform => ConfigKeepsInv(db, db.(platform := Some(0)));
      case OpAddFee(row) => ConfigKeepsInv(db, db.(fees := db.fees + [row]));
    }
  }

  lemma FundingStepKeepsInv(db: Db, op: Op)
    requires Inv(db)
    requires op.OpCreateDeposit? || op.OpInitiatePayfast? || op.OpCompleteDeposit? || op.OpFailDeposit?
             || op.OpPayfastItn?
             || op.OpCreateWithdrawal? || op.OpApproveWithdrawal? || op.OpCompleteWithdrawal?
             || op.OpRejectWithdrawal? || op.OpFailWithdrawal?
    requires Step(db, op).Ok?
    ensures Inv(Step(db, op).value)
  {
    match op {
      case OpCreateDeposit(id, user, amount, clientReference) =>
        FundingProofs.UnpaidKeepsInv(db, id, Deposit(user, amount, DepositStatus.Pending, None, clientReference));
      case OpInitiatePayfast(id, user, amount, _) =>
        FundingProofs.UnpaidKeepsInv(db, id, Deposit(user, amount, DepositStatus.Processing, None, None));
      case OpCompleteDeposit(id, reference) => FundingProofs.CompleteDepositKeepsInv(db, id, reference);
      case OpFailDeposit(id) => FundingProofs.FailDepositKeepsInv(db, id);
      case OpPayfastItn(itn) => FundingProofs.PayfastItnKeepsInv(db, itn);
      case OpCreateWithdrawal(id, user, amount) => FundingProofs.CreateWithdrawalKeepsInv(db, id, user, amount);
      case OpApproveWithdrawal(id) => FundingProofs.ApproveWithdrawalKeepsInv(db, id);
      case OpCompleteWithdrawal(id) => FundingProofs.CompleteWithdrawalKeepsInv(db, id);
      case OpRejectWithdrawal(id) => FundingProofs.ReleaseWithdrawalKeepsInv(db, id, WithdrawalStatus.Rejected);
      case OpFailWithdrawal(id) => FundingProofs.ReleaseWithdrawalKeepsInv(db, id, WithdrawalStatus.Failed);
    }
  }

  lemma SyncKeepsInv(db: Db, payloads: seq<Payload>, now: int)
    requires Inv(db)
    ensures Inv(db.(matches := SyncAll(db.matches, payloads, now)))
  {
    assert MatchProofs.AllConfirmedOk(db.matches) by {
      InvRows(db);
    }
    MatchProofs.SyncFreezes(db.matches, payloads, now);
    MatchProofs.NewMatchesKeepInv(db, SyncAll(db.matches, payloads, now));
  }

  lemma BetStepKeepsInv(db: Db, op: Op)
    requires Inv(db)
    requires op.OpCreateBet? || op.OpAcceptBet? || op.OpCancelBet? || op.OpVoidBet? || op.OpConfirm?
             || op.OpSettleBet? || op.OpSync?
    requires Step(db, op).Ok?
    ensures Inv(Step(db, op).value)
  {
    match op {
      case OpCreateBet(id, active, user, matchId, prediction, stake, now) =>
        BetProofs.CreateBetKeepsInv(db, id, active, user, matchId, prediction, stake, now);
      case OpAcceptBet(id, active, user, prediction, now) =>
        BetProofs.AcceptBetKeepsInv(db, id, active, user, prediction, now);
      case OpCancelBet(id, user) => BetProofs.CancelBetKeepsInv(db, id, user);
      case OpVoidBet(id) => BetProofs.VoidBetKeepsInv(db, id);
      case OpConfirm(matchId, outcome, home, away, now) =>
        MatchProofs.ConfirmKeepsInv(db, matchId, outcome, home, away, now);
      case OpSettleBet(id, now) => BetProofs.SettleBetKeepsInv(db, id, now);
      case OpSync(payloads, now) => SyncKeepsInv(db, payloads, now);
    }
  }

  /** Every service call, successful or refused, keeps the whole invariant. */
  lemma StepKeepsInv(db: Db, op: Op)
    requires Inv(db)
    ensures Inv(After(db, op))
  {
    if Step(db, op).Ok? {
      if op.OpOpenWallet? || op.OpOpenPlatform? || op.OpAddFee? {
        AccountStepKeepsInv(db, op);
      } else if op.OpCreateBet? || op.OpAcceptBet? || op.OpCancelBet? || op.OpVoidBet? || op.OpConfirm?
                || op.OpSettleBet? || op.OpSync? {
        BetStepKeepsInv(db, op);
      } else {
        FundingStepKeepsInv(db, op);
      }
    }
  }

  lemma {:induction false} RunKeepsInv(db: Db, ops: seq<Op>)
    requires Inv(db)
    ensures Inv(Run(db, ops))
  {
    if ops != [] {
      RunKeepsInv(db, ops[..|ops| - 1]);
      StepKeepsInv(Run(db, ops[..|ops| - 1]), ops[|ops| - 1]);
    }
  }

  // ---- Reachable states -----------------------------------------------------------------

  ghost predicate Linked(states: seq<Db>, ops: seq<Op>, i: nat)
    requires i < |ops| && |states| == |ops| + 1
  {
    states[i + 1] == After(states[i], ops[i])
  }

  /** The databases that a sequence of calls passes through. */
  ghost predicate Trace(states: seq<Db>, ops: seq<Op>) {
    |states| == |ops| + 1 && forall i :: 0 <= i < |ops| ==> Linked(states, ops, i)
  }

  ghost predicate Leads(db: Db, ops: seq<Op>, after: Db) {
    exists states :: Trace(states, ops) && states[0] == db && states[|ops|] == after
  }

  ghost predicate Reaches(db: Db, after: Db) {
    exists ops :: Leads(db, ops, after)
  }

  ghost predicate Reachable(db: Db) {
    Reaches(EMPTY, db)
  }

  lemma {:induction false} TraceIsRun(states: seq<Db>, ops: seq<Op>, i: nat)
    requires Trace(states, ops) && i <= |ops|
    ensures states[i] == Run(states[0], ops[..i])
  {
    if i == 0 {
      assert ops[..0] == [];
    } else {
      TraceIsRun(states, ops, i - 1);
      assert Linked(states, ops, i - 1);
      RunOne(states[0], ops, i - 1);
    }
  }

  lemma RunIsTrace(db: Db, ops: seq<Op>)
    ensures Leads(db, ops, Run(db, ops))
  {
    var states := seq(|ops| + 1, i requires 0 <= i <= |ops| => Run(db, ops[..i]));
    forall i | 0 <= i < |ops| ensures Linked(states, ops, i) {
      RunOne(db, ops, i);
    }
    assert ops[..0] == [] && ops[..|ops|] == ops;
    assert Trace(states, ops) && states[0] == db && states[|ops|] == Run(db, ops);
  }

  /** Calls lead from one database to another exactly when running them does. */
  lemma LeadsIffRun(db: Db, ops: seq<Op>, after: Db)
    ensures Leads(db, ops, after) <==> after == Run(db, ops)
  {
    RunIsTrace(db, ops);
    if Leads(db, ops, after) {
      var states :| Trace(states, ops) && states[0] == db && states[|ops|] == after;
      TraceIsRun(states, ops, |ops|);
      assert ops[..|ops|] == ops;
    }
  }

  /** Every database the service calls can reach from the empty one satisfies the invariant. */
  lemma ReachableInv(db: Db)
    requires Reachable(db)
    ensures Inv(db)
  {
    var ops :| Leads(EMPTY, ops, db);
    LeadsIffRun(EMPTY, ops, db);
    EmptyInv();
    RunKeepsInv(EMPTY, ops);
  }

  lemma RunReaches(db: Db, ops: seq<Op>)
    ensures Reaches(db, Run(db, ops))
  {
    RunIsTrace(db, ops);
  }

  // ---- What one step does to a bet ------------------------------------------------------

  function Rank(status: BetStatus): nat {
    match status
    case Open => 0
    case Matched => 1
    case PendingSettlement => 2
    case _ => 3
  }

  /** `next` is `bet` or a strictly later stage of it: what was agreed stays, the history only grows. */
  predicate Later(bet: Bet, next: Bet) {
    bet == next ||
    (&& Rank(bet.status) < Rank(next.status)
     && next.creator == bet.creator && next.matchId == bet.matchId && next.stake == bet.stake
     && next.creatorPrediction == bet.creatorPrediction && next.expiresAt == bet.expiresAt
     && (bet.opponent.Some? ==> next.opponent == bet.opponent && next.opponentPrediction == bet.opponentPrediction)
     && bet.events <= next.events)
  }

  predicate BetsAdvance(before: map<BetId, Bet>, after: map<BetId, Bet>) {
    forall b :: b in before ==> b in after && Later(before[b], after[b])
  }

  lemma PutAdvances(bets: map<BetId, Bet>, id: BetId, bet: Bet)
    requires id in bets ==> Later(bets[id], bet)
    ensures BetsAdvance(bets, bets[id := bet])
  {
  }

  lemma ConfirmAdvances(db: Db, matchId: MatchId, outcome: Outcome, home: int, away: int, now: int)
    requires Confirm(db, matchId, outcome, home, away, now).Ok?
    ensures BetsAdvance(db.bets, Confirm(db, matchId, outcome, home, away, now).value.bets)
  {
    var after := Confirm(db, matchId, outcome, home, away, now).value;
    forall b | b in db.bets ensures b in after.bets && Later(db.bets[b], after.bets[b]) {
      assert after.bets[b] == if Queues(db.bets[b], matchId) then QueuedBet(db.bets[b]) else db.bets[b];
    }
  }

  lemma AcceptAdvances(db: Db, id: BetId, active: bool, user: UserId, prediction: Outcome, now: int)
    requires BetsOk(db) && AcceptBet(db, id, active, user, prediction, now).Ok?
    ensures BetsAdvance(db.bets, AcceptBet(db, id, active, user, prediction, now).value.bets)
  {
    assert ParticipantsOk(db, db.bets[id]);
    PutAdvances(db.bets, id, MatchedBet(db.bets[id], user, prediction));
  }

  lemma SettleAdvances(db: Db, id: BetId, now: int)
    requires SettleBet(db, id, now).Ok?
    ensures BetsAdvance(db.bets, SettleBet(db, id, now).value.bets)
  {
    PutAdvances(db.bets, id, SettledBet(db.bets[id], Judge(db.bets[id], db.matches, db.fees, now).value));
  }

  lemma OtherBetAdvances(db: Db, op: Op)
    requires op.OpCreateBet? || op.OpCancelBet? || op.OpVoidBet?
    requires Step(db, op).Ok?
    ensures BetsAdvance(db.bets, Step(db, op).value.bets)
  {
    match op {
      case OpCreateBet(id, _, user, matchId, prediction, stake, _) =>
        PutAdvances(db.bets, id, OpenBet(user, matchId, prediction, stake, db.matches[matchId].kickoff));
      case OpCancelBet(id, _) => PutAdvances(db.bets, id, CancelledBet(db.bets[id]));
      case OpVoidBet(id) => PutAdvances(db.bets, id, VoidedBet(db.bets[id]));
    }
  }

  lemma BetStepAdvances(db: Db, op: Op)
    requires BetsOk(db) && Step(db, op).Ok?
    requires op.OpCreateBet? || op.OpAcceptBet? || op.OpCancelBet? || op.OpVoidBet? || op.OpConfirm? || op.OpSettleBet?
    ensures BetsAdvance(db.bets, Step(db, op).value.bets)
  {
    match op {
      case OpAcceptBet(id, active, user, prediction, now) => AcceptAdvances(db, id, active, user, prediction, now);
      case OpConfirm(matchId, outcome, home, away, now) => ConfirmAdvances(db, matchId, outcome, home, away, now);
      case OpSettleBet(id, now) => SettleAdvances(db, id, now);
      case _ => OtherBetAdvances(db, op);
    }
  }

  lemma FundingKeepsRows(db: Db, op: Op)
    requires op.OpCreateDeposit? || op.OpInitiatePayfast? || op.OpCompleteDeposit? || op.OpFailDeposit?
             || op.OpPayfastItn?
    ensures After(db, op).bets == db.bets && After(db, op).matches == db.matches
  {
  }

  lemma WithdrawalKeepsRows(db: Db, op: Op)
    requires op.OpCreateWithdrawal? || op.OpApproveWithdrawal? || op.OpCompleteWithdrawal?
             || op.OpRejectWithdrawal? || op.OpFailWithdrawal?
    ensures After(db, op).bets == db.bets && After(db, op).matches == db.matches
  {
  }

  lemma OtherKeepsBets(db: Db, op: Op)
    requires op.OpOpenWallet? || op.OpOpenPlatform? || op.OpAddFee? || op.OpSync?
    ensures After(db, op).bets == db.bets && (!op.OpSync? ==> After(db, op).matches == db.matches)
  {
  }

  predicate MovesBets(op: Op) {
    op.OpCreateBet? || op.OpAcceptBet? || op.OpCancelBet? || op.OpVoidBet? || op.OpConfirm? || op.OpSettleBet?
  }

  lemma BetsKept(db: Db, op: Op)
    requires !MovesBets(op)
    ensures After(db, op).bets == db.bets && (!op.OpSync? ==> After(db, op).matches == db.matches)
  {
    if op.OpOpenWallet? || op.OpOpenPlatform? || op.OpAddFee? || op.OpSync? {
      OtherKeepsBets(db, op);
    } else if op.OpCreateWithdrawal? || op.OpApproveWithdrawal? || op.OpCompleteWithdrawal?
              || op.OpRejectWithdrawal? || op.OpFailWithdrawal? {
      WithdrawalKeepsRows(db, op);
    } else {
      FundingKeepsRows(db, op);
    }
  }

  /** Terminal bets are final, every other bet only moves forward, and no bet disappears. */
  lemma StepAdvances(db: Db, op: Op)
    requires BetsOk(db)
    ensures BetsAdvance(db.bets, After(db, op).bets)
  {
    if MovesBets(op) {
      if Step(db, op).Ok? {
        BetStepAdvances(db, op);
      }
    } else {
      BetsKept(db, op);
    }
  }

  lemma LaterTransitive(a: map<BetId, Bet>, b: map<BetId, Bet>, c: map<BetId, Bet>)
    requires BetsAdvance(a, b) && BetsAdvance(b, c)
    ensures BetsAdvance(a, c)
  {
    forall k | k in a ensures k in c && Later(a[k], c[k]) {
      assert Later(a[k], b[k]) && Later(b[k], c[k]);
    }
  }

  lemma {:induction false} RunAdvances(db: Db, ops: seq<Op>)
    requires Inv(db)
    ensures BetsAdvance(db.bets, Run(db, ops).bets)
  {
    if ops != [] {
      var mid := Run(db, ops[..|ops| - 1]);
      assert BetsOk(mid) by {
        RunKeepsInv(db, ops[..|ops| - 1]);
        InvRows(mid);
      }
      RunAdvances(db, ops[..|ops| - 1]);
      StepAdvances(mid, ops[|ops| - 1]);
      LaterTransitive(db.bets, mid.bets, Run(db, ops).bets);
    }
  }

  /** The bet a call works on, if it is one of the calls that move a bet to its next stage. */
  function Mover(op: Op): Option<BetId> {
    match op
    case OpAcceptBet(b, _, _, _, _) => Some(b)
    case OpCancelBet(b, _) => Some(b)
    case OpVoidBet(b) => Some(b)
    case OpSettleBet(b, _) => Some(b)
    case _ => None
  }

  /** The call moves the bet to its next stage if it succeeds. */
  predicate Moves(db: Db, op: Op, b: BetId) {
    Mover(op) == Some(b) || (op.OpConfirm? && b in db.bets && Queues(db.bets[b], op.matchId))
  }

  /** Every successful bet step strictly raises the rank of every bet it moves: accepting, cancelling,
      voiding, settling, and queueing by a confirmation. */
  lemma SuccessRaisesRank(db: Db, op: Op, b: BetId)
    requires Moves(db, op, b) && Step(db, op).Ok?
    ensures b in db.bets && b in After(db, op).bets
    ensures Rank(db.bets[b].status) < Rank(After(db, op).bets[b].status)
  {
  }

  // ---- Out of the queue -----------------------------------------------------------------

  lemma {:induction false} QueuedReplays(events: seq<BetEvent>, more: seq<BetEvent>)
    requires Replay(events) == At(BetStatus.PendingSettlement)
    ensures Replay(events + more) in {At(BetStatus.PendingSettlement), At(BetStatus.Settled), Broken}
  {
    if more == [] {
      assert events + more == events;
    } else {
      assert (events + more)[..|events + more| - 1] == events + more[..|more| - 1];
      QueuedReplays(events, more[..|more| - 1]);
    }
  }

  predicate SettledIn(db: Db, b: BetId) {
    b in db.bets && db.bets[b].status == BetStatus.Settled
  }

  predicate Underway(db: Db, b: BetId) {
    b in db.bets && db.bets[b].status in {BetStatus.PendingSettlement, BetStatus.Settled}
  }

  /** The only way out of the queue is settlement, and a settled bet stays settled. */
  lemma StaysUnderway(before: Db, after: Db, b: BetId)
    requires Audited(before) && Audited(after) && BetsAdvance(before.bets, after.bets) && Underway(before, b)
    ensures Underway(after, b) && (SettledIn(before, b) ==> SettledIn(after, b))
  {
    var bet, next := before.bets[b], after.bets[b];
    assert Later(bet, next);
    if bet != next && bet.status == BetStatus.PendingSettlement {
      var more := next.events[|bet.events|..];
      assert next.events == bet.events + more;
      QueuedReplays(bet.events, more);
    }
  }

  lemma AllStayUnderway(db: Db, ops: seq<Op>, queued: seq<BetId>, after: Db)
    requires Inv(db) && after == Run(db, ops) && forall b :: b in queued ==> Underway(db, b)
    ensures forall b :: b in queued ==> Underway(after, b) && (SettledIn(db, b) ==> SettledIn(after, b))
  {
    RunAdvances(db, ops);
    RunKeepsInv(db, ops);
    InvRows(db);
    InvRows(after);
    forall b | b in queued ensures Underway(after, b) && (SettledIn(db, b) ==> SettledIn(after, b)) {
      StaysUnderway(db, after, b);
    }
  }

  // ---- Runs in two parts ----------------------------------------------------------------

  lemma {:induction false} RunSplit(db: Db, first: seq<Op>, second: seq<Op>)
    ensures Run(db, first + second) == Run(Run(db, first), second)
  {
    if second == [] {
      assert first + second == first;
    } else {
      assert (first + second)[..|first + second| - 1] == first + second[..|second| - 1];
      RunSplit(db, first, second[..|second| - 1]);
    }
  }

  lemma RunNext(db: Db, ops: seq<Op>, i: nat)
    requires i < |ops|
    ensures Run(db, ops[..i + 1]) == After(Run(db, ops[..i]), ops[i])
  {
    assert ops[..i + 1][..i] == ops[..i];
  }

  lemma RunMore(db: Db, ops: seq<Op>, op: Op)
    ensures Run(db, ops + [op]) == After(Run(db, ops), op)
  {
    assert (ops + [op])[..|ops|] == ops;
  }

  lemma RunOne(db: Db, ops: seq<Op>, i: nat)
    requires i < |ops|
    ensures Run(db, ops[..i + 1]) == After(Run(db, ops[..i]), ops[i])
    ensures Run(db, ops) == Run(Run(db, ops[..i + 1]), ops[i + 1..])
  {
    assert ops[..i + 1][..i] == ops[..i];
    assert ops == ops[..i + 1] + ops[i + 1..];
    RunSplit(db, ops[..i + 1], ops[i + 1..]);
  }

  predicate Succeeds(db: Db, ops: seq<Op>, i: nat)
    requires i < |ops|
  {
    Step(Run(db, ops[..i]), ops[i]).Ok?
  }

  /** In any run a bet is settled at most once and taken by at most one opponent, and settling,
      voiding and cancelling exclude each other. */
  lemma MovedAtMostOnce(db: Db, ops: seq<Op>, i: nat, j: nat, b: BetId)
    requires Inv(db) && i < j < |ops|
    requires Mover(ops[i]) == Some(b) && Mover(ops[j]) == Some(b)
    requires ops[j].OpAcceptBet? || !ops[i].OpAcceptBet?
    ensures !(Succeeds(db, ops, i) && Succeeds(db, ops, j))
  {
    if Succeeds(db, ops, i) && Succeeds(db, ops, j) {
      var middle, late := Run(db, ops[..i + 1]), Run(db, ops[..j]);
      MovedOnward(db, ops, i, j, b);
      SuccessRaisesRank(late, ops[j], b);
      assert false;
    }
  }

  lemma MovedOnward(db: Db, ops: seq<Op>, i: nat, j: nat, b: BetId)
    requires Inv(db) && i < j < |ops|
    requires Mover(ops[i]) == Some(b) && Succeeds(db, ops, i)
    ensures b in Run(db, ops[..i + 1]).bets && b in Run(db, ops[..j]).bets
    ensures Later(Run(db, ops[..i + 1]).bets[b], Run(db, ops[..j]).bets[b])
    ensures 1 <= Rank(Run(db, ops[..i + 1]).bets[b].status)
    ensures !ops[i].OpAcceptBet? ==> Rank(Run(db, ops[..i + 1]).bets[b].status) == 3
  {
    RunOne(db, ops, i);
    MoverRank(Run(db, ops[..i]), ops[i]);
    AdvancesBetween(db, ops, i + 1, j);
  }

  lemma AdvancesBetween(db: Db, ops: seq<Op>, i: nat, j: nat)
    requires Inv(db) && i <= j <= |ops|
    ensures BetsAdvance(Run(db, ops[..i]).bets, Run(db, ops[..j]).bets)
  {
    RunKeepsInv(db, ops[..i]);
    assert ops[..j] == ops[..i] + ops[i..j];
    RunSplit(db, ops[..i], ops[i..j]);
    RunAdvances(Run(db, ops[..i]), ops[i..j]);
  }

  lemma MoverRank(db: Db, op: Op)
    requires Mover(op).Some? && Step(db, op).Ok?
    ensures Mover(op).value in After(db, op).bets
    ensures Rank(After(db, op).bets[Mover(op).value].status) == if op.OpAcceptBet? then 1 else 3
  {
  }

  // ---- Deposits -------------------------------------------------------------------------

  /** A deposit keeps its user and amount, and a closed one never changes. */
  predicate DepositsAdvance(before: map<DepositId, Deposit>, after: map<DepositId, Deposit>) {
    forall d :: d in before ==>
      && d in after && after[d].user == before[d].user && after[d].amount == before[d].amount
      && (DepositClosed(before[d]) ==> after[d] == before[d])
  }

  predicate MovesDeposits(op: Op) {
    op.OpCreateDeposit? || op.OpInitiatePayfast? || op.OpCompleteDeposit? || op.OpFailDeposit? || op.OpPayfastItn?
  }

  lemma NewDepositAdvances(db: Db, op: Op)
    requires op.OpCreateDeposit? || op.OpInitiatePayfast?
    ensures DepositsAdvance(db.deposits, After(db, op).deposits)
  {
  }

  lemma CompletingAdvances(db: Db, id: DepositId, reference: Option<string>)
    ensures DepositsAdvance(db.deposits, Keep(db, CompleteDeposit(db, id, reference)).deposits)
  {
  }

  lemma DepositStepAdvances(db: Db, op: Op)
    requires MovesDeposits(op)
    ensures DepositsAdvance(db.deposits, After(db, op).deposits)
  {
    if op.OpCreateDeposit? || op.OpInitiatePayfast? {
      NewDepositAdvances(db, op);
    } else if op.OpCompleteDeposit? {
      CompletingAdvances(db, op.deposit, op.reference);
    } else if op.OpPayfastItn? && op.itn.deposit.Some? {
      CompletingAdvances(db, op.itn.deposit.value, op.itn.reference);
    }
  }

  lemma BetStepKeepsDeposits(db: Db, op: Op)
    requires MovesBets(op)
    ensures After(db, op).deposits == db.deposits
  {
  }

  lemma RestKeepsDeposits(db: Db, op: Op)
    requires !MovesBets(op) && !MovesDeposits(op)
    ensures After(db, op).deposits == db.deposits
  {
  }

  lemma StepAdvancesDeposits(db: Db, op: Op)
    ensures DepositsAdvance(db.deposits, After(db, op).deposits)
  {
    if MovesDeposits(op) {
      DepositStepAdvances(db, op);
    } else if MovesBets(op) {
      BetStepKeepsDeposits(db, op);
    } else {
      RestKeepsDeposits(db, op);
    }
  }

  lemma {:induction false} RunAdvancesDeposits(db: Db, ops: seq<Op>)
    ensures DepositsAdvance(db.deposits, Run(db, ops).deposits)
  {
    if ops != [] {
      RunAdvancesDeposits(db, ops[..|ops| - 1]);
      StepAdvancesDeposits(Run(db, ops[..|ops| - 1]), ops[|ops| - 1]);
    }
  }

  // ---- Withdrawals ----------------------------------------------------------------------

  /** A withdrawal keeps its user and amount and never disappears. */
  predicate WithdrawalsAdvance(before: map<WithdrawalId, Withdrawal>, after: map<WithdrawalId, Withdrawal>) {
    forall w :: w in before ==> w in after && after[w].user == before[w].user && after[w].amount == before[w].amount
  }

  predicate MovesWithdrawals(op: Op) {
    op.OpCreateWithdrawal? || op.OpApproveWithdrawal? || op.OpCompleteWithdrawal? || op.OpRejectWithdrawal?
    || op.OpFailWithdrawal?
  }

  lemma WithdrawalStepAdvances(db: Db, op: Op)
    requires MovesWithdrawals(op)
    ensures WithdrawalsAdvance(db.withdrawals, After(db, op).withdrawals)
  {
  }

  lemma BetStepKeepsWithdrawals(db: Db, op: Op)
    requires MovesBets(op)
    ensures After(db, op).withdrawals == db.withdrawals
  {
  }

  lemma OthersKeepWithdrawals(db: Db, op: Op)
    requires !MovesWithdrawals(op)
    ensures After(db, op).withdrawals == db.withdrawals
  {
    if MovesBets(op) {
      BetStepKeepsWithdrawals(db, op);
    }
  }

  lemma {:induction false} RunAdvancesWithdrawals(db: Db, ops: seq<Op>)
    ensures WithdrawalsAdvance(db.withdrawals, Run(db, ops).withdrawals)
  {
    if ops != [] {
      var before, op := Run(db, ops[..|ops| - 1]), ops[|ops| - 1];
      RunAdvancesWithdrawals(db, ops[..|ops| - 1]);
      if MovesWithdrawals(op) {
        WithdrawalStepAdvances(before, op);
      } else {
        OthersKeepWithdrawals(before, op);
      }
    }
  }

  // ---- Matches --------------------------------------------------------------------------

  lemma BetKeepsMatches(db: Db, op: Op)
    requires MovesBets(op) && !op.OpConfirm?
    ensures After(db, op).matches == db.matches
  {
  }

  /** Only synchronisation and confirmation touch matches. */
  lemma MatchesKept(db: Db, op: Op)
    requires !op.OpSync? && !op.OpConfirm?
    ensures After(db, op).matches == db.matches
  {
    if MovesBets(op) {
      BetKeepsMatches(db, op);
    } else {
      BetsKept(db, op);
    }
  }

  lemma StepFreezes(db: Db, op: Op)
    requires ConfirmedOk(db)
    ensures MatchProofs.AllFrozen(db.matches, After(db, op).matches)
  {
    if op.OpSync? {
      MatchProofs.SyncFreezes(db.matches, op.payloads, op.now);
    } else if op.OpConfirm? {
      ConfirmFreezes(db, op.matchId, op.outcome, op.home, op.away, op.now);
    } else {
      MatchesKept(db, op);
    }
  }

  lemma ConfirmFreezes(db: Db, matchId: MatchId, outcome: Outcome, home: int, away: int, now: int)
    ensures MatchProofs.AllFrozen(db.matches, Keep(db, Confirm(db, matchId, outcome, home, away, now)).matches)
  {
  }

  /** A confirmed result stays as confirmed for ever. */
  lemma {:induction false} RunFreezes(db: Db, ops: seq<Op>)
    requires Inv(db)
    ensures MatchProofs.AllFrozen(db.matches, Run(db, ops).matches)
  {
    if ops != [] {
      assert ConfirmedOk(Run(db, ops[..|ops| - 1])) by {
        RunKeepsInv(db, ops[..|ops| - 1]);
        InvRows(Run(db, ops[..|ops| - 1]));
      }
      RunFreezes(db, ops[..|ops| - 1]);
      StepFreezes(Run(db, ops[..|ops| - 1]), ops[|ops| - 1]);
    }
  }

  // ---- The ledger -----------------------------------------------------------------------

  predicate Snapshot(e: LedgerEntry, wallets: map<UserId, Wallet>) {
    e.line.user in wallets
    && e.availableAfter == wallets[e.line.user].available && e.lockedAfter == wallets[e.line.user].locked
  }

  /** `after` extends the ledger, and every new entry shows the balances `after` the whole call. */
  predicate Appends(db: Db, after: Db) {
    db.ledger <= after.ledger
    && forall i :: |db.ledger| <= i < |after.ledger| ==> Snapshot(after.ledger[i], after.wallets)
  }

  lemma CompleteDepositAppends(db: Db, id: DepositId, reference: Option<string>)
    ensures Appends(db, Keep(db, CompleteDeposit(db, id, reference)))
  {
  }

  lemma SettleAppends(db: Db, id: BetId, now: int)
    ensures Appends(db, Keep(db, SettleBet(db, id, now)))
  {
  }

  lemma BetAppends(db: Db, op: Op)
    requires op.OpCreateBet? || op.OpAcceptBet? || op.OpCancelBet? || op.OpVoidBet?
    ensures Appends(db, After(db, op))
  {
  }

  lemma WithdrawalAppends(db: Db, op: Op)
    requires op.OpCreateWithdrawal? || op.OpCompleteWithdrawal? || op.OpRejectWithdrawal? || op.OpFailWithdrawal?
    ensures Appends(db, After(db, op))
  {
  }

  lemma StepAppends(db: Db, op: Op)
    ensures Appends(db, After(db, op))
  {
    if op.OpCreateBet? || op.OpAcceptBet? || op.OpCancelBet? || op.OpVoidBet? {
      BetAppends(db, op);
    } else if op.OpSettleBet? {
      SettleAppends(db, op.bet, op.now);
    } else if op.OpCompleteDeposit? {
      CompleteDepositAppends(db, op.deposit, op.reference);
    } else if op.OpPayfastItn? && op.itn.deposit.Some? {
      CompleteDepositAppends(db, op.itn.deposit.value, op.itn.reference);
    } else if op.OpCreateWithdrawal? || op.OpCompleteWithdrawal? || op.OpRejectWithdrawal? || op.OpFailWithdrawal? {
      WithdrawalAppends(db, op);
    } else {
      assert After(db, op).ledger == db.ledger;
    }
  }

  lemma {:induction false} RunAppends(db: Db, ops: seq<Op>)
    ensures db.ledger <= Run(db, ops).ledger
  {
    if ops != [] {
      RunAppends(db, ops[..|ops| - 1]);
      StepAppends(Run(db, ops[..|ops| - 1]), ops[|ops| - 1]);
    }
  }
}
