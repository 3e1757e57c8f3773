/** What must have happened in a run that ends in a given row: which calls, with which arguments, in which order. */
module Histories {
  import opened Wrappers
  import opened Tables
  import opened Rules
  import opened Invariants
  import opened Runs
  import opened BetLaws
  import opened FundingLaws
  import opened SettlementLaws
  import Money
  import Theorems

  /** A run of calls from the empty database, with the states between them. */
  datatype History = History(states: seq<Db>, calls: seq<Op>)

  /** It is one, and has at least `n` calls. */
  ghost predicate Reaching(h: History, n: nat) {
    Trace(h.states, h.calls) && h.states[0] == EMPTY && n <= |h.calls|
  }

  lemma NextState(h: History, i: nat)
    requires Reaching(h, i + 1)
    ensures h.states[i + 1] == After(h.states[i], h.calls[i])
  {
    assert Runs.Linked(h.states, h.calls, i);
  }

  /** If something holds after `n` calls and not in the empty database, some call made it true. */
  lemma {:induction false} Turning(h: History, n: nat, p: Db -> bool) returns (i: nat)
    requires Reaching(h, n) && !p(EMPTY) && p(h.states[n])
    ensures i < n && !p(h.states[i]) && p(h.states[i + 1]) && h.states[i + 1] == After(h.states[i], h.calls[i])
  {
    if p(h.states[n - 1]) {
      i := Turning(h, n - 1, p);
    } else {
      i := n - 1;
      NextState(h, i);
    }
  }

  /** Every state on the way is reachable, and reaches the later ones. */
  lemma Onwards(h: History, i: nat, j: nat)
    requires Reaching(h, j) && i <= j
    ensures Reachable(h.states[i]) && Inv(h.states[i]) && Reaches(h.states[i], h.states[j])
  {
    Stretch(h, 0, i);
    Stretch(h, i, j);
    ReachableInv(h.states[i]);
  }

  lemma Stretch(h: History, i: nat, j: nat)
    requires Reaching(h, j) && i <= j
    ensures Leads(h.states[i], h.calls[i..j], h.states[j])
  {
    var states, calls := h.states[i..j + 1], h.calls[i..j];
    forall k | 0 <= k < |calls| ensures Runs.Linked(states, calls, k) {
      assert Runs.Linked(h.states, h.calls, i + k);
    }
    assert Trace(states, calls) && states[0] == h.states[i] && states[|calls|] == h.states[j];
  }

  // ---- Deposits -------------------------------------------------------------------------

  /** The call is allowed to complete the deposit: an admin's, or a timely, verified notification of payment. */
  predicate Completes(op: Op, d: DepositId) {
    || (op.OpCompleteDeposit? && op.deposit == d)
    || (op.OpPayfastItn? && op.itn.deposit == Some(d) && op.itn.timely && op.itn.verified && op.itn.status.Complete?)
  }

  predicate Fails(op: Op, d: DepositId) {
    || (op.OpFailDeposit? && op.deposit == d)
    || (op.OpPayfastItn? && op.itn.deposit == Some(d) && op.itn.timely && op.itn.verified && op.itn.status.Refused?)
  }

  /** The status a deposit has, if there is one. */
  predicate DepositIs(db: Db, d: DepositId, status: DepositStatus) {
    d in db.deposits && db.deposits[d].status == status
  }

  lemma OthersKeepDeposits(db: Db, op: Op)
    requires !MovesDeposits(op)
    ensures After(db, op).deposits == db.deposits
  {
    if MovesBets(op) {
      BetStepKeepsDeposits(db, op);
    } else {
      RestKeepsDeposits(db, op);
    }
  }

  lemma CompleteTouchesOne(db: Db, id: DepositId, reference: Option<string>, d: DepositId, status: DepositStatus)
    requires DepositIs(After(db, OpCompleteDeposit(id, reference)), d, status) && !DepositIs(db, d, status)
    ensures d == id && status.Completed?
  {
    if Step(db, OpCompleteDeposit(id, reference)).Ok? {
      CompleteDepositEffect(db, id, reference);
    }
  }

  lemma FailTouchesOne(db: Db, id: DepositId, d: DepositId, status: DepositStatus)
    requires DepositIs(After(db, OpFailDeposit(id)), d, status) && !DepositIs(db, d, status)
    ensures d == id && status.Failed?
  {
    FailDepositLaw(db, id);
  }

  lemma ItnTouchesOne(db: Db, itn: Notification, d: DepositId, status: DepositStatus)
    requires DepositIs(After(db, OpPayfastItn(itn)), d, status) && !DepositIs(db, d, status)
    ensures itn.deposit == Some(d) && itn.timely && itn.verified
    ensures (itn.status.Complete? && status.Completed?) || (itn.status.Refused? && status.Failed?)
  {
    PayfastItnLaw(db, itn);
    if itn.status.Complete? {
      CompleteTouchesOne(db, itn.deposit.value, itn.reference, d, status);
    } else {
      FailTouchesOne(db, itn.deposit.value, d, status);
    }
  }

  lemma RequestedAnew(db: Db, op: Op, d: DepositId, status: DepositStatus)
    requires op.OpCreateDeposit? || op.OpInitiatePayfast?
    requires DepositIs(After(db, op), d, status) && !DepositIs(db, d, status)
    ensures status.Pending? || status.Processing?
  {
    if op.OpCreateDeposit? {
      CreateDepositLaw(db, op.deposit, op.user, op.amount, op.clientReference);
    } else {
      InitiatePayfastLaw(db, op.deposit, op.user, op.amount, op.enabled);
    }
  }

  lemma StepEndsDeposit(db: Db, op: Op, d: DepositId, status: DepositStatus)
    requires DepositIs(After(db, op), d, status) && !DepositIs(db, d, status)
    ensures status.Completed? ==> Completes(op, d)
    ensures status.Failed? ==> Fails(op, d)
    ensures !status.Cancelled?
  {
    if op.OpCompleteDeposit? {
      CompleteTouchesOne(db, op.deposit, op.reference, d, status);
    } else if op.OpFailDeposit? {
      FailTouchesOne(db, op.deposit, d, status);
    } else if op.OpPayfastItn? {
      ItnTouchesOne(db, op.itn, d, status);
    } else if op.OpCreateDeposit? || op.OpInitiatePayfast? {
      RequestedAnew(db, op, d, status);
    } else {
      OthersKeepDeposits(db, op);
    }
  }

  /** Whatever else happens in a run, a completed deposit was completed by an admin's call for it or by a timely,
      verified notification of its payment, at a moment when it was still awaited. */
  lemma CompletedBy(h: History, n: nat, d: DepositId) returns (i: nat)
    requires Reaching(h, n) && DepositIs(h.states[n], d, DepositStatus.Completed)
    ensures i < n && Completes(h.calls[i], d) && Awaited(h.states[i], d)
  {
    i := Turning(h, n, (db: Db) => DepositIs(db, d, DepositStatus.Completed));
    StepEndsDeposit(h.states[i], h.calls[i], d, DepositStatus.Completed);
    Onwards(h, i, n);
    WasAwaited(h.states[i], h.calls[i], d);
  }

  lemma WasAwaited(db: Db, op: Op, d: DepositId)
    requires Inv(db) && Completes(op, d)
    requires DepositIs(After(db, op), d, DepositStatus.Completed) && !DepositIs(db, d, DepositStatus.Completed)
    ensures Awaited(db, d)
  {
    if op.OpPayfastItn? {
      PayfastItnLaw(db, op.itn);
      CompleteDepositAnswers(db, d, op.itn.reference);
    } else {
      CompleteDepositAnswers(db, d, op.reference);
    }
  }

  /** A failed deposit was failed by an admin's call or by a timely, verified notification of refusal; no deposit is
      ever cancelled. */
  lemma FailedBy(h: History, n: nat, d: DepositId) returns (i: nat)
    requires Reaching(h, n) && d in h.states[n].deposits
    requires h.states[n].deposits[d].status in {DepositStatus.Failed, DepositStatus.Cancelled}
    ensures DepositIs(h.states[n], d, DepositStatus.Failed)
    ensures i < n && Fails(h.calls[i], d) && Awaited(h.states[i], d)
  {
    var status := h.states[n].deposits[d].status;
    i := Turning(h, n, (db: Db) => DepositIs(db, d, status));
    StepEndsDeposit(h.states[i], h.calls[i], d, status);
    WasAwaitedToo(h.states[i], h.calls[i], d);
  }

  lemma WasAwaitedToo(db: Db, op: Op, d: DepositId)
    requires Fails(op, d)
    requires DepositIs(After(db, op), d, DepositStatus.Failed) && !DepositIs(db, d, DepositStatus.Failed)
    ensures Awaited(db, d)
  {
    if op.OpPayfastItn? {
      PayfastItnLaw(db, op.itn);
    }
    FailDepositLaw(db, d);
  }

  /** The call requests the deposit for that user and amount. */
  predicate RequestsDeposit(op: Op, d: DepositId, user: UserId, amount: int) {
    || (op.OpCreateDeposit? && op.deposit == d && op.user == user && op.amount == amount)
    || (op.OpInitiatePayfast? && op.deposit == d && op.user == user && op.amount == amount && op.enabled)
  }

  lemma StepRequestsDeposit(db: Db, op: Op, d: DepositId)
    requires d !in db.deposits && d in After(db, op).deposits
    ensures var row := After(db, op).deposits[d]; RequestsDeposit(op, d, row.user, row.amount)
  {
    if op.OpCompleteDeposit? {
      NoNewDeposit(db, op.deposit, op.reference);
    } else if op.OpFailDeposit? {
      FailDepositLaw(db, op.deposit);
    } else if op.OpPayfastItn? {
      PayfastItnLaw(db, op.itn);
      if op.itn.deposit.Some? {
        NoNewDeposit(db, op.itn.deposit.value, op.itn.reference);
        FailDepositLaw(db, op.itn.deposit.value);
      }
    } else if op.OpCreateDeposit? {
      CreateDepositLaw(db, op.deposit, op.user, op.amount, op.clientReference);
    } else if op.OpInitiatePayfast? {
      InitiatePayfastLaw(db, op.deposit, op.user, op.amount, op.enabled);
    } else {
      OthersKeepDeposits(db, op);
    }
  }

  lemma NoNewDeposit(db: Db, id: DepositId, reference: Option<string>)
    ensures After(db, OpCompleteDeposit(id, reference)).deposits.Keys == db.deposits.Keys
  {
    if Step(db, OpCompleteDeposit(id, reference)).Ok? {
      CompleteDepositEffect(db, id, reference);
    }
  }

  /** Every deposit was requested for its user and with its amount. */
  lemma DepositRequestedBy(h: History, n: nat, d: DepositId) returns (i: nat)
    requires Reaching(h, n) && d in h.states[n].deposits
    ensures var row := h.states[n].deposits[d];
            i < n && RequestsDeposit(h.calls[i], d, row.user, row.amount)
  {
    i := Turning(h, n, (db: Db) => d in db.deposits);
    StepRequestsDeposit(h.states[i], h.calls[i], d);
    DepositStays(h, i + 1, n, d);
  }

  /** A deposit keeps the user and the amount it has. */
  lemma DepositStays(h: History, i: nat, j: nat, d: DepositId)
    requires Reaching(h, j) && i <= j && d in h.states[i].deposits
    ensures d in h.states[j].deposits
    ensures var early, late := h.states[i].deposits[d], h.states[j].deposits[d];
            late.user == early.user && late.amount == early.amount
  {
    Stretch(h, i, j);
    LeadsIffRun(h.states[i], h.calls[i..j], h.states[j]);
    RunAdvancesDeposits(h.states[i], h.calls[i..j]);
  }

  // ---- Withdrawals ----------------------------------------------------------------------

  /** The call that brings a withdrawal into a status. */
  predicate BringsTo(op: Op, w: WithdrawalId, status: WithdrawalStatus) {
    match status
    case Pending => op.OpCreateWithdrawal? && op.withdrawal == w
    case Approved => op == OpApproveWithdrawal(w)
    case Completed => op == OpCompleteWithdrawal(w)
    case Rejected => op == OpRejectWithdrawal(w)
    case Failed => op == OpFailWithdrawal(w)
    case Processing => false
  }

  lemma StepBringsTo(db: Db, op: Op, w: WithdrawalId, status: WithdrawalStatus)
    requires InStatus(After(db, op), w, {status}) && !InStatus(db, w, {status})
    ensures BringsTo(op, w, status) && Step(db, op).Ok?
  {
    if !MovesWithdrawals(op) {
      OthersKeepWithdrawals(db, op);
    } else if op.OpApproveWithdrawal? {
      ApproveWithdrawalLaw(db, op.withdrawal);
    } else if op.OpCreateWithdrawal? {
      CreateWithdrawalEffect(db, op.withdrawal, op.user, op.amount);
    } else if op.OpCompleteWithdrawal? {
      CompleteWithdrawalEffect(db, op.withdrawal);
    } else if op.OpRejectWithdrawal? {
      RejectWithdrawalEffect(db, op.withdrawal);
    } else {
      FailWithdrawalEffect(db, op.withdrawal);
    }
  }

  /** Whatever status a withdrawal has, the call for that status was made for it and succeeded. */
  lemma BroughtTo(h: History, n: nat, w: WithdrawalId, status: WithdrawalStatus) returns (i: nat)
    requires Reaching(h, n) && InStatus(h.states[n], w, {status})
    ensures i < n && BringsTo(h.calls[i], w, status) && Step(h.states[i], h.calls[i]).Ok?
  {
    i := Turning(h, n, (db: Db) => InStatus(db, w, {status}));
    StepBringsTo(h.states[i], h.calls[i], w, status);
  }

  /** Money leaves only after an approval: a completed withdrawal was requested, then approved, then completed, by
      three calls in this order. */
  lemma PaidOutInThreeSteps(h: History, n: nat, w: WithdrawalId) returns (i: nat, j: nat, k: nat)
    requires Reaching(h, n) && InStatus(h.states[n], w, {WithdrawalStatus.Completed})
    ensures i < j < k < n
    ensures var row := h.states[n].withdrawals[w]; h.calls[i] == OpCreateWithdrawal(w, row.user, row.amount)
    ensures h.calls[j] == OpApproveWithdrawal(w) && h.calls[k] == OpCompleteWithdrawal(w)
  {
    k := BroughtTo(h, n, w, WithdrawalStatus.Completed);
    Onwards(h, k, n);
    FinishWithdrawalAnswers(h.states[k], w);
    if InStatus(h.states[k], w, {WithdrawalStatus.Processing}) {
      var never := BroughtTo(h, k, w, WithdrawalStatus.Processing);
    }
    j := BroughtTo(h, k, w, WithdrawalStatus.Approved);
    ApproveWithdrawalLaw(h.states[j], w);
    i := WithdrawalRequestedBy(h, j, w);
    WithdrawalStays(h, j, n, w);
  }

  lemma StepRequestsWithdrawal(db: Db, op: Op, w: WithdrawalId)
    requires w !in db.withdrawals && w in After(db, op).withdrawals
    ensures var row := After(db, op).withdrawals[w]; op == OpCreateWithdrawal(w, row.user, row.amount)
  {
    StepBringsTo(db, op, w, After(db, op).withdrawals[w].status);
    if op.OpCreateWithdrawal? {
      CreateWithdrawalEffect(db, w, op.user, op.amount);
    } else if op.OpApproveWithdrawal? {
      ApproveWithdrawalLaw(db, w);
    } else if op.OpCompleteWithdrawal? {
      CompleteWithdrawalEffect(db, w);
    } else if op.OpRejectWithdrawal? {
      RejectWithdrawalEffect(db, w);
    } else {
      FailWithdrawalEffect(db, w);
    }
  }

  /** A withdrawal keeps the user and the amount it has. */
  lemma WithdrawalStays(h: History, i: nat, j: nat, w: WithdrawalId)
    requires Reaching(h, j) && i <= j && w in h.states[i].withdrawals
    ensures w in h.states[j].withdrawals
    ensures var early, late := h.states[i].withdrawals[w], h.states[j].withdrawals[w];
            late.user == early.user && late.amount == early.amount
  {
    Stretch(h, i, j);
    LeadsIffRun(h.states[i], h.calls[i..j], h.states[j]);
    RunAdvancesWithdrawals(h.states[i], h.calls[i..j]);
  }

  /** Every withdrawal was requested for its user and with its amount. */
  lemma WithdrawalRequestedBy(h: History, n: nat, w: WithdrawalId) returns (i: nat)
    requires Reaching(h, n) && w in h.states[n].withdrawals
    ensures var row := h.states[n].withdrawals[w];
            i < n && h.calls[i] == OpCreateWithdrawal(w, row.user, row.amount)
  {
    i := Turning(h, n, (db: Db) => w in db.withdrawals);
    StepRequestsWithdrawal(h.states[i], h.calls[i], w);
    WithdrawalStays(h, i + 1, n, w);
  }

  // ---- Bets -----------------------------------------------------------------------------

  /** Only a call that works on the bet can change it. */
  lemma OnlyMoversChange(db: Db, op: Op, b: BetId)
    requires b in db.bets
    ensures b in After(db, op).bets
    ensures After(db, op).bets[b] != db.bets[b] ==> Step(db, op).Ok? && Moves(db, op, b)
  {
    if !MovesBets(op) {
      BetsKept(db, op);
    } else if op.OpSettleBet? {
      SettleTouchesOne(db, op.bet, op.now, b);
    } else if op.OpConfirm? {
      if Step(db, op).Ok? {
        ConfirmEffect(db, op.matchId, op.outcome, op.home, op.away, op.now);
      }
    } else {
      BetCallTouchesOne(db, op, b);
    }
  }

  lemma SettleTouchesOne(db: Db, id: BetId, now: int, b: BetId)
    requires b in db.bets
    ensures var after := After(db, OpSettleBet(id, now)).bets;
            b in after && (after[b] != db.bets[b] ==> Step(db, OpSettleBet(id, now)).Ok? && b == id)
  {
  }

  lemma BetCallTouchesOne(db: Db, op: Op, b: BetId)
    requires b in db.bets && (op.OpCreateBet? || op.OpAcceptBet? || op.OpCancelBet? || op.OpVoidBet?)
    ensures b in After(db, op).bets
    ensures After(db, op).bets[b] != db.bets[b] ==> Step(db, op).Ok? && Moves(db, op, b)
  {
  }

  lemma StepCreates(db: Db, op: Op, b: BetId)
    requires b !in db.bets && b in After(db, op).bets
    ensures op.OpCreateBet? && op.bet == b && op.active && Step(db, op).Ok? && TakesBets(db, op.matchId, op.now)
    ensures After(db, op).bets[b] == FreshBet(db, op.user, op.matchId, op.prediction, op.stake)
    ensures 1000 <= op.stake <= 1000000
  {
    if op.OpCreateBet? {
      CreateBetAnswers(db, op.bet, op.active, op.user, op.matchId, op.prediction, op.stake, op.now);
      CreateBetEffect(db, op.bet, op.active, op.user, op.matchId, op.prediction, op.stake, op.now);
    } else if MovesBets(op) {
      NoNewBet(db, op);
    } else {
      BetsKept(db, op);
    }
  }

  lemma NoNewBet(db: Db, op: Op)
    requires op.OpAcceptBet? || op.OpCancelBet? || op.OpVoidBet? || op.OpConfirm? || op.OpSettleBet?
    ensures After(db, op).bets.Keys == db.bets.Keys
  {
  }

  /** The call, made in `before`, creates the bet with these terms, before the cutoff of its match. */
  predicate CreatesAs(before: Db, op: Op, b: BetId, bet: Bet) {
    && op.OpCreateBet? && op == OpCreateBet(b, true, bet.creator, bet.matchId, bet.creatorPrediction, bet.stake, op.now)
    && TakesBets(before, bet.matchId, op.now) && bet.expiresAt == before.matches[bet.matchId].kickoff
    && 1000 <= bet.stake <= 1000000
  }

  /** Every bet was created by its creator on the terms it has, at least a quarter of an hour before kickoff, and
      expires at the kickoff its match had then. */
  lemma BetCreatedBy(h: History, n: nat, b: BetId) returns (i: nat)
    requires Reaching(h, n) && b in h.states[n].bets
    ensures i < n && b !in h.states[i].bets && CreatesAs(h.states[i], h.calls[i], b, h.states[n].bets[b])
  {
    i := Turning(h, n, (db: Db) => b in db.bets);
    StepCreates(h.states[i], h.calls[i], b);
    BetStays(h, i + 1, n, b);
  }

  /** A bet keeps what was agreed. */
  lemma BetStays(h: History, i: nat, j: nat, b: BetId)
    requires Reaching(h, j) && i <= j && b in h.states[i].bets
    ensures b in h.states[j].bets && Later(h.states[i].bets[b], h.states[j].bets[b])
  {
    Onwards(h, i, j);
    Theorems.FinishedForEver(h.states[i], h.states[j], b);
  }

  predicate Taken(db: Db, b: BetId) {
    b in db.bets && db.bets[b].opponent.Some?
  }

  lemma StepTakes(db: Db, op: Op, b: BetId)
    requires Inv(db) && !Taken(db, b) && Taken(After(db, op), b)
    ensures b in db.bets && op.OpAcceptBet? && op.bet == b && op.active
    ensures MayTake(db, b, op.user, op.prediction, op.now)
    ensures var bet := After(db, op).bets[b];
            bet.opponent == Some(op.user) && bet.opponentPrediction == Some(op.prediction)
  {
    if b !in db.bets {
      StepCreates(db, op, b);
    } else {
      OnlyMoversChange(db, op, b);
      if op.OpAcceptBet? {
        AcceptBetAnswers(db, b, op.active, op.user, op.prediction, op.now);
        AcceptBetEffect(db, b, op.active, op.user, op.prediction, op.now);
      } else {
        OthersTakeNothing(db, op, b);
      }
    }
  }

  lemma OthersTakeNothing(db: Db, op: Op, b: BetId)
    requires b in db.bets && Moves(db, op, b) && !op.OpAcceptBet? && Step(db, op).Ok?
    ensures b in After(db, op).bets && After(db, op).bets[b].opponent == db.bets[b].opponent
  {
  }

  /** Who took a bet and on which prediction was said in one call, before the bet expired. */
  lemma BetTakenBy(h: History, n: nat, b: BetId) returns (j: nat)
    requires Reaching(h, n) && Taken(h.states[n], b)
    ensures j < n && b in h.states[j].bets && h.calls[j].OpAcceptBet?
    ensures var bet := h.states[n].bets[b];
            && bet.opponentPrediction.Some?
            && h.calls[j] == OpAcceptBet(b, true, bet.opponent.value, bet.opponentPrediction.value, h.calls[j].now)
            && h.calls[j].now < bet.expiresAt
            && bet.opponent.value != bet.creator && bet.opponentPrediction.value != bet.creatorPrediction
  {
    j := Turning(h, n, (db: Db) => Taken(db, b));
    Onwards(h, j, n);
    StepTakes(h.states[j], h.calls[j], b);
    BetStays(h, j, n, b);
    BetStays(h, j + 1, n, b);
  }

  /** A bet is taken only after it was created and before the kickoff that its match had when it was created. */
  lemma TakenBeforeKickoff(h: History, n: nat, b: BetId) returns (i: nat, j: nat)
    requires Reaching(h, n) && Taken(h.states[n], b)
    ensures i < j < n && h.calls[j].OpAcceptBet? && h.calls[j].bet == b
    ensures CreatesAs(h.states[i], h.calls[i], b, h.states[n].bets[b])
    ensures h.calls[j].now < h.states[i].matches[h.states[n].bets[b].matchId].kickoff
  {
    j := BetTakenBy(h, n, b);
    i := BetCreatedBy(h, j, b);
    BetStays(h, j, n, b);
  }

  predicate BetIs(db: Db, b: BetId, status: BetStatus) {
    b in db.bets && db.bets[b].status == status
  }

  /** The call ends the bet in that way. */
  predicate Ends(db: Db, op: Op, b: BetId, status: BetStatus)
    requires b in db.bets
  {
    match status
    case Cancelled => op == OpCancelBet(b, db.bets[b].creator) && db.bets[b].status == BetStatus.Open
    case Voided => op == OpVoidBet(b) && db.bets[b].status in {BetStatus.Open, BetStatus.Matched}
    case Settled => op.OpSettleBet? && op.bet == b && db.bets[b].status == BetStatus.PendingSettlement
    case _ => false
  }

  lemma StepEnds(db: Db, op: Op, b: BetId, status: BetStatus)
    requires Inv(db) && BetIs(After(db, op), b, status) && !BetIs(db, b, status)
    requires status in {BetStatus.Cancelled, BetStatus.Voided, BetStatus.Settled}
    ensures b in db.bets && Ends(db, op, b, status) && Step(db, op).Ok?
  {
    if b !in db.bets {
      StepCreates(db, op, b);
    } else {
      OnlyMoversChange(db, op, b);
      match op {
        case OpCancelBet(_, user) =>
          CancelBetAnswers(db, b, user);
          CancelBetEffect(db, b, user);
        case OpVoidBet(_) => VoidSets(db, b);
        case OpSettleBet(_, now) =>
          SettleAnswers(db, b, now);
          SettleSets(db, b, now);
        case OpAcceptBet(_, active, user, prediction, now) => AcceptBetEffect(db, b, active, user, prediction, now);
        case OpConfirm(m, outcome, home, away, now) => ConfirmEffect(db, m, outcome, home, away, now);
      }
    }
  }

  lemma VoidSets(db: Db, b: BetId)
    requires Inv(db) && Step(db, OpVoidBet(b)).Ok?
    ensures b in db.bets && db.bets[b].status in {BetStatus.Open, BetStatus.Matched}
    ensures BetIs(After(db, OpVoidBet(b)), b, BetStatus.Voided)
  {
    VoidBetAnswers(db, b);
    if db.bets[b].status == BetStatus.Open {
      VoidOpenEffect(db, b);
    } else {
      VoidMatchedEffect(db, b);
    }
  }

  lemma SettleSets(db: Db, b: BetId, now: int)
    requires Inv(db) && Step(db, OpSettleBet(b, now)).Ok?
    ensures BetIs(After(db, OpSettleBet(b, now)), b, BetStatus.Settled)
  {
    var v := SuccessIsJudged(db, b, now);
  }

  /** How a finished bet was finished: cancelled by its creator while it was open, voided while it was open or
      matched, settled while it was queued. */
  lemma BetEndedBy(h: History, n: nat, b: BetId) returns (j: nat)
    requires Reaching(h, n) && b in h.states[n].bets && Theorems.Terminal(h.states[n].bets[b])
    ensures j < n && b in h.states[j].bets && Step(h.states[j], h.calls[j]).Ok?
    ensures Ends(h.states[j], h.calls[j], b, h.states[n].bets[b].status)
    ensures BetIs(h.states[j + 1], b, h.states[n].bets[b].status)
    ensures h.states[j + 1] == After(h.states[j], h.calls[j])
  {
    var status := h.states[n].bets[b].status;
    j := Turning(h, n, (db: Db) => BetIs(db, b, status));
    Onwards(h, j, n);
    StepEnds(h.states[j], h.calls[j], b, status);
  }

  // ---- Results --------------------------------------------------------------------------

  predicate Confirmed(db: Db, m: MatchId) {
    m in db.matches && db.matches[m].confirmedAt.Some?
  }

  lemma StepConfirms(db: Db, op: Op, m: MatchId)
    requires !Confirmed(db, m) && Confirmed(After(db, op), m)
    ensures op.OpConfirm? && op.matchId == m
    ensures var n := After(db, op).matches[m];
            n.outcome == Some(op.outcome) && n.homeScore == Some(op.home) && n.awayScore == Some(op.away)
            && n.confirmedAt == Some(op.now)
  {
    if op.OpConfirm? {
      if Step(db, op).Ok? {
        ConfirmEffect(db, op.matchId, op.outcome, op.home, op.away, op.now);
      }
    } else if op.OpSync? {
      SyncConfirmsNothing(db.matches, op.payloads, op.now, m);
    } else {
      MatchesKept(db, op);
    }
  }

  lemma {:induction false} SyncConfirmsNothing(matches: map<MatchId, Match>, payloads: seq<Payload>, now: int,
                                               m: MatchId)
    requires m in SyncAll(matches, payloads, now) && SyncAll(matches, payloads, now)[m].confirmedAt.Some?
    ensures m in matches && matches[m].confirmedAt.Some?
  {
    if payloads != [] {
      SyncConfirmsNothing(matches, payloads[..|payloads| - 1], now, m);
    }
  }

  /** The result a confirmed match has is exactly what one confirming call said. */
  lemma ConfirmedBy(h: History, n: nat, m: MatchId) returns (i: nat)
    requires Reaching(h, n) && Confirmed(h.states[n], m)
    ensures i < n && h.calls[i].OpConfirm? && !Confirmed(h.states[i], m)
    ensures var row := h.states[n].matches[m];
            && row.outcome.Some? && row.homeScore.Some? && row.awayScore.Some? && row.confirmedAt.Some?
            && h.calls[i] == OpConfirm(m, row.outcome.value, row.homeScore.value, row.awayScore.value,
                                       row.confirmedAt.value)
  {
    i := Turning(h, n, (db: Db) => Confirmed(db, m));
    StepConfirms(h.states[i], h.calls[i], m);
    Onwards(h, i + 1, n);
    Theorems.ConfirmedForEver(h.states[i + 1], h.states[n], m);
  }

  /** The settled bet was won by whoever predicted this result, and by nobody if nobody did. */
  predicate DecidedBy(bet: Bet, result: Outcome) {
    && bet.opponent.Some? && bet.opponent != Some(bet.creator)
    && (bet.winner == Some(bet.creator) <==> bet.creatorPrediction == result)
    && (bet.winner == bet.opponent <==> bet.opponentPrediction == Some(result))
    && (bet.winner.None? <==> bet.creatorPrediction != result && bet.opponentPrediction != Some(result))
  }

  /** From the confirmation of a result on, every bet on that match that is ever settled is decided by the result
      given there, whatever was stored before and whatever is called afterwards. */
  lemma ConfirmedResultDecides(db: Db, m: MatchId, result: Outcome, home: int, away: int, now: int, late: Db, b: BetId)
    requires Reachable(db) && Step(db, OpConfirm(m, result, home, away, now)).Ok?
    requires Reaches(After(db, OpConfirm(m, result, home, away, now)), late)
    requires BetIs(late, b, BetStatus.Settled) && late.bets[b].matchId == m
    ensures DecidedBy(late.bets[b], result)
  {
    var after := After(db, OpConfirm(m, result, home, away, now));
    ConfirmEffect(db, m, result, home, away, now);
    Theorems.ReachesFurther(db, OpConfirm(m, result, home, away, now));
    Theorems.ConfirmedForEver(after, late, m);
    ReachesOn(after, late);
    SettledForTheRightOne(late, b);
  }

  lemma ReachesOn(db: Db, late: Db)
    requires Reachable(db) && Reaches(db, late)
    ensures Reachable(late)
  {
    var first :| Leads(EMPTY, first, db);
    var second :| Leads(db, second, late);
    LeadsIffRun(EMPTY, first, db);
    LeadsIffRun(db, second, late);
    RunSplit(EMPTY, first, second);
    RunReaches(EMPTY, first + second);
  }

  /** The history of a settled bet: its match was confirmed by one call, then the bet was settled by another; the
      result given in the first decides who won, and the rate in force at the time given in the second is the one
      that was charged. */
  lemma SettledBy(h: History, n: nat, b: BetId) returns (i: nat, j: nat)
    requires Reaching(h, n) && BetIs(h.states[n], b, BetStatus.Settled)
    ensures i < j < n && h.calls[i].OpConfirm? && h.calls[j].OpSettleBet? && h.calls[j].bet == b
    ensures h.calls[i].matchId == h.states[n].bets[b].matchId
    ensures DecidedBy(h.states[n].bets[b], h.calls[i].outcome)
    ensures ChargedAt(h.states[j].fees, h.states[n].bets[b], h.calls[j].now)
  {
    var bet := h.states[n].bets[b];
    j := BetEndedBy(h, n, b);
    Onwards(h, j, n);
    RestsOnConfirmed(h.states[j], b);
    BetStays(h, j, n, b);
    i := ConfirmedBy(h, j, bet.matchId);
    Theorems.ConfirmedForEver(h.states[j], h.states[n], bet.matchId);
    ChargedWhenSettled(h.states[j], b, h.calls[j].now);
    BetStays(h, j + 1, n, b);
    Onwards(h, n, n);
    SettledForTheRightOne(h.states[n], b);
  }

  lemma RestsOnConfirmed(db: Db, b: BetId)
    requires Inv(db) && BetIs(db, b, BetStatus.PendingSettlement)
    ensures Confirmed(db, db.bets[b].matchId)
  {
    InvRows(db);
    assert VerdictOk(db, db.bets[b]);
  }

  /** The recorded rate and fee are those of the fee row in force at that time. */
  ghost predicate ChargedAt(fees: seq<FeeRow>, bet: Bet, now: int) {
    if bet.winner.Some? then
      exists k: nat :: Chosen(fees, k, WinnerFee, now) && bet.winnerRate == Some(fees[k].rate) && bet.fee.Some?
                       && RoundedFee(bet.fee.value, 2 * bet.stake * fees[k].rate)
    else
      exists k: nat, fee :: Chosen(fees, k, NoWinnerFee, now) && bet.noWinnerRate == Some(fees[k].rate)
                            && bet.fee == Some(2 * fee) && RoundedFee(fee, bet.stake * fees[k].rate)
  }

  lemma ChargedWhenSettled(db: Db, b: BetId, now: int)
    requires Inv(db) && Step(db, OpSettleBet(b, now)).Ok?
    ensures b in After(db, OpSettleBet(b, now)).bets
    ensures ChargedAt(db.fees, After(db, OpSettleBet(b, now)).bets[b], now)
  {
    var v := SuccessIsJudged(db, b, now);
    var bet := db.bets[b];
    var i := ActiveIsChosen(db.fees, WinnerFee, now);
    var k := ActiveIsChosen(db.fees, NoWinnerFee, now);
    JudgedRate(db, bet, now, v, i);
    JudgedRate(db, bet, now, v, k);
    Money.ProductBounds(2 * bet.stake, v.winnerRate);
    Money.ProductBounds(bet.stake, v.noWinnerRate);
    var pool := FeeExists(2 * bet.stake * v.winnerRate);
    var share := FeeExists(bet.stake * v.noWinnerRate);
    if v.path == CreatorWins {
      WonWhenJudged(db, b, v, bet.creator, bet.opponent.value, pool);
    } else if v.path == OpponentWins {
      WonWhenJudged(db, b, v, bet.opponent.value, bet.creator, pool);
    } else {
      UnwonWhenJudged(db, b, v, share);
    }
  }
}
