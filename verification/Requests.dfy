/** One request is one transaction: it commits when its service returns and rolls back when it raises. */
module Requests {
  import opened Wrappers
  import opened Tables
  import opened Rules
  import opened Invariants
  import opened Sessions
  import Money
  import Runs
  import AdminService
  import BetService
  import DepositService
  import MatchSync
  import ResultConfirmation
  import SettlementService
  import WithdrawalService

  method ServeAccount(s: Session, op: Op) returns (r: Result<()>)
    requires op.OpOpenWallet? || op.OpOpenPlatform? || op.OpAddFee?
    modifies s
    ensures Ends(r, Step(old(s.State()), op), s.State())
  {
    match op {
      case OpOpenWallet(user) =>
        if user in s.wallets {
          return Err(Integrity);
        }
        s.wallets := s.wallets[user := Wallet(0, 0)];
      case OpOpenPlatform =>
        if s.platform.Some? {
          return Err(Integrity);
        }
        s.platform := Some(0);
      case OpAddFee(row) =>
        if row.rate < 0 || row.rate > Money.RATE_SCALE {
          return Err(Validation);
        }
        s.fees := s.fees + [row];
    }
    return Ok(());
  }

  predicate IsBetOp(op: Op) {
    op.OpCreateBet? || op.OpAcceptBet? || op.OpCancelBet? || op.OpVoidBet? || op.OpSettleBet?
  }

  predicate BetReady(s: Session, op: Op)
    reads s
  {
    Solvent(s.State()) && forall b :: b in s.bets ==> ParticipantsOk(s.State(), s.bets[b])
  }

  method ServeBet(s: Session, op: Op) returns (r: Result<()>)
    requires IsBetOp(op) && BetReady(s, op)
    modifies s
    ensures Ends(r, Step(old(s.State()), op), s.State())
  {
    match op {
      case OpCreateBet(bet, active, user, matchId, prediction, stake, now) =>
        r := BetService.CreateBet(s, bet, active, user, matchId, prediction, stake, now);
      case OpAcceptBet(bet, active, user, prediction, now) =>
        r := BetService.AcceptBet(s, bet, active, user, prediction, now);
      case OpCancelBet(bet, user) => r := BetService.CancelBet(s, bet, user);
      case OpVoidBet(bet) =>
        var refunded;
        r, refunded := AdminService.VoidBet(s, bet);
      case OpSettleBet(bet, now) => r := SettlementService.SettleBet(s, bet, now);
    }
  }

  method ServeConfirmation(s: Session, op: Op) returns (r: Result<()>)
    requires op.OpConfirm?
    modifies s
    ensures Ends(r, Step(old(s.State()), op), s.State())
  {
    var queued;
    r, queued := ResultConfirmation.ConfirmResult(s, op.matchId, op.outcome, op.home, op.away, op.now);
  }

  method ServeSynchronisation(s: Session, op: Op) returns (r: Result<()>)
    requires op.OpSync?
    modifies s
    ensures Ends(r, Step(old(s.State()), op), s.State())
  {
    var _ := MatchSync.ProcessPayloads(s, op.payloads, op.now);
    r := Ok(());
  }

  method ServeFunding(s: Session, op: Op) returns (r: Result<()>)
    requires !op.OpOpenWallet? && !op.OpOpenPlatform? && !op.OpAddFee? && !IsBetOp(op) && !op.OpConfirm? && !op.OpSync?
    requires Solvent(s.State())
    modifies s
    ensures Ends(r, Step(old(s.State()), op), s.State())
  {
    match op {
      case OpCreateDeposit(deposit, user, amount, clientReference) =>
        r := DepositService.CreateDeposit(s, deposit, user, amount, clientReference);
      case OpInitiatePayfast(deposit, user, amount, enabled) =>
        r := DepositService.InitiatePayfastDeposit(s, deposit, user, amount, enabled);
      case OpCompleteDeposit(deposit, reference) => r := DepositService.CompleteDeposit(s, deposit, reference);
      case OpFailDeposit(deposit) => r := DepositService.FailDeposit(s, deposit);
      case OpPayfastItn(itn) =>
        DepositService.PayfastItn(s, itn);
        r := Ok(());
      case OpCreateWithdrawal(withdrawal, user, amount) =>
        r := WithdrawalService.CreateWithdrawal(s, withdrawal, user, amount);
      case OpApproveWithdrawal(withdrawal) => r := WithdrawalService.ApproveWithdrawal(s, withdrawal);
      case OpCompleteWithdrawal(withdrawal) => r := WithdrawalService.CompleteWithdrawal(s, withdrawal);
      case OpRejectWithdrawal(withdrawal) => r := WithdrawalService.RejectWithdrawal(s, withdrawal);
      case OpFailWithdrawal(withdrawal) => r := WithdrawalService.FailWithdrawal(s, withdrawal);
    }
  }

  method Serve(s: Session, op: Op) returns (r: Result<()>)
    requires BetReady(s, op)
    modifies s
    ensures Ends(r, Step(old(s.State()), op), s.State())
  {
    if op.OpOpenWallet? || op.OpOpenPlatform? || op.OpAddFee? {
      r := ServeAccount(s, op);
    } else if IsBetOp(op) {
      r := ServeBet(s, op);
    } else if op.OpConfirm? {
      r := ServeConfirmation(s, op);
    } else if op.OpSync? {
      r := ServeSynchronisation(s, op);
    } else {
      r := ServeFunding(s, op);
    }
  }

  /** The service runs to its end or is rolled back, so a request has its whole effect or none. */
  method Handle(s: Session, op: Op) returns (r: Result<()>)
    requires s.Valid()
    modifies s
    ensures s.Valid() && s.State() == After(old(s.State()), op)
    ensures r.Ok? <==> Step(old(s.State()), op).Ok?
    ensures r.Err? ==> Step(old(s.State()), op) == Err(r.error)
  {
    var saved := s.State();
    InvRows(saved);
    InvMoney(saved);
    r := Serve(s, op);
    if r.Err? {
      s.Restore(saved);
    }
    Runs.StepKeepsInv(saved, op);
  }

  /** A sequence of requests is a run of the service calls. */
  method HandleAll(s: Session, ops: seq<Op>)
    requires s.Valid()
    modifies s
    ensures s.Valid() && s.State() == Run(old(s.State()), ops)
  {
    for i := 0 to |ops|
      invariant s.Valid() && s.State() == Run(old(s.State()), ops[..i])
    {
      var _ := Handle(s, ops[i]);
      Runs.RunNext(old(s.State()), ops, i);
    }
    assert ops[..|ops|] == ops;
  }
}
