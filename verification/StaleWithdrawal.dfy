/** The calls on a withdrawal read their row without a lock.  Split into reading and writing, with other calls
    in between, they are safe only while the row is where they may start from. */
module StaleWithdrawal {
  import opened Wrappers
  import opened Tables
  import opened Positions
  import opened Sums
  import opened Rules
  import opened Invariants
  import opened Runs
  import opened ExampleRuns
  import opened WalletService
  import Lines = LedgerLines
  import Movements
  import StaleCancel
  import StaleDeposit
  import Theorems
  import WithdrawalService

  type Target = s: WithdrawalStatus | s.Approved? || s.Completed? || s.Rejected? || s.Failed?
    witness WithdrawalStatus.Approved

  /** Where a call may start from. */
  predicate Admissible(w: Withdrawal, to: Target) {
    match to
    case Approved => w.status.Pending?
    case Completed => w.status.Approved? || w.status.Processing?
    case Rejected => w.status.Pending? || w.status.Approved?
    case Failed => OnHold(w)
  }

  function CallOf(id: WithdrawalId, to: Target): Op {
    match to
    case Approved => OpApproveWithdrawal(id)
    case Completed => OpCompleteWithdrawal(id)
    case Rejected => OpRejectWithdrawal(id)
    case Failed => OpFailWithdrawal(id)
  }

  /** What the wallet service does for the call, as the row was read. */
  function Paid(db: Db, id: WithdrawalId, read: Withdrawal, to: Target): Result<Db> {
    if to.Approved? then Ok(db)
    else
      var refusal := HeldRefusal(db.wallets, read);
      if refusal.Some? then Err(refusal.value)
      else if to.Completed? then
        Ok(Posted(db, Moved(db.wallets, read.user, 0, -read.amount), Lines.WithdrawalDebit(read.user, read.amount),
                  WithdrawalReference, Ref.WithdrawalRef(id)))
      else if db.wallets[read.user].available + read.amount < 0 then Err(Validation)
      else
        Ok(Posted(db, Moved(db.wallets, read.user, read.amount, -read.amount),
                  Lines.WithdrawalRelease(read.user, read.amount), WithdrawalReference, Ref.WithdrawalRef(id)))
  }

  /** The second half of the call: the held money as the row was read, then the status of the row that is
      there now; no other column is written. */
  function Finish(db: Db, id: WithdrawalId, read: Withdrawal, to: Target): Result<Db> {
    match Paid(db, id, read, to)
    case Err(e) => Err(e)
    case Ok(paid) =>
      if id !in db.withdrawals then Err(NotFound)
      else Ok(paid.(withdrawals := db.withdrawals[id := db.withdrawals[id].(status := to)]))
  }

  predicate SameRequest(read: Withdrawal, now: Withdrawal) {
    now.user == read.user && now.amount == read.amount
  }

  /** On a row the call may start from, the second half is the whole call. */
  lemma UndisturbedFinish(db: Db, id: WithdrawalId, read: Withdrawal, to: Target)
    requires id in db.withdrawals && Admissible(db.withdrawals[id], to) && SameRequest(read, db.withdrawals[id])
    ensures Finish(db, id, read, to) == Step(db, CallOf(id, to))
  {
    var w := db.withdrawals[id];
    if !to.Approved? && Paid(db, id, w, to).Ok? {
      var lines := if to.Completed? then Lines.WithdrawalDebit(w.user, w.amount)
                   else Lines.WithdrawalRelease(w.user, w.amount);
      WithdrawalService.FinishBooks(db, id, w, to, lines, Paid(db, id, w, to).value);
    }
  }

  /** Finishing on an earlier reading has the effect of the call if and only if the row is still where the call
      may start from, or an approval finds it approved, or the wallet refuses. */
  lemma StaleFinishIsSafeIff(db: Db, id: WithdrawalId, read: Withdrawal, to: Target)
    requires id in db.withdrawals && SameRequest(read, db.withdrawals[id])
    ensures Keep(db, Finish(db, id, read, to)) == After(db, CallOf(id, to)) <==>
            || Admissible(db.withdrawals[id], to)
            || (to.Approved? && db.withdrawals[id].status.Approved?)
            || Finish(db, id, read, to).Err?
  {
    var w := db.withdrawals[id];
    if Admissible(w, to) {
      UndisturbedFinish(db, id, read, to);
    } else {
      assert After(db, CallOf(id, to)) == db;
      if to.Approved? {
        ApprovedAgain(db, id, read);
      } else if Finish(db, id, read, to).Ok? {
        assert |Finish(db, id, read, to).value.ledger| > |db.ledger|;
      }
    }
  }

  lemma ApprovedAgain(db: Db, id: WithdrawalId, read: Withdrawal)
    requires id in db.withdrawals
    ensures Keep(db, Finish(db, id, read, WithdrawalStatus.Approved)) == db <==> db.withdrawals[id].status.Approved?
  {
    var after := Finish(db, id, read, WithdrawalStatus.Approved).value;
    assert after.withdrawals[id].status.Approved?;
    if db.withdrawals[id].status.Approved? {
      assert after.withdrawals == db.withdrawals;
    }
  }

  // ---- What other calls in between do ---------------------------------------------------

  lemma ReadEarlier(db: Db, mid: Db, id: WithdrawalId)
    requires Reachable(db) && Reaches(db, mid) && id in db.withdrawals
    ensures Inv(mid) && id in mid.withdrawals && SameRequest(db.withdrawals[id], mid.withdrawals[id])
  {
    ReachableInv(db);
    var ops :| Leads(db, ops, mid);
    LeadsIffRun(db, ops, mid);
    RunKeepsInv(db, ops);
    RunAdvancesWithdrawals(db, ops);
  }

  lemma InvRequest(db: Db, id: WithdrawalId)
    requires Inv(db) && id in db.withdrawals
    ensures db.withdrawals[id].user in db.wallets && 0 < db.withdrawals[id].amount
    ensures 0 <= db.wallets[db.withdrawals[id].user].available
  {
    InvRows(db);
    InvSolvent(db);
  }

  /** Only user and amount of the reading matter. */
  lemma SameReading(db: Db, id: WithdrawalId, read: Withdrawal, to: Target)
    requires id in db.withdrawals && SameRequest(read, db.withdrawals[id])
    ensures Finish(db, id, read, to) == Finish(db, id, db.withdrawals[id], to)
  {
  }

  lemma FinishStrands(mid: Db, id: WithdrawalId, to: Target, u: UserId)
    requires Inv(mid) && id in mid.withdrawals && u in mid.wallets && Finish(mid, id, mid.withdrawals[id], to).Ok?
    ensures var after := Finish(mid, id, mid.withdrawals[id], to).value;
            u in after.wallets && StaleCancel.Stranded(after, u)
            == if OnHold(mid.withdrawals[id]) || u != mid.withdrawals[id].user then 0 else -mid.withdrawals[id].amount
  {
    var w := mid.withdrawals[id];
    StaleCancel.NothingStranded(mid, u);
    SumPut(mid.withdrawals, id, w.(status := to), Theorems.OpenRequest(u));
  }

  lemma FinishUnbacked(mid: Db, id: WithdrawalId, to: Target)
    requires Inv(mid) && id in mid.withdrawals && Finish(mid, id, mid.withdrawals[id], to).Ok?
    ensures StaleDeposit.Unbacked(Finish(mid, id, mid.withdrawals[id], to).value)
            == if mid.withdrawals[id].status.Completed? then -mid.withdrawals[id].amount else 0
  {
    var w := mid.withdrawals[id];
    StaleDeposit.AllBacked(mid);
    SumPut(mid.withdrawals, id, w.(status := to), PaidOutAt());
    if !to.Approved? {
      var available := if to.Completed? then 0 else w.amount;
      var before := mid.wallets[w.user];
      SumPut(mid.wallets, w.user, Wallet(before.available + available, before.locked - w.amount), Worth());
    }
  }

  /** Whatever calls run between reading and writing: on a withdrawal that still holds its amount nothing is
      lost; on a finished one exactly its amount is missing from what its user has locked for other things,
      and if it was paid out already, the same amount is missing from the money of the platform. */
  lemma StaleFinishEffect(db: Db, mid: Db, id: WithdrawalId, to: Target, u: UserId)
    requires Reachable(db) && Reaches(db, mid) && id in db.withdrawals && Admissible(db.withdrawals[id], to)
    requires u in mid.wallets && Finish(mid, id, db.withdrawals[id], to).Ok?
    ensures id in mid.withdrawals
    ensures var after, w := Finish(mid, id, db.withdrawals[id], to).value, mid.withdrawals[id];
            && u in after.wallets
            && StaleCancel.Stranded(after, u) == (if OnHold(w) || u != w.user then 0 else -w.amount)
            && StaleDeposit.Unbacked(after) == (if w.status.Completed? then -w.amount else 0)
            && after.withdrawals == mid.withdrawals[id := w.(status := to)]
  {
    ReadEarlier(db, mid, id);
    SameReading(mid, id, db.withdrawals[id], to);
    FinishStrands(mid, id, to, u);
    FinishUnbacked(mid, id, to);
  }

  /** It goes through while the amount is held, and afterwards if it needs no money or if the user has as much
      locked for other things. */
  lemma StaleFinishSucceedsIff(db: Db, mid: Db, id: WithdrawalId, to: Target)
    requires Reachable(db) && Reaches(db, mid) && id in db.withdrawals && Admissible(db.withdrawals[id], to)
    ensures id in mid.withdrawals && mid.withdrawals[id].user in mid.wallets
    ensures Finish(mid, id, db.withdrawals[id], to).Ok? <==>
            || to.Approved? || OnHold(mid.withdrawals[id])
            || mid.withdrawals[id].amount <= mid.wallets[mid.withdrawals[id].user].locked
  {
    ReadEarlier(db, mid, id);
    SameReading(mid, id, db.withdrawals[id], to);
    InvRequest(mid, id);
    if OnHold(mid.withdrawals[id]) {
      Theorems.InvHeld(mid, id);
    }
  }

  // ---- It happens -----------------------------------------------------------------------

  const REQUEST := OpCreateWithdrawal(1, 1, 1000)
  const REQUESTED := OFFERED + [REQUEST]

  predicate Holding(db: Db, status: WithdrawalStatus, one: Wallet) {
    db.withdrawals == map[1 := Withdrawal(1, 1000, status)] && 1 in db.wallets && db.wallets[1] == one
  }

  lemma {:induction false} NoWithdrawals(ops: seq<Op>)
    requires forall op :: op in ops ==> !op.OpCreateWithdrawal?
    ensures Run(EMPTY, ops).withdrawals == map[]
  {
    if ops != [] {
      NoWithdrawals(ops[..|ops| - 1]);
      StepKeepsWithdrawals(Run(EMPTY, ops[..|ops| - 1]), ops[|ops| - 1]);
    }
  }

  lemma StepKeepsWithdrawals(db: Db, op: Op)
    requires db.withdrawals == map[] && !op.OpCreateWithdrawal?
    ensures After(db, op).withdrawals == map[]
  {
    if !MovesWithdrawals(op) {
      OthersKeepWithdrawals(db, op);
    }
  }

  lemma RequestHolds(db: Db)
    requires State(db, Wallet(1000, 1000), Wallet(2000, 0), map[1 := Offer(1)]) && db.withdrawals == map[]
    ensures Holding(After(db, REQUEST), WithdrawalStatus.Pending, Wallet(0, 2000))
  {
    Movements.HoldingMoves(db.wallets, Withdrawal(1, 1000, WithdrawalStatus.Pending));
  }

  lemma RunRequestsWithdrawal()
    ensures Holding(Run(EMPTY, REQUESTED), WithdrawalStatus.Pending, Wallet(0, 2000))
  {
    RunOffers();
    NoWithdrawals(OFFERED);
    RunMore(EMPTY, OFFERED, REQUEST);
    RequestHolds(Run(EMPTY, OFFERED));
  }

  lemma RejectReleases(db: Db)
    requires Holding(db, WithdrawalStatus.Pending, Wallet(0, 2000))
    ensures Step(db, OpRejectWithdrawal(1)).Ok?
    ensures Holding(After(db, OpRejectWithdrawal(1)), WithdrawalStatus.Rejected, Wallet(1000, 1000))
  {
    Movements.FinishingMoves(db.wallets, db.withdrawals[1], WithdrawalStatus.Rejected);
  }

  /** A reachable withdrawal is read for two rejections; both go through, the second with the stake of a bet
      that is still open. */
  lemma DoubleReleaseIsReachable()
    ensures exists db, id, u ::
      && Reachable(db) && id in db.withdrawals && Admissible(db.withdrawals[id], WithdrawalStatus.Rejected)
      && Step(db, OpRejectWithdrawal(id)).Ok?
      && var r := Finish(After(db, OpRejectWithdrawal(id)), id, db.withdrawals[id], WithdrawalStatus.Rejected);
         r.Ok? && u in r.value.wallets && StaleCancel.Stranded(r.value, u) < 0
  {
    var db := Run(EMPTY, REQUESTED);
    RunRequestsWithdrawal();
    RunReaches(EMPTY, REQUESTED);
    RejectReleases(db);
    StaleCancel.OneCallOn(REQUESTED, OpRejectWithdrawal(1));
    var mid := After(db, OpRejectWithdrawal(1));
    StaleFinishSucceedsIff(db, mid, 1, WithdrawalStatus.Rejected);
    StaleFinishEffect(db, mid, 1, WithdrawalStatus.Rejected, 1);
    assert StaleCancel.Stranded(Finish(mid, 1, db.withdrawals[1], WithdrawalStatus.Rejected).value, 1) < 0;
  }
}
