/** Completing and failing a deposit read its row without a lock.  Split into reading and writing, with other
    calls in between, they are safe only while the deposit is open; the unique provider reference does not
    help, because both completions write the same row. */
module StaleDeposit {
  import opened Wrappers
  import opened Tables
  import opened Sums
  import opened Rules
  import opened Invariants
  import opened Runs
  import opened ExampleRuns
  import opened WalletService
  import Lines = LedgerLines
  import DepositService

  /** The second half of completing: the wallet is credited as the row was read, then the row that is there
      now is marked completed.  Its own reference is no obstacle to the unique key. */
  function FinishComplete(db: Db, id: DepositId, read: Deposit, reference: Option<string>): Result<Db> {
    var refusal := CreditRefusal(db.wallets, read.user, read.amount);
    if refusal.Some? then Err(refusal.value)
    else if id !in db.deposits then Err(NotFound)
    else if ReferenceTaken(db.deposits, id, reference) then Err(Integrity)
    else Ok(Posted(db, Moved(db.wallets, read.user, read.amount, 0), Lines.DepositCredit(read.user, read.amount),
                   DepositReference, Ref.DepositRef(id))
            .(deposits := db.deposits[id := CompletedDeposit(db.deposits[id], reference)]))
  }

  /** The second half of failing: only the status is written. */
  function FinishFail(db: Db, id: DepositId): Result<Db> {
    if id !in db.deposits then Err(NotFound)
    else Ok(db.(deposits := db.deposits[id := db.deposits[id].(status := DepositStatus.Failed)]))
  }

  /** The row is still the one that was read, as far as crediting goes. */
  predicate SameRequest(read: Deposit, now: Deposit) {
    now.user == read.user && now.amount == read.amount
  }

  /** On an open deposit the second half is the whole call. */
  lemma UndisturbedComplete(db: Db, id: DepositId, read: Deposit, reference: Option<string>)
    requires id in db.deposits && !DepositClosed(db.deposits[id]) && SameRequest(read, db.deposits[id])
    ensures FinishComplete(db, id, read, reference) == CompleteDeposit(db, id, reference)
  {
    var d := db.deposits[id];
    if CreditRefusal(db.wallets, d.user, d.amount).None? {
      var wallets := Moved(db.wallets, d.user, d.amount, 0);
      DepositService.BooksDeposit(db, id, d, reference,
                                  Posted(db, wallets, Lines.DepositCredit(d.user, d.amount),
                                         DepositReference, Ref.DepositRef(id)));
    }
  }

  /** Completing on an earlier reading has the effect of the call if and only if the deposit is still open when
      it is written, or it is refused. */
  lemma StaleCompleteIsSafeIff(db: Db, id: DepositId, read: Deposit, reference: Option<string>)
    requires id in db.deposits && SameRequest(read, db.deposits[id])
    ensures Keep(db, FinishComplete(db, id, read, reference)) == After(db, OpCompleteDeposit(id, reference)) <==>
            !DepositClosed(db.deposits[id]) || FinishComplete(db, id, read, reference).Err?
  {
    if !DepositClosed(db.deposits[id]) {
      UndisturbedComplete(db, id, read, reference);
    } else {
      assert After(db, OpCompleteDeposit(id, reference)) == db;
      if FinishComplete(db, id, read, reference).Ok? {
        assert |FinishComplete(db, id, read, reference).value.ledger| == |db.ledger| + 1;
      }
    }
  }

  /** Failing on an earlier reading has the effect of the call if and only if the deposit is still open when it
      is written, or has failed already. */
  lemma StaleFailIsSafeIff(db: Db, id: DepositId)
    requires id in db.deposits
    ensures Keep(db, FinishFail(db, id)) == After(db, OpFailDeposit(id)) <==>
            !DepositClosed(db.deposits[id]) || db.deposits[id].status.Failed?
  {
    var after := Keep(db, FinishFail(db, id));
    assert after.deposits[id].status.Failed?;
    if db.deposits[id].status.Failed? {
      assert db.deposits[id := db.deposits[id].(status := DepositStatus.Failed)] == db.deposits;
    }
  }

  // ---- Money out of nothing -------------------------------------------------------------

  /** What wallets, platform and completed withdrawals have beyond the completed deposits. */
  ghost function Unbacked(db: Db): int {
    Sum(db.wallets, Worth()) + PlatformBalance(db) + Sum(db.withdrawals, PaidOutAt()) - Sum(db.deposits, PaidInAt())
  }

  lemma AllBacked(db: Db)
    requires Inv(db)
    ensures Unbacked(db) == 0
  {
    InvMoney(db);
    InvPlatform(db);
  }

  lemma ReadEarlier(db: Db, mid: Db, id: DepositId)
    requires Reachable(db) && Reaches(db, mid) && id in db.deposits
    ensures Inv(mid) && id in mid.deposits && SameRequest(db.deposits[id], mid.deposits[id])
    ensures mid.deposits[id].user in mid.wallets && 0 < mid.deposits[id].amount
    ensures 0 <= mid.wallets[mid.deposits[id].user].available
  {
    ReachableInv(db);
    var ops :| Leads(db, ops, mid);
    LeadsIffRun(db, ops, mid);
    RunKeepsInv(db, ops);
    RunAdvancesDeposits(db, ops);
    InvRows(mid);
    InvSolvent(mid);
  }

  lemma CompletionUnbacked(mid: Db, id: DepositId, reference: Option<string>)
    requires Inv(mid) && id in mid.deposits && FinishComplete(mid, id, mid.deposits[id], reference).Ok?
    ensures Unbacked(FinishComplete(mid, id, mid.deposits[id], reference).value)
            == if mid.deposits[id].status.Completed? then mid.deposits[id].amount else 0
  {
    var d := mid.deposits[id];
    AllBacked(mid);
    SumPut(mid.wallets, d.user, Wallet(mid.wallets[d.user].available + d.amount, mid.wallets[d.user].locked), Worth());
    SumPut(mid.deposits, id, CompletedDeposit(d, reference), PaidInAt());
  }

  /** A stale completion goes through whatever has happened to the deposit, unless another row carries the
      reference, and pays its amount a second time exactly if it was completed already. */
  lemma StaleCompleteEffect(db: Db, mid: Db, id: DepositId, reference: Option<string>)
    requires Reachable(db) && Reaches(db, mid) && id in db.deposits && !DepositClosed(db.deposits[id])
    ensures id in mid.deposits
    ensures FinishComplete(mid, id, db.deposits[id], reference).Ok? <==> !ReferenceTaken(mid.deposits, id, reference)
    ensures FinishComplete(mid, id, db.deposits[id], reference).Ok? ==>
      var after, d := FinishComplete(mid, id, db.deposits[id], reference).value, mid.deposits[id];
      && Unbacked(after) == (if d.status.Completed? then d.amount else 0)
      && after.deposits
         == mid.deposits[id := d.(status := DepositStatus.Completed,
                                  reference := if reference.Some? then reference else d.reference)]
  {
    ReadEarlier(db, mid, id);
    assert FinishComplete(mid, id, db.deposits[id], reference) == FinishComplete(mid, id, mid.deposits[id], reference);
    if FinishComplete(mid, id, mid.deposits[id], reference).Ok? {
      CompletionUnbacked(mid, id, reference);
    }
  }

  /** A stale failure leaves the credit of a deposit that was completed in between without any deposit. */
  lemma StaleFailEffect(db: Db, mid: Db, id: DepositId)
    requires Reachable(db) && Reaches(db, mid) && id in db.deposits && !DepositClosed(db.deposits[id])
    ensures id in mid.deposits && FinishFail(mid, id).Ok?
    ensures Unbacked(FinishFail(mid, id).value)
            == if mid.deposits[id].status.Completed? then mid.deposits[id].amount else 0
    ensures FinishFail(mid, id).value.deposits
            == mid.deposits[id := mid.deposits[id].(status := DepositStatus.Failed)]
  {
    ReadEarlier(db, mid, id);
    AllBacked(mid);
    SumPut(mid.deposits, id, mid.deposits[id].(status := DepositStatus.Failed), PaidInAt());
  }

  // ---- It happens -----------------------------------------------------------------------

  /** Two completions of one deposit with the same provider reference, both read while it is open: the second
      one creates the whole amount out of nothing. */
  lemma DoubleCreditIsReachable(reference: string)
    ensures exists db, mid, id ::
      && Reachable(db) && id in db.deposits && !DepositClosed(db.deposits[id])
      && CompleteDeposit(db, id, Some(reference)) == Ok(mid)
      && var r := FinishComplete(mid, id, db.deposits[id], Some(reference));
         r.Ok? && Unbacked(r.value) == db.deposits[id].amount > 0
  {
    var db := Run(EMPTY, COMMON[..6]);
    RunRequests();
    RunReaches(EMPTY, COMMON[..6]);
    var op := OpCompleteDeposit(1, Some(reference));
    RunReaches(db, [op]);
    RunMore(db, [], op);
    assert [] + [op] == [op];
    RequestedCompletes(db, reference);
    var mid := CompleteDeposit(db, 1, Some(reference)).value;
    StaleCompleteEffect(db, mid, 1, Some(reference));
    assert Unbacked(FinishComplete(mid, 1, db.deposits[1], Some(reference)).value) == 2000;
  }

  lemma RequestedCompletes(db: Db, reference: string)
    requires Requested(db)
    ensures CompleteDeposit(db, 1, Some(reference)).Ok?
    ensures var mid := CompleteDeposit(db, 1, Some(reference)).value;
            mid.deposits == map[1 := CompletedDeposit(db.deposits[1], Some(reference))]
  {
  }
}
