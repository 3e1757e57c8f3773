/** Deposits, withdrawals and account opening keep the invariant. */
module FundingProofs {
  import opened Wrappers
  import opened Tables
  import opened Positions
  import opened Sums
  import opened Rules
  import opened Invariants
  import opened Booking
  import Lines = LedgerLines

  // ---- Shared ---------------------------------------------------------------------------

  /** Everything but the request tables, wallets and ledger is as before. */
  predicate OnlyFunding(db: Db, after: Db) {
    after.bets == db.bets && after.matches == db.matches && after.fees == db.fees
    && after.platform == db.platform && after.platformLedger == db.platformLedger
    && after.wallets.Keys == db.wallets.Keys
  }

  lemma FundingKeepsRest(db: Db, after: Db)
    requires RowsInv(db) && PlatformInv(db) && OnlyFunding(db, after) && RequestsOk(after)
    ensures RowsInv(after) && PlatformInv(after)
  {
    forall b | b in after.bets
      ensures ParticipantsOk(after, after.bets[b]) && ResultFieldsOk(after.bets[b]) && VerdictOk(after, after.bets[b])
    {
      assert ParticipantsOk(db, db.bets[b]) && ResultFieldsOk(db.bets[b]) && VerdictOk(db, db.bets[b]);
    }
    forall b ensures PlatformItem(after, b) {
      assert PlatformItem(db, b);
    }
  }

  lemma FundingKeepsInv(db: Db, after: Db)
    requires Inv(db) && MoneyInv(after) && OnlyFunding(db, after)
    requires RowsInv(db) ==> RequestsOk(after)
    ensures Inv(after)
  {
    assert RowsInv(after) && PlatformInv(after) by {
      InvRows(db);
      InvPlatform(db);
      FundingKeepsRest(db, after);
    }
    InvFromParts(after);
  }

  /** A row whose positions do not change moves no money. */
  lemma QuietBook(db: Db, ref: Ref, row: Row, kind: ReferenceType)
    requires Fits(ref, row)
    requires forall u, f :: Position(row, u, f) == Position(RowAt(db, ref), u, f)
    ensures Book(db, ref, row, kind, []) == PutRow(db, ref, row)
    ensures Balanced([], RowAt(db, ref), row)
  {
    assert Rebook(db.wallets, RowAt(db, ref), row) == db.wallets;
  }

  // ---- Withdrawals ----------------------------------------------------------------------

  lemma WithdrawalLines(lines: seq<Line>, before: Row, w: Withdrawal)
    requires lines in {Lines.WithdrawalHold(w.user, w.amount), Lines.WithdrawalRelease(w.user, w.amount),
                       Lines.WithdrawalDebit(w.user, w.amount)}
    requires before == NoRow || (before.WithdrawalRow? && before.withdrawal == w.(status := before.withdrawal.status))
    requires lines == Lines.WithdrawalHold(w.user, w.amount) ==> before == NoRow && OnHold(w)
    requires lines != Lines.WithdrawalHold(w.user, w.amount) ==> before.WithdrawalRow? && OnHold(before.withdrawal)
    requires lines == Lines.WithdrawalRelease(w.user, w.amount) ==> w.status.Rejected? || w.status.Failed?
    requires lines == Lines.WithdrawalDebit(w.user, w.amount) ==> w.status.Completed?
    ensures Balanced(lines, before, WithdrawalRow(w))
  {
    forall u, f ensures Total(lines, LineOf(u, f)) == Position(WithdrawalRow(w), u, f) - Position(before, u, f) {
      if |lines| == 2 {
        assert lines == [lines[0], lines[1]];
        TotalTwo(lines[0], lines[1], LineOf(u, f));
      } else {
        TotalOne(lines[0], LineOf(u, f));
      }
    }
  }

  lemma WithdrawalKeepsMoney(db: Db, id: WithdrawalId, w: Withdrawal, lines: seq<Line>)
    requires MoneyInv(db) && LinesOf(lines, db.wallets) && w.user in db.wallets
    requires forall l :: l in lines ==> !l.kind.DepositCredit?
    requires id in db.withdrawals ==> db.withdrawals[id].user == w.user
    requires Balanced(lines, RowAt(db, Ref.WithdrawalRef(id)), WithdrawalRow(w))
    requires Solvent(Book(db, Ref.WithdrawalRef(id), WithdrawalRow(w), WithdrawalReference, lines))
    ensures MoneyInv(Book(db, Ref.WithdrawalRef(id), WithdrawalRow(w), WithdrawalReference, lines))
  {
    var ref, row := Ref.WithdrawalRef(id), WithdrawalRow(w);
    BookKeepsSheet(db, ref, row, WithdrawalReference, lines);
    BookKeepsReplay(db, ref, row, WithdrawalReference, lines);
    BookKeepsItems(db, ref, row, WithdrawalReference, lines);
    BookKeepsCredits(db, ref, row, WithdrawalReference, lines);
    BookKeepsWealthAlone(db, ref, row, WithdrawalReference, lines, w.user);
  }

  lemma WithdrawalKeepsInv(db: Db, id: WithdrawalId, w: Withdrawal, lines: seq<Line>)
    requires Inv(db) && LinesOf(lines, db.wallets) && w.user in db.wallets && 0 < w.amount
    requires forall l :: l in lines ==> !l.kind.DepositCredit?
    requires id in db.withdrawals ==> db.withdrawals[id].user == w.user
    requires Balanced(lines, RowAt(db, Ref.WithdrawalRef(id)), WithdrawalRow(w))
    requires Solvent(Book(db, Ref.WithdrawalRef(id), WithdrawalRow(w), WithdrawalReference, lines))
    ensures Inv(Book(db, Ref.WithdrawalRef(id), WithdrawalRow(w), WithdrawalReference, lines))
  {
    var after := Book(db, Ref.WithdrawalRef(id), WithdrawalRow(w), WithdrawalReference, lines);
    assert MoneyInv(after) by {
      InvMoney(db);
      WithdrawalKeepsMoney(db, id, w, lines);
    }
    FundingKeepsInv(db, after);
  }

  lemma InvWithdrawal(db: Db, id: WithdrawalId)
    requires Inv(db) && id in db.withdrawals
    ensures db.withdrawals[id].user in db.wallets && 0 < db.withdrawals[id].amount
  {
    InvRows(db);
  }

  lemma HoldSolvent(db: Db, id: WithdrawalId, user: UserId, amount: int)
    requires Solvent(db) && CreateWithdrawal(db, id, user, amount).Ok?
    ensures Solvent(CreateWithdrawal(db, id, user, amount).value)
  {
  }

  lemma CreateWithdrawalKeepsInv(db: Db, id: WithdrawalId, user: UserId, amount: int)
    requires Inv(db) && CreateWithdrawal(db, id, user, amount).Ok?
    ensures Inv(CreateWithdrawal(db, id, user, amount).value)
  {
    var w := Withdrawal(user, amount, WithdrawalStatus.Pending);
    WithdrawalLines(Lines.WithdrawalHold(user, amount), NoRow, w);
    InvSolvent(db);
    HoldSolvent(db, id, user, amount);
    WithdrawalKeepsInv(db, id, w, Lines.WithdrawalHold(user, amount));
  }

  lemma ApproveWithdrawalKeepsInv(db: Db, id: WithdrawalId)
    requires Inv(db) && ApproveWithdrawal(db, id).Ok?
    ensures Inv(ApproveWithdrawal(db, id).value)
  {
    var w := db.withdrawals[id].(status := WithdrawalStatus.Approved);
    InvWithdrawal(db, id);
    InvSolvent(db);
    QuietBook(db, Ref.WithdrawalRef(id), WithdrawalRow(w), WithdrawalReference);
    WithdrawalKeepsInv(db, id, w, []);
  }

  lemma DebitBalanced(w: Withdrawal)
    requires OnHold(w)
    ensures Balanced(Lines.WithdrawalDebit(w.user, w.amount), WithdrawalRow(w),
                     WithdrawalRow(w.(status := WithdrawalStatus.Completed)))
  {
    var lines := Lines.WithdrawalDebit(w.user, w.amount);
    assert |lines| != |Lines.WithdrawalHold(w.user, w.amount)|;
    assert |lines| != |Lines.WithdrawalRelease(w.user, w.amount)|;
    WithdrawalLines(lines, WithdrawalRow(w), w.(status := WithdrawalStatus.Completed));
  }

  lemma DebitSolvent(db: Db, id: WithdrawalId)
    requires Solvent(db) && CompleteWithdrawal(db, id).Ok?
    ensures Solvent(CompleteWithdrawal(db, id).value)
  {
  }

  lemma CompleteWithdrawalKeepsInv(db: Db, id: WithdrawalId)
    requires Inv(db) && CompleteWithdrawal(db, id).Ok?
    ensures Inv(CompleteWithdrawal(db, id).value)
  {
    var w := db.withdrawals[id];
    InvSolvent(db);
    DebitSolvent(db, id);
    DebitBalanced(w);
    WithdrawalKeepsInv(db, id, w.(status := WithdrawalStatus.Completed), Lines.WithdrawalDebit(w.user, w.amount));
  }

  lemma ReleaseBalanced(w: Withdrawal, to: WithdrawalStatus)
    requires to.Rejected? || to.Failed?
    requires OnHold(w)
    ensures Balanced(Lines.WithdrawalRelease(w.user, w.amount), WithdrawalRow(w), WithdrawalRow(w.(status := to)))
  {
    var lines := Lines.WithdrawalRelease(w.user, w.amount);
    assert lines[0].field != Lines.WithdrawalHold(w.user, w.amount)[0].field;
    assert |lines| != |Lines.WithdrawalDebit(w.user, w.amount)|;
    WithdrawalLines(lines, WithdrawalRow(w), w.(status := to));
  }

  lemma ReleaseSolvent(db: Db, id: WithdrawalId, to: WithdrawalStatus)
    requires to.Rejected? || to.Failed?
    requires Solvent(db) && ReleaseWithdrawal(db, id, to).Ok?
    ensures Solvent(ReleaseWithdrawal(db, id, to).value)
  {
  }

  lemma ReleaseWithdrawalKeepsInv(db: Db, id: WithdrawalId, to: WithdrawalStatus)
    requires to.Rejected? || to.Failed?
    requires Inv(db) && ReleaseWithdrawal(db, id, to).Ok?
    ensures Inv(ReleaseWithdrawal(db, id, to).value)
  {
    var w := db.withdrawals[id];
    InvSolvent(db);
    ReleaseSolvent(db, id, to);
    ReleaseBalanced(w, to);
    WithdrawalKeepsInv(db, id, w.(status := to), Lines.WithdrawalRelease(w.user, w.amount));
  }

  // ---- Deposits -------------------------------------------------------------------------

  lemma CreditGroup(wallets: map<UserId, Wallet>, u: UserId, amount: int, id: DepositId, e: DepositId)
    requires u in wallets
    ensures Total(Post(wallets, Lines.DepositCredit(u, amount), DepositReference, Ref.DepositRef(id)), CreditsOf(e))
            == if e == id then 1 else 0
  {
    var group := Post(wallets, Lines.DepositCredit(u, amount), DepositReference, Ref.DepositRef(id));
    assert group == [group[0]];
    TotalOne(group[0], CreditsOf(e));
  }

  /** Completing adds the one credit of the deposit and none of any other. */
  lemma DepositKeepsCredits(db: Db, id: DepositId, d: Deposit)
    requires CreditedOnce(db) && d.status.Completed? && d.user in db.wallets && !DepositDone(db, id)
    ensures CreditedOnce(Book(db, Ref.DepositRef(id), DepositRow(d), DepositReference,
                              Lines.DepositCredit(d.user, d.amount)))
  {
    var after := Book(db, Ref.DepositRef(id), DepositRow(d), DepositReference, Lines.DepositCredit(d.user, d.amount));
    CreditsGrow(db, after, id, d.user, d.amount);
  }

  lemma CreditsGrow(db: Db, after: Db, id: DepositId, u: UserId, amount: int)
    requires CreditedOnce(db) && !DepositDone(db, id) && u in after.wallets
    requires after.ledger
             == db.ledger + Post(after.wallets, Lines.DepositCredit(u, amount), DepositReference, Ref.DepositRef(id))
    requires DepositDone(after, id) && forall e :: e != id ==> DepositDone(after, e) == DepositDone(db, e)
    ensures CreditedOnce(after)
  {
    forall e ensures Total(after.ledger, CreditsOf(e)) == if DepositDone(after, e) then 1 else 0 {
      assert Total(db.ledger, CreditsOf(e)) == if DepositDone(db, e) then 1 else 0;
      TotalConcat(db.ledger, Post(after.wallets, Lines.DepositCredit(u, amount), DepositReference, Ref.DepositRef(id)),
                  CreditsOf(e));
      CreditGroup(after.wallets, u, amount, id, e);
    }
  }

  lemma CreditBalanced(before: Deposit, d: Deposit)
    requires d.status.Completed? && !before.status.Completed? && before.user == d.user && before.amount == d.amount
    ensures Balanced(Lines.DepositCredit(d.user, d.amount), DepositRow(before), DepositRow(d))
  {
    var lines := Lines.DepositCredit(d.user, d.amount);
    forall u, f
      ensures Total(lines, LineOf(u, f)) == Position(DepositRow(d), u, f) - Position(DepositRow(before), u, f)
    {
      TotalOne(lines[0], LineOf(u, f));
    }
  }

  lemma CompletedKeepsMoney(db: Db, id: DepositId, d: Deposit)
    requires MoneyInv(db) && d.status.Completed? && d.user in db.wallets && 0 < d.amount
    requires id in db.deposits && !DepositDone(db, id)
    requires db.deposits[id].user == d.user && db.deposits[id].amount == d.amount
    ensures MoneyInv(Book(db, Ref.DepositRef(id), DepositRow(d), DepositReference,
                          Lines.DepositCredit(d.user, d.amount)))
  {
    var ref, row, lines := Ref.DepositRef(id), DepositRow(d), Lines.DepositCredit(d.user, d.amount);
    CreditBalanced(db.deposits[id], d);
    BookKeepsSheet(db, ref, row, DepositReference, lines);
    BookKeepsReplay(db, ref, row, DepositReference, lines);
    BookKeepsItems(db, ref, row, DepositReference, lines);
    DepositKeepsCredits(db, id, d);
    BookKeepsWealthAlone(db, ref, row, DepositReference, lines, d.user);
  }

  lemma CompletedRequestsOk(db: Db, id: DepositId, reference: Option<string>)
    requires RequestsOk(db) && CompleteDeposit(db, id, reference).Ok?
    ensures RequestsOk(CompleteDeposit(db, id, reference).value)
  {
    var deposits := CompleteDeposit(db, id, reference).value.deposits;
    forall d, e | d in deposits && e in deposits && d != e && deposits[d].reference.Some?
      ensures deposits[d].reference != deposits[e].reference
    {
      if reference.Some? {
        assert forall other :: other in db.deposits && other != id ==> db.deposits[other].reference != reference;
      }
    }
  }

  lemma InvDeposit(db: Db, id: DepositId)
    requires Inv(db) && id in db.deposits
    ensures db.deposits[id].user in db.wallets && 0 < db.deposits[id].amount
  {
    InvRows(db);
  }

  lemma CompleteDepositKeepsInv(db: Db, id: DepositId, reference: Option<string>)
    requires Inv(db) && CompleteDeposit(db, id, reference).Ok?
    ensures Inv(CompleteDeposit(db, id, reference).value)
  {
    assert RequestsOk(CompleteDeposit(db, id, reference).value) by {
      InvRows(db);
      CompletedRequestsOk(db, id, reference);
    }
    CompletedInv(db, id, CompletedDeposit(db.deposits[id], reference));
  }

  lemma CompletedInv(db: Db, id: DepositId, d: Deposit)
    requires Inv(db) && d.status.Completed? && d.user in db.wallets && 0 < d.amount
    requires id in db.deposits && !DepositDone(db, id)
    requires db.deposits[id].user == d.user && db.deposits[id].amount == d.amount
    requires RequestsOk(Book(db, Ref.DepositRef(id), DepositRow(d), DepositReference,
                             Lines.DepositCredit(d.user, d.amount)))
    ensures Inv(Book(db, Ref.DepositRef(id), DepositRow(d), DepositReference, Lines.DepositCredit(d.user, d.amount)))
  {
    var after := Book(db, Ref.DepositRef(id), DepositRow(d), DepositReference, Lines.DepositCredit(d.user, d.amount));
    assert MoneyInv(after) by {
      InvMoney(db);
      CompletedKeepsMoney(db, id, d);
    }
    FundingKeepsInv(db, after);
  }

  /** Writing a deposit that is not completed, before or after, only writes the row. */
  lemma UnpaidKeepsMoney(db: Db, id: DepositId, d: Deposit)
    requires MoneyInv(db) && d.user in db.wallets && !d.status.Completed? && !DepositDone(db, id)
    ensures MoneyInv(db.(deposits := db.deposits[id := d]))
  {
    var ref, row := Ref.DepositRef(id), DepositRow(d);
    QuietBook(db, ref, row, DepositReference);
    BookKeepsSheet(db, ref, row, DepositReference, []);
    BookKeepsReplay(db, ref, row, DepositReference, []);
    BookKeepsItems(db, ref, row, DepositReference, []);
    BookKeepsWealthAlone(db, ref, row, DepositReference, [], d.user);
    var after := db.(deposits := db.deposits[id := d]);
    forall e ensures Total(after.ledger, CreditsOf(e)) == if DepositDone(after, e) then 1 else 0 {
      assert Total(db.ledger, CreditsOf(e)) == if DepositDone(db, e) then 1 else 0;
    }
  }

  lemma UnpaidKeepsInv(db: Db, id: DepositId, d: Deposit)
    requires Inv(db) && d.user in db.wallets && 0 < d.amount && !d.status.Completed? && !DepositDone(db, id)
    requires d.reference.None? || (id in db.deposits && db.deposits[id].reference == d.reference)
    requires (id in db.deposits && db.deposits[id].clientReference == d.clientReference)
             || !ClientReferenceTaken(db.deposits, d.clientReference)
    ensures Inv(db.(deposits := db.deposits[id := d]))
  {
    assert MoneyInv(db.(deposits := db.deposits[id := d])) by {
      InvMoney(db);
      UnpaidKeepsMoney(db, id, d);
    }
    FundingKeepsInv(db, db.(deposits := db.deposits[id := d]));
  }

  lemma PayfastItnKeepsInv(db: Db, itn: Notification)
    requires Inv(db)
    ensures Inv(PayfastItn(db, itn))
  {
    if itn.deposit.Some? && itn.deposit.value in db.deposits {
      var id := itn.deposit.value;
      if CompleteDeposit(db, id, itn.reference).Ok? {
        CompleteDepositKeepsInv(db, id, itn.reference);
      }
      if FailDeposit(db, id).Ok? {
        FailDepositKeepsInv(db, id);
      }
    }
  }

  lemma FailDepositKeepsInv(db: Db, id: DepositId)
    requires Inv(db) && FailDeposit(db, id).Ok?
    ensures Inv(FailDeposit(db, id).value)
  {
    InvDeposit(db, id);
    UnpaidKeepsInv(db, id, db.deposits[id].(status := DepositStatus.Failed));
  }

  // ---- Accounts and configuration -------------------------------------------------------

  lemma OpenWalletKeepsMoney(db: Db, user: UserId)
    requires MoneyInv(db) && user !in db.wallets
    ensures MoneyInv(db.(wallets := db.wallets[user := Wallet(0, 0)]))
  {
    var after := db.(wallets := db.wallets[user := Wallet(0, 0)]);
    forall u, f ensures RowsTotal(after, u, f) == BalanceOf(after, u, f)
                     && Total(after.ledger, OfUser(u, f)) == BalanceOf(after, u, f) {
      assert RowsTotal(db, u, f) == BalanceOf(db, u, f);
      assert Total(db.ledger, OfUser(u, f)) == BalanceOf(db, u, f);
    }
    forall r, u, f ensures Total(after.ledger, OfRef(r, u, f)) == Position(RowAt(after, r), u, f) {
      assert Total(db.ledger, OfRef(r, u, f)) == Position(RowAt(db, r), u, f);
    }
    forall d ensures Total(after.ledger, CreditsOf(d)) == if DepositDone(after, d) then 1 else 0 {
      assert Total(db.ledger, CreditsOf(d)) == if DepositDone(db, d) then 1 else 0;
    }
    SumPut(db.wallets, user, Wallet(0, 0), Worth());
  }

  lemma OpenWalletKeepsRows(db: Db, user: UserId)
    requires RowsInv(db) && user !in db.wallets
    ensures RowsInv(db.(wallets := db.wallets[user := Wallet(0, 0)]))
  {
    var after := db.(wallets := db.wallets[user := Wallet(0, 0)]);
    forall b | b in after.bets
      ensures ParticipantsOk(after, after.bets[b]) && ResultFieldsOk(after.bets[b]) && VerdictOk(after, after.bets[b])
    {
      assert ParticipantsOk(db, db.bets[b]) && ResultFieldsOk(db.bets[b]) && VerdictOk(db, db.bets[b]);
    }
  }

  lemma PlatformIgnoresRest(db: Db, after: Db)
    requires PlatformInv(db)
    requires after.bets == db.bets && after.platformLedger == db.platformLedger
    requires after.platform == db.platform || (db.platform.None? && after.platform == Some(0))
    ensures PlatformInv(after)
  {
    forall b ensures PlatformItem(after, b) {
      assert PlatformItem(db, b);
    }
  }
}
