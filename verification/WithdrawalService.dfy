/** The withdrawal life cycle: every request holds its amount until it is completed or released. */
module WithdrawalService {
  import opened Wrappers
  import opened Tables
  import opened Positions
  import opened Rules
  import opened Invariants
  import opened Sessions
  import opened WalletService
  import Lines = LedgerLines
  import Movements

  lemma BooksWithdrawal(db: Db, id: WithdrawalId, w: Withdrawal, wallets: map<UserId, Wallet>, lines: seq<Line>)
    requires forall l :: l in lines ==> l.user in wallets && l.user in db.wallets
    requires wallets == Rebook(db.wallets, RowAt(db, Ref.WithdrawalRef(id)), WithdrawalRow(w))
    ensures Posted(db, wallets, lines, WithdrawalReference, Ref.WithdrawalRef(id))
            .(withdrawals := db.withdrawals[id := w])
            == Book(db, Ref.WithdrawalRef(id), WithdrawalRow(w), WithdrawalReference, lines)
  {
  }

  /** The request row comes first, then the hold, which may be refused. */
  method CreateWithdrawal(s: Session, id: WithdrawalId, user: UserId, amount: int) returns (r: Result<()>)
    requires Solvent(s.State())
    modifies s
    ensures Ends(r, Rules.CreateWithdrawal(old(s.State()), id, user, amount), s.State())
  {
    ghost var before := s.State();
    if amount <= 0 {
      return Err(Validation);
    }
    if user !in s.wallets {
      return Err(NotFound);
    }
    if id in s.withdrawals {
      return Err(Integrity);
    }
    var w := Withdrawal(user, amount, WithdrawalStatus.Pending);
    s.withdrawals := s.withdrawals[id := w];
    r := WalletService.HoldWithdrawal(s, user, amount, id);
    if r.Ok? {
      Movements.HoldingMoves(before.wallets, w);
      BooksWithdrawal(before, id, w, s.wallets, Lines.WithdrawalHold(user, amount));
    }
  }

  /** The two refusals of a transition are the same error. */
  method AssertTransition(w: Withdrawal, validFrom: set<WithdrawalStatus>) returns (r: Result<()>)
    requires validFrom !! {WithdrawalStatus.Completed, WithdrawalStatus.Failed, WithdrawalStatus.Rejected}
    ensures r == if w.status in validFrom then Ok(()) else Err(Conflict)
  {
    if w.status in {WithdrawalStatus.Completed, WithdrawalStatus.Failed, WithdrawalStatus.Rejected} {
      return Err(Conflict);
    }
    if w.status !in validFrom {
      return Err(Conflict);
    }
    return Ok(());
  }

  method ApproveWithdrawal(s: Session, id: WithdrawalId) returns (r: Result<()>)
    modifies s
    ensures Ends(r, Rules.ApproveWithdrawal(old(s.State()), id), s.State())
  {
    if id !in s.withdrawals {
      return Err(NotFound);
    }
    r := AssertTransition(s.withdrawals[id], {WithdrawalStatus.Pending});
    if r.Ok? {
      s.withdrawals := s.withdrawals[id := s.withdrawals[id].(status := WithdrawalStatus.Approved)];
    }
  }

  lemma FinishBooks(db: Db, id: WithdrawalId, w: Withdrawal, to: WithdrawalStatus, lines: seq<Line>, after: Db)
    requires id in db.withdrawals && db.withdrawals[id] == w && OnHold(w) && w.user in db.wallets
    requires to.Completed? || to.Rejected? || to.Failed?
    requires forall l :: l in lines ==> l.user == w.user
    requires after == Posted(db, Moved(db.wallets, w.user, if to.Completed? then 0 else w.amount, -w.amount),
                             lines, WithdrawalReference, Ref.WithdrawalRef(id))
    ensures after.(withdrawals := db.withdrawals[id := w.(status := to)])
            == Book(db, Ref.WithdrawalRef(id), WithdrawalRow(w.(status := to)), WithdrawalReference, lines)
  {
    Movements.FinishingMoves(db.wallets, w, to);
    BooksWithdrawal(db, id, w.(status := to), after.wallets, lines);
  }

  method CompleteWithdrawal(s: Session, id: WithdrawalId) returns (r: Result<()>)
    modifies s
    ensures Ends(r, Rules.CompleteWithdrawal(old(s.State()), id), s.State())
  {
    ghost var before := s.State();
    if id !in s.withdrawals {
      return Err(NotFound);
    }
    var w := s.withdrawals[id];
    r := AssertTransition(w, {WithdrawalStatus.Approved, WithdrawalStatus.Processing});
    if r.Err? {
      return;
    }
    r := WalletService.FinalizeWithdrawalDebit(s, w.user, w.amount, id);
    if r.Ok? {
      FinishBooks(before, id, w, WithdrawalStatus.Completed, Lines.WithdrawalDebit(w.user, w.amount), s.State());
      s.withdrawals := s.withdrawals[id := w.(status := WithdrawalStatus.Completed)];
    }
  }

  method RejectWithdrawal(s: Session, id: WithdrawalId) returns (r: Result<()>)
    modifies s
    ensures Ends(r, ReleaseWithdrawal(old(s.State()), id, WithdrawalStatus.Rejected), s.State())
  {
    ghost var before := s.State();
    if id !in s.withdrawals {
      return Err(NotFound);
    }
    var w := s.withdrawals[id];
    r := AssertTransition(w, {WithdrawalStatus.Pending, WithdrawalStatus.Approved});
    if r.Err? {
      return;
    }
    r := WalletService.ReleaseWithdrawalHold(s, w.user, w.amount, id);
    if r.Ok? {
      FinishBooks(before, id, w, WithdrawalStatus.Rejected, Lines.WithdrawalRelease(w.user, w.amount), s.State());
      s.withdrawals := s.withdrawals[id := w.(status := WithdrawalStatus.Rejected)];
    }
  }

  method FailWithdrawal(s: Session, id: WithdrawalId) returns (r: Result<()>)
    modifies s
    ensures Ends(r, ReleaseWithdrawal(old(s.State()), id, WithdrawalStatus.Failed), s.State())
  {
    ghost var before := s.State();
    if id !in s.withdrawals {
      return Err(NotFound);
    }
    var w := s.withdrawals[id];
    r := AssertTransition(w, {WithdrawalStatus.Pending, WithdrawalStatus.Approved, WithdrawalStatus.Processing});
    if r.Err? {
      return;
    }
    r := WalletService.ReleaseWithdrawalHold(s, w.user, w.amount, id);
    if r.Ok? {
      FinishBooks(before, id, w, WithdrawalStatus.Failed, Lines.WithdrawalRelease(w.user, w.amount), s.State());
      s.withdrawals := s.withdrawals[id := w.(status := WithdrawalStatus.Failed)];
    }
  }
}
