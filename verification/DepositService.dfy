/** The deposit life cycle and the provider's notifications: the wallet is credited on completion only. */
module DepositService {
  import opened Wrappers
  import opened Tables
  import opened Positions
  import opened Rules
  import opened Sessions
  import opened WalletService
  import Lines = LedgerLines
  import Money
  import Movements

  /** Both keys of the new row are checked when it is flushed. */
  method CreateDeposit(s: Session, id: DepositId, user: UserId, amount: int, clientReference: Option<string>)
    returns (r: Result<()>)
    modifies s
    ensures Ends(r, Rules.CreateDeposit(old(s.State()), id, user, amount, clientReference), s.State())
  {
    if amount <= 0 {
      return Err(Validation);
    }
    if user !in s.wallets {
      return Err(NotFound);
    }
    if id in s.deposits || ClientReferenceTaken(s.deposits, clientReference) {
      return Err(Integrity);
    }
    s.deposits := s.deposits[id := Deposit(user, amount, DepositStatus.Pending, None, clientReference)];
    return Ok(());
  }

  /** Creates a pending deposit and moves it on to processing. */
  method InitiatePayfastDeposit(s: Session, id: DepositId, user: UserId, amount: int, enabled: bool)
    returns (r: Result<()>)
    modifies s
    ensures Ends(r, InitiatePayfast(old(s.State()), id, user, amount, enabled), s.State())
  {
    if !enabled {
      return Err(Validation);
    }
    if amount < Money.MIN_STAKE {
      return Err(Validation);
    }
    if amount > Money.MAX_STAKE {
      return Err(Validation);
    }
    ghost var rows := s.deposits;
    r := CreateDeposit(s, id, user, amount, None);
    if r.Ok? {
      s.deposits := s.deposits[id := s.deposits[id].(status := DepositStatus.Processing)];
      assert s.deposits == rows[id := Deposit(user, amount, DepositStatus.Processing, None, None)];
    }
  }

  lemma BooksDeposit(db: Db, id: DepositId, d: Deposit, reference: Option<string>, after: Db)
    requires id in db.deposits && db.deposits[id] == d && !d.status.Completed? && d.user in db.wallets
    requires after == Posted(db, Moved(db.wallets, d.user, d.amount, 0), Lines.DepositCredit(d.user, d.amount),
                             DepositReference, Ref.DepositRef(id))
    ensures after.(deposits := db.deposits[id := CompletedDeposit(d, reference)])
            == Book(db, Ref.DepositRef(id), DepositRow(CompletedDeposit(d, reference)), DepositReference,
                    Lines.DepositCredit(d.user, d.amount))
  {
    Movements.DepositMoves(db.wallets, d, reference);
  }

  /** Credits the wallet, then writes the row.  Only the unique key of the provider reference can still
      refuse it there, and it does when the row is flushed. */
  method CompleteDeposit(s: Session, id: DepositId, reference: Option<string>) returns (r: Result<()>)
    modifies s
    ensures Ends(r, Rules.CompleteDeposit(old(s.State()), id, reference), s.State())
    ensures r.Err? && r.error != Integrity ==> s.State() == old(s.State())
  {
    ghost var before := s.State();
    if id !in s.deposits {
      return Err(NotFound);
    }
    var d := s.deposits[id];
    if d.status in {DepositStatus.Completed, DepositStatus.Failed, DepositStatus.Cancelled} {
      return Err(Conflict);
    }
    if d.status !in {DepositStatus.Pending, DepositStatus.Processing} {
      return Err(Conflict);
    }
    r := WalletService.CreditDeposit(s, d.user, d.amount, id);
    if r.Err? {
      return;
    }
    var done := d.(status := DepositStatus.Completed);
    if reference.Some? {
      done := done.(reference := reference);
    }
    if ReferenceTaken(s.deposits, id, reference) {
      return Err(Integrity);
    }
    BooksDeposit(before, id, d, reference, s.State());
    s.deposits := s.deposits[id := done];
  }

  method FailDeposit(s: Session, id: DepositId) returns (r: Result<()>)
    modifies s
    ensures Ends(r, Rules.FailDeposit(old(s.State()), id), s.State())
    ensures r.Err? ==> s.State() == old(s.State())
  {
    if id !in s.deposits {
      return Err(NotFound);
    }
    if s.deposits[id].status in {DepositStatus.Completed, DepositStatus.Failed, DepositStatus.Cancelled} {
      return Err(Conflict);
    }
    s.deposits := s.deposits[id := s.deposits[id].(status := DepositStatus.Failed)];
    return Ok(());
  }

  /** One notification.  Whatever goes wrong is logged and answered like success, so the session is
      committed; a failed flush has rolled it back by then. */
  method PayfastItn(s: Session, itn: Notification)
    modifies s
    ensures s.State() == Rules.PayfastItn(old(s.State()), itn)
  {
    if itn.deposit.None? {
      return;
    }
    var id := itn.deposit.value;
    if id !in s.deposits {
      return;
    }
    if !itn.timely || !itn.verified {
      return;
    }
    match itn.status {
      case Complete =>
        if s.deposits[id].status in {DepositStatus.Completed, DepositStatus.Failed, DepositStatus.Cancelled} {
          return;
        }
        var saved := s.State();
        var r := CompleteDeposit(s, id, itn.reference);
        if r == Err(Integrity) {
          s.Restore(saved);
        }
      case Refused =>
        if s.deposits[id].status in {DepositStatus.Completed, DepositStatus.Failed, DepositStatus.Cancelled} {
          return;
        }
        var _ := FailDeposit(s, id);
      case Unhandled =>
    }
  }
}
