/** What the calls on accounts, deposits and withdrawals answer and do, spelled out in rows, balances and
    entries alone. */
module FundingLaws {
  import opened Wrappers
  import opened Tables
  import opened Rules
  import opened Invariants
  import opened WalletService
  import opened BetLaws
  import Movements
  import Positions
  import Theorems

  // ---- Accounts and configuration -------------------------------------------------------

  /** Wallets and the platform account start empty and are opened once; fee rates lie between 0 and 1. */
  lemma AccountCalls(db: Db, user: UserId, row: FeeRow)
    ensures Step(db, OpOpenWallet(user))
            == if user in db.wallets then Err(Integrity) else Ok(db.(wallets := db.wallets[user := Wallet(0, 0)]))
    ensures Step(db, OpOpenPlatform) == if db.platform.Some? then Err(Integrity) else Ok(db.(platform := Some(0)))
    ensures Step(db, OpAddFee(row))
            == if 0 <= row.rate <= 10000 then Ok(db.(fees := db.fees + [row])) else Err(Validation)
  {
  }

  // ---- Requesting deposits --------------------------------------------------------------

  predicate KeyFree(db: Db, key: Option<string>) {
    key.Some? ==> forall d :: d in db.deposits ==> db.deposits[d].clientReference != key
  }

  /** A deposit is requested if and only if its amount is positive, the user has a wallet and the user's own key
      is new; nothing is credited yet. */
  lemma CreateDepositLaw(db: Db, id: DepositId, user: UserId, amount: int, key: Option<string>)
    ensures var op := OpCreateDeposit(id, user, amount, key);
            && (Step(db, op).Ok? <==> 0 < amount && user in db.wallets && id !in db.deposits && KeyFree(db, key))
            && (Step(db, op) == Err(Validation) <==> amount <= 0)
            && (Step(db, op) == Err(NotFound) <==> 0 < amount && user !in db.wallets)
            && (Step(db, op) == Err(Integrity) <==>
                  0 < amount && user in db.wallets && (id in db.deposits || !KeyFree(db, key)))
            && (Step(db, op).Ok? ==>
                  After(db, op)
                  == db.(deposits := db.deposits[id := Deposit(user, amount, DepositStatus.Pending, None, key)]))
  {
  }

  /** Through the provider the amount lies between 10 and 10 000 and the deposit moves straight on to
      processing. */
  lemma InitiatePayfastLaw(db: Db, id: DepositId, user: UserId, amount: int, enabled: bool)
    ensures var op := OpInitiatePayfast(id, user, amount, enabled);
            && (Step(db, op).Ok? <==> enabled && 1000 <= amount <= 1000000 && user in db.wallets && id !in db.deposits)
            && (Step(db, op) == Err(Validation) <==> !(enabled && 1000 <= amount <= 1000000))
            && (Step(db, op) == Err(NotFound) <==> enabled && 1000 <= amount <= 1000000 && user !in db.wallets)
            && (Step(db, op) == Err(Integrity) <==>
                  enabled && 1000 <= amount <= 1000000 && user in db.wallets && id in db.deposits)
            && (Step(db, op).Ok? ==>
                  After(db, op)
                  == db.(deposits := db.deposits[id := Deposit(user, amount, DepositStatus.Processing, None, None)]))
  {
  }

  // ---- Finishing deposits ---------------------------------------------------------------

  /** The deposit waits for its money. */
  predicate Awaited(db: Db, id: DepositId) {
    id in db.deposits && db.deposits[id].status in {DepositStatus.Pending, DepositStatus.Processing}
  }

  /** No other deposit carries the provider's reference. */
  predicate ReferenceFree(db: Db, id: DepositId, reference: Option<string>) {
    reference.Some? ==> forall d :: d in db.deposits && d != id ==> db.deposits[d].reference != reference
  }

  /** A deposit is completed if and only if it is still awaited and no other one carries the reference. */
  lemma CompleteDepositAnswers(db: Db, id: DepositId, reference: Option<string>)
    requires Inv(db)
    ensures var answer := Step(db, OpCompleteDeposit(id, reference));
            && (answer.Ok? <==> Awaited(db, id) && ReferenceFree(db, id, reference))
            && (answer == Err(NotFound) <==> id !in db.deposits)
            && (answer == Err(Conflict) <==> id in db.deposits && !Awaited(db, id))
            && (answer == Err(Integrity) <==> Awaited(db, id) && !ReferenceFree(db, id, reference))
  {
    InvRows(db);
    InvSolvent(db);
  }

  /** The deposit after completion, with the reference if there is one. */
  function AsCompleted(d: Deposit, reference: Option<string>): Deposit {
    Deposit(d.user, d.amount, DepositStatus.Completed, if reference.Some? then reference else d.reference,
            d.clientReference)
  }

  /** Completing credits the user with the amount of the deposit, in one entry, and changes nothing else. */
  lemma CompleteDepositEffect(db: Db, id: DepositId, reference: Option<string>)
    requires Step(db, OpCompleteDeposit(id, reference)).Ok?
    ensures id in db.deposits && db.deposits[id].user in db.wallets
    ensures var d := db.deposits[id];
            var wallets := Moved(db.wallets, d.user, d.amount, 0);
            After(db, OpCompleteDeposit(id, reference))
            == db.(wallets := wallets, deposits := db.deposits[id := AsCompleted(d, reference)],
                   ledger := db.ledger
                             + [Entry(wallets, Line(d.user, EntryType.DepositCredit, Available, Credit, d.amount),
                                      DepositReference, Ref.DepositRef(id))])
  {
    Movements.DepositMoves(db.wallets, db.deposits[id], reference);
  }

  /** Failing a deposit is possible while it is awaited, and moves no money. */
  lemma FailDepositLaw(db: Db, id: DepositId)
    ensures Step(db, OpFailDeposit(id)).Ok? <==> Awaited(db, id)
    ensures Step(db, OpFailDeposit(id)) == Err(NotFound) <==> id !in db.deposits
    ensures Step(db, OpFailDeposit(id)) == Err(Conflict) <==> id in db.deposits && !Awaited(db, id)
    ensures Awaited(db, id) ==>
      After(db, OpFailDeposit(id))
      == db.(deposits := db.deposits[id := db.deposits[id].(status := DepositStatus.Failed)])
  {
  }

  // ---- Notifications --------------------------------------------------------------------

  /** Authentic, in time, and about a deposit there is. */
  predicate Genuine(db: Db, itn: Notification) {
    itn.timely && itn.verified && itn.deposit.Some? && itn.deposit.value in db.deposits
  }

  /** A notification never fails.  One that is late, not verified, about no known deposit or of any other status
      changes nothing; a genuine one has the effect of completing or of failing the deposit it names. */
  lemma PayfastItnLaw(db: Db, itn: Notification)
    ensures Step(db, OpPayfastItn(itn)).Ok?
    ensures !Genuine(db, itn) || itn.status.Unhandled? ==> After(db, OpPayfastItn(itn)) == db
    ensures Genuine(db, itn) && itn.status.Complete? ==>
      After(db, OpPayfastItn(itn)) == After(db, OpCompleteDeposit(itn.deposit.value, itn.reference))
    ensures Genuine(db, itn) && itn.status.Refused? ==>
      After(db, OpPayfastItn(itn)) == After(db, OpFailDeposit(itn.deposit.value))
  {
  }

  /** It moves no deposit but the one it names. */
  lemma PayfastItnTouchesNamed(db: Db, itn: Notification, d: DepositId)
    requires d in db.deposits && itn.deposit != Some(d)
    ensures d in After(db, OpPayfastItn(itn)).deposits && After(db, OpPayfastItn(itn)).deposits[d] == db.deposits[d]
  {
    PayfastItnLaw(db, itn);
    if Genuine(db, itn) && itn.status.Complete? {
      if Step(db, OpCompleteDeposit(itn.deposit.value, itn.reference)).Ok? {
        CompleteDepositEffect(db, itn.deposit.value, itn.reference);
      }
    } else if Genuine(db, itn) && itn.status.Refused? {
      FailDepositLaw(db, itn.deposit.value);
    }
  }

  // ---- Withdrawals ----------------------------------------------------------------------

  /** A withdrawal is requested if and only if its amount is positive and the user can afford it. */
  lemma CreateWithdrawalAnswers(db: Db, id: WithdrawalId, user: UserId, amount: int)
    ensures var answer := Step(db, OpCreateWithdrawal(id, user, amount));
            && (answer.Ok? <==>
                  0 < amount && user in db.wallets && id !in db.withdrawals && amount <= db.wallets[user].available)
            && (answer == Err(Validation) <==> amount <= 0)
            && (answer == Err(NotFound) <==> 0 < amount && user !in db.wallets)
            && (answer == Err(Integrity) <==> 0 < amount && user in db.wallets && id in db.withdrawals)
            && (answer == Err(InsufficientFunds) <==>
                  0 < amount && user in db.wallets && id !in db.withdrawals && db.wallets[user].available < amount)
  {
  }

  /** It holds the amount, with both entries, and changes nothing else. */
  lemma CreateWithdrawalEffect(db: Db, id: WithdrawalId, user: UserId, amount: int)
    requires Step(db, OpCreateWithdrawal(id, user, amount)).Ok?
    ensures user in db.wallets
    ensures var wallets, ref := Moved(db.wallets, user, -amount, amount), Ref.WithdrawalRef(id);
            After(db, OpCreateWithdrawal(id, user, amount))
            == db.(wallets := wallets,
                   withdrawals := db.withdrawals[id := Withdrawal(user, amount, WithdrawalStatus.Pending)],
                   ledger := db.ledger
                             + [Entry(wallets, Line(user, EntryType.WithdrawalHold, Available, Debit, amount),
                                      WithdrawalReference, ref),
                                Entry(wallets, Line(user, EntryType.WithdrawalHold, Locked, Credit, amount),
                                      WithdrawalReference, ref)])
  {
    Movements.HoldingMoves(db.wallets, Withdrawal(user, amount, WithdrawalStatus.Pending));
  }

  predicate InStatus(db: Db, id: WithdrawalId, statuses: set<WithdrawalStatus>) {
    id in db.withdrawals && db.withdrawals[id].status in statuses
  }

  /** Only a pending withdrawal is approved, and that moves no money. */
  lemma ApproveWithdrawalLaw(db: Db, id: WithdrawalId)
    ensures Step(db, OpApproveWithdrawal(id)).Ok? <==> InStatus(db, id, {WithdrawalStatus.Pending})
    ensures Step(db, OpApproveWithdrawal(id)) == Err(NotFound) <==> id !in db.withdrawals
    ensures Step(db, OpApproveWithdrawal(id)).Err? && id in db.withdrawals ==>
      Step(db, OpApproveWithdrawal(id)) == Err(Conflict)
    ensures Step(db, OpApproveWithdrawal(id)).Ok? ==>
      After(db, OpApproveWithdrawal(id))
      == db.(withdrawals := db.withdrawals[id := db.withdrawals[id].(status := WithdrawalStatus.Approved)])
  {
  }

  /** Which withdrawals are completed, rejected and failed; any other existing one is a conflict. */
  lemma FinishWithdrawalAnswers(db: Db, id: WithdrawalId)
    requires Inv(db)
    ensures Step(db, OpCompleteWithdrawal(id)).Ok? <==>
            InStatus(db, id, {WithdrawalStatus.Approved, WithdrawalStatus.Processing})
    ensures Step(db, OpRejectWithdrawal(id)).Ok? <==>
            InStatus(db, id, {WithdrawalStatus.Pending, WithdrawalStatus.Approved})
    ensures Step(db, OpFailWithdrawal(id)).Ok? <==>
            InStatus(db, id, {WithdrawalStatus.Pending, WithdrawalStatus.Approved, WithdrawalStatus.Processing})
    ensures forall op :: op in [OpCompleteWithdrawal(id), OpRejectWithdrawal(id), OpFailWithdrawal(id)] ==>
              Step(db, op).Err? ==> Step(db, op) == Err(if id in db.withdrawals then Conflict else NotFound)
  {
    Theorems.WithdrawalFinishesIff(db, id);
    if id in db.withdrawals && Positions.OnHold(db.withdrawals[id]) {
      Theorems.InvHeld(db, id);
    }
  }

  /** Completing takes the held amount out of the user's locked balance, in one entry. */
  lemma CompleteWithdrawalEffect(db: Db, id: WithdrawalId)
    requires Step(db, OpCompleteWithdrawal(id)).Ok?
    ensures id in db.withdrawals && db.withdrawals[id].user in db.wallets
    ensures var w := db.withdrawals[id];
            var wallets := Moved(db.wallets, w.user, 0, -w.amount);
            After(db, OpCompleteWithdrawal(id))
            == db.(wallets := wallets,
                   withdrawals := db.withdrawals[id := w.(status := WithdrawalStatus.Completed)],
                   ledger := db.ledger
                             + [Entry(wallets, Line(w.user, EntryType.WithdrawalDebit, Locked, Debit, w.amount),
                                      WithdrawalReference, Ref.WithdrawalRef(id))])
  {
    Movements.FinishingMoves(db.wallets, db.withdrawals[id], WithdrawalStatus.Completed);
  }

  /** The state after the hold of a withdrawal was given back. */
  function GivenBack(db: Db, id: WithdrawalId, to: WithdrawalStatus): Db
    requires id in db.withdrawals && db.withdrawals[id].user in db.wallets
  {
    var w, ref := db.withdrawals[id], Ref.WithdrawalRef(id);
    var wallets := Moved(db.wallets, w.user, w.amount, -w.amount);
    db.(wallets := wallets,
        withdrawals := db.withdrawals[id := w.(status := to)],
        ledger := db.ledger
                  + [Entry(wallets, Line(w.user, EntryType.WithdrawalRelease, Locked, Debit, w.amount),
                           WithdrawalReference, ref),
                     Entry(wallets, Line(w.user, EntryType.WithdrawalRelease, Available, Credit, w.amount),
                           WithdrawalReference, ref)])
  }

  /** Rejecting gives the held amount back, with both entries. */
  lemma RejectWithdrawalEffect(db: Db, id: WithdrawalId)
    requires Step(db, OpRejectWithdrawal(id)).Ok?
    ensures id in db.withdrawals && db.withdrawals[id].user in db.wallets
    ensures After(db, OpRejectWithdrawal(id)) == GivenBack(db, id, WithdrawalStatus.Rejected)
  {
    Movements.FinishingMoves(db.wallets, db.withdrawals[id], WithdrawalStatus.Rejected);
  }

  /** So does failing. */
  lemma FailWithdrawalEffect(db: Db, id: WithdrawalId)
    requires Step(db, OpFailWithdrawal(id)).Ok?
    ensures id in db.withdrawals && db.withdrawals[id].user in db.wallets
    ensures After(db, OpFailWithdrawal(id)) == GivenBack(db, id, WithdrawalStatus.Failed)
  {
    Movements.FinishingMoves(db.wallets, db.withdrawals[id], WithdrawalStatus.Failed);
  }
}
