/** The one money step keeps the books: if its lines add up to the change of the row's position,
    the balance sheet, the replay of the ledger and the itemisation all survive. */
module Booking {
  import opened Tables
  import opened Positions
  import opened Sums
  import opened Invariants

  function LineOf(u: UserId, f: Field): Line -> int {
    (l: Line) => if l.user == u && l.field == f then l.Signed() else 0
  }

  /** The lines move each user's fields exactly as the row's position changes. */
  ghost predicate Balanced(lines: seq<Line>, before: Row, after: Row) {
    forall u, f :: Total(lines, LineOf(u, f)) == Position(after, u, f) - Position(before, u, f)
  }

  predicate Fits(ref: Ref, row: Row) {
    match ref
    case BetRef(_) => row.BetRow?
    case DepositRef(_) => row.DepositRow?
    case WithdrawalRef(_) => row.WithdrawalRow?
  }

  predicate LinesOf(lines: seq<Line>, wallets: map<UserId, Wallet>) {
    forall l :: l in lines ==> l.user in wallets
  }

  lemma {:induction false} StrangersUntouched(lines: seq<Line>, wallets: map<UserId, Wallet>, u: UserId, f: Field)
    requires LinesOf(lines, wallets) && u !in wallets
    ensures Total(lines, LineOf(u, f)) == 0
  {
    if lines != [] {
      assert lines[|lines| - 1] in lines;
      StrangersUntouched(lines[..|lines| - 1], wallets, u, f);
    }
  }

  lemma PostTotals(wallets: map<UserId, Wallet>, lines: seq<Line>, kind: ReferenceType, ref: Ref, u: UserId, f: Field)
    requires LinesOf(lines, wallets)
    ensures Total(Post(wallets, lines, kind, ref), OfUser(u, f)) == Total(lines, LineOf(u, f))
    ensures Total(Post(wallets, lines, kind, ref), OfRef(ref, u, f)) == Total(lines, LineOf(u, f))
  {
    TotalPointwise(Post(wallets, lines, kind, ref), lines, OfUser(u, f), LineOf(u, f));
    TotalPointwise(Post(wallets, lines, kind, ref), lines, OfRef(ref, u, f), LineOf(u, f));
  }

  lemma {:induction false} TotalNothing<T>(s: seq<T>, f: T -> int)
    requires forall i :: 0 <= i < |s| ==> f(s[i]) == 0
    ensures Total(s, f) == 0
  {
    if s != [] {
      TotalNothing(s[..|s| - 1], f);
    }
  }

  /** One changed row changes the total for each user and field by the change of its position. */
  lemma RowsGrow(db: Db, ref: Ref, row: Row, after: Db, u: UserId, f: Field)
    requires Fits(ref, row) && after == PutRow(db, ref, row).(wallets := after.wallets, ledger := after.ledger)
    ensures RowsTotal(after, u, f) == RowsTotal(db, u, f) + Position(row, u, f) - Position(RowAt(db, ref), u, f)
  {
    match ref {
      case BetRef(id) => SumPut(db.bets, id, row.bet, BetAt(u, f));
      case DepositRef(id) => SumPut(db.deposits, id, row.deposit, DepositAt(u, f));
      case WithdrawalRef(id) => SumPut(db.withdrawals, id, row.withdrawal, WithdrawalAt(u, f));
    }
  }

  /** Every balance moves by the lines posted for it, which is the change of the row's position. */
  lemma BalanceMoves(db: Db, ref: Ref, row: Row, kind: ReferenceType, lines: seq<Line>, u: UserId, f: Field)
    requires Fits(ref, row) && LinesOf(lines, db.wallets)
    requires Balanced(lines, RowAt(db, ref), row)
    ensures var change := Position(row, u, f) - Position(RowAt(db, ref), u, f);
            Total(lines, LineOf(u, f)) == change
            && BalanceOf(Book(db, ref, row, kind, lines), u, f) == BalanceOf(db, u, f) + change
  {
    assert Total(lines, LineOf(u, f)) == Position(row, u, f) - Position(RowAt(db, ref), u, f);
    if u !in db.wallets {
      StrangersUntouched(lines, db.wallets, u, f);
    }
  }

  /** Wallets keep matching the rows. */
  lemma BookKeepsSheet(db: Db, ref: Ref, row: Row, kind: ReferenceType, lines: seq<Line>)
    requires Fits(ref, row) && LinesOf(lines, db.wallets)
    requires Balanced(lines, RowAt(db, ref), row)
    requires Sheet(db)
    ensures Sheet(Book(db, ref, row, kind, lines))
  {
    var after := Book(db, ref, row, kind, lines);
    forall u, f ensures RowsTotal(after, u, f) == BalanceOf(after, u, f) {
      assert RowsTotal(db, u, f) == BalanceOf(db, u, f);
      RowsGrow(db, ref, row, after, u, f);
      BalanceMoves(db, ref, row, kind, lines, u, f);
    }
  }

  /** The ledger keeps replaying to the wallets. */
  lemma BookKeepsReplay(db: Db, ref: Ref, row: Row, kind: ReferenceType, lines: seq<Line>)
    requires Fits(ref, row) && LinesOf(lines, db.wallets)
    requires Balanced(lines, RowAt(db, ref), row)
    requires Replayed(db)
    ensures Replayed(Book(db, ref, row, kind, lines))
  {
    var after := Book(db, ref, row, kind, lines);
    forall u, f ensures Total(after.ledger, OfUser(u, f)) == BalanceOf(after, u, f) {
      assert Total(db.ledger, OfUser(u, f)) == BalanceOf(db, u, f);
      LedgerGrows(db.ledger, after.wallets, lines, kind, ref, u, f);
      BalanceMoves(db, ref, row, kind, lines, u, f);
    }
  }

  lemma LedgerGrows(ledger: seq<LedgerEntry>, wallets: map<UserId, Wallet>, lines: seq<Line>, kind: ReferenceType,
                    ref: Ref, u: UserId, f: Field)
    requires LinesOf(lines, wallets)
    ensures Total(ledger + Post(wallets, lines, kind, ref), OfUser(u, f))
            == Total(ledger, OfUser(u, f)) + Total(lines, LineOf(u, f))
  {
    TotalConcat(ledger, Post(wallets, lines, kind, ref), OfUser(u, f));
    PostTotals(wallets, lines, kind, ref, u, f);
  }

  /** Only the entries that refer to the record count for it. */
  lemma ItemGrows(ledger: seq<LedgerEntry>, wallets: map<UserId, Wallet>, lines: seq<Line>, kind: ReferenceType,
                  ref: Ref, r: Ref, u: UserId, f: Field)
    requires LinesOf(lines, wallets)
    ensures Total(ledger + Post(wallets, lines, kind, ref), OfRef(r, u, f))
            == Total(ledger, OfRef(r, u, f)) + if r == ref then Total(lines, LineOf(u, f)) else 0
  {
    var group := Post(wallets, lines, kind, ref);
    TotalConcat(ledger, group, OfRef(r, u, f));
    if r == ref {
      PostTotals(wallets, lines, kind, ref, u, f);
    } else {
      TotalNothing(group, OfRef(r, u, f));
    }
  }

  /** The entries of every record keep adding up to its position. */
  lemma BookKeepsItems(db: Db, ref: Ref, row: Row, kind: ReferenceType, lines: seq<Line>)
    requires Fits(ref, row) && LinesOf(lines, db.wallets)
    requires Balanced(lines, RowAt(db, ref), row)
    requires Itemised(db)
    ensures Itemised(Book(db, ref, row, kind, lines))
  {
    var after := Book(db, ref, row, kind, lines);
    forall r, u, f ensures Total(after.ledger, OfRef(r, u, f)) == Position(RowAt(after, r), u, f) {
      assert Total(db.ledger, OfRef(r, u, f)) == Position(RowAt(db, r), u, f);
      ItemGrows(db.ledger, after.wallets, lines, kind, ref, r, u, f);
      if r == ref {
        BalanceMoves(db, ref, row, kind, lines, u, f);
      }
    }
  }

  /** What the row has cost or brought all users together. */
  function RowWorth(row: Row): int {
    match row
    case NoRow => 0
    case BetRow(bet) => -FeeFrom(bet)
    case DepositRow(d) => PaidIn(d)
    case WithdrawalRow(w) => -PaidOut(w)
  }

  /** Total wealth follows the rows, given that only `p` and `q` are touched and the row's
      positions for the two add up to its worth, before and after. */
  lemma BookKeepsWealth(db: Db, ref: Ref, row: Row, kind: ReferenceType, lines: seq<Line>, p: UserId, q: UserId)
    requires Fits(ref, row) && LinesOf(lines, db.wallets)
    requires p in db.wallets && q in db.wallets && p != q
    requires forall u, f :: u != p && u != q ==> Position(row, u, f) == Position(RowAt(db, ref), u, f)
    requires PairWorth(RowAt(db, ref), p, q) == RowWorth(RowAt(db, ref))
    requires PairWorth(row, p, q) == RowWorth(row)
    requires Wealth(db)
    ensures Wealth(Book(db, ref, row, kind, lines))
  {
    var after := Book(db, ref, row, kind, lines);
    SumTwoRows(db.wallets, after.wallets, p, q, Worth());
    match ref {
      case BetRef(id) => SumPut(db.bets, id, row.bet, FeeAt());
      case DepositRef(id) => SumPut(db.deposits, id, row.deposit, PaidInAt());
      case WithdrawalRef(id) => SumPut(db.withdrawals, id, row.withdrawal, PaidOutAt());
    }
  }

  function PairWorth(row: Row, p: UserId, q: UserId): int {
    Position(row, p, Available) + Position(row, p, Locked) + Position(row, q, Available) + Position(row, q, Locked)
  }

  /** The same when only one wallet is touched. */
  lemma BookKeepsWealthAlone(db: Db, ref: Ref, row: Row, kind: ReferenceType, lines: seq<Line>, p: UserId)
    requires Fits(ref, row) && LinesOf(lines, db.wallets)
    requires p in db.wallets
    requires forall u, f :: u != p ==> Position(row, u, f) == Position(RowAt(db, ref), u, f)
    requires Position(row, p, Available) + Position(row, p, Locked)
             - Position(RowAt(db, ref), p, Available) - Position(RowAt(db, ref), p, Locked)
             == RowWorth(row) - RowWorth(RowAt(db, ref))
    requires Wealth(db)
    ensures Wealth(Book(db, ref, row, kind, lines))
  {
    var after := Book(db, ref, row, kind, lines);
    SumRemove(db.wallets, p, Worth());
    SumRemove(after.wallets, p, Worth());
    SumSame(db.wallets - {p}, after.wallets - {p}, Worth());
    match ref {
      case BetRef(id) => SumPut(db.bets, id, row.bet, FeeAt());
      case DepositRef(id) => SumPut(db.deposits, id, row.deposit, PaidInAt());
      case WithdrawalRef(id) => SumPut(db.withdrawals, id, row.withdrawal, PaidOutAt());
    }
  }

  /** Only deposit credits count towards the credits of a deposit. */
  lemma BookKeepsCredits(db: Db, ref: Ref, row: Row, kind: ReferenceType, lines: seq<Line>)
    requires Fits(ref, row) && LinesOf(lines, db.wallets)
    requires forall l :: l in lines ==> !l.kind.DepositCredit?
    requires !ref.DepositRef?
    requires CreditedOnce(db)
    ensures CreditedOnce(Book(db, ref, row, kind, lines))
  {
    var after := Book(db, ref, row, kind, lines);
    var group := Post(after.wallets, lines, kind, ref);
    forall d ensures Total(after.ledger, CreditsOf(d)) == if DepositDone(after, d) then 1 else 0 {
      assert Total(db.ledger, CreditsOf(d)) == if DepositDone(db, d) then 1 else 0;
      TotalConcat(db.ledger, group, CreditsOf(d));
      TotalNothing(group, CreditsOf(d));
    }
  }
}
