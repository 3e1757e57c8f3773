/** The settlement loop: in whatever order it takes the queued bets, it settles all of them and ends
    with the same wallets, bets, platform balance and, but for the snapshots, ledgers. */
module OrderIndependence {
  import opened Wrappers
  import opened Tables
  import opened Positions
  import opened Sums
  import opened Rules
  import opened Invariants
  import opened Runs
  import Booking
  import Theorems

  /** Settlement calls whose times all select the same rates as `now`. */
  predicate SettleCalls(ops: seq<Op>, fees: seq<FeeRow>, now: int) {
    forall i :: 0 <= i < |ops| ==>
      && ops[i].OpSettleBet?
      && SameRates(fees, ops[i].now, now)
  }

  function Targets(ops: seq<Op>): (ids: seq<BetId>)
    requires forall i :: 0 <= i < |ops| ==> ops[i].OpSettleBet?
    ensures |ids| == |ops| && forall i :: 0 <= i < |ops| ==> ids[i] == ops[i].bet
  {
    seq(|ops|, i requires 0 <= i < |ops| => ops[i].bet)
  }

  predicate Distinct(ids: seq<BetId>) {
    forall i, j :: 0 <= i < j < |ids| ==> ids[i] != ids[j]
  }

  /** Each bet on its own is queued and payable now, so could be settled now. */
  predicate Ready(db: Db, ids: seq<BetId>, now: int) {
    Distinct(ids)
    && forall i :: 0 <= i < |ids| ==>
         ids[i] in db.bets && db.bets[ids[i]].status == BetStatus.PendingSettlement && Theorems.Payable(db, ids[i], now)
  }

  /** The row a queued bet becomes. */
  function FinalRow(db: Db, now: int, b: BetId): Bet {
    if b in db.bets && Judge(db.bets[b], db.matches, db.fees, now).Ok?
    then SettledBet(db.bets[b], Judge(db.bets[b], db.matches, db.fees, now).value)
    else OpenBet(0, "", HomeWin, 0, 0)
  }

  function Move(db: Db, now: int, u: UserId, f: Field): BetId -> int {
    (b: BetId) => if b in db.bets then BetPosition(FinalRow(db, now, b), u, f) - BetPosition(db.bets[b], u, f) else 0
  }

  function Fee(db: Db, now: int): BetId -> int {
    (b: BetId) => FeeFrom(FinalRow(db, now, b))
  }

  // ---- Ledgers up to order and snapshots ------------------------------------------------

  /** Counts the entries that say `line` about `ref`, whatever their snapshots. */
  function Saying(line: Line, kind: ReferenceType, ref: Ref): LedgerEntry -> int {
    (e: LedgerEntry) => if e.line == line && e.referenceType == kind && e.ref == ref then 1 else 0
  }

  function SameLine(line: Line): Line -> int {
    (l: Line) => if l == line then 1 else 0
  }

  function Charging(kind: PlatformEntryType, amount: int, b: BetId): PlatformEntry -> int {
    (e: PlatformEntry) => if e.kind == kind && e.amount == amount && e.bet == b then 1 else 0
  }

  function LinesFor(db: Db, now: int, b: BetId): seq<Line> {
    if b in db.bets && db.bets[b].opponent.Some? && Judge(db.bets[b], db.matches, db.fees, now).Ok?
    then SettlementLines(db.bets[b], Judge(db.bets[b], db.matches, db.fees, now).value) else []
  }

  ghost function Writes(db: Db, now: int, line: Line, kind: ReferenceType, ref: Ref): BetId -> int {
    (b: BetId) =>
      if ref == Ref.BetRef(b) && kind == SettlementReference then Total(LinesFor(db, now, b), SameLine(line)) else 0
  }

  function FeeKind(bet: Bet): PlatformEntryType {
    if bet.settlement == Some(NoWinner) then FeeCollectionNoWinner else FeeCollection
  }

  function Charges(db: Db, now: int, kind: PlatformEntryType, amount: int, b: BetId): BetId -> int {
    (c: BetId) =>
      if c == b && FeeKind(FinalRow(db, now, c)) == kind && FeeFrom(FinalRow(db, now, c)) == amount then 1 else 0
  }

  // ---- The closed form ------------------------------------------------------------------

  predicate RowsDone(db: Db, ids: seq<BetId>, now: int, after: Db) {
    && after.bets.Keys == db.bets.Keys && after.wallets.Keys == db.wallets.Keys
    && (forall b :: b in db.bets ==> after.bets[b] == if b in ids then FinalRow(db, now, b) else db.bets[b])
    && after.deposits == db.deposits && after.withdrawals == db.withdrawals
    && after.matches == db.matches && after.fees == db.fees
    && db.platform.Some? == after.platform.Some?
  }

  ghost predicate WalletsDone(db: Db, ids: seq<BetId>, now: int, after: Db) {
    forall u, f ::
      BalanceOf(after, u, f) == BalanceOf(db, u, f) + (if u in db.wallets then Total(ids, Move(db, now, u, f)) else 0)
  }

  ghost predicate PlatformDone(db: Db, ids: seq<BetId>, now: int, after: Db) {
    PlatformBalance(after) == PlatformBalance(db) + Total(ids, Fee(db, now))
  }

  ghost predicate LedgerDone(db: Db, ids: seq<BetId>, now: int, after: Db) {
    forall line, kind, ref ::
      Total(after.ledger, Saying(line, kind, ref))
      == Total(db.ledger, Saying(line, kind, ref)) + Total(ids, Writes(db, now, line, kind, ref))
  }

  ghost predicate ChargesDone(db: Db, ids: seq<BetId>, now: int, after: Db) {
    forall kind, amount, b ::
      Total(after.platformLedger, Charging(kind, amount, b))
      == Total(db.platformLedger, Charging(kind, amount, b)) + Total(ids, Charges(db, now, kind, amount, b))
  }

  ghost predicate Done(db: Db, ids: seq<BetId>, now: int, after: Db) {
    RowsDone(db, ids, now, after) && WalletsDone(db, ids, now, after) && PlatformDone(db, ids, now, after)
    && LedgerDone(db, ids, now, after) && ChargesDone(db, ids, now, after)
  }

  // ---- One more settlement --------------------------------------------------------------

  lemma PostSays(wallets: map<UserId, Wallet>, lines: seq<Line>, ref: Ref, line: Line, kind: ReferenceType, r: Ref)
    requires Booking.LinesOf(lines, wallets)
    ensures Total(Post(wallets, lines, SettlementReference, ref), Saying(line, kind, r))
            == if r == ref && kind == SettlementReference then Total(lines, SameLine(line)) else 0
  {
    var group := Post(wallets, lines, SettlementReference, ref);
    if r == ref && kind == SettlementReference {
      TotalPointwise(group, lines, Saying(line, kind, r), SameLine(line));
    } else {
      Booking.TotalNothing(group, Saying(line, kind, r));
    }
  }

  predicate SettledFrom(db: Db, now: int, b: BetId, mid: Db) {
    && b in db.bets && b in mid.bets && mid.bets[b] == db.bets[b]
    && mid.matches == db.matches && mid.fees == db.fees && mid.platform.Some?
    && db.bets[b].opponent.Some?
    && db.bets[b].creator in mid.wallets && db.bets[b].opponent.value in mid.wallets
    && Judge(db.bets[b], db.matches, db.fees, now).Ok?
  }

  function Next(db: Db, now: int, b: BetId, mid: Db): Db
    requires SettledFrom(db, now, b, mid)
  {
    Settlement(mid, b, Judge(db.bets[b], db.matches, db.fees, now).value)
  }

  lemma WalletsNext(db: Db, ids: seq<BetId>, now: int, b: BetId, mid: Db)
    requires SettledFrom(db, now, b, mid) && WalletsDone(db, ids, now, mid) && mid.wallets.Keys == db.wallets.Keys
    ensures WalletsDone(db, ids + [b], now, Next(db, now, b, mid))
  {
    var after := Next(db, now, b, mid);
    forall u, f
      ensures BalanceOf(after, u, f)
              == BalanceOf(db, u, f) + (if u in db.wallets then Total(ids + [b], Move(db, now, u, f)) else 0)
    {
      TotalConcat(ids, [b], Move(db, now, u, f));
      TotalOne(b, Move(db, now, u, f));
      assert BalanceOf(mid, u, f)
             == BalanceOf(db, u, f) + (if u in db.wallets then Total(ids, Move(db, now, u, f)) else 0);
    }
  }

  lemma PlatformNext(db: Db, ids: seq<BetId>, now: int, b: BetId, mid: Db)
    requires SettledFrom(db, now, b, mid) && PlatformDone(db, ids, now, mid)
    ensures PlatformDone(db, ids + [b], now, Next(db, now, b, mid))
  {
    TotalConcat(ids, [b], Fee(db, now));
    TotalOne(b, Fee(db, now));
  }

  lemma WritesOneMore(db: Db, ids: seq<BetId>, now: int, b: BetId, line: Line, kind: ReferenceType, ref: Ref)
    ensures Total(ids + [b], Writes(db, now, line, kind, ref))
            == Total(ids, Writes(db, now, line, kind, ref)) + Writes(db, now, line, kind, ref)(b)
  {
    TotalConcat(ids, [b], Writes(db, now, line, kind, ref));
    TotalOne(b, Writes(db, now, line, kind, ref));
  }

  lemma LedgerNextAt(db: Db, now: int, b: BetId, mid: Db, line: Line, kind: ReferenceType, ref: Ref)
    requires SettledFrom(db, now, b, mid)
    ensures Total(Next(db, now, b, mid).ledger, Saying(line, kind, ref))
            == Total(mid.ledger, Saying(line, kind, ref)) + Writes(db, now, line, kind, ref)(b)
  {
    var after, lines := Next(db, now, b, mid), LinesFor(db, now, b);
    TotalConcat(mid.ledger, Post(after.wallets, lines, SettlementReference, Ref.BetRef(b)), Saying(line, kind, ref));
    PostSays(after.wallets, lines, Ref.BetRef(b), line, kind, ref);
  }

  lemma LedgerNext(db: Db, ids: seq<BetId>, now: int, b: BetId, mid: Db)
    requires SettledFrom(db, now, b, mid) && LedgerDone(db, ids, now, mid)
    ensures LedgerDone(db, ids + [b], now, Next(db, now, b, mid))
  {
    var after := Next(db, now, b, mid);
    forall line, kind, ref
      ensures Total(after.ledger, Saying(line, kind, ref))
              == Total(db.ledger, Saying(line, kind, ref)) + Total(ids + [b], Writes(db, now, line, kind, ref))
    {
      assert Total(mid.ledger, Saying(line, kind, ref))
             == Total(db.ledger, Saying(line, kind, ref)) + Total(ids, Writes(db, now, line, kind, ref));
      LedgerNextAt(db, now, b, mid, line, kind, ref);
      WritesOneMore(db, ids, now, b, line, kind, ref);
    }
  }

  lemma ChargesNext(db: Db, ids: seq<BetId>, now: int, b: BetId, mid: Db)
    requires SettledFrom(db, now, b, mid) && ChargesDone(db, ids, now, mid)
    ensures ChargesDone(db, ids + [b], now, Next(db, now, b, mid))
  {
    var after := Next(db, now, b, mid);
    var entry := after.platformLedger[|mid.platformLedger|];
    forall kind, amount, c
      ensures Total(after.platformLedger, Charging(kind, amount, c))
              == Total(db.platformLedger, Charging(kind, amount, c))
                 + Total(ids + [b], Charges(db, now, kind, amount, c))
    {
      assert Total(mid.platformLedger, Charging(kind, amount, c))
             == Total(db.platformLedger, Charging(kind, amount, c)) + Total(ids, Charges(db, now, kind, amount, c));
      TotalConcat(mid.platformLedger, [entry], Charging(kind, amount, c));
      TotalOne(entry, Charging(kind, amount, c));
      TotalConcat(ids, [b], Charges(db, now, kind, amount, c));
      TotalOne(b, Charges(db, now, kind, amount, c));
    }
  }

  lemma DoneNext(db: Db, ids: seq<BetId>, now: int, b: BetId, mid: Db)
    requires SettledFrom(db, now, b, mid) && Done(db, ids, now, mid)
    ensures Done(db, ids + [b], now, Next(db, now, b, mid))
  {
    WalletsNext(db, ids, now, b, mid);
    PlatformNext(db, ids, now, b, mid);
    LedgerNext(db, ids, now, b, mid);
    ChargesNext(db, ids, now, b, mid);
  }

  // ---- The loop -------------------------------------------------------------------------

  predicate SameRates(fees: seq<FeeRow>, at: int, now: int) {
    ActiveRate(fees, WinnerFee, at) == ActiveRate(fees, WinnerFee, now)
    && ActiveRate(fees, NoWinnerFee, at) == ActiveRate(fees, NoWinnerFee, now)
  }

  /** What makes a bet payable is untouched by settling other bets. */
  lemma StillPayable(db: Db, now: int, b: BetId, at: int, mid: Db)
    requires Theorems.Payable(db, b, now)
    requires b in mid.bets && mid.bets[b] == db.bets[b] && SameRates(db.fees, at, now)
    requires mid.matches == db.matches && mid.fees == db.fees && mid.platform.Some? == db.platform.Some?
    ensures Theorems.Payable(mid, b, at)
  {
  }

  /** A successful settlement is the settlement by its verdict. */
  lemma SettledByVerdict(db: Db, now: int, b: BetId, at: int, mid: Db)
    requires SettleBet(mid, b, at).Ok? && b in db.bets && b in mid.bets && mid.bets[b] == db.bets[b]
    requires mid.matches == db.matches && mid.fees == db.fees && SameRates(db.fees, at, now)
    ensures SettledFrom(db, now, b, mid) && SettleBet(mid, b, at).value == Next(db, now, b, mid)
  {
  }

  lemma StillSettles(db: Db, now: int, b: BetId, at: int, mid: Db)
    requires Inv(mid) && Theorems.Payable(db, b, now) && db.bets[b].status == BetStatus.PendingSettlement
    requires b in mid.bets && mid.bets[b] == db.bets[b] && SameRates(db.fees, at, now)
    requires mid.matches == db.matches && mid.fees == db.fees && mid.platform.Some? == db.platform.Some?
    ensures SettleBet(mid, b, at).Ok?
  {
    StillPayable(db, now, b, at, mid);
    Theorems.SettleSucceedsIff(mid, b, at);
  }

  predicate AllSucceed(db: Db, ops: seq<Op>) {
    forall i :: 0 <= i < |ops| ==> Succeeds(db, ops, i)
  }

  lemma NothingDone(db: Db, now: int)
    ensures Done(db, [], now, db)
  {
  }

  lemma {:induction false} LoopDone(db: Db, ops: seq<Op>, now: int)
    requires Inv(db) && SettleCalls(ops, db.fees, now) && Ready(db, Targets(ops), now)
    ensures Done(db, Targets(ops), now, Run(db, ops)) && AllSucceed(db, ops)
  {
    if ops == [] {
      NothingDone(db, now);
      assert Targets(ops) == [];
    } else {
      var before := ops[..|ops| - 1];
      ReadyPrefix(db, ops, now);
      LoopDone(db, before, now);
      RunKeepsInv(db, before);
      LoopGrows(db, ops, now, Targets(before), Run(db, before), Run(db, ops));
    }
  }

  lemma LoopGrows(db: Db, ops: seq<Op>, now: int, ids: seq<BetId>, mid: Db, after: Db)
    requires ops != [] && SettleCalls(ops, db.fees, now) && Ready(db, Targets(ops), now)
    requires Targets(ops) == ids + [ops[|ops| - 1].bet]
    requires mid == Run(db, ops[..|ops| - 1]) && after == After(mid, ops[|ops| - 1])
    requires Inv(mid) && Done(db, ids, now, mid) && AllSucceed(db, ops[..|ops| - 1])
    ensures Done(db, Targets(ops), now, after) && AllSucceed(db, ops)
  {
    LoopStep(db, ids, Targets(ops), now, ops[|ops| - 1], mid, after);
    AllSucceedGrows(db, ops);
  }

  lemma AllSucceedGrows(db: Db, ops: seq<Op>)
    requires ops != [] && AllSucceed(db, ops[..|ops| - 1])
    requires Step(Run(db, ops[..|ops| - 1]), ops[|ops| - 1]).Ok?
    ensures AllSucceed(db, ops)
  {
    var before := ops[..|ops| - 1];
    forall i | 0 <= i < |ops| ensures Succeeds(db, ops, i) {
      if i < |before| {
        assert before[..i] == ops[..i];
        assert Succeeds(db, before, i);
      }
    }
  }

  lemma ReadyPrefix(db: Db, ops: seq<Op>, now: int)
    requires ops != [] && SettleCalls(ops, db.fees, now) && Ready(db, Targets(ops), now)
    ensures SettleCalls(ops[..|ops| - 1], db.fees, now) && Ready(db, Targets(ops[..|ops| - 1]), now)
    ensures Targets(ops) == Targets(ops[..|ops| - 1]) + [ops[|ops| - 1].bet]
  {
    assert Targets(ops[..|ops| - 1]) == Targets(ops)[..|ops| - 1];
  }

  lemma LoopStep(db: Db, ids: seq<BetId>, all: seq<BetId>, now: int, op: Op, mid: Db, after: Db)
    requires op.OpSettleBet? && all == ids + [op.bet] && after == After(mid, op)
    requires Inv(mid) && Done(db, ids, now, mid) && Ready(db, all, now) && SameRates(db.fees, op.now, now)
    ensures Step(mid, op).Ok? && Done(db, all, now, after)
  {
    var b := op.bet;
    LastIsNew(db, ids, now, b);
    assert mid.bets[b] == db.bets[b];
    StillSettles(db, now, b, op.now, mid);
    SettledByVerdict(db, now, b, op.now, mid);
    DoneNext(db, ids, now, b, mid);
  }

  lemma LastIsNew(db: Db, ids: seq<BetId>, now: int, b: BetId)
    requires Ready(db, ids + [b], now)
    ensures b !in ids
    ensures b in db.bets && db.bets[b].status == BetStatus.PendingSettlement && Theorems.Payable(db, b, now)
  {
    var all := ids + [b];
    assert all[|ids|] == b;
    forall i | 0 <= i < |ids| ensures ids[i] != b {
      assert all[i] == ids[i];
    }
  }

  /** Two states that differ at most in the order and the snapshots of what was appended. */
  ghost predicate SameButOrder(a: Db, b: Db) {
    && a.wallets == b.wallets && a.bets == b.bets && a.platform == b.platform
    && a.deposits == b.deposits && a.withdrawals == b.withdrawals && a.matches == b.matches && a.fees == b.fees
    && (forall line, kind, ref :: Total(a.ledger, Saying(line, kind, ref)) == Total(b.ledger, Saying(line, kind, ref)))
    && (forall kind, amount, c ::
          Total(a.platformLedger, Charging(kind, amount, c)) == Total(b.platformLedger, Charging(kind, amount, c)))
  }

  lemma SameWallets(db: Db, ids: seq<BetId>, others: seq<BetId>, now: int, a: Db, b: Db)
    requires multiset(ids) == multiset(others)
    requires WalletsDone(db, ids, now, a) && WalletsDone(db, others, now, b)
    requires a.wallets.Keys == db.wallets.Keys == b.wallets.Keys
    ensures a.wallets == b.wallets
  {
    forall u | u in db.wallets ensures a.wallets[u] == b.wallets[u] {
      TotalPermuted(ids, others, Move(db, now, u, Available));
      TotalPermuted(ids, others, Move(db, now, u, Locked));
      assert BalanceOf(a, u, Available) == BalanceOf(b, u, Available);
      assert BalanceOf(a, u, Locked) == BalanceOf(b, u, Locked);
    }
  }

  lemma SameRows(db: Db, ids: seq<BetId>, others: seq<BetId>, now: int, a: Db, b: Db)
    requires multiset(ids) == multiset(others)
    requires RowsDone(db, ids, now, a) && RowsDone(db, others, now, b)
    ensures a.bets == b.bets
  {
    forall k ensures k in ids <==> k in others {
      assert k in multiset(ids) <==> k in multiset(others);
    }
  }

  lemma SameLedgers(db: Db, ids: seq<BetId>, others: seq<BetId>, now: int, a: Db, b: Db)
    requires multiset(ids) == multiset(others)
    requires LedgerDone(db, ids, now, a) && LedgerDone(db, others, now, b)
    requires ChargesDone(db, ids, now, a) && ChargesDone(db, others, now, b)
    ensures forall line, kind, ref ::
              Total(a.ledger, Saying(line, kind, ref)) == Total(b.ledger, Saying(line, kind, ref))
    ensures forall kind, amount, c ::
              Total(a.platformLedger, Charging(kind, amount, c)) == Total(b.platformLedger, Charging(kind, amount, c))
  {
    forall line, kind, ref
      ensures Total(a.ledger, Saying(line, kind, ref)) == Total(b.ledger, Saying(line, kind, ref))
    {
      TotalPermuted(ids, others, Writes(db, now, line, kind, ref));
    }
    forall kind, amount, c
      ensures Total(a.platformLedger, Charging(kind, amount, c)) == Total(b.platformLedger, Charging(kind, amount, c))
    {
      TotalPermuted(ids, others, Charges(db, now, kind, amount, c));
    }
  }

  ghost predicate AllSettled(db: Db, ids: seq<BetId>) {
    forall b :: b in ids ==> IsSettled(db, b)
  }

  lemma DoneSettles(db: Db, ids: seq<BetId>, now: int, after: Db)
    requires Inv(db) && Ready(db, ids, now) && RowsDone(db, ids, now, after)
    ensures AllSettled(after, ids)
  {
    forall b | b in ids ensures IsSettled(after, b) {
      Theorems.SettleSucceedsIff(db, b, now);
    }
  }

  lemma ReadyPermuted(db: Db, ids: seq<BetId>, others: seq<BetId>, now: int)
    requires Ready(db, ids, now) && Distinct(others) && multiset(ids) == multiset(others)
    ensures Ready(db, others, now)
  {
    forall i | 0 <= i < |others|
      ensures others[i] in db.bets && db.bets[others[i]].status == BetStatus.PendingSettlement
              && Theorems.Payable(db, others[i], now)
    {
      assert others[i] in multiset(ids);
    }
  }

  /** The order of the settlement loop does not matter: every order settles every bet, and all end alike. */
  lemma SettlementOrderIrrelevant(db: Db, ops: seq<Op>, others: seq<Op>, now: int, a: Db, b: Db)
    requires Inv(db) && SettleCalls(ops, db.fees, now) && SettleCalls(others, db.fees, now)
    requires Ready(db, Targets(ops), now) && Distinct(Targets(others))
    requires multiset(Targets(ops)) == multiset(Targets(others))
    requires Leads(db, ops, a) && Leads(db, others, b)
    ensures AllSettled(a, Targets(ops)) && AllSettled(b, Targets(others)) && SameButOrder(a, b)
  {
    LeadsIffRun(db, ops, a);
    LeadsIffRun(db, others, b);
    ReadyPermuted(db, Targets(ops), Targets(others), now);
    LoopDone(db, ops, now);
    LoopDone(db, others, now);
    DoneSettles(db, Targets(ops), now, a);
    DoneSettles(db, Targets(others), now, b);
    SameEnds(db, Targets(ops), Targets(others), now, a, b);
  }

  lemma SameEnds(db: Db, ids: seq<BetId>, others: seq<BetId>, now: int, a: Db, b: Db)
    requires multiset(ids) == multiset(others) && Done(db, ids, now, a) && Done(db, others, now, b)
    ensures SameButOrder(a, b)
  {
    SameWallets(db, ids, others, now, a, b);
    SameRows(db, ids, others, now, a, b);
    SameLedgers(db, ids, others, now, a, b);
    TotalPermuted(ids, others, Fee(db, now));
  }
}
