/** A run with the constraints installed that ends in a bet nobody can settle, void or cancel. */
module UnclaimedExample {
  import opened Wrappers
  import opened Tables
  import opened Rules
  import opened Runs
  import opened SchemaChecks
  import opened ExampleRuns
  import Invariants
  import Theorems

  // ---- The outcome ----------------------------------------------------------------------

  /** Without settlements the constraints never bite. */
  lemma {:induction false} CheckedIsRun(db: Db, ops: seq<Op>)
    requires Invariants.Inv(db) && forall op :: op in ops ==> !op.OpSettleBet?
    ensures CheckedRun(db, ops) == Run(db, ops)
  {
    if ops != [] {
      var before, last := ops[..|ops| - 1], ops[|ops| - 1];
      CheckedIsRun(db, before);
      RunKeepsInv(db, before);
      if Step(Run(db, before), last).Ok? {
        ChecksBiteIff(Run(db, before), last);
      }
    }
  }

  /** What the drawn state is: the bet is queued, payable, and nobody predicted the draw. */
  lemma DrawnIsPayable(db: Db)
    requires Drawn(db)
    ensures Unclaimed(db, 1) && Theorems.Payable(db, 1, 20000)
  {
    assert FEES[..2] == FEES && FEES[..1] == [FEES[0]] && [FEES[0]][..0] == [];
    assert ActiveRow([FEES[0]], WinnerFee, 20000) == Some(FEES[0]);
    assert ActiveRow([FEES[0]], NoWinnerFee, 20000) == None;
    assert ActiveRow(FEES, WinnerFee, 20000) == Some(FEES[0]);
    assert ActiveRow(FEES, NoWinnerFee, 20000) == Some(FEES[1]);
  }

  /** Two users bet on a win each and the match is drawn.  The service would settle the bet, with a row the
      constraints refuse; installed, they leave it queued whatever calls follow. */
  lemma DrawnBetHasNoExit(more: seq<Op>)
    ensures var db := Run(EMPTY, DRAWN);
            && Reachable(db) && CheckedRun(EMPTY, DRAWN) == db && Unclaimed(db, 1)
            && SettleBet(db, 1, 20000).Ok? && 1 in SettleBet(db, 1, 20000).value.bets
            && !BetChecks(SettleBet(db, 1, 20000).value.bets[1])
            && 1 in CheckedRun(db, more).bets && CheckedRun(db, more).bets[1] == db.bets[1]
  {
    var db := Run(EMPTY, DRAWN);
    RunDraws();
    DrawnIsPayable(db);
    RunReaches(EMPTY, DRAWN);
    EmptyInv();
    CheckedIsRun(EMPTY, DRAWN);
    RunKeepsInv(EMPTY, DRAWN);
    DrawnOutcome(db, more);
  }

  lemma DrawnOutcome(db: Db, more: seq<Op>)
    requires Invariants.Inv(db) && Unclaimed(db, 1) && Theorems.Payable(db, 1, 20000)
    ensures SettleBet(db, 1, 20000).Ok? && 1 in SettleBet(db, 1, 20000).value.bets
    ensures !BetChecks(SettleBet(db, 1, 20000).value.bets[1])
    ensures 1 in CheckedRun(db, more).bets && CheckedRun(db, more).bets[1] == db.bets[1]
  {
    Theorems.SettleSucceedsIff(db, 1, 20000);
    SettledRowMeetsChecksIff(db, 1, 20000);
    UnclaimedForEver(db, more, 1);
  }
}
