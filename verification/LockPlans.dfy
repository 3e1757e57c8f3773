/** Which calls can block each other for ever: any number of transactions, each locking its rows in a fixed
    order.  Voiding takes the wallets as creator and opponent, not in ascending order, and cancelling takes
    the wallet before the bet. */
module LockPlans {
  import opened LockProtocol

  // ---- Transactions with plans ----------------------------------------------------------

  /** How many locks of its plan each transaction has. */
  predicate Fits(plans: seq<seq<Lockable>>, at: seq<nat>) {
    |at| == |plans| && forall i :: 0 <= i < |plans| ==> at[i] <= |plans[i]|
  }

  function Has(plans: seq<seq<Lockable>>, at: seq<nat>, i: nat): seq<Lockable>
    requires Fits(plans, at) && i < |plans|
  {
    plans[i][..at[i]]
  }

  predicate Free(plans: seq<seq<Lockable>>, at: seq<nat>, i: nat, row: Lockable)
    requires Fits(plans, at)
  {
    forall j :: 0 <= j < |plans| && j != i ==> row !in Has(plans, at, j)
  }

  /** One turn: transaction `i` takes its next lock unless another one holds it. */
  function Turn(plans: seq<seq<Lockable>>, at: seq<nat>, i: nat): seq<nat>
    requires Fits(plans, at)
  {
    if i < |plans| && at[i] < |plans[i]| && Free(plans, at, i, plans[i][at[i]]) then at[i := at[i] + 1] else at
  }

  function Start(plans: seq<seq<Lockable>>): (at: seq<nat>)
    ensures Fits(plans, at) && forall i :: 0 <= i < |plans| ==> at[i] == 0
  {
    seq(|plans|, i => 0)
  }

  lemma TurnFits(plans: seq<seq<Lockable>>, at: seq<nat>, i: nat)
    requires Fits(plans, at)
    ensures Fits(plans, Turn(plans, at, i))
  {
  }

  function Play(plans: seq<seq<Lockable>>, turns: seq<nat>): (at: seq<nat>)
    ensures Fits(plans, at)
  {
    if turns == [] then Start(plans)
    else
      var before, i := Play(plans, turns[..|turns| - 1]), turns[|turns| - 1];
      TurnFits(plans, before, i);
      Turn(plans, before, i)
  }

  /** The position after `k` on a round trip of length `n`. */
  function Onward(k: nat, n: nat): (next: nat)
    requires k < n
    ensures next < n
  {
    if k + 1 < n then k + 1 else 0
  }

  /** Transaction `i` wants a row that transaction `j` holds. */
  predicate WaitsFor(plans: seq<seq<Lockable>>, at: seq<nat>, i: nat, j: nat)
    requires Fits(plans, at)
  {
    i < |plans| && j < |plans| && i != j && at[i] < |plans[i]| && plans[i][at[i]] in Has(plans, at, j)
  }

  /** Each transaction on the round waits for the next one. */
  predicate Deadlocked(plans: seq<seq<Lockable>>, at: seq<nat>, round: seq<nat>)
    requires Fits(plans, at)
  {
    round != [] && forall k :: 0 <= k < |round| ==> WaitsFor(plans, at, round[k], round[Onward(k, |round|)])
  }

  ghost predicate CanDeadlock(plans: seq<seq<Lockable>>) {
    exists turns, round :: Deadlocked(plans, Play(plans, turns), round)
  }

  predicate Disjoint(held: seq<Lockable>, others: seq<Lockable>) {
    forall r :: r in held ==> r !in others
  }

  /** No two transactions hold the same row. */
  predicate Apart(plans: seq<seq<Lockable>>, at: seq<nat>)
    requires Fits(plans, at)
  {
    forall i, j :: 0 <= i < |plans| && 0 <= j < |plans| && i != j ==> Disjoint(Has(plans, at, i), Has(plans, at, j))
  }

  lemma HasOneMore(plans: seq<seq<Lockable>>, at: seq<nat>, i: nat)
    requires Fits(plans, at) && i < |plans| && at[i] < |plans[i]|
    ensures Fits(plans, at[i := at[i] + 1])
    ensures Has(plans, at[i := at[i] + 1], i) == Has(plans, at, i) + [plans[i][at[i]]]
    ensures forall j :: 0 <= j < |plans| && j != i ==> Has(plans, at[i := at[i] + 1], j) == Has(plans, at, j)
  {
  }

  lemma OneMoreApart(plans: seq<seq<Lockable>>, at: seq<nat>, i: nat)
    requires Fits(plans, at) && Apart(plans, at) && i < |plans| && at[i] < |plans[i]|
    requires Free(plans, at, i, plans[i][at[i]])
    ensures Fits(plans, at[i := at[i] + 1]) && Apart(plans, at[i := at[i] + 1])
  {
    var more := at[i := at[i] + 1];
    HasOneMore(plans, at, i);
    forall a, b | 0 <= a < |plans| && 0 <= b < |plans| && a != b
      ensures Disjoint(Has(plans, more, a), Has(plans, more, b))
    {
      assert Disjoint(Has(plans, at, a), Has(plans, at, b));
      assert a == i ==> plans[i][at[i]] !in Has(plans, at, b);
      assert b == i ==> plans[i][at[i]] !in Has(plans, at, a);
    }
  }

  lemma TurnKeepsApart(plans: seq<seq<Lockable>>, at: seq<nat>, i: nat)
    requires Fits(plans, at) && Apart(plans, at)
    ensures Fits(plans, Turn(plans, at, i)) && Apart(plans, Turn(plans, at, i))
  {
    TurnFits(plans, at, i);
    if i < |plans| && at[i] < |plans[i]| && Free(plans, at, i, plans[i][at[i]]) {
      OneMoreApart(plans, at, i);
    }
  }

  lemma {:induction false} PlayKeepsApart(plans: seq<seq<Lockable>>, turns: seq<nat>)
    ensures Apart(plans, Play(plans, turns))
  {
    if turns != [] {
      PlayKeepsApart(plans, turns[..|turns| - 1]);
      TurnKeepsApart(plans, Play(plans, turns[..|turns| - 1]), turns[|turns| - 1]);
    }
  }

  function Count(at: seq<nat>): nat {
    if at == [] then 0 else Count(at[..|at| - 1]) + at[|at| - 1]
  }

  lemma {:induction false} CountLess(at: seq<nat>, i: nat)
    requires i < |at| && 0 < at[i]
    ensures Count(at[i := at[i] - 1]) == Count(at) - 1
  {
    var n := |at| - 1;
    var less := at[i := at[i] - 1];
    if i < n {
      CountLess(at[..n], i);
      assert less[..n] == at[..n][i := at[i] - 1];
    } else {
      assert less[..n] == at[..n];
    }
  }

  lemma FewerApart(plans: seq<seq<Lockable>>, at: seq<nat>, i: nat)
    requires Fits(plans, at) && Apart(plans, at) && i < |plans| && 0 < at[i]
    ensures var less := at[i := at[i] - 1];
            Fits(plans, less) && Apart(plans, less) && Turn(plans, less, i) == at
  {
    var less := at[i := at[i] - 1];
    var row := plans[i][less[i]];
    HasOneMore(plans, less, i);
    assert less[i := less[i] + 1] == at;
    assert row in Has(plans, at, i);
    forall a, b | 0 <= a < |plans| && 0 <= b < |plans| && a != b
      ensures Disjoint(Has(plans, less, a), Has(plans, less, b))
    {
      assert Disjoint(Has(plans, at, a), Has(plans, at, b));
    }
    forall j | 0 <= j < |plans| && j != i ensures row !in Has(plans, less, j) {
      assert Disjoint(Has(plans, at, i), Has(plans, at, j));
    }
  }

  /** Any disjoint beginnings of the plans can be locked. */
  lemma {:induction false} Arrives(plans: seq<seq<Lockable>>, at: seq<nat>) returns (turns: seq<nat>)
    requires Fits(plans, at) && Apart(plans, at)
    ensures Play(plans, turns) == at
    decreases Count(at)
  {
    if i :| 0 <= i < |at| && 0 < at[i] {
      CountLess(at, i);
      FewerApart(plans, at, i);
      var before := Arrives(plans, at[i := at[i] - 1]);
      turns := before + [i];
      assert turns[..|turns| - 1] == before;
    } else {
      turns := [];
      assert at == Start(plans);
    }
  }

  /** Transactions with fixed plans can deadlock if and only if some disjoint beginnings of the plans leave
      a round of them each wanting a row that the next one has. */
  lemma CanDeadlockIff(plans: seq<seq<Lockable>>)
    ensures CanDeadlock(plans) <==>
            exists at, round :: Fits(plans, at) && Apart(plans, at) && Deadlocked(plans, at, round)
  {
    if CanDeadlock(plans) {
      var turns, round :| Deadlocked(plans, Play(plans, turns), round);
      PlayKeepsApart(plans, turns);
    }
    if at, round :| Fits(plans, at) && Apart(plans, at) && Deadlocked(plans, at, round) {
      var turns := Arrives(plans, at);
    }
  }

  // ---- Plans in one order ---------------------------------------------------------------

  predicate Ascending(plan: seq<Lockable>) {
    forall i, j :: 0 <= i < j < |plan| ==> Before(plan[i], plan[j])
  }

  function Wanted(plans: seq<seq<Lockable>>, at: seq<nat>, i: nat): Lockable
    requires Fits(plans, at) && i < |plans| && at[i] < |plans[i]|
  {
    plans[i][at[i]]
  }

  lemma WantsRise(plans: seq<seq<Lockable>>, at: seq<nat>, round: seq<nat>, k: nat)
    requires Fits(plans, at) && Deadlocked(plans, at, round) && k < |round|
    requires forall i :: 0 <= i < |plans| ==> Ascending(plans[i])
    ensures WaitsFor(plans, at, round[0], round[Onward(0, |round|)])
            && WaitsFor(plans, at, round[k], round[Onward(k, |round|)])
    ensures k > 0 ==> Before(Wanted(plans, at, round[0]), Wanted(plans, at, round[k]))
    decreases k
  {
    if k > 0 {
      WantsRise(plans, at, round, k - 1);
      assert WaitsFor(plans, at, round[k - 1], round[k]);
      assert WaitsFor(plans, at, round[k], round[Onward(k, |round|)]);
      HeldBeforeWanted(plans, at, round[k], Wanted(plans, at, round[k - 1]));
    }
  }

  lemma HeldBeforeWanted(plans: seq<seq<Lockable>>, at: seq<nat>, i: nat, row: Lockable)
    requires Fits(plans, at) && i < |plans| && Ascending(plans[i]) && at[i] < |plans[i]| && row in Has(plans, at, i)
    ensures Before(row, Wanted(plans, at, i))
  {
  }

  /** However many transactions there are, plans in one common order never deadlock. */
  lemma AscendingNeverDeadlock(plans: seq<seq<Lockable>>)
    requires forall i :: 0 <= i < |plans| ==> Ascending(plans[i])
    ensures !CanDeadlock(plans)
  {
    forall turns, round ensures !Deadlocked(plans, Play(plans, turns), round) {
      var at := Play(plans, turns);
      if Deadlocked(plans, at, round) {
        var last := |round| - 1;
        WantsRise(plans, at, round, last);
        assert WaitsFor(plans, at, round[last], round[0]);
        HeldBeforeWanted(plans, at, round[0], Wanted(plans, at, round[last]));
        assert false;
      }
    }
  }
}
